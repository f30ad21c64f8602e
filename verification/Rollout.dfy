/** Percentage rollout: which subjects a revision reaches, and how many buckets that is. */
module Rollout {
  import opened Text

  /** The two leading bytes of the digest give a bucket below this. */
  const BUCKETS := 65536

  /** What is hashed for a subject, key and revision. */
  function BucketInput(subject: string, key: string, revision: int): string {
    subject + "\0" + key + Print(revision)
  }

  /** `bucket` stands for the leading two bytes of the SHA-256 digest of its argument. */
  predicate RolloutHit(bucket: string -> nat, subject: string, key: string, revision: int, percentage: int) {
    if percentage >= 100 then true
    else if percentage <= 0 || subject == "" then false
    else bucket(BucketInput(subject, key, revision)) % 100 < percentage
  }

  /** The shortcuts at both ends agree with the buckets: a subject is in exactly when its bucket
      is below the percentage. */
  lemma HitIsByBucket(bucket: string -> nat, subject: string, key: string, revision: int, percentage: int)
    requires subject != "" && 0 <= percentage <= 100
    ensures RolloutHit(bucket, subject, key, revision, percentage)
      <==> bucket(BucketInput(subject, key, revision)) % 100 < percentage
  {
  }

  /** Raising the percentage of a revision never takes a subject out. */
  lemma HitsAreMonotone(bucket: string -> nat, subject: string, key: string, revision: int, p: int, q: int)
    requires p <= q && RolloutHit(bucket, subject, key, revision, p)
    ensures RolloutHit(bucket, subject, key, revision, q)
  {
  }

  /** The hashed text shows whom and what it is for: the subject up to a zero character, then the key, and the revision
      behind it. */
  lemma BucketInputReads(subject: string, key: string, revision: nat)
    ensures var s := BucketInput(subject, key, revision); var n := |subject| + 1;
      && n + |key| < |s| && s[..n - 1] == subject && s[n - 1] == '\0'
      && s[n..n + |key|] == key && ParseDecimal(s[n + |key|..]) == revision
  {
    hide Decimal;
    DecimalRoundTrip(revision);
    var s, n := BucketInput(subject, key, revision), |subject| + 1;
    assert s == subject + "\0" + key + Decimal(revision);
    assert s[n + |key|..] == Decimal(revision);
    assert s[n..n + |key|] == key;
    assert s[..n - 1] == subject;
  }

  /** Every revision of a key is hashed anew, and so is every key of a revision. But the digits at the end of a key run
      into the revision: the same text is hashed for two keys exactly when key and revision read the same together. */
  lemma BucketsAreShared(subject: string, key: string, revision: nat, key': string, revision': nat)
    ensures BucketInput(subject, key, revision) == BucketInput(subject, key', revision')
      <==> key + Decimal(revision) == key' + Decimal(revision')
    ensures BucketInput(subject, key, revision) == BucketInput(subject, key', revision')
      ==> (key == key' <==> revision == revision')
  {
    hide Decimal;
    var a, b := key + Decimal(revision), key' + Decimal(revision');
    var head := subject + "\0";
    assert BucketInput(subject, key, revision) == head + a && BucketInput(subject, key', revision') == head + b;
    assert (head + a)[|head|..] == a && (head + b)[|head|..] == b;
    DecimalRoundTrip(revision);
    DecimalRoundTrip(revision');
    if a == b {
      if key == key' {
        assert a[|key|..] == Decimal(revision) && b[|key|..] == Decimal(revision');
      }
      if revision == revision' {
        assert a[..|key|] == key && b[..|key'|] == key';
      }
    }
  }

  /** For instance revision 2 of "a1" and revision 12 of "a". */
  lemma BucketCollision(subject: string)
    ensures BucketInput(subject, "a1", 2) == BucketInput(subject, "a", 12)
  {
    hide BucketInput;
    BucketsAreShared(subject, "a1", 2, "a", 12);
    assert Decimal(12) == Decimal(1) + Decimal(2);
  }

  /** The number of buckets below n that a percentage reaches. */
  function Reached(n: nat, p: int): nat {
    if n == 0 then 0 else Reached(n - 1, p) + if (n - 1) % 100 < p then 1 else 0
  }

  function Min(a: int, b: int): int {
    if a < b then a else b
  }

  lemma {:induction false} ReachedClosedForm(n: nat, p: int)
    requires 0 <= p <= 100
    ensures Reached(n, p) == n / 100 * p + Min(n % 100, p)
  {
    if n > 0 {
      ReachedClosedForm(n - 1, p);
      if n % 100 == 0 {
        assert n / 100 == (n - 1) / 100 + 1 && (n - 1) % 100 == 99;
        assert ((n - 1) / 100 + 1) * p == (n - 1) / 100 * p + p;
      } else {
        assert n / 100 == (n - 1) / 100 && (n - 1) % 100 == n % 100 - 1;
      }
    }
  }

  /** Exposure over all buckets: 655 per percentage point and at most 36 more, within 24 buckets of proportion. */
  lemma Exposure(p: int)
    requires 0 <= p <= 100
    ensures Reached(BUCKETS, p) == 655 * p + Min(p, 36)
    ensures -2400 < 100 * Reached(BUCKETS, p) - BUCKETS * p < 2400
  {
    ReachedClosedForm(BUCKETS, p);
  }
}
