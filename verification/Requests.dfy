/** What runs make of the text of their requests: names, sensitive keys, reasons. */
module Requests {
  import opened Text
  import opened Model
  import opened Tables
  import opened Workflow
  import opened Invariant
  import opened Transitions
  import opened Runs
  import opened Interleaving
  import opened Everywhere
  import opened Admission
  import opened Drafts
  import opened Verdicts
  import opened Guarantees

  // ----- names -----

  /** In every run, no stored environment, service or key has a capital letter, and no stored name starts or ends with
      white space. */
  lemma StoredNamesAreTidy(actions: seq<Action>, id: string)
    requires id in After(actions).entries
    ensures var scope := After(actions).entries[id].scope;
      && Plain(scope.environment) && Plain(scope.service) && Plain(scope.key)
      && Trimmed(scope.tenant) && Trimmed(scope.application)
  {
    hide Execute, Plain, Trimmed, LogConforms;
    AlwaysConforms(actions);
  }

  /** In every run, a committed draft was well formed, and the entry answers to the sent name without outer blanks, in
      lower case where names are folded, with the sent value, rollout and reference. A tidy name is stored as sent. */
  lemma DraftsAreStoredAsSent(actions: seq<Action>, i: nat)
    requires i < |WorldAfter(actions).log| && WorldAfter(actions).log[i].op.req.PutDraft?
    ensures var c := WorldAfter(actions).log[i]; var sent := c.op.req.value;
      && WellFormed(sent) && StoredAs(sent.scope, c.reply.scope) && ContentStoredAs(sent.content, c.reply.content)
      && (Tidy(sent.scope) ==> c.reply.scope == sent.scope)
  {
    hide Execute, Allowed, Normalize, Acceptable, WellFormed, StoredAs, ContentStoredAs, Tidy;
    LoggedConforms(actions, i);
    var c := WorldAfter(actions).log[i];
    AcceptableExactly(c.op.req.value);
    NormalizeExactly(c.op.req.value, c.reply.scope, c.reply.content);
    if Tidy(c.op.req.value.scope) { TidyIsStoredAsSent(c.op.req.value.scope, c.reply.scope); }
  }

  // ----- sensitive keys -----

  /** In every run, a draft whose key mentions a secret, in any case, committed only with a reference and no value. */
  lemma SensitiveDraftsUseReferences(actions: seq<Action>, i: nat)
    requires i < |WorldAfter(actions).log| && WorldAfter(actions).log[i].op.req.PutDraft?
    requires Sensitive(WorldAfter(actions).log[i].op.req.value.scope.key)
    ensures var c := WorldAfter(actions).log[i]; var sent := c.op.req.value.content;
      !Blank(sent.secretRef) && sent.value == [] && c.reply.content.value == [] && c.reply.content.secretRef != ""
  {
    hide Execute, StoredAs, Tidy, Blank, Sensitive, Strips;
    DraftsAreStoredAsSent(actions, i);
    var c := WorldAfter(actions).log[i];
    StripsToNothing(c.op.req.value.content.secretRef, c.reply.content.secretRef);
  }

  /** A stored key that mentions a secret is a sensitive one. */
  lemma StoredSensitive(key: string)
    requires Plain(key) && Sensitive(key)
    ensures SensitiveKey(key)
  {
    hide Plain, Sensitive, SensitiveKey, Fold, Folds;
    PlainFolds(key, key);
    FoldExactly(key, key);
    SensitiveExactly(key);
  }

  predicate OnlyReference(c: Content) {
    c.value == [] && c.secretRef != ""
  }

  /** In every run, no value is ever kept under a key that mentions a secret: not in an entry, not in a snapshot, not in
      an event. */
  lemma NoSecretIsStored(actions: seq<Action>, id: string)
    requires id in After(actions).entries && Sensitive(After(actions).entries[id].scope.key)
    ensures var db := After(actions);
      && OnlyReference(db.entries[id].content)
      && (forall r: int :: (id, r) in db.revisions ==> OnlyReference(db.revisions[(id, r)].content))
      && (forall i :: 0 <= i < |db.outbox| && db.outbox[i].entry.id == id ==> OnlyReference(db.outbox[i].entry.content))
  {
    hide Execute, Plain, Sensitive, SensitiveKey, Constraints, Backed, SnapshotBacked;
    var db := After(actions);
    var key := db.entries[id].scope.key;
    StoredNamesAreTidy(actions, id);
    StoredSensitive(key);
    ContentIsDisciplined(actions);
    AnyIsGrounded(actions);
    forall r: int | (id, r) in db.revisions ensures OnlyReference(db.revisions[(id, r)].content) {
      var k := (id, r);
      assert Disciplined(db.entries[k.0].scope.key, db.revisions[k].content);
    }
    forall i | 0 <= i < |db.outbox| && db.outbox[i].entry.id == id ensures OnlyReference(db.outbox[i].entry.content) {
      assert EventOk(db, db.outbox[i]);
    }
  }

  // ----- reasons -----

  /** In every run, a committed review carries its caller and the sent comment without outer blanks, and a committed
      rejection gave a reason. */
  lemma ReviewsKeepTheComment(actions: seq<Action>, i: nat)
    requires i < |WorldAfter(actions).log|
    requires WorldAfter(actions).log[i].op.req.Approve? || WorldAfter(actions).log[i].op.req.Reject?
    ensures var c := WorldAfter(actions).log[i];
      && c.op.ctx.caller.Some? && c.reply.review.reviewedBy == c.op.ctx.caller.value.id
      && Strips(c.op.req.comment, c.reply.review.comment)
      && (c.op.req.Reject? ==> !Blank(c.op.req.comment))
  {
    hide Execute, Authorize, Normalize, Acceptable, TrimSpace, Strips, Blank, Tidy, AccessGranted, InOwnTenant;
    LoggedConforms(actions, i);
    CommitsArePermitted(actions, i);
    var c := WorldAfter(actions).log[i];
    TrimSpaceExactly(c.op.req.comment, c.reply.review.comment);
  }

  /** The state a rejection meets: a pending entry, the token, and a permitted caller other than the submitter. */
  ghost predicate Rejectable(db: Db, id: string, expected: int, ctx: Context) {
    && id in db.entries && db.entries[id].status == PendingApproval && db.entries[id].version == expected
    && Permitted(ctx, db.entries[id].scope.tenant, db.entries[id].scope.application)
    && ctx.caller.value.id != db.entries[id].updatedBy
  }

  lemma PermittedIsNotRefused(ctx: Context, tenant: string, application: string)
    requires Permitted(ctx, tenant, application)
    ensures Refusal(ctx, tenant, application).None?
  {
    hide InOwnTenant, AccessGranted;
  }

  lemma RejectionAnswer(db: Db, id: string, expected: int, ctx: Context, reason: string)
    ensures var r := Step(db, Op(Reject(id, expected, reason), ctx, {})).reply;
      r.Ok? ==> Strips(reason, r.value.review.comment)
  {
    hide Within, Authorize, TrimSpace, Strips;
    TrimSpaceStrips(reason);
  }

  /** In every run, a rejection of a pending entry that is otherwise in order is refused, as invalid, if and only if
      every character of its reason is white space, and otherwise stores the reason without its outer blanks. */
  lemma RejectionTurnsOnTheReason(actions: seq<Action>, id: string, expected: int, ctx: Context, reason: string)
    requires Rejectable(After(actions), id, expected, ctx)
    ensures var r := Step(After(actions), Op(Reject(id, expected, reason), ctx, {})).reply;
      && (r.Ok? <==> exists i :: 0 <= i < |reason| && !IsSpace(reason[i]))
      && (r.Err? ==> r == Err(Invalid))
      && (r.Ok? ==> Strips(reason, r.value.review.comment))
  {
    hide Execute, Step, Permitted, IsSpace, Refusal, Constraints, Strips;
    RejectionAnswer(After(actions), id, expected, ctx, reason);
    var db := After(actions);
    AnyIsConstrained(actions);
    AlwaysPendingOk(actions);
    assert PendingOk(db, id);
    PermittedIsNotRefused(ctx, db.entries[id].scope.tenant, db.entries[id].scope.application);
    StepIsDecided(db, Op(Reject(id, expected, reason), ctx, {}));
  }

  // ----- answers -----

  /** In every run, whatever request comes next, with whatever faults in its way, the error it is answered with is the
      one its verdict names; it succeeds when there is none. */
  lemma EveryRequestIsDecided(actions: seq<Action>, op: Op)
    ensures Answers(Step(After(actions), op).reply, Verdict(After(actions), op))
  {
    hide Execute, Step, Verdict, Answers, Constraints;
    AnyIsConstrained(actions);
    StepIsDecided(After(actions), op);
  }
}
