/** Which drafts are accepted and under which name they are stored, in terms of the text that was sent. */
module Drafts {
  import opened Text
  import opened Model
  import opened Workflow

  // ----- sensitive keys -----

  /** The key mentions a secret of some kind, in any case. */
  predicate Sensitive(key: string) {
    || Mentions(key, "password") || Mentions(key, "secret") || Mentions(key, "token")
    || Mentions(key, "private_key") || Mentions(key, "api_key")
  }

  lemma PartsAreSolid()
    ensures Solid("password") && Solid("secret") && Solid("token") && Solid("private_key") && Solid("api_key")
  {
  }

  lemma SensitiveParts(key: string)
    ensures SensitiveKey(key) <==>
      || Contains(key, "password") || Contains(key, "secret") || Contains(key, "token")
      || Contains(key, "private_key") || Contains(key, "api_key")
  {
    hide Contains;
    assert SENSITIVE_PARTS[0] == "password" && SENSITIVE_PARTS[1] == "secret" && SENSITIVE_PARTS[2] == "token"
        && SENSITIVE_PARTS[3] == "private_key" && SENSITIVE_PARTS[4] == "api_key";
  }

  /** The folded key is sensitive exactly when the sent one mentions a part in any case. */
  lemma SensitiveExactly(key: string)
    ensures SensitiveKey(Fold(key)) <==> Sensitive(key)
  {
    hide Contains, Mentions, Fold, SensitiveKey, Solid;
    PartsAreSolid();
    SensitiveParts(Fold(key));
    FoldMentions(key, "password");
    FoldMentions(key, "secret");
    FoldMentions(key, "token");
    FoldMentions(key, "private_key");
    FoldMentions(key, "api_key");
  }

  // ----- acceptance -----

  /** A draft worth storing. */
  predicate WellFormed(v: Entry) {
    && !Blank(v.scope.environment) && !Blank(v.scope.service) && !Blank(v.scope.key)
    && (Blank(v.scope.tenant) ==> Blank(v.scope.application))
    && 0 <= v.content.rollout <= 100
    && (v.content.value == [] <==> !Blank(v.content.secretRef))
    && (Sensitive(v.scope.key) ==> !Blank(v.content.secretRef))
  }

  /** The checks on the normalised draft accept exactly the well-formed ones. */
  lemma AcceptableExactly(v: Entry)
    ensures Acceptable(Normalize(v)) <==> WellFormed(v)
  {
    hide Fold, TrimSpace, Blank, Plain, SensitiveKey, Sensitive;
    FoldIsPlain(v.scope.environment);
    FoldIsPlain(v.scope.service);
    FoldIsPlain(v.scope.key);
    TrimSpaceExactly(v.scope.tenant, "");
    TrimSpaceExactly(v.scope.application, "");
    TrimSpaceExactly(v.content.secretRef, "");
    SensitiveExactly(v.scope.key);
  }

  // ----- names -----

  /** Environment, service and key lose their outer blanks and their capitals, tenant and application their outer
      blanks. */
  ghost predicate StoredAs(sent: Scope, stored: Scope) {
    && Folds(sent.environment, stored.environment) && Folds(sent.service, stored.service)
    && Folds(sent.key, stored.key)
    && Strips(sent.tenant, stored.tenant) && Strips(sent.application, stored.application)
  }

  /** A scope as it is stored: no capitals and no outer blanks where folded, no outer blanks elsewhere. */
  predicate Tidy(scope: Scope) {
    && Plain(scope.environment) && Plain(scope.service) && Plain(scope.key)
    && Trimmed(scope.tenant) && Trimmed(scope.application)
  }

  /** What is stored of a sent content: the same value and rollout, and the reference without its outer blanks. */
  ghost predicate ContentStoredAs(sent: Content, stored: Content) {
    stored.value == sent.value && stored.rollout == sent.rollout && Strips(sent.secretRef, stored.secretRef)
  }

  /** Normalising gives exactly the stored name and content, and is tidy. */
  lemma NormalizeExactly(v: Entry, scope: Scope, content: Content)
    ensures StoredAs(v.scope, scope) <==> scope == Normalize(v).scope
    ensures ContentStoredAs(v.content, content) <==> content == Normalize(v).content
    ensures Tidy(Normalize(v).scope)
  {
    hide Fold, TrimSpace, Strips, Folds, Plain, Trimmed;
    FoldExactly(v.scope.environment, scope.environment);
    FoldExactly(v.scope.service, scope.service);
    FoldExactly(v.scope.key, scope.key);
    TrimSpaceExactly(v.scope.tenant, scope.tenant);
    TrimSpaceExactly(v.scope.application, scope.application);
    TrimSpaceExactly(v.content.secretRef, content.secretRef);
    FoldIsPlain(v.scope.environment);
    FoldIsPlain(v.scope.service);
    FoldIsPlain(v.scope.key);
    TrimSpaceTrims(v.scope.tenant);
    TrimSpaceTrims(v.scope.application);
  }

  /** A tidy name is stored as sent. */
  lemma TidyIsStoredAsSent(sent: Scope, stored: Scope)
    requires Tidy(sent)
    ensures StoredAs(sent, stored) <==> stored == sent
  {
    hide Strips, Folds, Plain, Trimmed;
    PlainFolds(sent.environment, stored.environment);
    PlainFolds(sent.service, stored.service);
    PlainFolds(sent.key, stored.key);
    TrimmedStrips(sent.tenant, stored.tenant);
    TrimmedStrips(sent.application, stored.application);
  }
}
