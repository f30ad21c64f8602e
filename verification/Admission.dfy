/** Who may act on a tenant and an application, and who is refused with which error, in terms of the text of the
    request alone. */
module Admission {
  import opened Text
  import opened Model

  /** A user principal belongs to one tenant, named without outer blanks by its credentials; other principals are
      not tied to any. */
  ghost predicate InOwnTenant(p: Principal, tenant: string) {
    p.isUser ==> !Blank(p.tenant) && Strips(tenant, p.tenant)
  }

  /** An application may be touched only within a tenant and with a grant; without one nobody is asked. */
  predicate AccessGranted(access: Access, tenant: string, application: string) {
    Blank(application) || (!Blank(tenant) && access == Granted)
  }

  ghost predicate Permitted(ctx: Context, tenant: string, application: string) {
    && ctx.caller.Some? && InOwnTenant(ctx.caller.value, tenant) && AccessGranted(ctx.access, tenant, application)
  }

  /** Why a caller is turned away, the first reason that applies. */
  ghost function Refusal(ctx: Context, tenant: string, application: string): Option<AppError> {
    if ctx.caller.None? then Some(Unauthorized)
    else if !InOwnTenant(ctx.caller.value, tenant) then Some(Forbidden)
    else if AccessGranted(ctx.access, tenant, application) then None
    else if Blank(tenant) then Some(Invalid)
    else if ctx.access == NotGranted then Some(Forbidden)
    else Some(Unavailable)
  }

  lemma TenantExactly(p: Principal, tenant: string)
    ensures TenantAllowed(p, tenant) <==> InOwnTenant(p, tenant)
  {
    hide TrimSpace, Strips, Blank;
    TrimSpaceExactly(p.tenant, "");
    TrimSpaceExactly(tenant, p.tenant);
  }

  /** The checks in front of every operation let through exactly the permitted callers, as themselves, and turn the
      others away for the first reason that applies. */
  lemma AuthorizeExactly(ctx: Context, tenant: string, application: string)
    ensures Authorize(ctx, tenant, application) ==
      match Refusal(ctx, tenant, application)
      case Some(e) => Err(e)
      case None => Ok(ctx.caller.value.id)
    ensures Authorize(ctx, tenant, application).Ok? <==> Permitted(ctx, tenant, application)
  {
    hide TrimSpace, Blank, TenantAllowed, InOwnTenant;
    TrimSpaceExactly(tenant, "");
    TrimSpaceExactly(application, "");
    if ctx.caller.Some? { TenantExactly(ctx.caller.value, tenant); }
  }

  /** Outer blanks of tenant and application play no part. */
  lemma RefusalIgnoresBlanks(ctx: Context, tenant: string, application: string)
    ensures Refusal(ctx, TrimSpace(tenant), TrimSpace(application)) == Refusal(ctx, tenant, application)
  {
    hide TrimSpace, Blank, Strips;
    BlankIgnoresBlanks(tenant);
    BlankIgnoresBlanks(application);
    if ctx.caller.Some? {
      TrimSpaceTrims(tenant);
      TrimmedStrips(TrimSpace(tenant), ctx.caller.value.tenant);
      TrimSpaceExactly(tenant, ctx.caller.value.tenant);
    }
  }

  lemma BlankIgnoresBlanks(s: string)
    ensures Blank(TrimSpace(s)) <==> Blank(s)
  {
    hide TrimSpace;
    TrimSpaceTrims(s);
    TrimSpaceExactly(s, "");
  }
}
