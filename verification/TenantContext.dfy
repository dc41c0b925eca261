/**
 * The two objects with a flag in them: the request's principal, and a transaction's guarded session.
 */
module TenantContext {
  import opened Options
  import opened TenantTx

  /** The ambient principal of one request. */
  class RequestContext {
    var minted: Option<Principal>

    constructor ()
      ensures minted == None
    {
      minted := None;
    }

    /** Mint once: a second call throws and changes nothing. */
    method Set(p: Principal) returns (ok: bool)
      modifies this
      ensures ok == old(minted).None?
      ensures minted == if old(minted).None? then Some(p) else old(minted)
    {
      ok := minted.None?;
      if ok {
        minted := Some(p);
      }
    }

    /** The tenant to query as, or the refusal of a request nobody was minted for. */
    function TenantId(): (t: Option<nat>)
      reads this
      ensures t.Some? <==> minted.Some?
    {
      if minted.None? then None else Some(minted.value.tenant)
    }
  }

  /** What `run` decides before it calls its callback. */
  datatype Door = NoPrincipal | Opens(settings: Settings) | Joins | SettledAlready | OtherTenant | OtherScope

  /** A transaction's session: the settings it was opened with, its flag, and what it has issued. */
  class GuardedSession {
    const settings: Settings
    var alive: bool
    var issued: seq<string>

    constructor (p: Principal)
      ensures settings == SettingsFor(p) && alive && issued == []
      ensures settings == Settings(p.tenant, if p.User? && p.role == Staff then Assigned(p.userId) else All)
    {
      settings, alive, issued := SettingsFor(p), true, [];
    }

    /** Every statement goes through here when it is awaited. */
    method PrepareQuery(text: string) returns (ok: bool)
      modifies this`issued
      ensures ok == Passes(alive, text)
      ensures issued == if ok then old(issued) + [text] else old(issued)
    {
      ok := alive || IsTransactionControl(text);
      if ok {
        issued := issued + [text];
      }
    }

    /** Statements issued one after another; a dead session lets only transaction control through. */
    method PrepareAll(texts: seq<string>)
      modifies this`issued
      ensures |old(issued)| <= |issued| && issued[..|old(issued)|] == old(issued)
      ensures alive ==> issued == old(issued) + texts
      ensures !alive ==> forall i | |old(issued)| <= i < |issued| :: IsTransactionControl(issued[i])
    {
      for i := 0 to |texts|
        invariant |old(issued)| <= |issued| && issued[..|old(issued)|] == old(issued)
        invariant alive ==> issued == old(issued) + texts[..i]
        invariant !alive ==> forall j | |old(issued)| <= j < |issued| :: IsTransactionControl(issued[j])
      {
        var _ := PrepareQuery(texts[i]);
      }
    }

    /** The callback returned. */
    method Settle()
      modifies this`alive
      ensures !alive
    {
      alive := false;
    }
  }

  /** `run`, up to its callback: open, join, or refuse. */
  method Enter(context: RequestContext, joined: GuardedSession?) returns (door: Door)
    ensures door.NoPrincipal? <==> context.minted.None?
    ensures door.Opens? <==> context.minted.Some? && joined == null
    ensures door.Opens? ==> door.settings == SettingsFor(context.minted.value)
    ensures door.Opens? ==>
              var p := context.minted.value;
              && door.settings.tenant == p.tenant
              && (p.User? && p.role == Staff ==> door.settings.scope == Assigned(p.userId))
              && (p.Visitor? || p.role == Owner ==> door.settings.scope == All)
    ensures door.Joins? ==>
              var p := context.minted.value;
              && joined.settings.tenant == p.tenant
              && (p.User? && p.role == Staff ==> joined.settings.scope == Assigned(p.userId))
              && (p.Visitor? || p.role == Owner ==> joined.settings.scope == All)
    ensures door.SettledAlready? <==> context.minted.Some? && joined != null && !joined.alive
    ensures door.OtherTenant? <==>
              && context.minted.Some? && joined != null && joined.alive
              && joined.settings.tenant != context.minted.value.tenant
    ensures door.OtherScope? <==>
              && context.minted.Some? && joined != null && joined.alive
              && joined.settings.tenant == context.minted.value.tenant
              && joined.settings.scope != (var p := context.minted.value;
                                           if p.User? && p.role == Staff then Assigned(p.userId) else All)
    ensures door.Joins? <==>
              && context.minted.Some? && joined != null && joined.alive
              && joined.settings == SettingsFor(context.minted.value)
  {
    if context.TenantId().None? {
      return NoPrincipal;
    }
    var p := context.minted.value;
    if joined == null {
      return Opens(SettingsFor(p));
    }
    if !joined.alive {
      return SettledAlready;
    }
    if joined.settings.tenant != p.tenant {
      return OtherTenant;
    }
    if joined.settings.scope != ScopeFor(p) {
      return OtherScope;
    }
    return Joins;
  }
}
