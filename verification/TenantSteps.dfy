/**
 * The steps of the tenant-transaction machine, each said exactly: what lets it happen, and all that it changes.
 */
module TenantSteps {
  import opened Options
  import opened TenantTx

  /** The tenant, and the assigned properties exactly for staff. */
  function Rights(p: Principal): Settings {
    match p
    case User(id, tenant, Staff) => Settings(tenant, Assigned(id))
    case User(_, tenant, Owner) => Settings(tenant, All)
    case Visitor(tenant) => Settings(tenant, All)
  }

  /** A run takes its steps one after another. */
  lemma RunSteps(st: State, actions: seq<Action>, a: Action)
    ensures Run(st, []) == st
    ensures Run(st, actions + [a]) == Do(Run(st, actions), a)
  {
    hide Do;
    assert (actions + [a])[..|actions|] == actions;
  }

  /** A request gets one principal for good; work it starts acts for it, inside the transaction it was started in. */
  lemma RequestsExactly(st: State, c: nat, r: nat, p: Principal, child: nat)
    ensures Do(st, Mint(r, p)) == if r in st.principals then st else st.(principals := st.principals[r := p])
    ensures Do(st, Arrive(c, r)) ==
            if c in st.contexts then st else st.(contexts := st.contexts[c := Context(r, None)])
    ensures Do(st, Fork(c, child)) ==
            if c in st.contexts && child !in st.contexts then st.(contexts := st.contexts[child := st.contexts[c]])
            else st
    ensures Do(st, ActFor(c, r)) ==
            if c in st.contexts then st.(contexts := st.contexts[c := Context(r, st.contexts[c].active)]) else st
  {
  }

  /** `run` outside a transaction opens one on an idle connection exactly when its request has a principal. */
  lemma OpenExactly(st: State, c: nat, s: nat, conn: nat)
    ensures var can := && c in st.contexts && st.contexts[c].request in st.principals && st.contexts[c].active == None
                       && s !in st.sessions && (conn in st.conns ==> st.conns[conn].owner == None);
            && (!can ==> Do(st, Open(c, s, conn)) == st)
            && (can ==>
                  var r := st.contexts[c].request;
                  var p := st.principals[r];
                  var k := if conn in st.conns then st.conns[conn] else Conn(None, None, []);
                  Do(st, Open(c, s, conn)) ==
                  st.(sessions := st.sessions[s := Session(conn, r, p, Rights(p), true, Opening)],
                      conns := st.conns[conn := Conn(Some(s), k.settings, k.queue + [Begin(s), SetConfig(s)])]))
  {
  }

  /** The callback starts once the settings ran, inside the transaction, with a handle of its opener's. */
  lemma EnterExactly(st: State, s: nat, child: nat, h: nat)
    ensures var can := && s in st.sessions && child !in st.contexts && h !in st.handles
                       && st.sessions[s].phase == Opening
                       && (st.sessions[s].conn in st.conns ==> st.conns[st.sessions[s].conn].queue == []);
            && (!can ==> Do(st, Enter(s, child, h)) == st)
            && (can ==> Do(st, Enter(s, child, h)) ==
                        st.(sessions := st.sessions[s := st.sessions[s].(phase := Running)],
                            contexts := st.contexts[child := Context(st.sessions[s].request, Some(s))],
                            handles := st.handles[h := Handle(s, st.sessions[s].opener)]))
  {
  }

  /** `run` inside a transaction joins it exactly while it is live and has the caller's own tenant and scope. */
  lemma JoinExactly(st: State, c: nat, h: nat)
    ensures var can := && c in st.contexts && st.contexts[c].request in st.principals && h !in st.handles
                       && st.contexts[c].active.Some? && st.contexts[c].active.value in st.sessions
                       && st.sessions[st.contexts[c].active.value].alive
                       && st.sessions[st.contexts[c].active.value].settings
                          == Rights(st.principals[st.contexts[c].request]);
            && (!can ==> Do(st, Join(c, h)) == st)
            && (can ==> Do(st, Join(c, h)) ==
                        st.(handles := st.handles[h := Handle(st.contexts[c].active.value,
                                                              st.principals[st.contexts[c].request])]))
  {
  }

  /** A query is of its handle's transaction and principal, and is issued to that transaction's connection. */
  lemma QueriesExactly(st: State, h: nat, q: nat, text: string, ends: bool)
    ensures Do(st, Build(h, q, text, ends)) ==
            if h in st.handles && q !in st.queries
            then st.(queries := st.queries[q := Query(st.handles[h].session, st.handles[h].builder, text, ends)])
            else st
    ensures Do(st, Issue(q)) ==
            if && q in st.queries && st.queries[q].session in st.sessions
               && (st.sessions[st.queries[q].session].alive || IsTransactionControl(st.queries[q].text))
            then Queued(st, st.sessions[st.queries[q].session].conn, Data(st.queries[q]))
            else st
  {
    hide IsTransactionControl;
  }

  /** One more statement at the end of a connection's queue. */
  function Queued(st: State, c: nat, stmt: Stmt): State {
    var k := if c in st.conns then st.conns[c] else Conn(None, None, []);
    st.(conns := st.conns[c := Conn(k.owner, k.settings, k.queue + [stmt])])
  }

  /** The flag falls when the callback is over, then the driver closes, then the connection goes back. */
  lemma EndsExactly(st: State, s: nat)
    ensures Do(st, Settle(s)) ==
            if s in st.sessions && st.sessions[s].phase == Running
            then st.(sessions := st.sessions[s := st.sessions[s].(alive := false, phase := Settled)])
            else st
    ensures Do(st, Close(s)) ==
            if s in st.sessions && (st.sessions[s].phase == Settled || st.sessions[s].phase == Closed)
            then Queued(st.(sessions := st.sessions[s := st.sessions[s].(phase := Closing)]), st.sessions[s].conn,
                        Control(s))
            else st
    ensures Do(st, Release(s)) ==
            if s in st.sessions && st.sessions[s].phase == Closed
            then
              var c := st.sessions[s].conn;
              var k := if c in st.conns then st.conns[c] else Conn(None, None, []);
              st.(sessions := st.sessions[s := st.sessions[s].(phase := Released)],
                  conns := st.conns[c := Conn(None, k.settings, k.queue)])
            else st
  {
  }

  /** A data statement leaves the queue; it is logged with the connection's settings of that moment if it ran. */
  lemma DataExactly(st: State, c: nat, ok: bool)
    requires c in st.conns && st.conns[c].queue != [] && st.conns[c].queue[0].Data?
    ensures var k, q := st.conns[c], st.conns[c].queue[0].query;
            var wrong := !ok || (IsTransactionControl(q.text) && !q.ends);
            Do(st, Execute(c, ok)) ==
            st.(conns := st.conns[c := Conn(k.owner, if !wrong && q.ends then None else k.settings, k.queue[1..])],
                log := if wrong || q.ends then st.log else st.log + [Ran(q, k.settings)])
  {
    hide IsTransactionControl;
  }

  /**
   * The driver's own statements: the settings go on with the second, all three or none; a failure of either leaves
   * the callback unstarted and the flag up; the closing statement takes the settings off, whatever it answers.
   */
  lemma DriverExactly(st: State, c: nat, ok: bool)
    requires c in st.conns && st.conns[c].queue != [] && !st.conns[c].queue[0].Data?
    requires st.conns[c].queue[0].session in st.sessions
    ensures var k, stmt := st.conns[c], st.conns[c].queue[0];
            var s, session := stmt.session, st.sessions[stmt.session];
            Do(st, Execute(c, ok)) ==
            if stmt.Control? then
              st.(sessions := st.sessions[s := session.(phase := Closed)],
                  conns := st.conns[c := Conn(k.owner, None, k.queue[1..])])
            else if !ok then
              st.(sessions := st.sessions[s := session.(phase := Settled)],
                  conns := st.conns[c := Conn(k.owner, k.settings, [])])
            else
              st.(conns := st.conns[c := Conn(k.owner, if stmt.SetConfig? then Some(session.settings) else k.settings,
                                              k.queue[1..])])
  {
  }
}
