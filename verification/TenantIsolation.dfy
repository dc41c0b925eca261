/**
 * Every data statement runs under the settings of the principal whose `run` built it, over all schedules.
 */
module TenantIsolation {
  import opened Options
  import opened TenantTx

  // ---- The invariant ----------------------------------------------------------------------------------

  predicate Harmless(q: Query) {
    !q.ends && !IsTransactionControl(q.text)
  }

  /** A queued data statement of session s whose builder the settings fit. */
  predicate Own(stmt: Stmt, s: nat, settings: Settings) {
    stmt.Data? && stmt.query.session == s && SettingsFor(stmt.query.builder) == settings && Harmless(stmt.query)
  }

  ghost predicate AllOwn(queue: seq<Stmt>, s: nat, settings: Settings) {
    forall i | 0 <= i < |queue| :: Own(queue[i], s, settings)
  }

  /** The connection a session holds is in the shape its phase says. */
  ghost predicate Shape(s: nat, session: Session, conn: Conn) {
    match session.phase
    case Opening =>
      && session.alive
      && ((conn.queue == [Begin(s), SetConfig(s)] && conn.settings == None)
          || (conn.queue == [SetConfig(s)] && conn.settings == None)
          || (conn.queue == [] && conn.settings == Some(session.settings)))
    case Running =>
      session.alive && AllOwn(conn.queue, s, session.settings) && conn.settings == Some(session.settings)
    case Settled =>
      AllOwn(conn.queue, s, session.settings) && (conn.queue != [] ==> conn.settings == Some(session.settings))
    case Closing =>
      && conn.queue != [] && conn.queue[|conn.queue| - 1] == Control(s)
      && AllOwn(conn.queue[..|conn.queue| - 1], s, session.settings)
      && (|conn.queue| > 1 ==> conn.settings == Some(session.settings))
    case Closed => conn.queue == [] && conn.settings == None
    case Released => true
  }

  ghost predicate SessionOk(st: State, s: nat)
    requires s in st.sessions
  {
    var session := st.sessions[s];
    && session.settings == SettingsFor(session.opener)
    && (session.phase != Released ==>
          ConnAt(st, session.conn).owner == Some(s) && Shape(s, session, ConnAt(st, session.conn)))
  }

  /** A pooled connection is clean; a checked-out one belongs to a session that is not finished with it. */
  ghost predicate ConnOk(st: State, c: nat) {
    match ConnAt(st, c).owner
    case None => ConnAt(st, c).queue == [] && ConnAt(st, c).settings == None
    case Some(s) => s in st.sessions && st.sessions[s].conn == c && st.sessions[s].phase != Released
  }

  ghost predicate Wired(st: State) {
    && (forall s | s in st.sessions :: SessionOk(st, s))
    && (forall c | c in st.conns :: ConnOk(st, c))
  }

  /** The callback of session s has started, and the flag says whether it still runs. */
  predicate Entered(st: State, s: nat) {
    s in st.sessions && st.sessions[s].phase != Opening && (st.sessions[s].alive ==> st.sessions[s].phase == Running)
  }

  predicate BuilderFits(st: State, s: nat, builder: Principal) {
    Entered(st, s) && SettingsFor(builder) == st.sessions[s].settings
  }

  ghost predicate Known(st: State) {
    && (forall c | c in st.contexts && st.contexts[c].active.Some? :: Entered(st, st.contexts[c].active.value))
    && (forall h | h in st.handles :: BuilderFits(st, st.handles[h].session, st.handles[h].builder))
    && (forall q | q in st.queries ::
          BuilderFits(st, st.queries[q].session, st.queries[q].builder) && Harmless(st.queries[q]))
  }

  /** Everything that ever executed did so under its builder's settings. */
  ghost predicate Isolated(log: seq<Ran>) {
    forall r | r in log :: r.under == Some(SettingsFor(r.query.builder))
  }

  ghost predicate Inv(st: State) {
    Wired(st) && Known(st) && Isolated(st.log)
  }

  // ---- Frames -----------------------------------------------------------------------------------------

  /** Only session s and connection c differ. */
  ghost predicate OnlyTouches(st: State, after: State, s: nat, c: nat) {
    && (forall t | t in st.sessions && t != s :: t in after.sessions && after.sessions[t] == st.sessions[t])
    && (forall t | t in after.sessions && t != s :: t in st.sessions)
    && (forall d | d in st.conns && d != c :: d in after.conns && after.conns[d] == st.conns[d])
    && (forall d | d in after.conns && d != c :: d in st.conns)
  }

  lemma OthersStayWired(st: State, after: State, s: nat, c: nat)
    requires Wired(st) && OnlyTouches(st, after, s, c)
    requires ConnAt(st, c).owner == None || ConnAt(st, c).owner == Some(s)
    requires s in st.sessions ==> s in after.sessions && (st.sessions[s].phase == Released || st.sessions[s].conn == c)
    requires s in after.sessions ==>
               SessionOk(after, s) && (after.sessions[s].phase == Released || after.sessions[s].conn == c)
    requires ConnOk(after, c)
    ensures Wired(after)
  {
    hide Shape;
    forall t | t in after.sessions && t != s
      ensures SessionOk(after, t)
    {
      assert SessionOk(st, t);
      var d := st.sessions[t].conn;
      assert d != c ==> ConnAt(after, d) == ConnAt(st, d);
    }
    forall d | d in after.conns && d != c
      ensures ConnOk(after, d)
    {
      assert ConnOk(st, d);
      assert ConnAt(after, d) == ConnAt(st, d);
    }
  }

  /** Sessions keep their settings, and once entered stay entered. */
  ghost predicate Onward(st: State, after: State) {
    forall s | s in st.sessions ::
      && s in after.sessions && after.sessions[s].settings == st.sessions[s].settings
      && (Entered(st, s) ==> Entered(after, s))
  }

  lemma KnownStays(st: State, after: State)
    requires Known(st) && Onward(st, after)
    requires after.contexts == st.contexts && after.handles == st.handles && after.queries == st.queries
    ensures Known(after)
  {
    forall h | h in after.handles
      ensures BuilderFits(after, after.handles[h].session, after.handles[h].builder)
    {
      assert BuilderFits(st, st.handles[h].session, st.handles[h].builder);
    }
    forall q | q in after.queries
      ensures BuilderFits(after, after.queries[q].session, after.queries[q].builder) && Harmless(after.queries[q])
    {
      assert BuilderFits(st, st.queries[q].session, st.queries[q].builder);
    }
  }

  // ---- How a connection's shape moves -----------------------------------------------------------------

  lemma ShapeCloses(s: nat, session: Session, conn: Conn)
    requires Shape(s, session, conn) && (session.phase == Settled || session.phase == Closed)
    ensures Shape(s, session.(phase := Closing), conn.(queue := conn.queue + [Control(s)]))
  {
    assert (conn.queue + [Control(s)])[..|conn.queue|] == conn.queue;
  }

  lemma ShapeIssues(s: nat, session: Session, conn: Conn, stmt: Stmt)
    requires Shape(s, session, conn) && session.phase == Running && Own(stmt, s, session.settings)
    ensures Shape(s, session, conn.(queue := conn.queue + [stmt]))
  {
  }

  /** A data statement at the head of the queue belongs there, and so does what follows. */
  lemma ShapeRunsData(s: nat, session: Session, conn: Conn)
    requires Shape(s, session, conn) && conn.queue != [] && conn.queue[0].Data? && session.phase != Released
    ensures Own(conn.queue[0], s, session.settings) && conn.settings == Some(session.settings)
    ensures Shape(s, session, conn.(queue := conn.queue[1..]))
  {
    hide Own;
    if session.phase == Closing {
      var n := |conn.queue| - 1;
      assert n > 0 && conn.queue[..n][0] == conn.queue[0];
      assert conn.queue[1..][..n - 1] == conn.queue[..n][1..];
    }
  }

  /** Anything else at the head is the setup of an opening session or the end of a closing one. */
  lemma ShapeHead(s: nat, session: Session, conn: Conn)
    requires Shape(s, session, conn) && conn.queue != [] && !conn.queue[0].Data? && session.phase != Released
    ensures || (session.phase == Opening && conn.queue == [Begin(s), SetConfig(s)])
            || (session.phase == Opening && conn.queue == [SetConfig(s)])
            || (session.phase == Closing && conn.queue == [Control(s)])
    ensures session.phase == Opening ==> conn.settings == None
  {
    if session.phase == Closing {
      var n := |conn.queue| - 1;
      assert n > 0 ==> conn.queue[..n][0] == conn.queue[0] && Own(conn.queue[..n][0], s, session.settings);
    }
  }

  // ---- Steps that touch the wiring --------------------------------------------------------------------

  /** A session moves on together with its connection. */
  lemma Advances(st: State, after: State, s: nat, session: Session, conn: Conn)
    requires Wired(st) && s in st.sessions && st.sessions[s].phase != Released
    requires session.conn == st.sessions[s].conn && session.opener == st.sessions[s].opener
    requires session.settings == st.sessions[s].settings && session.phase != Released
    requires conn.owner == Some(s) && Shape(s, session, conn)
    requires after.sessions == st.sessions[s := session] && after.conns == st.conns[session.conn := conn]
    ensures Wired(after)
  {
    hide Shape;
    assert SessionOk(st, s);
    assert SessionOk(after, s);
    assert ConnOk(after, session.conn);
    OthersStayWired(st, after, s, session.conn);
  }

  lemma OpenKeeps(st: State, c: nat, s: nat, conn: nat)
    requires Inv(st)
    ensures Inv(DoOpen(st, c, s, conn))
  {
    var after := DoOpen(st, c, s, conn);
    if after != st {
      var k := ConnAt(st, conn);
      assert ConnOk(st, conn);
      assert k.queue + [Begin(s), SetConfig(s)] == [Begin(s), SetConfig(s)];
      hide IsTransactionControl;
      assert SessionOk(after, s) && ConnOk(after, conn);
      hide Shape;
      OthersStayWired(st, after, s, conn);
      KnownStays(st, after);
    }
  }

  lemma EnterKeeps(st: State, s: nat, child: nat, h: nat)
    requires Inv(st)
    ensures Inv(DoEnter(st, s, child, h))
  {
    var after := DoEnter(st, s, child, h);
    if after != st {
      var session := st.sessions[s];
      assert SessionOk(st, s);
      var conn := ConnAt(st, session.conn);
      OpenedShape(s, session, conn);
      hide Shape, IsTransactionControl;
      assert after.conns == st.conns[session.conn := conn];
      Advances(st, after, s, session.(phase := Running), conn);
      hide Wired, SessionOk;
      var moved := SetPhase(st, s, Running);
      KnownStays(st, moved);
      EnteredKnown(moved, after, s, child, h);
    }
  }

  lemma OpenedShape(s: nat, session: Session, conn: Conn)
    requires Shape(s, session, conn) && session.phase == Opening && conn.queue == []
    ensures Shape(s, session.(phase := Running), conn)
  {
  }

  lemma EnteredKnown(st: State, after: State, s: nat, child: nat, h: nat)
    requires Known(st) && s in st.sessions && after.sessions == st.sessions && after.queries == st.queries
    requires child in after.contexts && after.contexts == st.contexts[child := after.contexts[child]]
    requires after.contexts[child].active == Some(s)
    requires after.handles == st.handles[h := Handle(s, st.sessions[s].opener)]
    requires BuilderFits(after, s, st.sessions[s].opener)
    ensures Known(after)
  {
    hide IsTransactionControl;
    assert forall t, p | BuilderFits(st, t, p) :: BuilderFits(after, t, p);
    assert forall t | Entered(st, t) :: Entered(after, t);
  }

  lemma WiredIgnoresRest(st: State, after: State)
    requires Wired(st) && after.sessions == st.sessions && after.conns == st.conns
    ensures Wired(after)
  {
    hide Shape;
    forall s | s in after.sessions
      ensures SessionOk(after, s)
    {
      assert SessionOk(st, s);
    }
    forall c | c in after.conns
      ensures ConnOk(after, c)
    {
      assert ConnOk(st, c);
    }
  }

  lemma IssueKeeps(st: State, q: nat)
    requires Inv(st)
    ensures Inv(DoIssue(st, q))
  {
    hide IsTransactionControl;
    var after := DoIssue(st, q);
    if after != st {
      var query := st.queries[q];
      var s := query.session;
      assert BuilderFits(st, s, query.builder) && Harmless(query);
      assert SessionOk(st, s);
      var session := st.sessions[s];
      var conn := ConnAt(st, session.conn);
      ShapeIssues(s, session, conn, Data(query));
      hide Shape;
      assert after.sessions == st.sessions[s := session];
      Advances(st, after, s, session, conn.(queue := conn.queue + [Data(query)]));
      KnownStays(st, after);
    }
  }

  lemma SettleKeeps(st: State, s: nat)
    requires Inv(st)
    ensures Inv(DoSettle(st, s))
  {
    var after := DoSettle(st, s);
    if after != st {
      assert SessionOk(st, s) && ConnOk(st, st.sessions[s].conn);
      OthersStayWired(st, after, s, st.sessions[s].conn);
      KnownStays(st, after);
    }
  }

  lemma CloseKeeps(st: State, s: nat)
    requires Inv(st)
    ensures Inv(DoClose(st, s))
  {
    var after := DoClose(st, s);
    if after != st {
      hide Shape, IsTransactionControl;
      assert SessionOk(st, s);
      var session := st.sessions[s];
      var conn := ConnAt(st, session.conn);
      ShapeCloses(s, session, conn);
      Advances(st, after, s, session.(phase := Closing), conn.(queue := conn.queue + [Control(s)]));
      KnownStays(st, after);
    }
  }

  lemma ReleaseKeeps(st: State, s: nat)
    requires Inv(st)
    ensures Inv(DoRelease(st, s))
  {
    var after := DoRelease(st, s);
    if after != st {
      ReleaseWires(st, s);
      hide Wired, DoRelease, IsTransactionControl;
      ReleaseMoves(st, s);
      KnownStays(st, after);
    }
  }

  lemma ReleaseWires(st: State, s: nat)
    requires Wired(st) && s in st.sessions && st.sessions[s].phase == Closed
    ensures Wired(DoRelease(st, s))
  {
    var after := DoRelease(st, s);
    assert SessionOk(st, s) && ConnOk(st, st.sessions[s].conn);
    assert SessionOk(after, s) && ConnOk(after, st.sessions[s].conn);
    hide Shape, SessionOk, ConnOk;
    OthersStayWired(st, after, s, st.sessions[s].conn);
  }

  lemma ReleaseMoves(st: State, s: nat)
    ensures Onward(st, DoRelease(st, s))
    ensures var after := DoRelease(st, s);
            after == st.(sessions := after.sessions, conns := after.conns)
  {
    hide ConnAt;
  }

  /** What is queued on a connection belongs to the session that holds it. */
  lemma HeadBelongs(st: State, c: nat)
    requires Wired(st) && ConnAt(st, c).queue != []
    ensures ConnAt(st, c).owner.Some?
    ensures var s := ConnAt(st, c).owner.value;
            && s in st.sessions && st.sessions[s].conn == c && SessionOk(st, s) && ConnOk(st, c)
            && st.sessions[s].phase !in {Closed, Released}
  {
    assert ConnOk(st, c);
    assert SessionOk(st, ConnAt(st, c).owner.value);
  }

  lemma ExecuteData(st: State, c: nat, ok: bool)
    requires Inv(st) && ConnAt(st, c).queue != [] && ConnAt(st, c).queue[0].Data?
    ensures Inv(DoExecute(st, c, ok))
  {
    hide Shape, IsTransactionControl;
    HeadBelongs(st, c);
    var conn := ConnAt(st, c);
    var s := conn.owner.value;
    var after := DoExecute(st, c, ok);
    ShapeRunsData(s, st.sessions[s], conn);
    assert !conn.queue[0].query.ends;
    hide RunBegin, RunConfig, RunControl;
    assert after.sessions == st.sessions[s := st.sessions[s]];
    Advances(st, after, s, st.sessions[s], conn.(queue := conn.queue[1..]));
    KnownStays(st, after);
  }

  lemma ExecuteSetup(st: State, c: nat, ok: bool)
    requires Inv(st) && ConnAt(st, c).queue != [] && !ConnAt(st, c).queue[0].Data?
    ensures Inv(DoExecute(st, c, ok))
  {
    hide Shape, SessionOk, ConnOk, RunData, RunBegin, RunConfig, RunControl, Isolated, Known;
    HeadBelongs(st, c);
    var conn := ConnAt(st, c);
    var s := conn.owner.value;
    SessionShape(st, s);
    ShapeHead(s, st.sessions[s], conn);
    var rest := conn.(queue := conn.queue[1..]);
    match conn.queue[0]
    case Begin(t) => BeginKeeps(st, s, c, ok);
    case SetConfig(t) => ConfigKeeps(st, s, c, ok);
    case Control(t) => ControlKeeps(st, s, c);
    case _ =>
  }

  lemma SessionShape(st: State, s: nat)
    requires s in st.sessions && SessionOk(st, s) && st.sessions[s].phase != Released
    ensures ConnAt(st, st.sessions[s].conn).owner == Some(s)
    ensures Shape(s, st.sessions[s], ConnAt(st, st.sessions[s].conn))
  {
  }

  /** A session that has its connection's head to itself moves on with it. */
  lemma HeadAdvances(st: State, after: State, s: nat, c: nat, phase: Phase, conn: Conn)
    requires Inv(st) && s in st.sessions && st.sessions[s].conn == c && st.sessions[s].phase != Released
    requires phase == st.sessions[s].phase || st.sessions[s].phase == Opening
             || (st.sessions[s].phase == Closing && phase == Closed)
    requires phase != Released && conn.owner == Some(s) && Shape(s, st.sessions[s].(phase := phase), conn)
    requires after == SetConn(SetPhase(st, s, phase), c, conn)
    ensures Inv(after)
  {
    hide Shape, Known, Isolated, IsTransactionControl;
    Advances(st, after, s, st.sessions[s].(phase := phase), conn);
    hide Wired;
    SameKnown(st, after, s);
  }

  lemma BeginKeeps(st: State, s: nat, c: nat, ok: bool)
    requires Inv(st) && s in st.sessions && st.sessions[s].conn == c && st.sessions[s].phase == Opening
    requires ConnAt(st, c).owner == Some(s) && Shape(s, st.sessions[s], ConnAt(st, c))
    requires ConnAt(st, c).queue == [Begin(s), SetConfig(s)]
    ensures Inv(RunBegin(st, s, c, ConnAt(st, c).(queue := ConnAt(st, c).queue[1..]), ok))
  {
    hide Inv, Shape;
    var conn := ConnAt(st, c);
    var rest := conn.(queue := conn.queue[1..]);
    SetupShape(s, st.sessions[s], conn, conn.queue[1..]);
    assert SetPhase(st, s, Opening) == st;
    if ok {
      HeadAdvances(st, SetConn(st, c, rest), s, c, Opening, rest);
    } else {
      HeadAdvances(st, SetConn(SetPhase(st, s, Settled), c, rest.(queue := [])), s, c, Settled, rest.(queue := []));
    }
  }

  lemma ConfigKeeps(st: State, s: nat, c: nat, ok: bool)
    requires Inv(st) && s in st.sessions && st.sessions[s].conn == c && st.sessions[s].phase == Opening
    requires ConnAt(st, c).owner == Some(s) && Shape(s, st.sessions[s], ConnAt(st, c))
    requires ConnAt(st, c).queue == [SetConfig(s)]
    ensures Inv(RunConfig(st, s, c, ConnAt(st, c).(queue := ConnAt(st, c).queue[1..]), ok))
  {
    hide Inv, Shape;
    var conn := ConnAt(st, c);
    var rest := conn.(queue := conn.queue[1..]);
    SetupShape(s, st.sessions[s], conn, conn.queue[1..]);
    assert SetPhase(st, s, Opening) == st;
    if ok {
      var configured := rest.(settings := Some(st.sessions[s].settings));
      HeadAdvances(st, SetConn(st, c, configured), s, c, Opening, configured);
    } else {
      HeadAdvances(st, SetConn(SetPhase(st, s, Settled), c, rest.(queue := [])), s, c, Settled, rest.(queue := []));
    }
  }

  lemma ControlKeeps(st: State, s: nat, c: nat)
    requires Inv(st) && s in st.sessions && st.sessions[s].conn == c && st.sessions[s].phase == Closing
    requires ConnAt(st, c).owner == Some(s) && Shape(s, st.sessions[s], ConnAt(st, c))
    requires ConnAt(st, c).queue == [Control(s)]
    ensures Inv(RunControl(st, s, c, ConnAt(st, c).(queue := ConnAt(st, c).queue[1..])))
  {
    hide Inv, Shape;
    var conn := ConnAt(st, c);
    var rest := conn.(queue := conn.queue[1..], settings := None);
    SetupShape(s, st.sessions[s], conn, conn.queue[1..]);
    HeadAdvances(st, SetConn(SetPhase(st, s, Closed), c, rest), s, c, Closed, rest);
  }

  lemma SetupShape(s: nat, session: Session, conn: Conn, rest: seq<Stmt>)
    requires Shape(s, session, conn) && conn.queue != [] && rest == conn.queue[1..] && session.phase != Released
    ensures conn.queue == [Begin(s), SetConfig(s)] && session.phase == Opening ==>
              Shape(s, session, conn.(queue := rest))
    ensures conn.queue == [SetConfig(s)] && session.phase == Opening ==>
              Shape(s, session, conn.(queue := rest, settings := Some(session.settings)))
    ensures session.phase == Opening ==> Shape(s, session.(phase := Settled), conn.(queue := []))
    ensures conn.queue == [Control(s)] ==> Shape(s, session.(phase := Closed), conn.(queue := rest, settings := None))
  {
  }

  /** A session that had not started its callback, or that is closing, starts nobody's. */
  lemma SameKnown(st: State, after: State, s: nat)
    requires Known(st) && s in st.sessions && after.sessions.Keys == st.sessions.Keys
    requires after == st.(sessions := after.sessions, conns := after.conns)
    requires forall t | t in st.sessions && t != s :: after.sessions[t] == st.sessions[t]
    requires after.sessions[s] == st.sessions[s].(phase := after.sessions[s].phase)
    requires after.sessions[s].phase == st.sessions[s].phase || st.sessions[s].phase == Opening
             || (st.sessions[s].phase == Closing && after.sessions[s].phase == Closed)
    ensures Known(after)
  {
    hide Known;
    assert Onward(st, after);
    KnownStays(st, after);
  }

  // ---- All schedules ----------------------------------------------------------------------------------

  lemma DoKeeps(st: State, a: Action)
    requires Inv(st) && (a.Build? ==> !a.ends && !IsTransactionControl(a.text))
    ensures Inv(Do(st, a))
  {
    hide DoOpen, DoEnter, DoIssue, DoClose, DoExecute, DoRelease, Shape, SessionOk, ConnOk;
    match a
    case Open(c, s, conn) => OpenKeeps(st, c, s, conn);
    case Enter(s, child, h) => EnterKeeps(st, s, child, h);
    case Issue(q) => IssueKeeps(st, q);
    case Settle(s) => SettleKeeps(st, s);
    case Close(s) => CloseKeeps(st, s);
    case Execute(c, ok) => ExecuteKeeps(st, c, ok);
    case Release(s) => ReleaseKeeps(st, s);
    case _ => QuietKeeps(st, a);
  }

  lemma ExecuteKeeps(st: State, c: nat, ok: bool)
    requires Inv(st)
    ensures Inv(DoExecute(st, c, ok))
  {
    hide Inv;
    if ConnAt(st, c).queue != [] {
      if ConnAt(st, c).queue[0].Data? {
        ExecuteData(st, c, ok);
      } else {
        ExecuteSetup(st, c, ok);
      }
    }
  }

  /** Minting, arriving, forking, joining and building touch no session and no connection. */
  lemma QuietKeeps(st: State, a: Action)
    requires Inv(st) && (a.Build? ==> !a.ends && !IsTransactionControl(a.text))
    requires a.Arrive? || a.Mint? || a.Fork? || a.ActFor? || a.Join? || a.Build?
    ensures Inv(Do(st, a))
  {
    hide IsTransactionControl, Wired, Isolated;
    var after := Do(st, a);
    assert after.sessions == st.sessions && after.conns == st.conns && after.log == st.log;
    WiredIgnoresRest(st, after);
    QuietKnown(st, a);
  }

  lemma QuietKnown(st: State, a: Action)
    requires Known(st) && (a.Build? ==> !a.ends && !IsTransactionControl(a.text))
    requires a.Arrive? || a.Mint? || a.Fork? || a.ActFor? || a.Join? || a.Build?
    ensures Known(Do(st, a))
  {
    hide IsTransactionControl;
    var after := Do(st, a);
    forall s | Entered(st, s)
      ensures Entered(after, s)
    {
    }
    if a.Join? && after != st {
      assert Entered(st, st.contexts[a.c].active.value);
    } else if a.Build? && after != st {
      assert BuilderFits(st, st.handles[a.handle].session, st.handles[a.handle].builder);
    }
  }

  /**
   * The statement ran under settings, of its builder's tenant, narrowed to the builder's own assignments exactly when
   * the builder is staff.
   */
  ghost predicate RanAsBuilder(r: Ran) {
    && r.under.Some?
    && r.under.value.tenant == r.query.builder.tenant
    && match r.query.builder
       case User(id, _, Staff) => r.under.value.scope == Assigned(id)
       case User(_, _, Owner) => r.under.value.scope == All
       case Visitor(_) => r.under.value.scope == All
  }

  lemma IsolatedMeans(log: seq<Ran>)
    ensures Isolated(log) <==> forall r | r in log :: RanAsBuilder(r)
  {
    forall r: Ran
      ensures r.under == Some(SettingsFor(r.query.builder)) <==> RanAsBuilder(r)
    {
    }
  }

  /**
   * Over every schedule of requests, forks, joins, deferred queries, settling, closing and recycling of
   * connections: each data statement that executed did so while its connection's tenant and scope were those
   * of the principal whose `run` built it.
   */
  lemma {:induction false} EveryStatementIsolated(actions: seq<Action>)
    requires Tame(actions)
    ensures Inv(Run(EMPTY, actions))
    ensures forall r | r in Run(EMPTY, actions).log :: RanAsBuilder(r)
  {
    if actions != [] {
      var init := actions[..|actions| - 1];
      assert forall a | a in init :: a in actions;
      EveryStatementIsolated(init);
      DoKeeps(Run(EMPTY, init), actions[|actions| - 1]);
    }
    IsolatedMeans(Run(EMPTY, actions).log);
  }

  // ---- The flag and the principal ---------------------------------------------------------------------

  /** A query awaited after its transaction settled is thrown out, unless its text is the end of a transaction. */
  lemma LateQueryBouncesIff(st: State, q: nat)
    requires q in st.queries && st.queries[q].session in st.sessions && !st.sessions[st.queries[q].session].alive
    ensures DoIssue(st, q) == st <==> !IsTransactionControl(st.queries[q].text)
  {
    var query := st.queries[q];
    var c := st.sessions[query.session].conn;
    assert |ConnAt(st, c).queue + [Data(query)]| == |ConnAt(st, c).queue| + 1;
    hide IsTransactionControl;
    if IsTransactionControl(query.text) {
      assert ConnAt(DoIssue(st, q), c).queue == ConnAt(st, c).queue + [Data(query)];
    }
  }

  /** Queries and minted principals are never replaced. */
  ghost predicate KeepsRecords(st: State, after: State) {
    && (forall q | q in st.queries :: q in after.queries && after.queries[q] == st.queries[q])
    && (forall r | r in st.principals :: r in after.principals && after.principals[r] == st.principals[r])
  }

  /** A dead session stays dead. */
  ghost predicate KeepsDead(st: State, after: State) {
    forall s | s in st.sessions :: s in after.sessions && (!st.sessions[s].alive ==> !after.sessions[s].alive)
  }

  ghost predicate Grows(st: State, after: State) {
    KeepsRecords(st, after) && KeepsDead(st, after)
  }

  /** Executing changes connections and the log, and no session's flag. */
  ghost predicate FlagsKept(st: State, after: State) {
    && after == st.(sessions := after.sessions, conns := after.conns, log := after.log)
    && after.sessions.Keys == st.sessions.Keys
    && forall s | s in st.sessions :: after.sessions[s].alive == st.sessions[s].alive
  }

  lemma SetupKeepsFlags(st: State, s: nat, c: nat, rest: Conn, ok: bool)
    ensures FlagsKept(st, RunBegin(st, s, c, rest, ok)) && FlagsKept(st, RunConfig(st, s, c, rest, ok))
  {
  }

  lemma ControlKeepsFlags(st: State, s: nat, c: nat, rest: Conn)
    ensures FlagsKept(st, RunControl(st, s, c, rest))
  {
  }

  lemma DataKeepsFlags(st: State, q: Query, c: nat, rest: Conn, ok: bool)
    ensures FlagsKept(st, RunData(st, q, c, rest, ok))
  {
  }

  lemma ExecuteKeepsFlags(st: State, c: nat, ok: bool)
    ensures FlagsKept(st, DoExecute(st, c, ok))
  {
    var conn := ConnAt(st, c);
    if conn.queue != [] {
      hide RunData, RunBegin, RunConfig, RunControl, FlagsKept;
      var rest := conn.(queue := conn.queue[1..]);
      match conn.queue[0]
      case Data(query) => DataKeepsFlags(st, query, c, rest, ok);
      case Begin(s) => SetupKeepsFlags(st, s, c, rest, ok);
      case SetConfig(s) => SetupKeepsFlags(st, s, c, rest, ok);
      case Control(s) => ControlKeepsFlags(st, s, c, rest);
    }
  }

  lemma IssueQueues(st: State, q: nat)
    ensures DoIssue(st, q) == st.(conns := DoIssue(st, q).conns)
  {
    hide IsTransactionControl;
  }

  lemma OpenGrows(st: State, c: nat, s: nat, conn: nat)
    ensures Grows(st, DoOpen(st, c, s, conn))
  {
    hide SettingsFor;
  }

  lemma EnterGrows(st: State, s: nat, child: nat, h: nat)
    ensures Grows(st, DoEnter(st, s, child, h))
  {
  }

  lemma SettleGrows(st: State, s: nat)
    ensures Grows(st, DoSettle(st, s))
  {
  }

  lemma CloseGrows(st: State, s: nat)
    ensures Grows(st, DoClose(st, s))
  {
    hide ConnAt;
  }

  lemma ReleaseGrows(st: State, s: nat)
    ensures Grows(st, DoRelease(st, s))
  {
    hide ConnAt;
  }

  lemma OthersGrow(st: State, a: Action)
    requires !a.Execute? && !a.Issue?
    ensures Grows(st, Do(st, a))
  {
    hide DoOpen, DoEnter, DoSettle, DoClose, DoRelease, SettingsFor, ScopeFor, ConnAt;
    match a
    case Open(c, s, conn) => OpenGrows(st, c, s, conn);
    case Enter(s, child, h) => EnterGrows(st, s, child, h);
    case Settle(s) => SettleGrows(st, s);
    case Close(s) => CloseGrows(st, s);
    case Release(s) => ReleaseGrows(st, s);
    case _ =>
  }

  lemma StepGrows(st: State, a: Action)
    ensures Grows(st, Do(st, a))
  {
    hide DoExecute, DoIssue;
    if a.Execute? {
      ExecuteKeepsFlags(st, a.conn, a.ok);
    } else if a.Issue? {
      IssueQueues(st, a.query);
    } else {
      OthersGrow(st, a);
    }
  }

  /** Over every run a minted principal stays what it is, a built query too, and a dead session dead. */
  lemma {:induction false} Remembered(st: State, actions: seq<Action>)
    ensures KeepsRecords(st, Run(st, actions)) && KeepsDead(st, Run(st, actions))
    ensures var after := Run(st, actions);
            && (forall r | r in st.principals :: r in after.principals && after.principals[r] == st.principals[r])
            && (forall q | q in st.queries :: q in after.queries && after.queries[q] == st.queries[q])
            && forall s | s in st.sessions && !st.sessions[s].alive :: s in after.sessions && !after.sessions[s].alive
  {
    if actions != [] {
      var init, a := actions[..|actions| - 1], actions[|actions| - 1];
      Remembered(st, init);
      StepGrows(Run(st, init), a);
      hide Do;
    }
  }

  /** However long a query waits after its transaction settled, it never reaches a connection. */
  lemma LateQueryNeverRuns(st: State, actions: seq<Action>, q: nat)
    requires q in st.queries && st.queries[q].session in st.sessions && !st.sessions[st.queries[q].session].alive
    requires !IsTransactionControl(st.queries[q].text)
    ensures Run(st, actions + [Issue(q)]) == Run(st, actions)
  {
    hide IsTransactionControl;
    assert (actions + [Issue(q)])[..|actions|] == actions;
    Remembered(st, actions);
    LateQueryBouncesIff(Run(st, actions), q);
  }

  /**
   * What one step may do to a settled session's queue: nothing, run its head, or add the driver's closing statement.
   */
  predicate WindsDown(before: seq<Stmt>, after: seq<Stmt>, s: nat) {
    after == before || after == before + [Control(s)] || (before != [] && after == before[1..])
  }

  lemma ExecuteWindsDown(st: State, c: nat, ok: bool, s: nat)
    requires Wired(st) && s in st.sessions && st.sessions[s].phase != Opening && ConnAt(st, c).owner == Some(s)
    ensures WindsDown(ConnAt(st, c).queue, ConnAt(DoExecute(st, c, ok), c).queue, s)
  {
    hide Shape, IsTransactionControl;
    if ConnAt(st, c).queue != [] {
      HeadBelongs(st, c);
      if !ConnAt(st, c).queue[0].Data? {
        ShapeHead(s, st.sessions[s], ConnAt(st, c));
      }
    }
  }

  /** The state after executing a statement of connection c differs from st, among connections, only there. */
  ghost predicate OnlyConn(st: State, after: State, c: nat) {
    forall d | d != c :: ConnAt(after, d) == ConnAt(st, d)
  }

  lemma SetConnOnly(st: State, st0: State, c: nat, conn: Conn)
    requires st0.conns == st.conns
    ensures OnlyConn(st, SetConn(st0, c, conn), c)
  {
  }

  lemma SetupOnly(st: State, s: nat, c: nat, rest: Conn, ok: bool)
    ensures OnlyConn(st, RunBegin(st, s, c, rest, ok), c) && OnlyConn(st, RunConfig(st, s, c, rest, ok), c)
  {
    hide OnlyConn, SetConn;
    assert forall conn :: OnlyConn(st, SetConn(st, c, conn), c) by {
      forall conn
        ensures OnlyConn(st, SetConn(st, c, conn), c)
      {
        SetConnOnly(st, st, c, conn);
      }
    }
    if s in st.sessions {
      SetConnOnly(st, SetPhase(st, s, Settled), c, rest.(queue := []));
    } else {
      SameConns(st, c);
    }
  }

  lemma SameConns(st: State, c: nat)
    ensures OnlyConn(st, st, c)
  {
  }

  lemma ControlOnly(st: State, s: nat, c: nat, rest: Conn)
    ensures OnlyConn(st, RunControl(st, s, c, rest), c)
  {
  }

  lemma DataOnly(st: State, q: Query, c: nat, rest: Conn, ok: bool)
    ensures OnlyConn(st, RunData(st, q, c, rest, ok), c)
  {
    hide IsTransactionControl;
  }

  /** A step that is not about this connection leaves it alone. */
  lemma ExecuteElsewhere(st: State, c: nat, ok: bool, d: nat)
    requires c != d
    ensures ConnAt(DoExecute(st, c, ok), d) == ConnAt(st, d)
  {
    var conn := ConnAt(st, c);
    if conn.queue != [] {
      hide RunData, RunBegin, RunConfig, RunControl;
      var rest := conn.(queue := conn.queue[1..]);
      match conn.queue[0]
      case Data(query) => DataOnly(st, query, c, rest, ok);
      case Begin(s) => SetupOnly(st, s, c, rest, ok);
      case SetConfig(s) => SetupOnly(st, s, c, rest, ok);
      case Control(s) => ControlOnly(st, s, c, rest);
    }
  }

  lemma IssueElsewhere(st: State, q: nat, s: nat)
    requires Inv(st) && s in st.sessions && !st.sessions[s].alive && st.sessions[s].phase != Released
    ensures ConnAt(DoIssue(st, q), st.sessions[s].conn) == ConnAt(st, st.sessions[s].conn)
  {
    hide Shape, IsTransactionControl;
    assert SessionOk(st, s);
    if DoIssue(st, q) != st {
      var query := st.queries[q];
      assert BuilderFits(st, query.session, query.builder) && Harmless(query);
      assert SessionOk(st, query.session);
    }
  }

  lemma CloseElsewhere(st: State, t: nat, s: nat)
    requires Inv(st) && s in st.sessions && st.sessions[s].phase != Released
    ensures WindsDown(ConnAt(st, st.sessions[s].conn).queue, ConnAt(DoClose(st, t), st.sessions[s].conn).queue, s)
  {
    hide Shape, IsTransactionControl;
    assert SessionOk(st, s);
    if t in st.sessions {
      assert SessionOk(st, t);
    }
  }

  lemma ReleaseElsewhere(st: State, t: nat, s: nat)
    requires Wired(st) && s in st.sessions && st.sessions[s].phase != Released
    ensures ConnAt(DoRelease(st, t), st.sessions[s].conn).queue == ConnAt(st, st.sessions[s].conn).queue
  {
  }

  lemma OpenElsewhere(st: State, c: nat, t: nat, conn: nat, s: nat)
    requires Wired(st) && s in st.sessions && st.sessions[s].phase != Released
    ensures ConnAt(DoOpen(st, c, t, conn), st.sessions[s].conn) == ConnAt(st, st.sessions[s].conn)
  {
    hide Shape;
    assert SessionOk(st, s);
  }

  lemma ExecuteSettled(st: State, c: nat, ok: bool, s: nat)
    requires Inv(st) && s in st.sessions && !st.sessions[s].alive && st.sessions[s].phase != Released
    ensures WindsDown(ConnAt(st, st.sessions[s].conn).queue, ConnAt(DoExecute(st, c, ok), st.sessions[s].conn).queue, s)
  {
    hide Shape, IsTransactionControl, Known, Isolated, DoExecute, WindsDown;
    assert SessionOk(st, s);
    if c == st.sessions[s].conn {
      NotOpening(s, st.sessions[s], ConnAt(st, c));
      ExecuteWindsDown(st, c, ok, s);
    } else {
      ExecuteElsewhere(st, c, ok, st.sessions[s].conn);
      SameWindsDown(ConnAt(st, st.sessions[s].conn).queue, s);
    }
  }

  lemma SameWindsDown(queue: seq<Stmt>, s: nat)
    ensures WindsDown(queue, queue, s)
  {
  }

  /** After the callback returned, a step adds to the connection at most the driver's own closing statement. */
  lemma OnlyControlAfterSettle(st: State, a: Action, s: nat)
    requires Inv(st) && s in st.sessions && !st.sessions[s].alive && st.sessions[s].phase != Released
    ensures var before, after := ConnAt(st, st.sessions[s].conn).queue, ConnAt(Do(st, a), st.sessions[s].conn).queue;
            || after == before
            || after == before + [Control(s)]
            || (before != [] && after == before[1..])
  {
    SettledWindsDown(st, a, s);
  }

  lemma SettledWindsDown(st: State, a: Action, s: nat)
    requires Inv(st) && s in st.sessions && !st.sessions[s].alive && st.sessions[s].phase != Released
    ensures WindsDown(ConnAt(st, st.sessions[s].conn).queue, ConnAt(Do(st, a), st.sessions[s].conn).queue, s)
  {
    hide *;
    SameWindsDown(ConnAt(st, st.sessions[s].conn).queue, s);
    InvWired(st);
    StepOf(st, a);
    match a
    case Open(c, t, conn) => OpenElsewhere(st, c, t, conn, s);
    case Issue(q) => IssueElsewhere(st, q, s);
    case Close(t) => CloseElsewhere(st, t, s);
    case Execute(c, ok) => ExecuteSettled(st, c, ok, s);
    case Release(t) => ReleaseElsewhere(st, t, s);
    case _ =>
  }

  /** What the step is, and that the others leave the connections alone. */
  lemma StepOf(st: State, a: Action)
    ensures match a
            case Open(c, t, conn) => Do(st, a) == DoOpen(st, c, t, conn)
            case Issue(q) => Do(st, a) == DoIssue(st, q)
            case Close(t) => Do(st, a) == DoClose(st, t)
            case Execute(c, ok) => Do(st, a) == DoExecute(st, c, ok)
            case Release(t) => Do(st, a) == DoRelease(st, t)
            case _ => forall c :: ConnAt(Do(st, a), c) == ConnAt(st, c)
  {
    hide DoOpen, DoIssue, DoClose, DoExecute, DoRelease;
  }

  lemma InvWired(st: State)
    requires Inv(st)
    ensures Wired(st)
  {
  }

  lemma NotOpening(s: nat, session: Session, conn: Conn)
    requires Shape(s, session, conn) && !session.alive
    ensures session.phase != Opening
  {
  }

  /** A connection in the pool has nothing queued and no settings left on it. */
  lemma PooledIsClean(actions: seq<Action>, c: nat)
    requires Tame(actions) && ConnAt(Run(EMPTY, actions), c).owner == None
    ensures ConnAt(Run(EMPTY, actions), c) == FRESH
  {
    EveryStatementIsolated(actions);
    assert c in Run(EMPTY, actions).conns ==> ConnOk(Run(EMPTY, actions), c);
  }

  /** Query q may be issued, and goes to connection c. */
  predicate GoesTo(st: State, q: nat, c: nat) {
    && q in st.queries && st.queries[q].session in st.sessions && st.sessions[st.queries[q].session].conn == c
    && Passes(st.sessions[st.queries[q].session].alive, st.queries[q].text)
  }

  lemma IssueGoes(st: State, q: nat, c: nat)
    requires GoesTo(st, q, c)
    ensures Do(st, Issue(q)) == SetConn(st, c, ConnAt(st, c).(queue := ConnAt(st, c).queue + [Data(st.queries[q])]))
  {
    hide IsTransactionControl;
  }

  lemma ConnSet(st: State, c: nat, a: Conn, b: Conn)
    ensures ConnAt(SetConn(st, c, a), c) == a && SetConn(SetConn(st, c, a), c, b) == SetConn(st, c, b)
    ensures forall q | GoesTo(st, q, c) :: GoesTo(SetConn(st, c, a), q, c)
  {
    hide IsTransactionControl;
  }

  /** A transaction-ending query at the head strips the settings; the next statement runs without any. */
  lemma EndingRuns(st: State, c: nat, conn: Conn, a: Query, b: Query)
    requires ConnAt(st, c) == conn.(queue := [Data(a), Data(b)]) && a.ends && Harmless(b)
    ensures Do(Do(st, Execute(c, true)), Execute(c, true)).log == st.log + [Ran(b, None)]
  {
    hide IsTransactionControl;
    assert [Data(a), Data(b)][1..] == [Data(b)];
    var mid := conn.(queue := [Data(b)], settings := None);
    assert Do(st, Execute(c, true)) == SetConn(st, c, mid);
    ConnSet(st, c, mid, mid);
  }

  /** Two queries that reach the connection one after the other, the first ending the transaction. */
  lemma EndingStripsNext(st: State, c: nat, q0: nat, q1: nat)
    requires ConnAt(st, c).queue == [] && GoesTo(st, q0, c) && GoesTo(st, q1, c)
    requires st.queries[q0].ends && Harmless(st.queries[q1])
    ensures Run(st, [Issue(q0), Issue(q1), Execute(c, true), Execute(c, true)]).log
              == st.log + [Ran(st.queries[q1], None)]
  {
    var conn, a, b := ConnAt(st, c), st.queries[q0], st.queries[q1];
    hide IsTransactionControl, Do, GoesTo;
    var one, two := conn.(queue := [Data(a)]), conn.(queue := [Data(a), Data(b)]);
    RunFour(st, Issue(q0), Issue(q1), Execute(c, true), Execute(c, true));
    IssueGoes(st, q0, c);
    assert conn.queue + [Data(a)] == [Data(a)];
    ConnSet(st, c, one, two);
    IssueGoes(SetConn(st, c, one), q1, c);
    assert [Data(a)] + [Data(b)] == [Data(a), Data(b)];
    ConnSet(st, c, two, two);
    EndingRuns(SetConn(st, c, two), c, conn, a, b);
  }

  /**
   * The proviso is needed: a callback that issues a transaction-ending query of its own strips the settings
   * from whatever it issues next, and the flag, which is still up, says nothing.
   */
  lemma RawCommitEscapes(st: State, s: nat, q0: nat, q1: nat)
    requires s in st.sessions && st.sessions[s].phase == Running && st.sessions[s].alive
    requires ConnAt(st, st.sessions[s].conn).queue == []
    requires q0 in st.queries && st.queries[q0].session == s && st.queries[q0].ends
    requires q1 in st.queries && st.queries[q1].session == s && Harmless(st.queries[q1])
    ensures var c := st.sessions[s].conn;
            var end := Run(st, [Issue(q0), Issue(q1), Execute(c, true), Execute(c, true)]);
            end.log == st.log + [Ran(st.queries[q1], None)]
  {
    hide IsTransactionControl, Run;
    EndingStripsNext(st, st.sessions[s].conn, q0, q1);
  }

  lemma RunFour(st: State, a: Action, b: Action, c: Action, d: Action)
    ensures Run(st, [a, b, c, d]) == Do(Do(Do(Do(st, a), b), c), d)
  {
    hide Do;
    assert [a][..0] == [] && [a, b][..1] == [a] && [a, b, c][..2] == [a, b] && [a, b, c, d][..3] == [a, b, c];
    assert Run(st, [a]) == Do(st, a);
    assert Run(st, [a, b]) == Do(Do(st, a), b);
    assert Run(st, [a, b, c]) == Do(Do(Do(st, a), b), c);
  }
}
