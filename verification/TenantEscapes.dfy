/**
 * Why callbacks must not end the transaction: for each text the server ends it on, whole runs from the empty state in
 * which a statement runs without settings - the same tenant's, and another's on the recycled connection.
 */
module TenantEscapes {
  import opened Options
  import opened TenantTx
  import opened TenantIsolation
  import opened TenantErasure

  // ---- A transaction from arrival to callback -----------------------------------------------------------

  /** A request arrives, is given its principal, and runs a transaction up to the start of its callback. */
  function Opening(c: nat, r: nat, p: Principal, s: nat, conn: nat, child: nat, h: nat): seq<Action> {
    [Arrive(c, r), Mint(r, p), Open(c, s, conn), Execute(conn, true)] + [Execute(conn, true), Enter(s, child, h)]
  }

  function Opened(st: State, c: nat, r: nat, p: Principal, s: nat, conn: nat, child: nat, h: nat): State {
    State(st.principals[r := p],
          st.contexts[c := Context(r, None)][child := Context(r, Some(s))],
          st.sessions[s := Session(conn, r, p, SettingsFor(p), true, Running)],
          st.conns[conn := Conn(Some(s), Some(SettingsFor(p)), [])],
          st.handles[h := Handle(s, p)],
          st.queries,
          st.log)
  }

  lemma OpeningRuns(st: State, c: nat, r: nat, p: Principal, s: nat, conn: nat, child: nat, h: nat)
    requires c !in st.contexts && child !in st.contexts && c != child
    requires r !in st.principals && s !in st.sessions && h !in st.handles && ConnAt(st, conn) == FRESH
    ensures Run(st, Opening(c, r, p, s, conn, child, h)) == Opened(st, c, r, p, s, conn, child, h)
  {
    var s1 := Do(st, Arrive(c, r));
    var s2 := Do(s1, Mint(r, p));
    var s3 := OpenedAt(st, c, r, p, s, conn, [Begin(s), SetConfig(s)], None);
    var s4 := OpenedAt(st, c, r, p, s, conn, [SetConfig(s)], None);
    var s5 := OpenedAt(st, c, r, p, s, conn, [], Some(SettingsFor(p)));
    OpenStep(st, c, r, p, s, conn);
    BeginStep(st, c, r, p, s, conn);
    ConfigStep(st, c, r, p, s, conn);
    EnterStep(st, c, r, p, s, conn, child, h);
    RunFour(st, Arrive(c, r), Mint(r, p), Open(c, s, conn), Execute(conn, true));
    RunTwo(s4, Execute(conn, true), Enter(s, child, h));
    RunJoins(st, [Arrive(c, r), Mint(r, p), Open(c, s, conn), Execute(conn, true)],
             [Execute(conn, true), Enter(s, child, h)]);
  }

  /** The state while the transaction is being set up. */
  function OpenedAt(st: State, c: nat, r: nat, p: Principal, s: nat, conn: nat, queue: seq<Stmt>,
                    settings: Option<Settings>): State
  {
    State(st.principals[r := p],
          st.contexts[c := Context(r, None)],
          st.sessions[s := Session(conn, r, p, SettingsFor(p), true, Phase.Opening)],
          st.conns[conn := Conn(Some(s), settings, queue)],
          st.handles, st.queries, st.log)
  }

  lemma OpenStep(st: State, c: nat, r: nat, p: Principal, s: nat, conn: nat)
    requires c !in st.contexts && r !in st.principals && s !in st.sessions && ConnAt(st, conn) == FRESH
    ensures Do(Do(Do(st, Arrive(c, r)), Mint(r, p)), Open(c, s, conn))
         == OpenedAt(st, c, r, p, s, conn, [Begin(s), SetConfig(s)], None)
  {
    assert [] + [Begin(s), SetConfig(s)] == [Begin(s), SetConfig(s)];
  }

  lemma BeginStep(st: State, c: nat, r: nat, p: Principal, s: nat, conn: nat)
    ensures Do(OpenedAt(st, c, r, p, s, conn, [Begin(s), SetConfig(s)], None), Execute(conn, true))
         == OpenedAt(st, c, r, p, s, conn, [SetConfig(s)], None)
  {
    assert [Begin(s), SetConfig(s)][1..] == [SetConfig(s)];
    var before := OpenedAt(st, c, r, p, s, conn, [Begin(s), SetConfig(s)], None);
    assert Do(before, Execute(conn, true)).conns == OpenedAt(st, c, r, p, s, conn, [SetConfig(s)], None).conns;
  }

  lemma ConfigStep(st: State, c: nat, r: nat, p: Principal, s: nat, conn: nat)
    ensures Do(OpenedAt(st, c, r, p, s, conn, [SetConfig(s)], None), Execute(conn, true))
         == OpenedAt(st, c, r, p, s, conn, [], Some(SettingsFor(p)))
  {
    var before := OpenedAt(st, c, r, p, s, conn, [SetConfig(s)], None);
    assert [SetConfig(s)][1..] == [];
    assert Do(before, Execute(conn, true)).conns == OpenedAt(st, c, r, p, s, conn, [], Some(SettingsFor(p))).conns;
  }

  lemma EnterStep(st: State, c: nat, r: nat, p: Principal, s: nat, conn: nat, child: nat, h: nat)
    requires child !in st.contexts && c != child && h !in st.handles
    ensures Do(OpenedAt(st, c, r, p, s, conn, [], Some(SettingsFor(p))), Enter(s, child, h))
         == Opened(st, c, r, p, s, conn, child, h)
  {
    var before := OpenedAt(st, c, r, p, s, conn, [], Some(SettingsFor(p)));
    assert Do(before, Enter(s, child, h)).sessions == Opened(st, c, r, p, s, conn, child, h).sessions;
  }

  lemma RunTwo(st: State, a: Action, b: Action)
    ensures Run(st, [a, b]) == Do(Do(st, a), b)
  {
    hide Do;
    assert [a][..0] == [] && [a, b][..1] == [a];
    assert Run(st, [a]) == Do(st, a);
  }

  lemma {:induction false} RunJoins(st: State, a: seq<Action>, b: seq<Action>)
    ensures Run(st, a + b) == Run(Run(st, a), b)
  {
    hide Do;
    if b == [] {
      assert a + b == a;
    } else {
      RunJoins(st, a, b[..|b| - 1]);
      assert (a + b)[..|a + b| - 1] == a + b[..|b| - 1];
    }
  }

  // ---- A query that ends the transaction ----------------------------------------------------------------

  const VISITOR := Visitor(0)
  const OTHER := Visitor(1)

  /** A callback issues the ending text, and then a harmless one. */
  function EndingRun(text: string, plain: string): seq<Action> {
    Opening(0, 0, VISITOR, 0, 0, 1, 0)
    + ([Build(0, 0, text, true), Build(0, 1, plain, false)]
       + [Issue(0), Issue(1), Execute(0, true), Execute(0, true)])
  }

  /** The harmless query runs with no settings at all. */
  lemma EndingRunEscapes(text: string, plain: string)
    requires !IsTransactionControl(plain)
    ensures Run(EMPTY, EndingRun(text, plain)).log == [Ran(Query(0, VISITOR, plain, false), None)]
  {
    hide IsTransactionControl;
    var build := [Build(0, 0, text, true), Build(0, 1, plain, false)];
    var issue := [Issue(0), Issue(1), Execute(0, true), Execute(0, true)];
    OpeningRuns(EMPTY, 0, 0, VISITOR, 0, 0, 1, 0);
    var open := Opened(EMPTY, 0, 0, VISITOR, 0, 0, 1, 0);
    RunJoins(EMPTY, Opening(0, 0, VISITOR, 0, 0, 1, 0), build + issue);
    RunJoins(open, build, issue);
    RunTwo(open, Build(0, 0, text, true), Build(0, 1, plain, false));
    var built := Run(open, build);
    assert built == open.(queries := map[0 := Query(0, VISITOR, text, true), 1 := Query(0, VISITOR, plain, false)]);
    RawCommitEscapes(built, 0, 0, 1);
  }

  // ---- A late commit ------------------------------------------------------------------------------------

  /**
   * A commit is built in one tenant's callback and awaited while the connection is running another tenant's
   * transaction, which then issues a statement of its own.
   */
  function LateRun(text: string, plain: string): seq<Action> {
    Opening(0, 0, VISITOR, 0, 0, 1, 0)
    + ([Build(0, 0, text, true), Settle(0), Close(0), Execute(0, true)]
       + ([Release(0)]
          + (Opening(2, 1, OTHER, 1, 0, 3, 1)
             + ([Build(1, 1, plain, false)]
                + [Issue(0), Issue(1), Execute(0, true), Execute(0, true)]))))
  }

  /**
   * The guard lets the commit through, it ends the other tenant's transaction, and that tenant's statement runs bare.
   */
  lemma LateRunEscapes(text: string, plain: string)
    requires IsTransactionControl(text) && !IsTransactionControl(plain)
    ensures Run(EMPTY, LateRun(text, plain)).log == [Ran(Query(1, OTHER, plain, false), None)]
  {
    hide IsTransactionControl;
    var issue := [Issue(0), Issue(1), Execute(0, true), Execute(0, true)];
    var tail3 := [Build(1, 1, plain, false)] + issue;
    var tail2 := Opening(2, 1, OTHER, 1, 0, 3, 1) + tail3;
    var tail1 := [Release(0)] + tail2;
    var four := [Build(0, 0, text, true), Settle(0), Close(0), Execute(0, true)];
    OpeningRuns(EMPTY, 0, 0, VISITOR, 0, 0, 1, 0);
    RunJoins(EMPTY, Opening(0, 0, VISITOR, 0, 0, 1, 0), four + tail1);
    var open := Opened(EMPTY, 0, 0, VISITOR, 0, 0, 1, 0);
    RunJoins(open, four, tail1);
    RunFour(open, four[0], four[1], four[2], four[3]);
    ClosesClean(open, text);
    var closed := Run(open, four);
    RunJoins(closed, [Release(0)], tail2);
    RunOne(closed, Release(0));
    var idle := Do(closed, Release(0));
    OpeningRuns(idle, 2, 1, OTHER, 1, 0, 3, 1);
    RunJoins(idle, Opening(2, 1, OTHER, 1, 0, 3, 1), tail3);
    var reused := Opened(idle, 2, 1, OTHER, 1, 0, 3, 1);
    RunJoins(reused, [Build(1, 1, plain, false)], issue);
    RunOne(reused, Build(1, 1, plain, false));
    LateIssue(reused, text, plain);
  }

  lemma RunOne(st: State, a: Action)
    ensures Run(st, [a]) == Do(st, a)
  {
    hide Do;
    assert [a][..0] == [];
  }

  /** The first transaction ends in order and hands its connection back clean. */
  lemma ClosesClean(open: State, text: string)
    requires open == Opened(EMPTY, 0, 0, VISITOR, 0, 0, 1, 0)
    ensures var closed := Do(Do(Do(Do(open, Build(0, 0, text, true)), Settle(0)), Close(0)), Execute(0, true));
            var idle := Do(closed, Release(0));
            && ConnAt(idle, 0) == FRESH && idle.log == [] && idle.queries == map[0 := Query(0, VISITOR, text, true)]
            && idle.sessions == map[0 := Session(0, 0, VISITOR, SettingsFor(VISITOR), false, Released)]
            && idle.contexts == open.contexts && idle.principals == open.principals && idle.handles == open.handles
  {
    hide IsTransactionControl, SettingsFor;
    var settings := SettingsFor(VISITOR);
    var s1 := Do(open, Build(0, 0, text, true));
    assert s1 == open.(queries := map[0 := Query(0, VISITOR, text, true)]);
    EndsClean(s1, settings);
  }

  /** A lone transaction that settles, closes and is released. */
  lemma EndsClean(s1: State, settings: Settings)
    requires s1.sessions == map[0 := Session(0, 0, VISITOR, settings, true, Running)]
    requires s1.conns == map[0 := Conn(Some(0), Some(settings), [])]
    ensures Do(Do(Do(Do(s1, Settle(0)), Close(0)), Execute(0, true)), Release(0)) ==
            s1.(sessions := map[0 := Session(0, 0, VISITOR, settings, false, Released)], conns := map[0 := FRESH])
  {
    hide Do;
    SettleStep(s1, settings);
    CloseStep(s1.(sessions := map[0 := Session(0, 0, VISITOR, settings, false, Settled)]), settings);
    var s3 := s1.(sessions := map[0 := Session(0, 0, VISITOR, settings, false, Closing)],
                  conns := map[0 := Conn(Some(0), Some(settings), [Control(0)])]);
    ControlStep(s3, settings);
    ReleaseStep(s3.(sessions := map[0 := Session(0, 0, VISITOR, settings, false, Closed)],
                    conns := map[0 := Conn(Some(0), None, [])]), settings);
  }

  lemma SettleStep(st: State, settings: Settings)
    requires st.sessions == map[0 := Session(0, 0, VISITOR, settings, true, Running)]
    ensures Do(st, Settle(0)) == st.(sessions := map[0 := Session(0, 0, VISITOR, settings, false, Settled)])
  {
  }

  lemma CloseStep(st: State, settings: Settings)
    requires st.sessions == map[0 := Session(0, 0, VISITOR, settings, false, Settled)]
    requires st.conns == map[0 := Conn(Some(0), Some(settings), [])]
    ensures Do(st, Close(0)) ==
            st.(sessions := map[0 := Session(0, 0, VISITOR, settings, false, Closing)],
                conns := map[0 := Conn(Some(0), Some(settings), [Control(0)])])
  {
    assert [] + [Control(0)] == [Control(0)];
  }

  lemma ControlStep(st: State, settings: Settings)
    requires st.sessions == map[0 := Session(0, 0, VISITOR, settings, false, Closing)]
    requires st.conns == map[0 := Conn(Some(0), Some(settings), [Control(0)])]
    ensures Do(st, Execute(0, true)) ==
            st.(sessions := map[0 := Session(0, 0, VISITOR, settings, false, Closed)],
                conns := map[0 := Conn(Some(0), None, [])])
  {
    hide RunData, RunBegin, RunConfig;
    assert [Control(0)][1..] == [];
  }

  lemma ReleaseStep(st: State, settings: Settings)
    requires st.sessions == map[0 := Session(0, 0, VISITOR, settings, false, Closed)]
    requires st.conns == map[0 := Conn(Some(0), None, [])]
    ensures Do(st, Release(0)) ==
            st.(sessions := map[0 := Session(0, 0, VISITOR, settings, false, Released)], conns := map[0 := FRESH])
  {
  }

  lemma LateIssue(st: State, text: string, plain: string)
    requires IsTransactionControl(text) && !IsTransactionControl(plain) && st.log == []
    requires st.queries == map[0 := Query(0, VISITOR, text, true)]
    requires 0 in st.sessions && st.sessions[0].conn == 0 && 1 in st.sessions && st.sessions[1].conn == 0
    requires st.sessions[1].alive && 1 in st.handles && st.handles[1] == Handle(1, OTHER)
    requires ConnAt(st, 0).queue == []
    ensures Run(Do(st, Build(1, 1, plain, false)), [Issue(0), Issue(1), Execute(0, true), Execute(0, true)]).log
         == [Ran(Query(1, OTHER, plain, false), None)]
  {
    hide IsTransactionControl, Run;
    var built := Do(st, Build(1, 1, plain, false));
    assert built.queries == map[0 := Query(0, VISITOR, text, true), 1 := Query(1, OTHER, plain, false)];
    EndingStripsNext(built, 0, 0, 1);
    assert [] + [Ran(Query(1, OTHER, plain, false), None)] == [Ran(Query(1, OTHER, plain, false), None)];
  }

  // ---- Exactly which queries are safe ---------------------------------------------------------------------

  /** A query as an application writes it: its text, and whether the server ends the transaction on it. */
  datatype Written = Written(text: string, ends: bool)

  /** The application builds only these. */
  ghost predicate BuildsOnly(actions: seq<Action>, allowed: set<Written>) {
    forall a | a in actions && a.Build? :: Written(a.text, a.ends) in allowed
  }

  /**
   * An application that builds only the allowed queries, at least one of them plain, leaks in no schedule exactly when
   * none of them ends the transaction. What the guard lets through besides makes no difference.
   */
  lemma SafeQueriesIff(allowed: set<Written>, plain: string)
    requires Written(plain, false) in allowed && !IsTransactionControl(plain)
    ensures (forall actions | BuildsOnly(actions, allowed) :: Isolated(Run(EMPTY, actions).log))
            <==> forall q | q in allowed :: !q.ends
  {
    hide IsTransactionControl, Run, Do;
    if q :| q in allowed && q.ends {
      EndingRunEscapes(q.text, plain);
      var actions := EndingRun(q.text, plain);
      OnlyBuilds(actions, q.text, plain, allowed);
      assert Run(EMPTY, actions).log[0] in Run(EMPTY, actions).log;
      assert !Isolated(Run(EMPTY, actions).log);
    } else {
      forall actions | BuildsOnly(actions, allowed)
        ensures Isolated(Run(EMPTY, actions).log)
      {
        assert EndsNothing(actions);
        IsolatedUnlessEnded(actions);
      }
    }
  }

  lemma OnlyBuilds(actions: seq<Action>, text: string, plain: string, allowed: set<Written>)
    requires actions == EndingRun(text, plain) && Written(text, true) in allowed && Written(plain, false) in allowed
    ensures BuildsOnly(actions, allowed)
  {
    hide Run, Do;
  }

  /** The empty query is plain, so the proviso above is never out of reach. */
  lemma EmptyTextIsPlain()
    ensures !IsTransactionControl("")
  {
  }
}
