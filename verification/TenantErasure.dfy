/**
 * Queries that are syntax errors to the server change nothing: a run with them has the same effect as the run with them
 * erased. So isolation needs only that callbacks never end the transaction, whatever the liveness guard lets through.
 */
module TenantErasure {
  import opened Options
  import opened TenantTx
  import opened TenantIsolation

  predicate Junk(stmt: Stmt) {
    stmt.Data? && SyntaxError(stmt.query)
  }

  /** The queue without its syntax errors. */
  function Sound(queue: seq<Stmt>): seq<Stmt> {
    if queue == [] then [] else (if Junk(queue[0]) then [] else [queue[0]]) + Sound(queue[1..])
  }

  function EraseConn(conn: Conn): Conn {
    conn.(queue := Sound(conn.queue))
  }

  /** The state as it would be had no such query been built. */
  function Erase(st: State): State {
    st.(conns := map c | c in st.conns :: EraseConn(st.conns[c]),
        queries := map q | q in st.queries && !SyntaxError(st.queries[q]) :: st.queries[q])
  }

  lemma {:induction false} SoundJoins(a: seq<Stmt>, b: seq<Stmt>)
    ensures Sound(a + b) == Sound(a) + Sound(b)
  {
    hide SyntaxError;
    if a == [] {
      assert a + b == b;
    } else {
      SoundJoins(a[1..], b);
      assert (a + b)[1..] == a[1..] + b;
    }
  }

  lemma SoundOne(stmt: Stmt)
    ensures Sound([stmt]) == if Junk(stmt) then [] else [stmt]
  {
    hide SyntaxError;
    assert [stmt][1..] == [];
  }

  lemma ErasedConn(st: State, c: nat)
    ensures ConnAt(Erase(st), c) == EraseConn(ConnAt(st, c))
  {
    hide SyntaxError;
  }

  lemma EraseSetConn(st: State, c: nat, conn: Conn)
    ensures Erase(SetConn(st, c, conn)) == SetConn(Erase(st), c, EraseConn(conn))
  {
    hide SyntaxError, Sound;
  }

  lemma EraseSetPhase(st: State, s: nat, phase: Phase)
    requires s in st.sessions
    ensures Erase(SetPhase(st, s, phase)) == SetPhase(Erase(st), s, phase)
  {
    hide SyntaxError, Sound;
  }

  lemma EraseEnqueue(st: State, c: nat, stmt: Stmt)
    requires !Junk(stmt)
    ensures Erase(Enqueue(st, c, [stmt])) == Enqueue(Erase(st), c, [stmt])
  {
    hide SyntaxError, Sound, Erase;
    SoundJoins(ConnAt(st, c).queue, [stmt]);
    SoundOne(stmt);
    ErasedConn(st, c);
    EraseSetConn(st, c, ConnAt(st, c).(queue := ConnAt(st, c).queue + [stmt]));
  }

  /** Every session's connection is in the pool's table. */
  ghost predicate Pooled(st: State) {
    forall s | s in st.sessions :: st.sessions[s].conn in st.conns
  }

  lemma PooledStep(st: State, a: Action)
    requires Pooled(st)
    ensures Pooled(Do(st, a))
  {
    hide Pooled, DoExecute, DoIssue;
    if a.Execute? {
      PooledExecute(st, a.conn, a.ok);
    } else if a.Issue? {
      PooledIssue(st, a.query);
    } else {
      PooledOther(st, a);
    }
  }

  lemma PooledSetup(st: State, s: nat, c: nat, rest: Conn, ok: bool)
    requires Pooled(st)
    ensures Pooled(RunBegin(st, s, c, rest, ok)) && Pooled(RunConfig(st, s, c, rest, ok))
  {
    hide SettingsFor;
  }

  lemma PooledData(st: State, q: Query, c: nat, rest: Conn, ok: bool)
    requires Pooled(st)
    ensures Pooled(RunData(st, q, c, rest, ok))
  {
    hide SyntaxError;
  }

  lemma PooledControl(st: State, s: nat, c: nat, rest: Conn)
    requires Pooled(st)
    ensures Pooled(RunControl(st, s, c, rest))
  {
  }

  lemma PooledExecute(st: State, c: nat, ok: bool)
    requires Pooled(st)
    ensures Pooled(DoExecute(st, c, ok))
  {
    hide Pooled, RunData, RunBegin, RunConfig, RunControl;
    var conn := ConnAt(st, c);
    if conn.queue != [] {
      var rest := conn.(queue := conn.queue[1..]);
      match conn.queue[0]
      case Data(query) => PooledData(st, query, c, rest, ok);
      case Begin(s) => PooledSetup(st, s, c, rest, ok);
      case SetConfig(s) => PooledSetup(st, s, c, rest, ok);
      case Control(s) => PooledControl(st, s, c, rest);
    }
  }

  lemma PooledIssue(st: State, q: nat)
    requires Pooled(st)
    ensures Pooled(DoIssue(st, q))
  {
    hide IsTransactionControl;
  }

  lemma PooledOther(st: State, a: Action)
    requires Pooled(st) && !a.Execute? && !a.Issue?
    ensures Pooled(Do(st, a))
  {
    hide SettingsFor, IsTransactionControl;
  }

  /** The step is about a syntax error only. */
  predicate AboutJunk(st: State, a: Action) {
    match a
    case Build(_, _, text, ends) => IsTransactionControl(text) && !ends
    case Issue(q) => q in st.queries && SyntaxError(st.queries[q])
    case Execute(c, _) => ConnAt(st, c).queue != [] && Junk(ConnAt(st, c).queue[0])
    case _ => false
  }

  lemma JunkIsInvisible(st: State, a: Action)
    requires Pooled(st) && AboutJunk(st, a)
    ensures Erase(Do(st, a)) == Erase(st)
  {
    match a
    case Build(h, q, text, ends) =>
      hide IsTransactionControl, Sound;
    case Issue(q) =>
      hide IsTransactionControl, Erase;
      IssuedJunk(st, q);
    case Execute(c, ok) =>
      hide IsTransactionControl, Erase;
      ExecutedJunk(st, c, ok);
    case _ =>
  }

  lemma IssuedJunk(st: State, q: nat)
    requires Pooled(st) && q in st.queries && SyntaxError(st.queries[q])
    ensures Erase(DoIssue(st, q)) == Erase(st)
  {
    hide IsTransactionControl, Erase, Sound;
    if DoIssue(st, q) != st {
      var c := st.sessions[st.queries[q].session].conn;
      var conn := ConnAt(st, c);
      SoundJoins(conn.queue, [Data(st.queries[q])]);
      SoundOne(Data(st.queries[q]));
      EraseSetConn(st, c, conn.(queue := conn.queue + [Data(st.queries[q])]));
      assert Sound(conn.queue) + [] == Sound(conn.queue);
      EraseSame(st, c);
    }
  }

  lemma EraseSame(st: State, c: nat)
    requires c in st.conns
    ensures SetConn(Erase(st), c, EraseConn(ConnAt(st, c))) == Erase(st)
  {
    hide SyntaxError, Sound;
  }

  lemma ExecutedJunk(st: State, c: nat, ok: bool)
    requires ConnAt(st, c).queue != [] && Junk(ConnAt(st, c).queue[0])
    ensures Erase(DoExecute(st, c, ok)) == Erase(st)
  {
    hide SyntaxError, Erase;
    var conn := ConnAt(st, c);
    var rest := conn.(queue := conn.queue[1..]);
    assert DoExecute(st, c, ok) == SetConn(st, c, rest);
    EraseSetConn(st, c, rest);
    assert Sound(conn.queue) == Sound(rest.queue);
    EraseSame(st, c);
  }

  /** Any other step that does something does the same with the syntax errors erased. */
  lemma StepErases(st: State, a: Action)
    requires !AboutJunk(st, a) && Do(st, a) != st
    ensures Do(Erase(st), a) == Erase(Do(st, a))
  {
    match a
    case Open(c, s, conn) => OpenErases(st, c, s, conn);
    case Enter(s, child, h) => EnterErases(st, s, child, h);
    case Build(h, q, text, ends) => BuildErases(st, h, q, text, ends);
    case Issue(q) => IssueErases(st, q);
    case Close(s) => CloseErases(st, s);
    case Execute(c, ok) => ExecuteErases(st, c, ok);
    case Release(s) => ReleaseErases(st, s);
    case _ => PlainErases(st, a);
  }

  lemma PlainErases(st: State, a: Action)
    requires a.Arrive? || a.Mint? || a.Fork? || a.ActFor? || a.Join? || a.Settle?
    ensures Do(Erase(st), a) == Erase(Do(st, a))
  {
    hide SyntaxError, Sound, SettingsFor;
  }

  lemma OpenErases(st: State, c: nat, s: nat, conn: nat)
    ensures DoOpen(Erase(st), c, s, conn) == Erase(DoOpen(st, c, s, conn))
  {
    hide SyntaxError, Sound, SettingsFor, Junk;
    ErasedConn(st, conn);
    var queue := ConnAt(st, conn).queue;
    SoundSetup(queue, s);
  }

  lemma SoundSetup(queue: seq<Stmt>, s: nat)
    ensures Sound(queue + [Begin(s), SetConfig(s)]) == Sound(queue) + [Begin(s), SetConfig(s)]
  {
    hide SyntaxError;
    SoundJoins(queue, [Begin(s), SetConfig(s)]);
    assert [Begin(s), SetConfig(s)][1..] == [SetConfig(s)];
    SoundOne(SetConfig(s));
  }

  lemma EnterErases(st: State, s: nat, child: nat, h: nat)
    requires DoEnter(st, s, child, h) != st
    ensures DoEnter(Erase(st), s, child, h) == Erase(DoEnter(st, s, child, h))
  {
    hide SyntaxError, Junk;
    ErasedConn(st, st.sessions[s].conn);
    EraseSetPhase(st, s, Running);
  }

  lemma BuildErases(st: State, h: nat, q: nat, text: string, ends: bool)
    requires DoBuild(st, h, q, text, ends) != st && !(IsTransactionControl(text) && !ends)
    ensures DoBuild(Erase(st), h, q, text, ends) == Erase(DoBuild(st, h, q, text, ends))
  {
    hide IsTransactionControl, Sound;
  }

  lemma IssueErases(st: State, q: nat)
    requires q in st.queries ==> !SyntaxError(st.queries[q])
    ensures DoIssue(Erase(st), q) == Erase(DoIssue(st, q))
  {
    hide SyntaxError, Sound, Passes, Enqueue;
    if q in st.queries && st.queries[q].session in st.sessions {
      EraseEnqueue(st, st.sessions[st.queries[q].session].conn, Data(st.queries[q]));
    }
  }

  lemma CloseErases(st: State, s: nat)
    ensures DoClose(Erase(st), s) == Erase(DoClose(st, s))
  {
    hide SyntaxError, Sound, Enqueue;
    if s in st.sessions {
      EraseSetPhase(st, s, Closing);
      EraseEnqueue(SetPhase(st, s, Closing), st.sessions[s].conn, Control(s));
    }
  }

  lemma ReleaseErases(st: State, s: nat)
    ensures DoRelease(Erase(st), s) == Erase(DoRelease(st, s))
  {
    hide SyntaxError, Sound, SetConn;
    if s in st.sessions && st.sessions[s].phase == Closed {
      var c := st.sessions[s].conn;
      ErasedConn(st, c);
      EraseSetPhase(st, s, Released);
      EraseSetConn(SetPhase(st, s, Released), c, ConnAt(st, c).(owner := None));
    }
  }

  lemma ExecuteErases(st: State, c: nat, ok: bool)
    requires ConnAt(st, c).queue != [] && !Junk(ConnAt(st, c).queue[0])
    ensures DoExecute(Erase(st), c, ok) == Erase(DoExecute(st, c, ok))
  {
    hide SyntaxError, Erase, RunData, RunBegin, RunConfig, RunControl;
    var conn := ConnAt(st, c);
    var rest := conn.(queue := conn.queue[1..]);
    ErasedConn(st, c);
    var erased := ConnAt(Erase(st), c);
    assert erased.queue == [conn.queue[0]] + Sound(rest.queue);
    assert erased.(queue := erased.queue[1..]) == EraseConn(rest);
    match conn.queue[0]
    case Data(query) => DataErases(st, query, c, rest, ok);
    case Begin(s) => SetupErases(st, s, c, rest, ok);
    case SetConfig(s) => SetupErases(st, s, c, rest, ok);
    case Control(s) => ControlErases(st, s, c, rest);
  }

  lemma DataErases(st: State, query: Query, c: nat, rest: Conn, ok: bool)
    requires !SyntaxError(query)
    ensures RunData(Erase(st), query, c, EraseConn(rest), ok) == Erase(RunData(st, query, c, rest, ok))
  {
    hide SyntaxError, Sound, SetConn;
    EraseSetConn(st, c, rest);
    EraseSetConn(st, c, rest.(settings := None));
  }

  lemma SetupErases(st: State, s: nat, c: nat, rest: Conn, ok: bool)
    ensures RunBegin(Erase(st), s, c, EraseConn(rest), ok) == Erase(RunBegin(st, s, c, rest, ok))
    ensures RunConfig(Erase(st), s, c, EraseConn(rest), ok) == Erase(RunConfig(st, s, c, rest, ok))
  {
    hide SyntaxError, Junk, SetConn;
    EraseSetConn(st, c, rest);
    if s in st.sessions {
      EraseSetConn(st, c, rest.(settings := Some(st.sessions[s].settings)));
      EraseSetPhase(st, s, Settled);
      EraseSetConn(SetPhase(st, s, Settled), c, rest.(queue := []));
    }
  }

  lemma ControlErases(st: State, s: nat, c: nat, rest: Conn)
    ensures RunControl(Erase(st), s, c, EraseConn(rest)) == Erase(RunControl(st, s, c, rest))
  {
    hide SyntaxError, Sound, SetConn;
    if s in st.sessions {
      EraseSetPhase(st, s, Closed);
      EraseSetConn(SetPhase(st, s, Closed), c, rest.(settings := None));
    }
  }

  // ---- Whole runs ---------------------------------------------------------------------------------------

  /** The run without the steps about syntax errors, and without those that do nothing. */
  function Erased(st: State, actions: seq<Action>): seq<Action> {
    if actions == [] then []
    else
      var init, a := actions[..|actions| - 1], actions[|actions| - 1];
      Erased(st, init) + if AboutJunk(Run(st, init), a) || Do(Run(st, init), a) == Run(st, init) then [] else [a]
  }

  /** What is left of a run builds no syntax error. */
  lemma {:induction false} ErasedBuilds(actions: seq<Action>)
    ensures forall a | a in Erased(EMPTY, actions) ::
              a in actions && (a.Build? ==> !(IsTransactionControl(a.text) && !a.ends))
  {
    hide Do, Run, IsTransactionControl, Junk, SyntaxError;
    if actions != [] {
      ErasedBuilds(actions[..|actions| - 1]);
    }
  }

  lemma {:induction false} ErasedRuns(actions: seq<Action>)
    ensures Pooled(Run(EMPTY, actions))
    ensures Run(EMPTY, Erased(EMPTY, actions)) == Erase(Run(EMPTY, actions))
  {
    hide Do, Erase, AboutJunk, Pooled;
    if actions == [] {
      ErasedEmpty();
    } else {
      var init, a := actions[..|actions| - 1], actions[|actions| - 1];
      ErasedRuns(init);
      var st := Run(EMPTY, init);
      PooledStep(st, a);
      var done := Erased(EMPTY, init);
      if AboutJunk(st, a) {
        JunkIsInvisible(st, a);
        assert done + [] == done;
      } else if Do(st, a) == st {
        assert done + [] == done;
      } else {
        StepErases(st, a);
        assert (done + [a])[..|done|] == done;
      }
    }
  }

  lemma ErasedEmpty()
    ensures Erase(EMPTY) == EMPTY && Pooled(EMPTY)
  {
  }

  /** No query the application builds ends the transaction. */
  ghost predicate EndsNothing(actions: seq<Action>) {
    forall a | a in actions && a.Build? :: !a.ends
  }

  /**
   * Over every schedule in which callbacks build no query that ends the transaction - whatever text the guard lets
   * through - each data statement ran under the settings of the principal whose `run` built it.
   */
  lemma IsolatedUnlessEnded(actions: seq<Action>)
    requires EndsNothing(actions)
    ensures Isolated(Run(EMPTY, actions).log)
    ensures forall r | r in Run(EMPTY, actions).log :: RanAsBuilder(r)
  {
    hide IsTransactionControl, Run, Erased;
    ErasedRuns(actions);
    ErasedBuilds(actions);
    var erased := Erased(EMPTY, actions);
    assert Tame(erased);
    EveryStatementIsolated(erased);
  }
}
