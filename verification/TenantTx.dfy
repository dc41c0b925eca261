/**
 * Tenant-scoped transactions over a pool of connections: who may join, what the liveness flag lets through,
 * and under which settings each statement runs.
 */
module TenantTx {
  import opened Options
  import opened Text

  datatype Role = Owner | Staff

  datatype Principal = User(userId: nat, tenant: nat, role: Role) | Visitor(tenant: nat)

  datatype Scope = All | Assigned(staffUserId: nat)

  /** The three settings, always written together. */
  datatype Settings = Settings(tenant: nat, scope: Scope)

  function ScopeFor(p: Principal): Scope {
    if p.User? && p.role == Staff then Assigned(p.userId) else All
  }

  function SettingsFor(p: Principal): Settings {
    Settings(p.tenant, ScopeFor(p))
  }

  // ---- Transaction control ----------------------------------------------------------------------------

  /** `toLowerCase` of one character, exact for comparison with ASCII words. */
  function LowerChar(c: char): string {
    if 'A' <= c <= 'Z' then [(c as int + 32) as char]
    else if c == '\U{212A}' then "k"
    else if c == '\U{0130}' then "i\U{0307}"
    else [c]
  }

  function Lower(s: string): string {
    if s == "" then "" else LowerChar(s[0]) + Lower(s[1..])
  }

  predicate IsTransactionControl(text: string) {
    Lower(Trim(text)) == "commit" || Lower(Trim(text)) == "rollback"
  }

  /** The same letters in either case; a Kelvin sign lower-cases to k. */
  predicate SameLetters(w: string, word: string) {
    && |w| == |word|
    && forall i | 0 <= i < |w| ::
         || w[i] == word[i]
         || ('a' <= word[i] <= 'z' && w[i] as int == word[i] as int - 32)
         || (word[i] == 'k' && w[i] == '\U{212A}')
  }

  predicate Word(s: string) {
    forall i | 0 <= i < |s| :: 'a' <= s[i] <= 'z'
  }

  lemma {:induction false} LowerIsIff(w: string, word: string)
    requires Word(word)
    ensures Lower(w) == word <==> SameLetters(w, word)
  {
    if w != "" && word != "" {
      LowerIsIff(w[1..], word[1..]);
      LowerHeadIff(w, word);
    } else if w != "" {
      assert |LowerChar(w[0])| >= 1;
    }
  }

  lemma LowerHeadIff(w: string, word: string)
    requires w != "" && word != "" && Word(word)
    ensures Lower(w) == word <==> LowerChar(w[0]) == [word[0]] && Lower(w[1..]) == word[1..]
  {
    var head := LowerChar(w[0]);
    if |head| == 1 {
      assert Lower(w)[0] == head[0] && Lower(w)[1..] == Lower(w[1..]);
      assert word == [word[0]] + word[1..];
    } else {
      assert head == "i\U{0307}" && Lower(w)[1] == '\U{0307}';
    }
  }

  /** The word, in any case, with any white space around it. */
  ghost predicate Surrounded(text: string, word: string) {
    exists i, j | 0 <= i <= j <= |text| ::
      AllSpaces(text[..i]) && AllSpaces(text[j..]) && SameLetters(text[i..j], word)
  }

  lemma LettersShow(w: string, word: string)
    requires Word(word) && word != "" && SameLetters(w, word)
    ensures w != "" && Trimmed(w)
  {
    assert !IsSpace(w[0]) && !IsSpace(w[|w| - 1]);
  }

  lemma SurroundedIff(text: string, word: string)
    requires Word(word) && word != ""
    ensures Lower(Trim(text)) == word <==> Surrounded(text, word)
  {
    hide IsSpace, Lower, Trim, SameLetters;
    if Lower(Trim(text)) == word {
      var i, j := TrimIs(text);
      LowerIsIff(text[i..j], word);
    }
    if i, j :| 0 <= i <= j <= |text| && AllSpaces(text[..i]) && AllSpaces(text[j..]) && SameLetters(text[i..j], word) {
      var w := text[i..j];
      LettersShow(w, word);
      TrimFinds(text[..i], w, text[j..]);
      assert text == text[..i] + w + text[j..];
      LowerIsIff(w, word);
    }
  }

  /** The guard lets through exactly the word commit or rollback, in any case, with any white space around it. */
  lemma ControlIff(text: string)
    ensures IsTransactionControl(text) <==> Surrounded(text, "commit") || Surrounded(text, "rollback")
  {
    hide Surrounded, Lower, Trim;
    SurroundedIff(text, "commit");
    SurroundedIff(text, "rollback");
  }

  /** The liveness guard on the session's `prepareQuery`. */
  predicate Passes(alive: bool, text: string) {
    alive || IsTransactionControl(text)
  }

  // ---- State ------------------------------------------------------------------------------------------

  /**
   * Opening: BEGIN and the settings are on their way. Running: the callback runs. Settled: it returned.
   * Closing: COMMIT or ROLLBACK is queued. Closed: it ran. Released: the connection is back in the pool.
   */
  datatype Phase = Opening | Running | Settled | Closing | Closed | Released

  datatype Session = Session(conn: nat, request: nat, opener: Principal, settings: Settings, alive: bool, phase: Phase)

  /** `builder` is the principal whose `run` built the query; `ends`: the server would end the transaction on it. */
  datatype Query = Query(session: nat, builder: Principal, text: string, ends: bool)

  datatype Stmt = Begin(session: nat) | SetConfig(session: nat) | Data(query: Query) | Control(session: nat)

  /** A pooled connection: who has it checked out, its settings, and the statements queued on it, first in first out. */
  datatype Conn = Conn(owner: Option<nat>, settings: Option<Settings>, queue: seq<Stmt>)

  /** A chain of asynchronous work: the request it acts for and the transaction it was started inside. */
  datatype Context = Context(request: nat, active: Option<nat>)

  /** What `run` hands its callback. */
  datatype Handle = Handle(session: nat, builder: Principal)

  /** A data statement the server executed, and the settings it executed under. */
  datatype Ran = Ran(query: Query, under: Option<Settings>)

  datatype State = State(
    principals: map<nat, Principal>,
    contexts: map<nat, Context>,
    sessions: map<nat, Session>,
    conns: map<nat, Conn>,
    handles: map<nat, Handle>,
    queries: map<nat, Query>,
    log: seq<Ran>)

  datatype Action =
    | Arrive(c: nat, request: nat)
    | Mint(request: nat, principal: Principal)
    | Fork(c: nat, child: nat)
    | ActFor(c: nat, request: nat)
    | Open(c: nat, s: nat, conn: nat)
    | Enter(s: nat, child: nat, handle: nat)
    | Join(c: nat, handle: nat)
    | Build(handle: nat, query: nat, text: string, ends: bool)
    | Issue(query: nat)
    | Settle(s: nat)
    | Close(s: nat)
    | Execute(conn: nat, ok: bool)
    | Release(s: nat)

  const FRESH := Conn(None, None, [])

  function ConnAt(st: State, c: nat): Conn {
    if c in st.conns then st.conns[c] else FRESH
  }

  function SetConn(st: State, c: nat, conn: Conn): State {
    st.(conns := st.conns[c := conn])
  }

  function SetPhase(st: State, s: nat, phase: Phase): State
    requires s in st.sessions
  {
    st.(sessions := st.sessions[s := st.sessions[s].(phase := phase)])
  }

  function Enqueue(st: State, conn: nat, stmts: seq<Stmt>): State {
    SetConn(st, conn, ConnAt(st, conn).(queue := ConnAt(st, conn).queue + stmts))
  }

  // ---- Steps ------------------------------------------------------------------------------------------

  /** Minting throws the second time. */
  function DoMint(st: State, r: nat, p: Principal): State {
    if r in st.principals then st else st.(principals := st.principals[r := p])
  }

  /** The context may call `run`: its request has a principal. */
  predicate Acts(st: State, c: nat) {
    c in st.contexts && st.contexts[c].request in st.principals
  }

  function PrincipalOf(st: State, c: nat): Principal
    requires Acts(st, c)
  {
    st.principals[st.contexts[c].request]
  }

  /** `run` outside a transaction: check out an idle connection, queue BEGIN and the settings. */
  function DoOpen(st: State, c: nat, s: nat, conn: nat): State {
    if !Acts(st, c) || st.contexts[c].active != None || s in st.sessions || ConnAt(st, conn).owner != None then st
    else
      var k := ConnAt(st, conn);
      var p := PrincipalOf(st, c);
      var session := Session(conn, st.contexts[c].request, p, SettingsFor(p), true, Opening);
      st.(sessions := st.sessions[s := session],
          conns := st.conns[conn := k.(owner := Some(s), queue := k.queue + [Begin(s), SetConfig(s)])])
  }

  /** The settings ran: the callback starts, in a context that carries the transaction. */
  function DoEnter(st: State, s: nat, child: nat, handle: nat): State {
    if s !in st.sessions || child in st.contexts || handle in st.handles
       || st.sessions[s].phase != Opening || ConnAt(st, st.sessions[s].conn).queue != [] then st
    else
      SetPhase(st, s, Running).(
        contexts := st.contexts[child := Context(st.sessions[s].request, Some(s))],
        handles := st.handles[handle := Handle(s, st.sessions[s].opener)])
  }

  /** The three refusals of a joining `run`: a settled transaction, another tenant, another scope. */
  predicate MayJoin(st: State, c: nat) {
    && Acts(st, c) && st.contexts[c].active.Some? && st.contexts[c].active.value in st.sessions
    && var session := st.sessions[st.contexts[c].active.value];
       session.alive && session.settings.tenant == PrincipalOf(st, c).tenant
       && session.settings.scope == ScopeFor(PrincipalOf(st, c))
  }

  function DoJoin(st: State, c: nat, handle: nat): State {
    if !MayJoin(st, c) || handle in st.handles then st
    else st.(handles := st.handles[handle := Handle(st.contexts[c].active.value, PrincipalOf(st, c))])
  }

  /** Building is lazy: nothing is issued until the query is awaited, whenever and wherever that is. */
  function DoBuild(st: State, h: nat, q: nat, text: string, ends: bool): State {
    if h !in st.handles || q in st.queries then st
    else st.(queries := st.queries[q := Query(st.handles[h].session, st.handles[h].builder, text, ends)])
  }

  /** Awaiting a query issues it through its session's guard, onto the connection the session was given. */
  function DoIssue(st: State, q: nat): State {
    if q !in st.queries || st.queries[q].session !in st.sessions then st
    else
      var query := st.queries[q];
      var session := st.sessions[query.session];
      if Passes(session.alive, query.text) then Enqueue(st, session.conn, [Data(query)]) else st
  }

  /** The callback returned or threw: the flag flips before anything else happens. */
  function DoSettle(st: State, s: nat): State {
    if s !in st.sessions || st.sessions[s].phase != Running then st
    else st.(sessions := st.sessions[s := st.sessions[s].(alive := false, phase := Settled)])
  }

  /** The driver's own COMMIT or ROLLBACK; a failed COMMIT is followed by a ROLLBACK. */
  function DoClose(st: State, s: nat): State {
    if s !in st.sessions || (st.sessions[s].phase != Settled && st.sessions[s].phase != Closed) then st
    else Enqueue(SetPhase(st, s, Closing), st.sessions[s].conn, [Control(s)])
  }

  /**
   * Text the guard takes for commit or rollback though the server does not end the transaction on it - a no-break space
   * around the word, a Kelvin sign in it - is a syntax error to the server.
   */
  predicate SyntaxError(q: Query) {
    IsTransactionControl(q.text) && !q.ends
  }

  /** A data statement runs under whatever settings the connection has at that moment. */
  function RunData(st: State, query: Query, c: nat, rest: Conn, ok: bool): State {
    if !ok || SyntaxError(query) then SetConn(st, c, rest)
    else if query.ends then SetConn(st, c, rest.(settings := None))
    else SetConn(st, c, rest).(log := st.log + [Ran(query, rest.settings)])
  }

  /** BEGIN or the settings failed: the callback never runs, and nobody flips the flag. */
  function SetupFailed(st: State, s: nat, c: nat, rest: Conn): State {
    if s !in st.sessions then st else SetConn(SetPhase(st, s, Settled), c, rest.(queue := []))
  }

  function RunBegin(st: State, s: nat, c: nat, rest: Conn, ok: bool): State {
    if ok then SetConn(st, c, rest) else SetupFailed(st, s, c, rest)
  }

  /** All three settings in one statement. */
  function RunConfig(st: State, s: nat, c: nat, rest: Conn, ok: bool): State {
    if s in st.sessions && ok then SetConn(st, c, rest.(settings := Some(st.sessions[s].settings)))
    else SetupFailed(st, s, c, rest)
  }

  /** COMMIT or ROLLBACK ends the transaction, and the settings with it. */
  function RunControl(st: State, s: nat, c: nat, rest: Conn): State {
    if s !in st.sessions then st else SetConn(SetPhase(st, s, Closed), c, rest.(settings := None))
  }

  /** The server executes the head of a connection's queue; `ok` is false when it answered with an error. */
  function DoExecute(st: State, c: nat, ok: bool): State {
    var conn := ConnAt(st, c);
    if conn.queue == [] then st
    else
      var rest := conn.(queue := conn.queue[1..]);
      match conn.queue[0]
      case Data(query) => RunData(st, query, c, rest, ok)
      case Begin(s) => RunBegin(st, s, c, rest, ok)
      case SetConfig(s) => RunConfig(st, s, c, rest, ok)
      case Control(s) => RunControl(st, s, c, rest)
  }

  /** The closing statement was answered: the connection goes back to the pool. */
  function DoRelease(st: State, s: nat): State {
    if s !in st.sessions || st.sessions[s].phase != Closed then st
    else
      var c := st.sessions[s].conn;
      SetConn(SetPhase(st, s, Released), c, ConnAt(st, c).(owner := None))
  }

  function Do(st: State, a: Action): State {
    match a
    case Arrive(c, r) => if c in st.contexts then st else st.(contexts := st.contexts[c := Context(r, None)])
    case Mint(r, p) => DoMint(st, r, p)
    case Fork(c, child) =>
      if c !in st.contexts || child in st.contexts then st
      else st.(contexts := st.contexts[child := st.contexts[c]])
    case ActFor(c, r) =>
      if c !in st.contexts then st else st.(contexts := st.contexts[c := st.contexts[c].(request := r)])
    case Open(c, s, conn) => DoOpen(st, c, s, conn)
    case Enter(s, child, h) => DoEnter(st, s, child, h)
    case Join(c, h) => DoJoin(st, c, h)
    case Build(h, q, text, ends) => DoBuild(st, h, q, text, ends)
    case Issue(q) => DoIssue(st, q)
    case Settle(s) => DoSettle(st, s)
    case Close(s) => DoClose(st, s)
    case Execute(c, ok) => DoExecute(st, c, ok)
    case Release(s) => DoRelease(st, s)
  }

  function Run(st: State, actions: seq<Action>): State {
    if actions == [] then st else Do(Run(st, actions[..|actions| - 1]), actions[|actions| - 1])
  }

  const EMPTY := State(map[], map[], map[], map[], map[], map[], [])

  /** The application builds no query the guard or the server would take for the end of a transaction. */
  ghost predicate Tame(actions: seq<Action>) {
    forall a | a in actions :: a.Build? ==> !a.ends && !IsTransactionControl(a.text)
  }
}
