/** Refresh-token families and sessions (services/identity/identity/identity.go). */
module Tokens {
  import opened Wrappers

  // Hashes of random tokens, and ids; a session is named by its access token.
  type Token = nat
  type Session = nat
  type Family = nat
  type User = nat

  datatype TokenRow = TokenRow(family: Family, user: User, session: Session, expires: int, used: bool, revoked: bool)
  datatype SessionRow = SessionRow(user: User, expires: int, revoked: bool)

  /** The two tables. `chains` is history: the tokens of each family in the order they were issued. */
  datatype State = State(tokens: map<Token, TokenRow>, sessions: map<Session, SessionRow>, chains: map<Family, seq<Token>>)

  const NOBODY := State(map[], map[], map[])
  const ACCESS_TTL: nat := 30 * 60
  const REFRESH_TTL: nat := 30 * 24 * 3600

  // ---- statements and transactions ---------------------------------------------------------

  /** issue: a session and the first token of a new family. A taken primary key rolls back. */
  function Issue(st: State, user: User, f: Family, t: Token, s: Session, now: int): State {
    if t in st.tokens || s in st.sessions || f in st.chains then st
    else State(st.tokens[t := TokenRow(f, user, s, now + REFRESH_TTL, false, false)],
               st.sessions[s := SessionRow(user, now + ACCESS_TTL, false)], st.chains[f := [t]])
  }

  predicate Usable(st: State, t: Token) { t in st.tokens && !st.tokens[t].used && !st.tokens[t].revoked }

  /** The rotation: mark used under the guard, then insert the session and the next token. */
  function Rotate(st: State, t: Token, next: Token, s: Session, now: int): State {
    if !Usable(st, t) || next in st.tokens || s in st.sessions then st
    else
      var row := st.tokens[t];
      State(st.tokens[t := row.(used := true)][next := TokenRow(row.family, row.user, s, now + REFRESH_TTL, false, false)],
            st.sessions[s := SessionRow(row.user, now + ACCESS_TTL, false)],
            st.chains[row.family := (if row.family in st.chains then st.chains[row.family] else []) + [next]])
  }

  function RevokeTokens(st: State, f: Family): State {
    st.(tokens := map t | t in st.tokens :: if st.tokens[t].family == f then st.tokens[t].(revoked := true) else st.tokens[t])
  }

  predicate InFamily(st: State, s: Session, f: Family) {
    exists t :: t in st.tokens && st.tokens[t].family == f && st.tokens[t].session == s
  }

  function RevokeSessions(st: State, f: Family): State {
    st.(sessions := map s | s in st.sessions :: if InFamily(st, s, f) then st.sessions[s].(revoked := true) else st.sessions[s])
  }

  function SignOut(st: State, user: User): State {
    st.(tokens := map t | t in st.tokens :: if st.tokens[t].user == user then st.tokens[t].(revoked := true) else st.tokens[t],
        sessions := map s | s in st.sessions :: if st.sessions[s].user == user then st.sessions[s].(revoked := true) else st.sessions[s])
  }

  function LogOut(st: State, s: Session): State {
    if s in st.sessions then st.(sessions := st.sessions[s := st.sessions[s].(revoked := true)]) else st
  }

  predicate Authenticates(st: State, s: Session, now: int) {
    s in st.sessions && !st.sessions[s].revoked && st.sessions[s].expires > now
  }

  // ---- the invariant ------------------------------------------------------------------------

  /** A family is a chain: its tokens are those issued for it, and exactly the last one is unused. */
  ghost predicate Chain(st: State, f: Family) {
    f in st.chains ==>
      && st.chains[f] != []
      && (forall i, j :: 0 <= i < j < |st.chains[f]| ==> st.chains[f][i] != st.chains[f][j])
      && (forall i :: 0 <= i < |st.chains[f]| ==> st.chains[f][i] in st.tokens && st.tokens[st.chains[f][i]].family == f)
      && (forall i :: 0 <= i < |st.chains[f]| ==> st.tokens[st.chains[f][i]].user == st.tokens[st.chains[f][0]].user)
      && (forall i :: 0 <= i < |st.chains[f]| ==> (st.tokens[st.chains[f][i]].used <==> i < |st.chains[f]| - 1))
  }

  ghost predicate InChain(st: State, t: Token) {
    t in st.tokens ==>
      && st.tokens[t].family in st.chains && t in st.chains[st.tokens[t].family]
      && st.tokens[t].session in st.sessions && st.sessions[st.tokens[t].session].user == st.tokens[t].user
  }

  ghost predicate Valid(st: State) { (forall f :: Chain(st, f)) && (forall t :: InChain(st, t)) }

  /** At most one token of a family can refresh. */
  lemma OneUsable(st: State, t: Token, u: Token)
    requires Valid(st) && Usable(st, t) && Usable(st, u) && st.tokens[t].family == st.tokens[u].family
    ensures t == u
  {
    var f := st.tokens[t].family;
    assert InChain(st, t) && InChain(st, u) && Chain(st, f);
    var i :| 0 <= i < |st.chains[f]| && st.chains[f][i] == t;
    var j :| 0 <= j < |st.chains[f]| && st.chains[f][j] == u;
  }

  /** Only the last token of a chain is rotated, and it gets one successor. */
  lemma RotationExtends(st: State, t: Token, next: Token, s: Session, now: int)
    requires Valid(st) && Rotate(st, t, next, s, now) != st
    ensures var f := st.tokens[t].family;
      f in st.chains && st.chains[f] != [] && st.chains[f][|st.chains[f]| - 1] == t
      && Rotate(st, t, next, s, now).chains == st.chains[f := st.chains[f] + [next]]
  {
    var f := st.tokens[t].family;
    assert InChain(st, t) && Chain(st, f);
    var i :| 0 <= i < |st.chains[f]| && st.chains[f][i] == t;
  }

  lemma RotateKeeps(st: State, t: Token, next: Token, s: Session, now: int)
    requires Valid(st)
    ensures Valid(Rotate(st, t, next, s, now))
  {
    var st2 := Rotate(st, t, next, s, now);
    if st2 != st {
      RotationExtends(st, t, next, s, now);
      var f := st.tokens[t].family;
      forall g ensures Chain(st2, g) {
        assert Chain(st, g) && Chain(st, f);
        if g == f { RotatedChain(st, t, next, s, now); }
      }
      forall u ensures InChain(st2, u) {
        assert InChain(st, u);
        if u in st.tokens && st.tokens[u].family == f { assert u in st.chains[f] + [next]; }
        if u == next { assert (st.chains[f] + [next])[|st.chains[f]|] == next; }
      }
    }
  }

  lemma RotatedChain(st: State, t: Token, next: Token, s: Session, now: int)
    requires Valid(st) && Rotate(st, t, next, s, now) != st
    ensures Chain(Rotate(st, t, next, s, now), st.tokens[t].family)
  {
    RotationExtends(st, t, next, s, now);
    var f := st.tokens[t].family;
    assert Chain(st, f);
    var old2, new2 := st.chains[f], Rotate(st, t, next, s, now).chains[f];
    assert forall i :: 0 <= i < |old2| ==> new2[i] == old2[i] && old2[i] != next;
  }

  lemma IssueKeeps(st: State, user: User, f: Family, t: Token, s: Session, now: int)
    requires Valid(st)
    ensures Valid(Issue(st, user, f, t, s, now))
  {
    var st2 := Issue(st, user, f, t, s, now);
    if st2 != st {
      forall g ensures Chain(st2, g) { assert Chain(st, g); }
      forall u ensures InChain(st2, u) {
        assert InChain(st, u);
        if u == t { assert [t][0] == t; }
      }
    }
  }

  /** Revoking touches neither the chains nor `used`. */
  lemma RevokingKeeps(st: State, st2: State)
    requires Valid(st) && st2.chains == st.chains && st2.tokens.Keys == st.tokens.Keys && st2.sessions.Keys == st.sessions.Keys
    requires forall t :: t in st.tokens ==> st2.tokens[t] == st.tokens[t].(revoked := st2.tokens[t].revoked)
    requires forall s :: s in st.sessions ==> st2.sessions[s] == st.sessions[s].(revoked := st2.sessions[s].revoked)
    ensures Valid(st2)
  {
    forall f ensures Chain(st2, f) { assert Chain(st, f); }
    forall t ensures InChain(st2, t) { assert InChain(st, t); }
  }

  // ---- a family that was caught ------------------------------------------------------------------

  ghost predicate TokensRevoked(st: State, f: Family) {
    f in st.chains && forall t :: t in st.tokens && st.tokens[t].family == f ==> st.tokens[t].revoked
  }

  /** No token of the family refreshes and none of its sessions authenticates. */
  ghost predicate Dead(st: State, f: Family) {
    TokensRevoked(st, f) && forall t :: t in st.tokens && st.tokens[t].family == f && st.tokens[t].session in st.sessions ==>
      st.sessions[st.tokens[t].session].revoked
  }

  lemma DeadIsDead(st: State, f: Family, t: Token, now: int)
    requires Valid(st) && Dead(st, f) && t in st.tokens && st.tokens[t].family == f
    ensures !Usable(st, t) && !Authenticates(st, st.tokens[t].session, now)
  {
  }

  lemma SessionsExist(st: State, f: Family)
    requires Valid(st)
    ensures forall t :: t in st.tokens && st.tokens[t].family == f ==> st.tokens[t].session in st.sessions && f in st.chains
  {
    forall t | t in st.tokens && st.tokens[t].family == f ensures st.tokens[t].session in st.sessions && f in st.chains { assert InChain(st, t); }
  }

  lemma RotateKeepsRevoked(st: State, t: Token, next: Token, s: Session, now: int, f: Family)
    requires Valid(st)
    ensures TokensRevoked(st, f) ==> TokensRevoked(Rotate(st, t, next, s, now), f)
    ensures Dead(st, f) ==> Dead(Rotate(st, t, next, s, now), f)
  {
    SessionsExist(st, f);
  }

  lemma IssueKeepsRevoked(st: State, user: User, g: Family, t: Token, s: Session, now: int, f: Family)
    requires Valid(st)
    ensures TokensRevoked(st, f) ==> TokensRevoked(Issue(st, user, g, t, s, now), f)
    ensures Dead(st, f) ==> Dead(Issue(st, user, g, t, s, now), f)
  {
    SessionsExist(st, f);
  }

  lemma RevokingKeepsRevoked(st: State, st2: State, f: Family)
    requires st2.chains == st.chains && st2.tokens.Keys == st.tokens.Keys && st2.sessions.Keys == st.sessions.Keys
    requires forall t :: t in st.tokens ==> st2.tokens[t].family == st.tokens[t].family && st2.tokens[t].session == st.tokens[t].session
    requires forall t :: t in st.tokens && st.tokens[t].revoked ==> st2.tokens[t].revoked
    requires forall s :: s in st.sessions && st.sessions[s].revoked ==> st2.sessions[s].revoked
    ensures TokensRevoked(st, f) ==> TokensRevoked(st2, f)
    ensures Dead(st, f) ==> Dead(st2, f)
  {
  }

  /** The two statements of reuse handling, with anything in between that keeps the first one's work. */
  lemma SessionsLast(st: State, f: Family)
    requires TokensRevoked(st, f)
    ensures Dead(RevokeSessions(st, f), f)
  {
    var st2 := RevokeSessions(st, f);
    forall t | t in st2.tokens && st2.tokens[t].family == f && st2.tokens[t].session in st2.sessions
      ensures st2.sessions[st2.tokens[t].session].revoked
    {
      assert InFamily(st, st.tokens[t].session, f);
    }
  }

  // ---- any interleaving of refreshes and sign-outs ------------------------------------------------
  //
  // A rotation is one transaction: its UPDATE locks the row of the old token, and the session and the token
  // it inserts are seen by nobody before it commits. An UPDATE of many rows takes a snapshot of the
  // committed rows, locks those that nobody has locked, waits for the others, and never sees a row
  // that is committed later.

  datatype Job = Refreshing(token: Token, next: Token, session: Session) | Leaving(user: User)

  datatype Scope = OfFamily(f: Family) | OfUser(user: User)

  /** Where the process stands. `Waiting` is the UPDATE that revokes `rows`, in the transaction that also
      revokes the sessions `gone`. */
  datatype Phase =
    | Begin | Rotating | Uncommitted(at: int) | RevokingTokens(f: Family) | SessionsSeen(gone: set<Session>)
    | Waiting(scope: Scope, gone: set<Session>, rows: set<Token>) | RevokingSessions(f: Family) | Handled | Done
  datatype Attempt = Attempt(job: Job, phase: Phase)
  datatype World = World(st: State, attempts: seq<Attempt>, now: int)

  datatype Turn =
    | Run(i: nat) | Crash(i: nat) | Tick(d: nat)
    | SignIn(user: User, f: Family, t: Token, s: Session) | LogOutOne(s: Session)

  /** What the read of a refresh decides. */
  function Decide(st: State, t: Token, now: int): Phase {
    if t !in st.tokens then Done
    else if st.tokens[t].used then RevokingTokens(st.tokens[t].family)
    else if st.tokens[t].revoked || st.tokens[t].expires < now then Done
    else Rotating
  }

  predicate InScope(row: TokenRow, scope: Scope) {
    match scope
    case OfFamily(f) => row.family == f
    case OfUser(user) => row.user == user
  }

  /** The unrevoked rows of a snapshot. */
  function Seen(st: State, scope: Scope): set<Token> { set t | t in st.tokens && InScope(st.tokens[t],
          scope) && !st.tokens[t].revoked }
  function SessionsOf(st: State,
          user: User): set<Session> { set s | s in st.sessions && st.sessions[s].user == user && !st.sessions[s].revoked }

  function RevokeRows(st: State, rows: set<Token>, gone: set<Session>): State {
    st.(tokens := map t | t in st.tokens :: if t in rows then st.tokens[t].(revoked := true) else st.tokens[t],
        sessions := map s | s in st.sessions :: if s in gone then st.sessions[s].(revoked := true) else st.sessions[s])
  }

  /** The attempt has rotated `t` and not committed. */
  predicate Holds(a: Attempt, t: Token) { a.phase.Uncommitted? && a.job.Refreshing? && a.job.token == t }

  predicate RowLocked(attempts: seq<Attempt>, t: Token) {
    exists j :: 0 <= j < |attempts| && (Holds(attempts[j], t) || (attempts[j].phase.Waiting? && t in attempts[j].phase.rows))
  }

  predicate MustWait(attempts: seq<Attempt>, rows: set<Token>) {
    exists j :: 0 <= j < |attempts| && attempts[j].job.Refreshing? && attempts[j].job.token in rows && Holds(attempts[j], attempts[j].job.token)
  }

  function Goto(w: World, i: nat, phase: Phase): World
    requires i < |w.attempts|
  {
    w.(attempts := w.attempts[i := w.attempts[i].(phase := phase)])
  }

  function RunRefresh(w: World, i: nat): World
    requires i < |w.attempts| && w.attempts[i].job.Refreshing?
  {
    var job := w.attempts[i].job;
    match w.attempts[i].phase
    case Begin => Goto(w, i, Decide(w.st, job.token, w.now))
    case Rotating =>
      if RowLocked(w.attempts, job.token) then w
      else Goto(w, i, if Usable(w.st, job.token) then Uncommitted(w.now) else Done)
    case Uncommitted(at) => Goto(w, i, Done).(st := Rotate(w.st, job.token, job.next, job.session, at))
    case RevokingTokens(f) => Goto(w, i, Waiting(OfFamily(f), {}, Seen(w.st, OfFamily(f))))
    case _ => w
  }

  function RunSignOut(w: World, i: nat): World
    requires i < |w.attempts| && w.attempts[i].job.Leaving?
  {
    var user := w.attempts[i].job.user;
    match w.attempts[i].phase
    case Begin => Goto(w, i, SessionsSeen(SessionsOf(w.st, user)))
    case SessionsSeen(gone) => Goto(w, i, Waiting(OfUser(user), gone, Seen(w.st, OfUser(user))))
    case _ => w
  }

  function Advance(w: World, i: nat): World
    requires i < |w.attempts|
  {
    var p := w.attempts[i].phase;
    if p.Waiting? then
      if MustWait(w.attempts, p.rows) then w
      else Goto(w, i, if p.scope.OfFamily? then RevokingSessions(p.scope.f) else Handled).(st := RevokeRows(w.st, p.rows, p.gone))
    else if p.RevokingSessions? then Goto(w, i, Handled).(st := RevokeSessions(w.st, p.f))
    else if w.attempts[i].job.Refreshing? then RunRefresh(w, i)
    else RunSignOut(w, i)
  }

  function Deal(w: World, t: Turn): World {
    match t
    case Run(i) => if i < |w.attempts| then Advance(w, i) else w
    case Crash(i) => if i < |w.attempts| && w.attempts[i].phase != Handled then Goto(w, i, Done) else w
    case Tick(d) => w.(now := w.now + d)
    case SignIn(user, f, t, s) => w.(st := Issue(w.st, user, f, t, s, w.now))
    case LogOutOne(s) => w.(st := LogOut(w.st, s))
  }

  function Play(w: World, turns: seq<Turn>): World
    decreases |turns|
  {
    if turns == [] then w else Play(Deal(w, turns[0]), turns[1..])
  }

  ghost predicate AttemptOk(st: State, a: Attempt) {
    match a.phase
    case Rotating => a.job.Refreshing?
    case Uncommitted(_) => a.job.Refreshing? && Usable(st, a.job.token)
    case RevokingTokens(f) => a.job.Refreshing? && f in st.chains
    case SessionsSeen(_) => a.job.Leaving?
    case Waiting(scope, _, _) => scope.OfFamily? ==> scope.f in st.chains
    case _ => true
  }

  /** No row is locked by two rotations. */
  ghost predicate LocksApart(attempts: seq<Attempt>) {
    forall i, j, t :: 0 <= i < j < |attempts| && Holds(attempts[i], t) ==> !Holds(attempts[j], t)
  }

  ghost predicate Inv(w: World) {
    Valid(w.st) && LocksApart(w.attempts) && forall i :: 0 <= i < |w.attempts| ==> AttemptOk(w.st, w.attempts[i])
  }

  /** The state after a turn is that of one of the transactions. */
  lemma StateStep(w: World, t: Turn, f: Family)
    requires Inv(w)
    ensures Valid(Deal(w, t).st) && (f in w.st.chains ==> f in Deal(w, t).st.chains)
    ensures TokensRevoked(w.st, f) ==> TokensRevoked(Deal(w, t).st, f)
    ensures Dead(w.st, f) ==> Dead(Deal(w, t).st, f)
  {
    var st, st2 := w.st, Deal(w, t).st;
    if t.SignIn? {
      IssueKeeps(st, t.user, t.f, t.t, t.s, w.now);
      IssueKeepsRevoked(st, t.user, t.f, t.t, t.s, w.now, f);
    } else if t.Run? && t.i < |w.attempts| && w.attempts[t.i].phase.Uncommitted? && w.attempts[t.i].job.Refreshing? {
      var job := w.attempts[t.i].job;
      RotateKeeps(st, job.token, job.next, job.session, w.attempts[t.i].phase.at);
      RotateKeepsRevoked(st, job.token, job.next, job.session, w.attempts[t.i].phase.at, f);
    } else {
      hide Valid, TokensRevoked, Dead;
      RevokingKeeps(st, st2);
      RevokingKeepsRevoked(st, st2, f);
    }
  }

  /** Whoever holds the lock of a token keeps it usable. */
  lemma LockProtects(w: World, t: Turn, i: nat)
    requires Inv(w) && i < |w.attempts| && w.attempts[i].phase.Uncommitted? && i < |Deal(w, t).attempts| && Deal(w, t).attempts[i] == w.attempts[i]
    ensures Usable(Deal(w, t).st, w.attempts[i].job.token)
  {
    var token := w.attempts[i].job.token;
    assert AttemptOk(w.st, w.attempts[i]) && Holds(w.attempts[i], token);
    if t.Run? && t.i < |w.attempts| && w.attempts[t.i].phase.Waiting? && token in w.attempts[t.i].phase.rows {
      assert MustWait(w.attempts, w.attempts[t.i].phase.rows);
    }
    if t.Run? && t.i < |w.attempts| && w.attempts[t.i].phase.Uncommitted? {
      assert AttemptOk(w.st, w.attempts[t.i]) && Holds(w.attempts[t.i], w.attempts[t.i].job.token);
    }
  }

  lemma AttemptStays(w: World, t: Turn, i: nat)
    requires Inv(w) && i < |w.attempts|
    ensures i < |Deal(w, t).attempts| && Deal(w, t).attempts[i].job == w.attempts[i].job
    ensures AttemptOk(Deal(w, t).st, Deal(w, t).attempts[i])
  {
    SameJobs(w, t);
    assert AttemptOk(w.st, w.attempts[i]);
    var a := Deal(w, t).attempts[i];
    if a.phase.RevokingTokens? { StateStep(w, t, a.phase.f); }
    if a.phase.Waiting? && a.phase.scope.OfFamily? { StateStep(w, t, a.phase.scope.f); }
    if t == Run(i) && a.phase.RevokingTokens? && w.attempts[i].phase == Begin { assert InChain(w.st, w.attempts[i].job.token); }
    if a.phase.Uncommitted? && w.attempts[i] == a { LockProtects(w, t, i); }
    hide RowLocked, MustWait, Valid, TokensRevoked, Dead, LocksApart;
  }

  lemma SameJobs(w: World, t: Turn)
    ensures |Deal(w, t).attempts| == |w.attempts|
    ensures forall i :: 0 <= i < |w.attempts| ==> Deal(w, t).attempts[i].job == w.attempts[i].job
  {
  }

  lemma DealKeeps(w: World, t: Turn)
    requires Inv(w)
    ensures Inv(Deal(w, t)) && |Deal(w, t).attempts| == |w.attempts|
    ensures forall i :: 0 <= i < |w.attempts| ==> Deal(w, t).attempts[i].job == w.attempts[i].job
  {
    StateStep(w, t, 0);
    SameJobs(w, t);
    forall i | 0 <= i < |w.attempts| ensures AttemptOk(Deal(w, t).st, Deal(w, t).attempts[i]) { AttemptStays(w, t, i); }
    NewLockApart(w, t);
    hide Deal, Valid, LocksApart, AttemptOk;
  }

  lemma NewLockApart(w: World, t: Turn)
    requires LocksApart(w.attempts)
    ensures LocksApart(Deal(w, t).attempts)
  {
    var w2 := Deal(w, t);
    forall i, j, token | 0 <= i < j < |w2.attempts| && Holds(w2.attempts[i], token) ensures !Holds(w2.attempts[j], token) {
      assert Holds(w.attempts[i], token) || Holds(w.attempts[j], token) ==> RowLocked(w.attempts, token);
    }
  }

  lemma {:induction false} PlayKeeps(w: World, turns: seq<Turn>)
    requires Inv(w)
    ensures Inv(Play(w, turns)) && |Play(w, turns).attempts| == |w.attempts|
    decreases |turns|
  {
    hide Inv, Deal;
    if turns != [] {
      DealKeeps(w, turns[0]);
      PlayKeeps(Deal(w, turns[0]), turns[1..]);
    }
  }

  lemma NobodyYet(attempts: seq<Attempt>, now: int)
    requires forall a :: a in attempts ==> a.phase == Begin
    ensures Inv(World(NOBODY, attempts, now))
  {
    assert forall i :: 0 <= i < |attempts| ==> attempts[i] in attempts;
  }

  /** From an empty table, under any interleaving: each family is a chain in which at most one token can
      refresh, and of two refreshes with one token at most one is between its UPDATE and its commit. */
  lemma FamiliesAreChains(attempts: seq<Attempt>, now: int, turns: seq<Turn>)
    requires forall a :: a in attempts ==> a.phase == Begin
    ensures var w := Play(World(NOBODY, attempts, now), turns);
      && Valid(w.st) && LocksApart(w.attempts)
      && forall t, u :: Usable(w.st, t) && Usable(w.st, u) && w.st.tokens[t].family == w.st.tokens[u].family ==> t == u
  {
    NobodyYet(attempts, now);
    PlayKeeps(World(NOBODY, attempts, now), turns);
    var st := Play(World(NOBODY, attempts, now), turns).st;
    forall t, u | Usable(st, t) && Usable(st, u) && st.tokens[t].family == st.tokens[u].family ensures t == u { OneUsable(st, t, u); }
  }

  lemma {:induction false} DeadStaysDead(w: World, f: Family, turns: seq<Turn>)
    requires Inv(w) && Dead(w.st, f)
    ensures Dead(Play(w, turns).st, f)
    decreases |turns|
  {
    hide Inv, Deal, Dead;
    if turns != [] {
      StateStep(w, turns[0], f);
      DealKeeps(w, turns[0]);
      DeadStaysDead(Deal(w, turns[0]), f, turns[1..]);
    }
  }

  /** Undisturbed, the snapshots are the tables: the statements revoke what the service's calls revoke. */
  lemma AloneRevokesAll(st: State, f: Family, user: User)
    ensures RevokeRows(st, Seen(st, OfFamily(f)), {}) == RevokeTokens(st, f)
    ensures RevokeRows(st, Seen(st, OfUser(user)), SessionsOf(st, user)) == SignOut(st, user)
  {
    var a, b := RevokeRows(st, Seen(st, OfFamily(f)), {}), RevokeTokens(st, f);
    assert a.tokens == b.tokens && a.sessions == b.sessions;
    var c, d := RevokeRows(st, Seen(st, OfUser(user)), SessionsOf(st, user)), SignOut(st, user);
    assert c.tokens == d.tokens && c.sessions == d.sessions;
  }

  // ---- when a revocation misses a token ---------------------------------------------------------------

  /** A rotation of the family whose UPDATE has run, whose commit has not, and whose ids are new. */
  predicate InFlight(w: World, j: nat, f: Family) {
    && j < |w.attempts| && w.attempts[j].phase.Uncommitted? && w.attempts[j].job.Refreshing?
    && w.attempts[j].job.token in w.st.tokens && w.st.tokens[w.attempts[j].job.token].family == f
    && w.attempts[j].job.next !in w.st.tokens && w.attempts[j].job.session !in w.st.sessions
  }

  predicate Covered(scope: Scope, st: State, f: Family) {
    match scope
    case OfFamily(g) => g == f
    case OfUser(user) => forall t :: t in st.tokens && st.tokens[t].family == f ==> st.tokens[t].user == user
  }

  /** The revocation has every live token of the family among its rows, and nobody can rotate one. */
  ghost predicate Sealed(w: World, i: nat, f: Family) {
    && i < |w.attempts| && w.attempts[i].phase.Waiting? && f in w.st.chains
    && (forall t :: t in w.st.tokens && w.st.tokens[t].family == f && !w.st.tokens[t].revoked ==> t in w.attempts[i].phase.rows)
    && (forall j: nat :: !InFlight(w, j, f))
  }

  /** Every session of the family is revoked or will be with the rows. */
  ghost predicate SessionsSealed(st: State, gone: set<Session>, f: Family) {
    forall t :: t in st.tokens && st.tokens[t].family == f ==>
      st.tokens[t].session in st.sessions && (st.tokens[t].session in gone || st.sessions[st.tokens[t].session].revoked)
  }

  /** Where a revocation of the family stands that took its snapshot when no rotation was in flight. */
  ghost predicate OnCourse(w: World, i: nat, f: Family) {
    && i < |w.attempts|
    && match w.attempts[i].phase
       case Waiting(scope, gone, _) =>
         Sealed(w, i, f) && (scope == OfFamily(f) || (scope.OfUser? && SessionsSealed(w.st, gone, f)))
       case RevokingSessions(g) => g == f && TokensRevoked(w.st, f)
       case Handled => Dead(w.st, f)
       case Done => true
       case _ => false
  }

  lemma CourseStarts(v: World, i: nat, f: Family)
    requires Inv(v) && i < |v.attempts| && f in v.st.chains && forall j: nat :: !InFlight(v, j, f)
    requires v.attempts[i].phase == RevokingTokens(f) ||
             (v.attempts[i].phase.SessionsSeen? && Covered(OfUser(v.attempts[i].job.user), v.st, f) && SessionsSealed(v.st, v.attempts[i].phase.gone, f))
    ensures OnCourse(Deal(v, Run(i)), i, f)
  {
    var w := Deal(v, Run(i));
    assert AttemptOk(v.st, v.attempts[i]) && w.st == v.st;
    forall j: nat ensures !InFlight(w, j, f) { assert !InFlight(v, j, f); }
  }

  /** A rotation of the family would have to lock a row that the revocation waits for. */
  lemma NobodyStarts(w: World, i: nat, f: Family, t: Turn, j: nat)
    requires Inv(w) && Sealed(w, i, f) && t != Run(i) && t != Crash(i)
    ensures !InFlight(Deal(w, t), j, f)
  {
    StateStep(w, t, f);
    if j < |w.attempts| && w.attempts[j].job.Refreshing? {
      var token := w.attempts[j].job.token;
      assert !InFlight(w, j, f) && AttemptOk(w.st, w.attempts[j]);
      assert Usable(w.st, token) && w.st.tokens[token].family == f ==> RowLocked(w.attempts, token);
      hide RowLocked, Valid, Dead, TokensRevoked;
    }
  }

  /** While the revocation waits, nobody adds a live token to the family. */
  lemma SealHolds(w: World, i: nat, f: Family, t: Turn)
    requires Inv(w) && Sealed(w, i, f) && t != Run(i) && t != Crash(i)
    ensures Sealed(Deal(w, t), i, f)
    ensures forall u :: u in Deal(w, t).st.tokens && Deal(w, t).st.tokens[u].family == f ==>
      u in w.st.tokens && w.st.tokens[u].family == f && Deal(w, t).st.tokens[u].session == w.st.tokens[u].session
  {
    var w2 := Deal(w, t);
    StateStep(w, t, f);
    if t.Run? && t.i < |w.attempts| && w.attempts[t.i].phase.Uncommitted? {
      assert AttemptOk(w.st, w.attempts[t.i]) && !InFlight(w, t.i, f);
    }
    forall j: nat ensures !InFlight(w2, j, f) { NobodyStarts(w, i, f, t, j); }
    hide RowLocked, MustWait;
  }

  lemma SessionsOnlyFall(w: World, t: Turn, s: Session)
    requires s in w.st.sessions && w.st.sessions[s].revoked
    ensures s in Deal(w, t).st.sessions && Deal(w, t).st.sessions[s].revoked
  {
  }

  lemma SessionsStaySealed(w: World, i: nat, f: Family, t: Turn, gone: set<Session>)
    requires Inv(w) && Sealed(w, i, f) && t != Run(i) && t != Crash(i) && SessionsSealed(w.st, gone, f)
    ensures SessionsSealed(Deal(w, t).st, gone, f)
  {
    SealHolds(w, i, f, t);
    var w2 := Deal(w, t);
    forall u | u in w2.st.tokens && w2.st.tokens[u].family == f
      ensures w2.st.tokens[u].session in w2.st.sessions && (w2.st.tokens[u].session in gone || w2.st.sessions[w2.st.tokens[u].session].revoked)
    {
      var s := w.st.tokens[u].session;
      assert s in w.st.sessions;
      if w.st.sessions[s].revoked { SessionsOnlyFall(w, t, s); }
      SessionsGrow(w, t, s);
    }
  }

  lemma SessionsGrow(w: World, t: Turn, s: Session)
    requires s in w.st.sessions
    ensures s in Deal(w, t).st.sessions
  {
  }

  lemma RevocationRuns(w: World, i: nat, f: Family)
    requires Inv(w) && OnCourse(w, i, f)
    ensures OnCourse(Deal(w, Run(i)), i, f)
  {
    var a, w2 := w.attempts[i], Deal(w, Run(i));
    if a.phase.Waiting? && !MustWait(w.attempts, a.phase.rows) {
      assert TokensRevoked(w2.st, f);
    }
    if a.phase.RevokingSessions? { SessionsLast(w.st, f); }
  }

  lemma CourseHolds(w: World, i: nat, f: Family, t: Turn)
    requires Inv(w) && OnCourse(w, i, f)
    ensures OnCourse(Deal(w, t), i, f)
  {
    if t == Run(i) { RevocationRuns(w, i, f); }
    else if t != Crash(i) {
      StateStep(w, t, f);
      assert i < |Deal(w, t).attempts| && Deal(w, t).attempts[i] == w.attempts[i];
      if w.attempts[i].phase.Waiting? {
        SealHolds(w, i, f, t);
        if w.attempts[i].phase.scope.OfUser? { SessionsStaySealed(w, i, f, t, w.attempts[i].phase.gone); }
      }
      hide Deal, TokensRevoked, Dead, Sealed, SessionsSealed;
    }
  }

  lemma {:induction false} CourseEnds(w: World, i: nat, f: Family, turns: seq<Turn>)
    requires Inv(w) && OnCourse(w, i, f)
    ensures OnCourse(Play(w, turns), i, f)
    decreases |turns|
  {
    hide Inv, Deal, OnCourse;
    if turns != [] {
      CourseHolds(w, i, f, turns[0]);
      DealKeeps(w, turns[0]);
      CourseEnds(Deal(w, turns[0]), i, f, turns[1..]);
    }
  }

  // ---- the token that is missed ---------------------------------------------------------------------

  lemma PlayOne(w: World, turns: seq<Turn>)
    requires turns != []
    ensures Play(w, turns) == Play(Deal(w, turns[0]), turns[1..])
  {
  }

  lemma {:induction false} PlayAppends(w: World, a: seq<Turn>, b: seq<Turn>)
    ensures Play(w, a + b) == Play(Play(w, a), b)
    decreases |a|
  {
    hide Deal;
    if a == [] {
      assert a + b == b;
    } else {
      assert (a + b)[0] == a[0] && (a + b)[1..] == a[1..] + b;
      PlayAppends(Deal(w, a[0]), a[1..], b);
    }
  }

  /** Every other process dies. */
  function Alone(i: nat, n: nat): seq<Turn> {
    if n == 0 then [] else Alone(i, n - 1) + if n - 1 == i then [] else [Crash(n - 1)]
  }

  lemma {:induction false} AllOthersDie(w: World, i: nat, n: nat)
    requires i < |w.attempts| && n <= |w.attempts|
    ensures var w2 := Play(w, Alone(i, n));
      && w2.st == w.st && |w2.attempts| == |w.attempts| && w2.attempts[i] == w.attempts[i]
      && forall k :: 0 <= k < n && k != i ==> w2.attempts[k].phase in {Done, Handled}
  {
    if n > 0 {
      AllOthersDie(w, i, n - 1);
      if n - 1 == i {
        assert Alone(i, n) == Alone(i, n - 1);
      } else {
        PlayAppends(w, Alone(i, n - 1), [Crash(n - 1)]);
        assert Play(Play(w, Alone(i, n - 1)), [Crash(n - 1)]) == Deal(Play(w, Alone(i, n - 1)), Crash(n - 1));
      }
    }
  }

  /** A revocation that is left alone completes, with the rows of its snapshot. */
  lemma Completes(w: World, i: nat) returns (turns: seq<Turn>)
    requires i < |w.attempts| && w.attempts[i].phase.Waiting?
    ensures var w2 := Play(w, turns); var p := w.attempts[i].phase; var st := RevokeRows(w.st, p.rows, p.gone);
      i < |w2.attempts| && w2.attempts[i].phase == Handled && w2.st == if p.scope.OfFamily? then RevokeSessions(st, p.scope.f) else st
  {
    var others := Alone(i, |w.attempts|);
    AllOthersDie(w, i, |w.attempts|);
    var w1 := Play(w, others);
    assert !MustWait(w1.attempts, w1.attempts[i].phase.rows);
    var w2 := Deal(w1, Run(i));
    assert [Run(i), Run(i)][1..] == [Run(i)] && [Run(i)][1..] == [];
    PlayOne(w1, [Run(i), Run(i)]);
    PlayOne(w2, [Run(i)]);
    turns := others + [Run(i), Run(i)];
    PlayAppends(w, others, [Run(i), Run(i)]);
  }

  /** A live token outside the rows survives. */
  lemma MissedTokenLives(w: World, i: nat, f: Family, t: Token) returns (turns: seq<Turn>)
    requires i < |w.attempts| && w.attempts[i].phase.Waiting? && t !in w.attempts[i].phase.rows
    requires t in w.st.tokens && w.st.tokens[t].family == f && !w.st.tokens[t].revoked
    ensures var w2 := Play(w, turns); i < |w2.attempts| && w2.attempts[i].phase == Handled && !Dead(w2.st, f)
    ensures var w2 := Play(w, turns); Usable(w.st, t) ==> Usable(w2.st, t)
  {
    turns := Completes(w, i);
    hide Play;
    assert t in Play(w, turns).st.tokens && !Play(w, turns).st.tokens[t].revoked;
  }

  /** If a rotation of the family is in flight when the revocation takes its snapshot, its new token can
      still refresh after the revocation has completed. */
  lemma SuccessorIsMissed(v: World, i: nat, j: nat, f: Family) returns (turns: seq<Turn>)
    requires Inv(v) && i < |v.attempts| && InFlight(v, j, f)
    requires v.attempts[i].phase == RevokingTokens(f) || v.attempts[i].phase.SessionsSeen?
    ensures var w := Play(Deal(v, Run(i)), turns);
      i < |w.attempts| && w.attempts[i].phase == Handled && Usable(w.st, v.attempts[j].job.next) && !Dead(w.st, f)
  {
    var w, job := Deal(v, Run(i)), v.attempts[j].job;
    assert AttemptOk(v.st, v.attempts[i]) && AttemptOk(v.st, v.attempts[j]);
    assert w.attempts[j] == v.attempts[j] && w.st == v.st && w.attempts[i].phase.Waiting?;
    var w1 := Deal(w, Run(j));
    assert w1.attempts[i] == w.attempts[i] && Usable(w1.st, job.next) && w1.st.tokens[job.next].family == f;
    var rest := MissedTokenLives(w1, i, f, job.next);
    turns := [Run(j)] + rest;
    assert turns[0] == Run(j) && turns[1..] == rest;
    hide Deal;
  }

  /** Reuse handling, once it has completed, has ended the family for good exactly if no rotation of the
      family was between its UPDATE and its commit when the revoking UPDATE took its snapshot. */
  lemma ReuseEndsFamilyIff(v: World, i: nat, f: Family)
    requires Inv(v) && i < |v.attempts| && v.attempts[i].phase == RevokingTokens(f)
    ensures (forall turns: seq<Turn> :: EndedBy(Play(Deal(v, Run(i)), turns), i, f)) <==> forall j: nat :: !InFlight(v, j, f)
  {
    hide Inv, Deal, Dead, OnCourse;
    assert f in v.st.chains by { AttemptHolds(v, i); }
    if j: nat :| InFlight(v, j, f) {
      var turns := SuccessorIsMissed(v, i, j, f);
      assert !EndedBy(Play(Deal(v, Run(i)), turns), i, f);
    } else {
      CourseStarts(v, i, f);
      DealKeeps(v, Run(i));
      forall turns: seq<Turn> ensures EndedBy(Play(Deal(v, Run(i)), turns), i, f) {
        CourseEnds(Deal(v, Run(i)), i, f, turns);
        CourseIsEnd(Play(Deal(v, Run(i)), turns), i, f);
      }
    }
  }

  /** If the revocation has completed, the family is dead. */
  ghost predicate EndedBy(w: World, i: nat, f: Family) {
    i < |w.attempts| && w.attempts[i].phase == Handled ==> Dead(w.st, f)
  }

  lemma CourseIsEnd(w: World, i: nat, f: Family)
    requires OnCourse(w, i, f)
    ensures EndedBy(w, i, f)
  {
  }

  lemma AttemptHolds(w: World, i: nat)
    requires Inv(w) && i < |w.attempts|
    ensures AttemptOk(w.st, w.attempts[i])
  {
  }

  /** Signing out everywhere: the sessions that the first of its two UPDATEs saw and the tokens that the second
      one saw are revoked. That ends a family of the user exactly if no rotation of it was in flight at the
      second snapshot, and none had committed a session since the first. */
  lemma SignOutEndsFamilyIff(v: World, i: nat, f: Family)
    requires Inv(v) && i < |v.attempts| && v.attempts[i].phase.SessionsSeen? && v.attempts[i].job.Leaving?
    requires f in v.st.chains && Covered(OfUser(v.attempts[i].job.user), v.st, f)
    ensures (forall turns: seq<Turn> :: EndedBy(Play(Deal(v, Run(i)), turns), i, f)) <==>
            (forall j: nat :: !InFlight(v, j, f)) && SessionsSealed(v.st, v.attempts[i].phase.gone, f)
  {
    var gone := v.attempts[i].phase.gone;
    if j: nat :| InFlight(v, j, f) {
      hide Inv, Deal, Dead, OnCourse;
      var turns := SuccessorIsMissed(v, i, j, f);
      assert !EndedBy(Play(Deal(v, Run(i)), turns), i, f);
    } else if SessionsSealed(v.st, gone, f) {
      hide Inv, Deal, Dead, OnCourse, SessionsSealed;
      CourseStarts(v, i, f);
      DealKeeps(v, Run(i));
      forall turns: seq<Turn> ensures EndedBy(Play(Deal(v, Run(i)), turns), i, f) {
        CourseEnds(Deal(v, Run(i)), i, f, turns);
        CourseIsEnd(Play(Deal(v, Run(i)), turns), i, f);
      }
    } else {
      var turns := SessionIsMissed(v, i, f);
      assert !EndedBy(Play(Deal(v, Run(i)), turns), i, f);
    }
  }

  lemma SessionIsMissed(v: World, i: nat, f: Family) returns (turns: seq<Turn>)
    requires Inv(v) && i < |v.attempts| && v.attempts[i].phase.SessionsSeen? && v.attempts[i].job.Leaving?
    requires !SessionsSealed(v.st, v.attempts[i].phase.gone, f)
    ensures var w := Play(Deal(v, Run(i)), turns); i < |w.attempts| && w.attempts[i].phase == Handled && !Dead(w.st, f)
  {
    SessionsExist(v.st, f);
    var w := Deal(v, Run(i));
    var t :| t in v.st.tokens && v.st.tokens[t].family == f
      && !(v.st.tokens[t].session in v.attempts[i].phase.gone || v.st.sessions[v.st.tokens[t].session].revoked);
    turns := Completes(w, i);
    hide Play;
    var w2 := Play(w, turns);
    assert t in w2.st.tokens && w2.st.tokens[t].family == f && w2.st.tokens[t].session == v.st.tokens[t].session;
    assert w2.st.tokens[t].session in w2.st.sessions && !w2.st.sessions[w2.st.tokens[t].session].revoked;
  }

  /** Once a family is dead, in every later state none of its tokens refreshes and none of its sessions
      authenticates. */
  lemma EndedForGood(w: World, f: Family, turns: seq<Turn>, t: Token, later: int)
    requires Inv(w) && Dead(w.st, f)
    requires var st := Play(w, turns).st; t in st.tokens && st.tokens[t].family == f
    ensures var st := Play(w, turns).st; !Usable(st, t) && !Authenticates(st, st.tokens[t].session, later)
  {
    DeadStaysDead(w, f, turns);
    PlayKeeps(w, turns);
    DeadIsDead(Play(w, turns).st, f, t, later);
  }

  // ---- time -----------------------------------------------------------------------------------

  /** What the read of a refresh makes of the row, in its columns. */
  lemma ReadDecides(w: World, i: nat)
    requires i < |w.attempts| && w.attempts[i].job.Refreshing? && w.attempts[i].phase == Begin
    ensures var t, w2 := w.attempts[i].job.token, Deal(w, Run(i));
      && w2.st == w.st && w2.now == w.now && |w2.attempts| == |w.attempts|
      && w2.attempts[i].phase ==
           if t !in w.st.tokens then Done
           else if w.st.tokens[t].used then RevokingTokens(w.st.tokens[t].family)
           else if w.st.tokens[t].revoked || w.now > w.st.tokens[t].expires then Done else Rotating
  {
  }

  lemma ExpiryStays(w: World, t: Turn, k: Token)
    requires k in w.st.tokens
    ensures k in Deal(w, t).st.tokens && Deal(w, t).st.tokens[k].expires == w.st.tokens[k].expires && Deal(w, t).now >= w.now
  {
    hide RowLocked, MustWait, InFamily;
  }

  /** The attempt has not read its token, or has gone another way than to rotate it. */
  predicate NoRotation(w: World, i: nat) {
    && i < |w.attempts| && w.attempts[i].job.Refreshing? && !w.attempts[i].phase.Rotating? && !w.attempts[i].phase.Uncommitted?
    && w.attempts[i].job.token in w.st.tokens && w.st.tokens[w.attempts[i].job.token].expires < w.now
  }

  lemma NoRotationStays(w: World, t: Turn, i: nat)
    requires NoRotation(w, i)
    ensures NoRotation(Deal(w, t), i)
    ensures t == Run(i) ==> Deal(w, t).st.tokens.Keys == w.st.tokens.Keys && Deal(w, t).st.sessions.Keys == w.st.sessions.Keys
  {
    ExpiryStays(w, t, w.attempts[i].job.token);
    SameJobs(w, t);
    hide RowLocked, MustWait, InFamily;
  }

  /** A refresh that reads its token after the expiry never adds a token or a session, whatever runs in between. */
  lemma {:induction false} ExpiredNeverRefreshes(w: World, turns: seq<Turn>, i: nat)
    requires NoRotation(w, i)
    ensures var w2 := Play(w, turns);
      && NoRotation(w2, i)
      && Deal(w2, Run(i)).st.tokens.Keys == w2.st.tokens.Keys && Deal(w2, Run(i)).st.sessions.Keys == w2.st.sessions.Keys
    decreases |turns|
  {
    hide Deal, NoRotation;
    if turns == [] {
      NoRotationStays(w, Run(i), i);
    } else {
      NoRotationStays(w, turns[0], i);
      ExpiredNeverRefreshes(Deal(w, turns[0]), turns[1..], i);
    }
  }

  /** Nothing is good for longer than thirty minutes or thirty days from now. */
  ghost predicate ShortLived(w: World) {
    && (forall s :: s in w.st.sessions ==> w.st.sessions[s].expires <= w.now + 1800)
    && (forall t :: t in w.st.tokens ==> w.st.tokens[t].expires <= w.now + 2592000)
    && forall i :: 0 <= i < |w.attempts| && w.attempts[i].phase.Uncommitted? ==> w.attempts[i].phase.at <= w.now
  }

  lemma ShortLivedStays(w: World, t: Turn)
    requires ShortLived(w)
    ensures ShortLived(Deal(w, t))
  {
    hide RowLocked, MustWait, InFamily;
  }

  /** From empty tables, in every reachable state: no session and no refresh token outlives its term. */
  lemma TermsAreKept(attempts: seq<Attempt>, now: int, turns: seq<Turn>)
    requires forall a :: a in attempts ==> a.phase == Begin
    ensures ShortLived(Play(World(NOBODY, attempts, now), turns))
  {
    TermsStayKept(World(NOBODY, attempts, now), turns);
  }

  lemma {:induction false} TermsStayKept(w: World, turns: seq<Turn>)
    requires ShortLived(w)
    ensures ShortLived(Play(w, turns))
    decreases |turns|
  {
    hide Deal, ShortLived;
    if turns != [] {
      ShortLivedStays(w, turns[0]);
      TermsStayKept(Deal(w, turns[0]), turns[1..]);
    }
  }

  /** A session that was logged out never authenticates again. */
  lemma {:induction false} LoggedOutForGood(w: World, s: Session, turns: seq<Turn>, later: int)
    requires s in w.st.sessions && (turns == [] || turns[0] == LogOutOne(s) || w.st.sessions[s].revoked)
    ensures turns != [] ==> !Authenticates(Play(w, turns).st, s, later)
    decreases |turns|
  {
    if turns != [] {
      var w1 := Deal(w, turns[0]);
      if w.st.sessions[s].revoked { SessionsOnlyFall(w, turns[0], s); }
      assert s in w1.st.sessions && w1.st.sessions[s].revoked;
      hide Deal;
      if turns[1..] != [] { LoggedOutForGood(w1, s, turns[1..], later); }
    }
  }

  function Runs(n: nat): seq<Turn> { if n == 0 then [] else [Run(0)] + Runs(n - 1) }

  lemma RunOne(w: World, n: nat)
    requires n > 0
    ensures Play(w, Runs(n)) == Play(Deal(w, Run(0)), Runs(n - 1))
  {
    assert Runs(n)[1..] == Runs(n - 1);
  }

  lemma ReuseAlone(st: State, job: Job, f: Family, now: int)
    requires job.Refreshing?
    ensures var w := World(st, [Attempt(job, RevokingTokens(f))], now);
      Play(w, Runs(3)) == World(RevokeSessions(RevokeTokens(st, f), f), [Attempt(job, Handled)], now)
  {
    AloneRevokesAll(st, f, 0);
    hide RevokeSessions, RevokeTokens, RevokeRows;
    var w := World(st, [Attempt(job, RevokingTokens(f))], now);
    var w1 := World(st, [Attempt(job, Waiting(OfFamily(f), {}, Seen(st, OfFamily(f))))], now);
    var w2 := World(RevokeTokens(st, f), [Attempt(job, RevokingSessions(f))], now);
    assert Deal(w, Run(0)) == w1;
    assert Deal(w1, Run(0)) == w2;
    RunOne(w, 3);
    RunOne(w1, 2);
    RunOne(w2, 1);
  }

  lemma RotationAlone(st: State, job: Job, now: int)
    requires job.Refreshing? && Usable(st, job.token)
    ensures var w := World(st, [Attempt(job, Rotating)], now);
      Play(w, Runs(3)) == World(Rotate(st, job.token, job.next, job.session, now), [Attempt(job, Done)], now)
  {
    hide Rotate;
    var w := World(st, [Attempt(job, Rotating)], now);
    var w1 := World(st, [Attempt(job, Uncommitted(now))], now);
    var w2 := World(Rotate(st, job.token, job.next, job.session, now), [Attempt(job, Done)], now);
    assert Deal(w, Run(0)) == w1 && Deal(w1, Run(0)) == w2 && Deal(w2, Run(0)) == w2;
    RunOne(w, 3);
    RunOne(w1, 2);
    RunOne(w2, 1);
  }

  lemma DoneAlone(st: State, job: Job, now: int)
    ensures Play(World(st, [Attempt(job, Done)], now), Runs(3)) == World(st, [Attempt(job, Done)], now)
  {
    var w := World(st, [Attempt(job, Done)], now);
    assert Deal(w, Run(0)) == w;
    RunOne(w, 3);
    RunOne(w, 2);
    RunOne(w, 1);
  }

  /** Alone, `d` seconds later, the steps of a refresh leave what one call leaves: a used token ends its family; one that
      is neither used nor revoked and expires no earlier is rotated; any other changes nothing. */
  lemma RefreshAlone(st: State, job: Job, now: int, d: nat)
    requires job.Refreshing?
    ensures var st2 := Play(World(st, [Attempt(job, Begin)], now), [Tick(d)] + Runs(4)).st;
      st2 == if job.token !in st.tokens then st
             else var row := st.tokens[job.token];
               if row.used then RevokeSessions(RevokeTokens(st, row.family), row.family)
               else if row.revoked || now + d > row.expires then st
               else Rotate(st, job.token, job.next, job.session, now + d)
  {
    var w := World(st, [Attempt(job, Begin)], now);
    var w1 := World(st, [Attempt(job, Begin)], now + d);
    assert ([Tick(d)] + Runs(4))[1..] == Runs(4);
    PlayOne(w, [Tick(d)] + Runs(4));
    assert Deal(w, Tick(d)) == w1;
    RunOne(w1, 4);
    var phase := Decide(st, job.token, now + d);
    assert Deal(w1, Run(0)) == World(st, [Attempt(job, phase)], now + d);
    match phase
    case RevokingTokens(f) => ReuseAlone(st, job, f, now + d);
    case Rotating => RotationAlone(st, job, now + d);
    case _ => DoneAlone(st, job, now + d);
  }

  /** Alone, the steps of signing out everywhere leave what one call leaves. */
  lemma SignOutAlone(st: State, user: User, now: int)
    ensures Play(World(st, [Attempt(Leaving(user), Begin)], now), Runs(3)) == World(SignOut(st, user), [Attempt(Leaving(user), Handled)], now)
  {
    AloneRevokesAll(st, 0, user);
    hide SignOut, RevokeRows;
    var job, gone := Leaving(user), SessionsOf(st, user);
    var w := World(st, [Attempt(job, Begin)], now);
    var w1 := World(st, [Attempt(job, SessionsSeen(gone))], now);
    var w2 := World(st, [Attempt(job, Waiting(OfUser(user), gone, Seen(st, OfUser(user))))], now);
    assert Deal(w, Run(0)) == w1 && Deal(w1, Run(0)) == w2;
    RunOne(w, 3);
    RunOne(w1, 2);
    RunOne(w2, 1);
  }

  /** One sign-in and three refreshes: the second presents the used token while the third rotates its successor. */
  const THIEF := [Attempt(Refreshing(10, 11, 21), Begin), Attempt(Refreshing(10, 12, 22), Begin), Attempt(Refreshing(11, 13, 23), Begin)]
  const OVERLAP := [SignIn(0, 0, 10, 20), Run(0), Run(0), Run(0), Run(1), Run(2), Run(2)]

  function Stage(st: State, a: Phase, b: Phase, c: Phase): World {
    World(st, [Attempt(THIEF[0].job, a), Attempt(THIEF[1].job, b), Attempt(THIEF[2].job, c)], 0)
  }

  const SIGNED := Issue(NOBODY, 0, 0, 10, 20, 0)
  const ROTATED := Rotate(SIGNED, 10, 11, 21, 0)

  lemma FirstRotation()
    ensures Deal(World(NOBODY, THIEF, 0), SignIn(0, 0, 10, 20)) == Stage(SIGNED, Begin, Begin, Begin)
    ensures Deal(Stage(SIGNED, Begin, Begin, Begin), Run(0)) == Stage(SIGNED, Rotating, Begin, Begin)
    ensures Deal(Stage(SIGNED, Rotating, Begin, Begin), Run(0)) == Stage(SIGNED, Uncommitted(0), Begin, Begin)
    ensures Deal(Stage(SIGNED, Uncommitted(0), Begin, Begin), Run(0)) == Stage(ROTATED, Done, Begin, Begin)
  {
    assert SIGNED.tokens == map[10 := TokenRow(0, 0, 20, REFRESH_TTL, false, false)];
    assert !RowLocked(Stage(SIGNED, Rotating, Begin, Begin).attempts, 10);
    hide Rotate;
  }

  lemma Overlap()
    ensures Deal(Stage(ROTATED, Done, Begin, Begin), Run(1)) == Stage(ROTATED, Done, RevokingTokens(0), Begin)
    ensures Deal(Stage(ROTATED, Done, RevokingTokens(0), Begin), Run(2)) == Stage(ROTATED, Done, RevokingTokens(0), Rotating)
    ensures Deal(Stage(ROTATED, Done, RevokingTokens(0), Rotating), Run(2)) == Stage(ROTATED, Done, RevokingTokens(0), Uncommitted(0))
    ensures InFlight(Stage(ROTATED, Done, RevokingTokens(0), Uncommitted(0)), 2, 0)
  {
    assert SIGNED.tokens == map[10 := TokenRow(0, 0, 20, REFRESH_TTL, false, false)] && SIGNED.sessions.Keys == {20};
    assert ROTATED.tokens[10].used && ROTATED.tokens[11] == TokenRow(0, 0, 21, REFRESH_TTL, false, false);
    assert 13 !in ROTATED.tokens && 23 !in ROTATED.sessions;
    assert !RowLocked(Stage(ROTATED, Done, RevokingTokens(0), Rotating).attempts, 11);
    hide Rotate, Issue;
  }

  lemma Overlaps()
    ensures Play(World(NOBODY, THIEF, 0), OVERLAP) == Stage(ROTATED, Done, RevokingTokens(0), Uncommitted(0))
  {
    FirstRotation();
    Overlap();
    hide Deal, Stage;
    PlayOne(World(NOBODY, THIEF, 0), OVERLAP);
    PlayOne(Stage(SIGNED, Begin, Begin, Begin), OVERLAP[1..]);
    PlayOne(Stage(SIGNED, Rotating, Begin, Begin), OVERLAP[1..][1..]);
    PlayOne(Stage(SIGNED, Uncommitted(0), Begin, Begin), OVERLAP[1..][1..][1..]);
    PlayOne(Stage(ROTATED, Done, Begin, Begin), OVERLAP[1..][1..][1..][1..]);
    PlayOne(Stage(ROTATED, Done, RevokingTokens(0), Begin), OVERLAP[1..][1..][1..][1..][1..]);
    PlayOne(Stage(ROTATED, Done, RevokingTokens(0), Rotating), OVERLAP[1..][1..][1..][1..][1..][1..]);
  }

  lemma SurvivesFrom(w0: World, before: seq<Turn>, v: World) returns (turns: seq<Turn>)
    requires Play(w0, before) == v && Inv(v) && |v.attempts| == 3 && v.attempts[1].phase == RevokingTokens(0) && InFlight(v, 2, 0)
    ensures var w := Play(w0, turns); |w.attempts| == 3 && w.attempts[1].phase == Handled && Usable(w.st, v.attempts[2].job.next)
  {
    hide Deal, Inv, Usable, Dead, Play;
    var rest := SuccessorIsMissed(v, 1, 2, 0);
    turns := before + ([Run(1)] + rest);
    PlayAppends(w0, before, [Run(1)] + rest);
    PlayOne(v, [Run(1)] + rest);
    assert ([Run(1)] + rest)[1..] == rest;
    DealKeeps(v, Run(1));
    PlayKeeps(Deal(v, Run(1)), rest);
  }

  lemma Caught()
    ensures var v := Stage(ROTATED, Done, RevokingTokens(0), Uncommitted(0));
      |v.attempts| == 3 && v.attempts[1].phase == RevokingTokens(0) && v.attempts[2].job == Refreshing(11, 13, 23)
  {
    hide Rotate, Issue;
  }

  /** A run from empty tables in which reuse is detected and handled, and the family can still refresh. */
  lemma SomeReuseIsSurvived() returns (turns: seq<Turn>)
    ensures var w := Play(World(NOBODY, THIEF, 0), turns); |w.attempts| == 3 && w.attempts[1].phase == Handled && Usable(w.st, 13)
  {
    NobodyYet(THIEF, 0);
    Overlaps();
    Overlap();
    PlayKeeps(World(NOBODY, THIEF, 0), OVERLAP);
    Caught();
    hide Deal, Inv, InFlight, Usable, Play, ROTATED, SIGNED, OVERLAP, Stage;
    turns := SurvivesFrom(World(NOBODY, THIEF, 0), OVERLAP, Stage(ROTATED, Done, RevokingTokens(0), Uncommitted(0)));
  }
}

/** The service itself, one call at a time. */
module Identity {
  import opened Wrappers
  import opened Tokens

  datatype Reply = Issued | ErrUnauthorised | ErrTokenReplayed | ErrDuplicateKey

  class Service {
    var tokens: map<Token, TokenRow>
    var sessions: map<Session, SessionRow>
    ghost var chains: map<Family, seq<Token>>

    ghost function Now(): State
      reads this
    {
      State(tokens, sessions, chains)
    }

    constructor ()
      ensures Now() == NOBODY
    {
      tokens, sessions, chains := map[], map[], map[];
    }

    /** The family id is fresh. */
    method SignIn(user: User, family: Family, t: Token, s: Session, now: int) returns (r: Reply)
      requires family !in chains
      modifies this
      ensures Now() == Issue(old(Now()), user, family, t, s, now)
      ensures r == if t in old(tokens) || s in old(sessions) then ErrDuplicateKey else Issued
      ensures r == Issued ==> tokens == old(tokens)[t := TokenRow(family, user, s, now + 2592000, false, false)]
      ensures r == Issued ==> sessions == old(sessions)[s := SessionRow(user, now + 1800, false)]
    {
      if s in sessions || t in tokens { return ErrDuplicateKey; }
      sessions := sessions[s := SessionRow(user, now + ACCESS_TTL, false)];
      tokens := tokens[t := TokenRow(family, user, s, now + REFRESH_TTL, false, false)];
      chains := chains[family := [t]];
      return Issued;
    }

    /** Alone, a refresh is its read followed by the write it decides on. */
    method Refresh(t: Token, next: Token, s: Session, now: int) returns (r: Reply)
      modifies this
      ensures var st := old(Now());
        match Decide(st, t, now)
        case RevokingTokens(f) => Now() == RevokeSessions(RevokeTokens(st, f), f) && r == ErrTokenReplayed
        case Rotating =>
          Now() == Rotate(st, t, next, s, now)
          && r == if next in st.tokens || s in st.sessions then ErrDuplicateKey else Issued
        case _ => Now() == st && r == ErrUnauthorised
      ensures r == Issued <==>
        && t in old(tokens) && !old(tokens)[t].used && !old(tokens)[t].revoked && now <= old(tokens)[t].expires
        && next !in old(tokens) && s !in old(sessions)
      ensures r == Issued ==> var row := old(tokens)[t];
        && tokens == old(tokens)[t := row.(used := true)][next := TokenRow(row.family, row.user, s, now + 2592000, false, false)]
        && sessions == old(sessions)[s := SessionRow(row.user, now + 1800, false)]
      ensures r == ErrTokenReplayed <==> t in old(tokens) && old(tokens)[t].used
      ensures r == ErrTokenReplayed ==> tokens.Keys == old(tokens).Keys && sessions.Keys == old(sessions).Keys
      ensures r == ErrTokenReplayed ==> forall u :: u in old(tokens) && old(tokens)[u].family == old(tokens)[t].family ==>
        tokens[u].revoked && (tokens[u].session in sessions ==> sessions[tokens[u].session].revoked)
      ensures r == ErrTokenReplayed ==> forall u :: u in old(tokens) && old(tokens)[u].family != old(tokens)[t].family ==> tokens[u] == old(tokens)[u]
      ensures r in {ErrUnauthorised, ErrDuplicateKey} ==> tokens == old(tokens) && sessions == old(sessions)
    {
      if t !in tokens { return ErrUnauthorised; }
      var row := tokens[t];
      if row.used {
        RevokeFamily(row.family);
        return ErrTokenReplayed;
      }
      if row.revoked || row.expires < now { return ErrUnauthorised; }
      if s in sessions || next in tokens { return ErrDuplicateKey; }
      tokens := tokens[t := row.(used := true)];
      sessions := sessions[s := SessionRow(row.user, now + ACCESS_TTL, false)];
      tokens := tokens[next := TokenRow(row.family, row.user, s, now + REFRESH_TTL, false, false)];
      chains := chains[row.family := (if row.family in chains then chains[row.family] else []) + [next]];
      return Issued;
    }

    method RevokeFamily(f: Family)
      modifies this`tokens, this`sessions
      ensures Now() == RevokeSessions(RevokeTokens(old(Now()), f), f)
    {
      tokens := map t | t in tokens :: if tokens[t].family == f then tokens[t].(revoked := true) else tokens[t];
      var caught := set t | t in tokens && tokens[t].family == f :: tokens[t].session;
      sessions := map s | s in sessions :: if s in caught then sessions[s].(revoked := true) else sessions[s];
    }

    method SignOutEverywhere(user: User)
      modifies this`tokens, this`sessions
      ensures Now() == SignOut(old(Now()), user)
      ensures tokens.Keys == old(tokens).Keys && sessions.Keys == old(sessions).Keys
      ensures forall t :: t in old(tokens) ==> tokens[t] == if old(tokens)[t].user == user then old(tokens)[t].(revoked := true) else old(tokens)[t]
      ensures forall s :: s in old(sessions) ==>
        sessions[s] == if old(sessions)[s].user == user then old(sessions)[s].(revoked := true) else old(sessions)[s]
    {
      sessions := map s | s in sessions :: if sessions[s].user == user then sessions[s].(revoked := true) else sessions[s];
      tokens := map t | t in tokens :: if tokens[t].user == user then tokens[t].(revoked := true) else tokens[t];
    }

    method Authenticate(s: Session, now: int) returns (user: Option<User>)
      ensures user.Some? <==> s in sessions && !sessions[s].revoked && now < sessions[s].expires
      ensures user.Some? ==> user.value == sessions[s].user
    {
      if s in sessions && !sessions[s].revoked && sessions[s].expires > now { return Some(sessions[s].user); }
      return None;
    }
  }
}
