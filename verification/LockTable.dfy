/** The `stream_locks` table and the four statements that touch it. Each statement is one atomic step:
    PostgreSQL serialises writes to one primary key. `now` is the database clock; `expires` was computed
    by the calling worker from its own clock before the statement was sent. */
module LockTable {

  type StreamId = string
  type WorkerId = string

  /** A random UUID; equality is the only operation the code performs on it. */
  type Token = nat

  datatype Row = Row(owner: WorkerId, token: Token, expires: int)

  type Table = map<StreamId, Row>

  datatype Statement =
    | Acquire(stream: StreamId, worker: WorkerId, token: Token, expires: int)
    | Renew(stream: StreamId, worker: WorkerId, token: Token, expires: int)
    | Release(stream: StreamId, worker: WorkerId, token: Token)
    | ReleaseAll(worker: WorkerId)

  /** The UPSERT writes when there is no row, when the row has lapsed, or when the row is our own. */
  predicate MayClaim(t: Table, s: StreamId, w: WorkerId, now: int) {
    s in t ==> t[s].expires <= now || t[s].owner == w
  }

  predicate Matches(t: Table, s: StreamId, w: WorkerId, token: Token) {
    s in t && t[s].owner == w && t[s].token == token
  }

  /** Whether the statement reports success: a returned row, or `rowCount` equal to 1. */
  predicate Succeeds(t: Table, st: Statement, now: int) {
    match st
    case Acquire(s, w, _, _) => MayClaim(t, s, w, now)
    case Renew(s, w, token, _) => Matches(t, s, w, token) && now < t[s].expires
    case Release(s, w, token) => Matches(t, s, w, token)
    case ReleaseAll(_) => true
  }

  function Execute(t: Table, st: Statement, now: int): Table {
    if !Succeeds(t, st, now) then t
    else
      match st
      case Acquire(s, w, token, expires) => t[s := Row(w, token, expires)]
      case Renew(s, _, _, expires) => t[s := t[s].(expires := expires)]
      case Release(s, _, _) => t - {s}
      case ReleaseAll(w) => map s | s in t && t[s].owner != w :: t[s]
  }

  // ----- Whole runs -----

  datatype Stamped = Stamped(statement: Statement, now: int)

  /** The table after a sequence of statements from any number of workers. */
  function Run(t: Table, log: seq<Stamped>): Table
    decreases |log|
  {
    if log == [] then t else Run(Execute(t, log[0].statement, log[0].now), log[1..])
  }

  ghost predicate TokensWithin(t: Table, used: set<Token>) {
    forall s | s in t :: t[s].token in used
  }

  function Minted(st: Statement): set<Token> {
    if st.Acquire? then {st.token} else {}
  }

  /** Every claim in the log carries a token nobody has seen before. */
  predicate FreshTokens(used: set<Token>, log: seq<Stamped>)
    decreases |log|
  {
    log == [] ||
    (Minted(log[0].statement) !! used && FreshTokens(used + Minted(log[0].statement), log[1..]))
  }

  predicate Holds(t: Table, s: StreamId, token: Token) {
    s in t && t[s].token == token
  }

  /** Fencing: a token that has been issued and does not match its row never matches again, whatever
      any worker does afterwards and whatever the clocks say. */
  lemma {:induction false} StaleTokenNeverReturns(t: Table, used: set<Token>, log: seq<Stamped>, s: StreamId,
                                                  token: Token)
    requires TokensWithin(t, used) && FreshTokens(used, log)
    requires token in used && !Holds(t, s, token)
    ensures !Holds(Run(t, log), s, token)
    decreases |log|
  {
    if log != [] {
      var t' := Execute(t, log[0].statement, log[0].now);
      StaleTokenNeverReturns(t', used + Minted(log[0].statement), log[1..], s, token);
    }
  }

  /** A late renewal or release after any such run is refused and changes nothing at all. */
  lemma LateCallIsHarmless(t: Table, used: set<Token>, log: seq<Stamped>, st: Statement, now: int)
    requires TokensWithin(t, used) && FreshTokens(used, log)
    requires st.Renew? || st.Release?
    requires st.token in used && !Holds(t, st.stream, st.token)
    ensures !Succeeds(Run(t, log), st, now)
    ensures Execute(Run(t, log), st, now) == Run(t, log)
  {
    StaleTokenNeverReturns(t, used, log, st.stream, st.token);
  }

  /** The only way a statement removes or replaces another worker's row is an UPSERT over a lapsed lease. */
  lemma OthersRowsOnlyFallToExpiry(t: Table, st: Statement, now: int, s: StreamId)
    requires s in t
    requires s !in Execute(t, st, now) || Execute(t, st, now)[s] != t[s]
    ensures st.worker == t[s].owner || (st.Acquire? && st.stream == s && t[s].expires <= now)
  {
  }

  /** Every row survives a run up to its expiry unless its owner speaks: if all statements of other workers
      run before the row lapses and the owner is silent, the row is exactly as it was. */
  lemma {:induction false} UnexpiredRowIsStable(t: Table, log: seq<Stamped>, s: StreamId)
    requires s in t
    requires forall i | 0 <= i < |log| :: log[i].statement.worker != t[s].owner && log[i].now < t[s].expires
    ensures s in Run(t, log) && Run(t, log)[s] == t[s]
    decreases |log|
  {
    if log != [] {
      var t' := Execute(t, log[0].statement, log[0].now);
      assert s in t' && t'[s] == t[s];
      UnexpiredRowIsStable(t', log[1..], s);
    }
  }

  /** After `releaseAll` a worker has no row left, and every row of another worker is as it was. */
  lemma ReleaseAllFrees(t: Table, w: WorkerId, now: int)
    ensures var t' := Execute(t, ReleaseAll(w), now);
            forall s | s in t :: if t[s].owner == w then s !in t' else s in t' && t'[s] == t[s]
    ensures Execute(t, ReleaseAll(w), now).Keys <= t.Keys
  {
  }

  /** An owner may claim its stream again at any time, lapsed or not; the claim puts its new token and expiry into the
      row, and the token it had before is refused from then on. */
  lemma OwnerClaimsAgain(t: Table, s: StreamId, w: WorkerId, token: Token, expires: int, now: int, e: int, later: int)
    requires s in t && t[s].owner == w
    ensures var t' := Execute(t, Acquire(s, w, token, expires), now);
            && Succeeds(t, Acquire(s, w, token, expires), now)
            && s in t' && t'[s].owner == w && t'[s].token == token && t'[s].expires == expires
            && (token != t[s].token ==>
                  !Succeeds(t', Renew(s, w, t[s].token, e), later) && !Succeeds(t', Release(s, w, t[s].token), later))
  {
  }

  /** Two workers racing for a free stream: as long as the first one's lease lasts, the second is denied. */
  lemma OneWinner(t: Table, s: StreamId, w1: WorkerId, w2: WorkerId, k1: Token, k2: Token, e1: int, e2: int, now: int,
                  later: int)
    requires w1 != w2 && MayClaim(t, s, w1, now)
    ensures Succeeds(t, Acquire(s, w1, k1, e1), now)
    ensures Succeeds(Execute(t, Acquire(s, w1, k1, e1), now), Acquire(s, w2, k2, e2), later) <==> e1 <= later
  {
  }

  // ----- The release after a refused renewal -----

  /** A refused renewal says that the row is another's or gone, or that it is still there and has lapsed. The release
      that follows is without effect in the first case only: it removes a lapsed row that still matches. */
  lemma ReleaseAfterRefusal(t: Table, s: StreamId, w: WorkerId, token: Token, expires: int, now: int)
    requires !Succeeds(t, Renew(s, w, token, expires), now)
    ensures Execute(t, Release(s, w, token), now) == t <==> !Matches(t, s, w, token)
    ensures Matches(t, s, w, token) ==>
              t[s].expires <= now && Succeeds(t, Release(s, w, token), now) &&
              Execute(t, Release(s, w, token), now) == t - {s}
  {
    assert Matches(t, s, w, token) ==> s !in Execute(t, Release(s, w, token), now);
  }

  /** Both cases occur; the lapsed row is the one where the release is not a no-op. */
  lemma LapsedRowIsReleased(s: StreamId, w: WorkerId, token: Token, expires: int, now: int)
    requires expires <= now
    ensures var t: Table := map[s := Row(w, token, expires)];
            && !Succeeds(t, Renew(s, w, token, now + 1), now) && Succeeds(t, Release(s, w, token), now)
            && Execute(t, Release(s, w, token), now) == map[]
  {
    var t: Table := map[s := Row(w, token, expires)];
    assert t - {s} == map[];
  }

  /** If the refused renewal found the row another's or gone, the release is without effect however late it comes. */
  lemma LateReleaseAfterRefusal(t: Table, used: set<Token>, log: seq<Stamped>, s: StreamId, w: WorkerId, token: Token,
                                later: int)
    requires TokensWithin(t, used) && FreshTokens(used, log) && token in used && !Holds(t, s, token)
    ensures Execute(Run(t, log), Release(s, w, token), later) == Run(t, log)
  {
    LateCallIsHarmless(t, used, log, Release(s, w, token), later);
  }
}
