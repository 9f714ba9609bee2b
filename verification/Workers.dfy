/** One worker: the session registry, its timers, its sessions and its lock connection, as a transition system.
    An action is the code that runs between two awaits. The connection is a single PostgreSQL client, so the
    answers arrive in the order the statements were sent. */
module Workers {
  import opened LockTable
  import opened Sessions

  type SessionId = nat
  type TimerId = nat

  datatype Settings = Settings(
    workerId: WorkerId,
    maxSessions: nat,
    heartbeatMs: int,
    ttlMs: int,
    session: Config)

  /** An armed `setTimeout(tick)`: the closure holds the stream and the token it was started for. */
  datatype Timer = Timer(stream: StreamId, token: Token, due: int)

  /** A statement on its way to the table. `issuedAt` is history. */
  datatype Call = Call(statement: Statement, issuedAt: int)

  /** `No` is a denied claim, or a `rowCount` other than 1; `Threw` a rejected promise. */
  datatype Answer = Yes | No | Threw

  datatype Reply = Reply(call: Call, answer: Answer)

  /** A session object. `token` is the claim it was spawned under (history). */
  datatype Instance = Instance(stream: StreamId, token: Token, session: State)

  datatype Phase = Routing | StoppingAll(members: set<SessionId>) | Drained

  /** `waiting` maps a stream with an in-flight `acquire` to the events whose `route` calls await it, in order.
      `released` is history: the sessions whose eviction issued a release. */
  datatype Worker = Worker(
    cfg: Settings,
    sessions: map<StreamId, SessionId>,
    lockTokens: map<StreamId, Token>,
    heartbeats: map<StreamId, TimerId>,
    timers: map<TimerId, Timer>,
    waiting: map<StreamId, seq<Event>>,
    requests: seq<Call>,
    replies: seq<Reply>,
    instances: map<SessionId, Instance>,
    nextSession: SessionId,
    nextTimer: TimerId,
    phase: Phase,
    minted: set<Token>,
    released: seq<SessionId>)

  function Init(cfg: Settings): Worker {
    Worker(cfg, map[], map[], map[], map[], map[], [], [], map[], 0, 0, Routing, {}, [])
  }

  datatype Action =
    | Route(event: Event, token: Token, now: int, clock: int)
    | Serve(answer: Answer)
    | Deliver(now: int)
    | Fire(timer: TimerId, now: int, clock: int)
    | SessionOp(session: SessionId, op: Op, now: int)
    | BeginDrain
    | FinishDrain(now: int)

  predicate CanDo(w: Worker, a: Action) {
    match a
    case Route(_, token, _, _) => w.phase.Routing? && token !in w.minted
    case Serve(_) => w.requests != []
    case Deliver(_) => w.replies != []
    case Fire(id, now, _) => id in w.timers && w.timers[id].due <= now
    case SessionOp(sid, op, _) =>
      sid in w.instances && !op.Start? && !op.Enqueue? && Enabled(w.instances[sid].session, op)
    case BeginDrain => w.phase.Routing? && w.waiting == map[]
    case FinishDrain(_) =>
      w.phase.StoppingAll? &&
      forall sid | sid in w.phase.members :: sid in w.instances && Terminal(w.instances[sid].session.status)
  }

  // ----- Pieces of the registry -----

  function Send(w: Worker, st: Statement, now: int): Worker {
    w.(requests := w.requests + [Call(st, now)])
  }

  predicate HoldsToken(w: Worker, s: StreamId, token: Token) {
    s in w.lockTokens && w.lockTokens[s] == token
  }

  /** `scheduleNext`: re-arm unless the token has been released or replaced. A timer already stored for the
      stream would be overwritten without being cleared. */
  function ScheduleNext(w: Worker, s: StreamId, token: Token, now: int): Worker {
    if !HoldsToken(w, s, token) then w
    else
      w.(timers := w.timers[w.nextTimer := Timer(s, token, now + w.cfg.heartbeatMs)],
         heartbeats := w.heartbeats[s := w.nextTimer],
         nextTimer := w.nextTimer + 1)
  }

  function PutSession(w: Worker, sid: SessionId, st: State): Worker
    requires sid in w.instances
  {
    w.(instances := w.instances[sid := w.instances[sid].(session := st)])
  }

  function EnqueueInto(w: Worker, sid: SessionId, e: Event): Worker
    requires sid in w.instances
  {
    PutSession(w, sid, Apply(w.instances[sid].session, Enqueue(e)))
  }

  /** `spawn` followed by `session.start()`. */
  function Spawn(w: Worker, s: StreamId, token: Token): Worker {
    var session := Apply(Fresh(w.cfg.session), Start);
    w.(sessions := w.sessions[s := w.nextSession],
       instances := w.instances[w.nextSession := Instance(s, token, session)],
       nextSession := w.nextSession + 1)
  }

  /** The second half of `route`, after a granted claim. */
  function ResumeRoute(w: Worker, e: Event, s: StreamId, token: Token, now: int): Worker {
    if s in w.sessions then
      var w' := if HoldsToken(w, s, token) then w else Send(w, Release(s, w.cfg.workerId, token), now);
      if w.sessions[s] in w.instances then EnqueueInto(w', w.sessions[s], e) else w'
    else
      var held := w.(lockTokens := w.lockTokens[s := token]);
      var spawned := Spawn(ScheduleNext(held, s, token, now), s, token);
      EnqueueInto(spawned, w.nextSession, e)
  }

  /** Every caller that awaited the claim resumes, in the order they called. */
  function ResumeAll(w: Worker, events: seq<Event>, s: StreamId, token: Token, now: int): Worker
    decreases |events|
  {
    if events == [] then w else ResumeAll(ResumeRoute(w, events[0], s, token, now), events[1..], s, token, now)
  }

  /** The `state` listener of a session that has just become stopped or errored. */
  function StateListener(w: Worker, sid: SessionId, now: int): Worker
    requires sid in w.instances
  {
    var s := w.instances[sid].stream;
    if s !in w.sessions || w.sessions[s] != sid then w
    else
      var w' := w.(sessions := w.sessions - {s});
      if s !in w.lockTokens then w'
      else
        var cleared :=
          if s in w.heartbeats
          then w'.(timers := w.timers - {w.heartbeats[s]}, heartbeats := w.heartbeats - {s})
          else w';
        Send(cleared.(lockTokens := w.lockTokens - {s}, released := w.released + [sid]),
             Release(s, w.cfg.workerId, w.lockTokens[s]), now)
  }

  /** A step of one session, with the listener run when it changes into a terminal state. */
  function StepSession(w: Worker, sid: SessionId, op: Op, now: int): Worker
    requires sid in w.instances && Enabled(w.instances[sid].session, op)
  {
    var before := w.instances[sid].session;
    var after := Apply(before, op);
    var w' := PutSession(w, sid, after);
    if after.status != before.status && Terminal(after.status) then StateListener(w', sid, now) else w'
  }

  // ----- The actions -----

  /** `route` up to its first await. */
  function DoRoute(w: Worker, e: Event, token: Token, now: int, clock: int): Worker {
    var s := e.streamId;
    if s in w.sessions then
      if w.sessions[s] in w.instances then EnqueueInto(w, w.sessions[s], e) else w
    else if |w.sessions| >= w.cfg.maxSessions then w
    else if s in w.waiting then w.(waiting := w.waiting[s := w.waiting[s] + [e]])
    else
      Send(w.(waiting := w.waiting[s := [e]], minted := w.minted + {token}),
           Acquire(s, w.cfg.workerId, token, clock + w.cfg.ttlMs), now)
  }

  /** `tick` up to its await. */
  function DoFire(w: Worker, id: TimerId, now: int, clock: int): Worker
    requires id in w.timers
  {
    var t := w.timers[id];
    var w' := w.(timers := w.timers - {id}, heartbeats := w.heartbeats - {t.stream});
    if !HoldsToken(w', t.stream, t.token) then w'
    else Send(w', Renew(t.stream, w.cfg.workerId, t.token, clock + w.cfg.ttlMs), now)
  }

  /** The rest of `tick`: the session mapped *now* is failed, without comparing tokens. */
  function RenewalReturns(w: Worker, s: StreamId, token: Token, answer: Answer, now: int): Worker {
    if answer != No then ScheduleNext(w, s, token, now)
    else if s in w.sessions && w.sessions[s] in w.instances && Serving(w.instances[w.sessions[s]].session.status)
    then StepSession(w, w.sessions[s], Fail, now)
    else w
  }

  function Handle(w: Worker, reply: Reply, now: int): Worker {
    match reply.call.statement
    case Acquire(s, _, token, _) =>
      var w' := w.(waiting := w.waiting - {s});
      if reply.answer.Yes? then ResumeAll(w', if s in w.waiting then w.waiting[s] else [], s, token, now) else w'
    case Renew(s, _, token, _) => RenewalReturns(w, s, token, reply.answer, now)
    case Release(_, _, _) => w
    case ReleaseAll(_) => w
  }

  function DoDeliver(w: Worker, now: int): Worker
    requires w.replies != []
  {
    Handle(w.(replies := w.replies[1..]), w.replies[0], now)
  }

  /** The armed timers that no stream stores: what clearing the stored ones leaves. */
  function Unstored(timers: map<TimerId, Timer>, heartbeats: map<StreamId, TimerId>): map<TimerId, Timer> {
    map id | id in timers && (forall s | s in heartbeats :: heartbeats[s] != id) :: timers[id]
  }

  function DoFinishDrain(w: Worker, now: int): Worker {
    Send(w.(sessions := map[], lockTokens := map[], waiting := map[], heartbeats := map[],
            timers := Unstored(w.timers, w.heartbeats), phase := Drained),
         ReleaseAll(w.cfg.workerId), now)
  }

  function Do(w: Worker, a: Action): Worker
    requires CanDo(w, a)
  {
    match a
    case Route(e, token, now, clock) => DoRoute(w, e, token, now, clock)
    case Serve(answer) =>
      w.(requests := w.requests[1..], replies := w.replies + [Reply(w.requests[0], answer)])
    case Deliver(now) => DoDeliver(w, now)
    case Fire(id, now, clock) => DoFire(w, id, now, clock)
    case SessionOp(sid, op, now) => StepSession(w, sid, op, now)
    case BeginDrain => w.(phase := StoppingAll(set s | s in w.sessions :: w.sessions[s]))
    case FinishDrain(now) => DoFinishDrain(w, now)
  }

  predicate CanRun(w: Worker, actions: seq<Action>)
    decreases |actions|
  {
    actions == [] || (CanDo(w, actions[0]) && CanRun(Do(w, actions[0]), actions[1..]))
  }

  function RunOf(w: Worker, actions: seq<Action>): Worker
    requires CanRun(w, actions)
    decreases |actions|
  {
    if actions == [] then w else RunOf(Do(w, actions[0]), actions[1..])
  }
}
