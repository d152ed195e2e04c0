/** The live-game protocol as a step system: API handlers (internal/httpapi/server.go), queue
    workers (internal/worker/worker.go), Redis (internal/store/redis.go), SQS
    (internal/queue/queue.go) and the archive (internal/store/ratings.go).

    A step is one atomic touch of shared state. Between its steps a handler or a worker holds only
    its own snapshot, so any other step may come in between, and an action whose guard does not
    hold changes nothing: every sequence of actions is a run. The engine is the `uci` of Play, any
    string at all. Redis may drop a key at any time, which covers the 24 hour expiry. A message may
    be delivered any number of times, also after it was acknowledged. */
module LiveGame {
  import opened Options
  import opened Game
  import Store = GameStore
  import A = Archive

  datatype Env = Env(rules: Rules, rate: A.Rate)

  datatype Mode = Rated | Learning | Friend

  datatype Kind = Move | Hint | Review | Import

  datatype Job = Job(gameId: string, ply: int, kind: Kind)

  /** An API request in flight: before its write (the snapshot Get returned), after a write that
      afterChange still has to follow up, or about to queue an archive retry. handleCreate's own
      enqueue of the opening move is the same follow-up as afterChange's. */
  datatype Stage = Moving(user: string, uci: string) | Joining(user: string)
                 | Resigning(user: string) | After | Requeue

  datatype Call = Call(g: GameRec, stage: Stage)

  /** Where a worker is inside Process, or past it and about to acknowledge. */
  datatype Pc = Received | Thinking(g: GameRec) | Archiving(g: GameRec) | Done

  datatype Delivery = Delivery(msg: nat, pc: Pc)

  /** The keys of Redis, and every value each of them ever held. */
  datatype Live = Live(redis: Store.Redis, hist: map<string, seq<GameRec>>)

  datatype Queue = Queue(sent: map<nat, Job>, acked: set<nat>)

  /** `known` stands for the freshness of new account ids, as `hist` does for game ids. */
  datatype Accounts = Accounts(db: A.Db, known: set<string>)

  /** What nothing in the source reads: which message ended a game, and which games lost a
      follow-up to a crash. */
  datatype Notes = Notes(finisher: map<string, nat>, dropped: set<string>)

  datatype State = State(
    live: Live,
    calls: map<nat, Call>,
    queue: Queue,
    deliveries: map<nat, Delivery>,
    accounts: Accounts,
    notes: Notes)

  const INIT := State(
    Live(map[], map[]), map[], Queue(map[], {}), map[],
    Accounts(A.Db(map[], map[], []), {}), Notes(map[], {}))

  datatype Action =
    | Create(c: nat, id: string, user: string, mode: Mode, color: Color, level: int, at: int)
    | ReadForMove(c: nat, id: string, user: string, uci: string)
    | CommitMove(c: nat)
    | ReadForJoin(c: nat, id: string, user: string)
    | CommitJoin(c: nat)
    | ReadForResign(c: nat, id: string, user: string)
    | CommitResign(c: nat)
    | Enqueue(c: nat, m: nat)
    | ApiArchive(c: nat, up: bool)
    | DropCall(c: nat)
    | Ask(m: nat, id: string, ply: int, kind: Kind)
    | Deliver(w: nat, m: nat)
    | Fetch(w: nat)
    | Play(w: nat, uci: string)
    | WorkerArchive(w: nat, up: bool)
    | Ack(w: nat)
    | Crash(w: nat)
    | Expire(id: string)
    | NewUser(user: string)
    | Reap(user: string)

  // ---- API handlers -------------------------------------------------------------------------

  function Past(s: State, id: string): seq<GameRec> {
    if id in s.live.hist then s.live.hist[id] else []
  }

  /** A successful script run: the key holds g, and g joins the game's history. */
  function Written(s: State, g: GameRec): State {
    s.(live := Live(s.live.redis[g.id := g], s.live.hist[g.id := Past(s, g.id) + [g]]))
  }

  function WithoutCall(s: State, c: nat): State {
    s.(calls := s.calls - {c})
  }

  predicate EngineToMove(g: GameRec) {
    !g.friend && !g.Over() && g.Turn() == g.EngineColor()
  }

  /** The part of afterChange that has something to do. */
  function HandOff(s: State, c: nat, g: GameRec): State {
    if g.Over() || EngineToMove(g) then s.(calls := s.calls[c := Call(g, After)]) else s
  }

  function Newborn(id: string, user: string, mode: Mode, color: Color, level: int, at: int): GameRec {
    New(id, color, level, mode == Rated, at).(userId := user, friend := mode == Friend)
  }

  function DoCreate(s: State, c: nat, g: GameRec): State {
    if g.id in s.live.hist || c in s.calls then s
    else match Store.Cas(s.live.redis, g, Store.MUST_NOT_EXIST)
      case None => s
      case Some(_) => HandOff(Written(s, Store.Next(g)), c, Store.Next(g))
  }

  function Start(s: State, c: nat, id: string, stage: Stage): State {
    if c in s.calls || id !in s.live.redis then s
    else s.(calls := s.calls[c := Call(s.live.redis[id], stage)])
  }

  /** Update(g, expectedPly) and what follows it in a handler. */
  function Commit(s: State, c: nat, g: GameRec, expectedPly: int, handOff: bool): State {
    match Store.Cas(s.live.redis, g, expectedPly)
    case None => s
    case Some(_) =>
      var after := Written(s, Store.Next(g));
      if handOff then HandOff(after, c, Store.Next(g)) else after
  }

  function DoCommitMove(e: Env, s: State, c: nat): State {
    if c !in s.calls || !s.calls[c].stage.Moving? then s
    else
      var Call(g, Moving(user, uci)) := s.calls[c];
      var rest := WithoutCall(s, c);
      match g.ColorFor(user)
      case None => rest
      case Some(color) =>
        match Moved(e.rules, g, color, uci)
        case Err(_) => rest
        case Ok(next) => Commit(rest, c, next, g.ply, true)
  }

  /** An empty user stands for an identity that could not be made. */
  function DoCommitJoin(s: State, c: nat): State {
    if c !in s.calls || !s.calls[c].stage.Joining? then s
    else
      var Call(g, Joining(user)) := s.calls[c];
      var rest := WithoutCall(s, c);
      if !g.friend || user == "" || user == g.userId || user == g.opponentId || g.opponentId != "" then rest
      else Commit(rest, c, g.(opponentId := user), g.ply, false)
  }

  function DoCommitResign(s: State, c: nat): State {
    if c !in s.calls || !s.calls[c].stage.Resigning? then s
    else
      var Call(g, Resigning(user)) := s.calls[c];
      var rest := WithoutCall(s, c);
      match g.ColorFor(user)
      case None => rest
      case Some(color) =>
        match Resigned(g, color)
        case Err(_) => rest
        case Ok(next) => Commit(rest, c, next, g.ply, true)
  }

  function DoEnqueue(s: State, c: nat, m: nat): State {
    if c !in s.calls || m in s.queue.sent then s
    else
      var Call(g, stage) := s.calls[c];
      if stage.Requeue? || (stage.After? && !g.Over())
      then WithoutCall(s, c).(queue := s.queue.(sent := s.queue.sent[m := Job(g.id, g.ply, Move)]))
      else s
  }

  /** SaveFinished; `up` is false when the database cannot be reached. */
  function Save(e: Env, s: State, g: GameRec, up: bool): Option<A.Db> {
    if up then A.Saved(e.rate, s.accounts.db, g) else None
  }

  function DoApiArchive(e: Env, s: State, c: nat, up: bool): State {
    if c !in s.calls || !s.calls[c].stage.After? || !s.calls[c].g.Over() then s
    else match Save(e, s, s.calls[c].g, up)
      case Some(db) => WithoutCall(s, c).(accounts := s.accounts.(db := db))
      case None => s.(calls := s.calls[c := Call(s.calls[c].g, Requeue)])
  }

  /** The process dies, or the enqueue itself fails, with the follow-up undone. */
  function DoDropCall(s: State, c: nat): State {
    if c !in s.calls then s
    else if s.calls[c].stage.After? || s.calls[c].stage.Requeue? then
      WithoutCall(s, c).(notes := s.notes.(dropped := s.notes.dropped + {s.calls[c].g.id}))
    else WithoutCall(s, c)
  }

  /** Hint, review and import requests. */
  function DoAsk(s: State, m: nat, job: Job): State {
    if m in s.queue.sent || job.kind == Move then s else s.(queue := s.queue.(sent := s.queue.sent[m := job]))
  }

  // ---- Workers ------------------------------------------------------------------------------

  function At(s: State, w: nat, pc: Pc): State
    requires w in s.deliveries
  {
    s.(deliveries := s.deliveries[w := s.deliveries[w].(pc := pc)])
  }

  function WithoutDelivery(s: State, w: nat): State {
    s.(deliveries := s.deliveries - {w})
  }

  function DoDeliver(s: State, w: nat, m: nat): State {
    if w in s.deliveries || m !in s.queue.sent then s
    else s.(deliveries := s.deliveries[w := Delivery(m, Received)])
  }

  /** Process up to the engine call. Hints, reviews and imports never touch a game, so for those
      only the acknowledgement is left. */
  function Judged(redis: Store.Redis, job: Job): Pc {
    if job.kind == Import || job.gameId !in redis then Done
    else
      var g := redis[job.gameId];
      if job.kind == Hint || job.kind == Review then Done
      else if g.Over() then Archiving(g)
      else if g.ply != job.ply || g.Turn() != g.EngineColor() then Done
      else Thinking(g)
  }

  function DoFetch(s: State, w: nat): State {
    if w !in s.deliveries || s.deliveries[w].pc != Received || s.deliveries[w].msg !in s.queue.sent then s
    else At(s, w, Judged(s.live.redis, s.queue.sent[s.deliveries[w].msg]))
  }

  function DoPlay(e: Env, s: State, w: nat, uci: string): State {
    if w !in s.deliveries || !s.deliveries[w].pc.Thinking? then s
    else
      var g := s.deliveries[w].pc.g;
      match Moved(e.rules, g, g.EngineColor(), uci)
      case Err(_) => WithoutDelivery(s, w)
      case Ok(next) => Played(s, w, g, next)
  }

  /** Update after the engine's move: a conflict is somebody else's progress, so the job is done. */
  function Played(s: State, w: nat, g: GameRec, next: GameRec): State
    requires w in s.deliveries
  {
    match Store.Cas(s.live.redis, next, g.ply)
    case None => At(s, w, Done)
    case Some(_) =>
      var after := Written(s, Store.Next(next));
      if next.Over()
      then At(after, w, Archiving(Store.Next(next))).(
             notes := s.notes.(finisher := s.notes.finisher[g.id := s.deliveries[w].msg]))
      else At(after, w, Done)
  }

  function DoWorkerArchive(e: Env, s: State, w: nat, up: bool): State {
    if w !in s.deliveries || !s.deliveries[w].pc.Archiving? then s
    else match Save(e, s, s.deliveries[w].pc.g, up)
      case Some(db) => At(s, w, Done).(accounts := s.accounts.(db := db))
      case None => WithoutDelivery(s, w)
  }

  function DoAck(s: State, w: nat): State {
    if w !in s.deliveries || s.deliveries[w].pc != Done then s
    else WithoutDelivery(s, w).(queue := s.queue.(acked := s.queue.acked + {s.deliveries[w].msg}))
  }

  function DoExpire(s: State, id: string): State {
    s.(live := s.live.(redis := s.live.redis - {id}))
  }

  // ---- Accounts -----------------------------------------------------------------------------

  function DoNewUser(s: State, user: string): State {
    if user == "" || user in s.accounts.known then s
    else s.(accounts := Accounts(
      s.accounts.db.(users := s.accounts.db.users[user := A.NEW_USER]), s.accounts.known + {user}))
  }

  /** The guest reaper only deletes accounts with no archived game. */
  function DoReap(s: State, user: string): State {
    if exists id | id in s.accounts.db.rows :: s.accounts.db.rows[id].userId == user then s
    else s.(accounts := s.accounts.(db := s.accounts.db.(users := s.accounts.db.users - {user})))
  }

  // ---- Runs ---------------------------------------------------------------------------------

  function Next(e: Env, s: State, a: Action): State {
    match a
    case Create(c, id, user, mode, color, level, at) =>
      DoCreate(s, c, Newborn(id, user, mode, color, level, at))
    case ReadForMove(c, id, user, uci) => Start(s, c, id, Moving(user, uci))
    case CommitMove(c) => DoCommitMove(e, s, c)
    case ReadForJoin(c, id, user) => Start(s, c, id, Joining(user))
    case CommitJoin(c) => DoCommitJoin(s, c)
    case ReadForResign(c, id, user) => Start(s, c, id, Resigning(user))
    case CommitResign(c) => DoCommitResign(s, c)
    case Enqueue(c, m) => DoEnqueue(s, c, m)
    case ApiArchive(c, up) => DoApiArchive(e, s, c, up)
    case DropCall(c) => DoDropCall(s, c)
    case Ask(m, id, ply, kind) => DoAsk(s, m, Job(id, ply, kind))
    case Deliver(w, m) => DoDeliver(s, w, m)
    case Fetch(w) => DoFetch(s, w)
    case Play(w, uci) => DoPlay(e, s, w, uci)
    case WorkerArchive(w, up) => DoWorkerArchive(e, s, w, up)
    case Ack(w) => DoAck(s, w)
    case Crash(w) => WithoutDelivery(s, w)
    case Expire(id) => DoExpire(s, id)
    case NewUser(user) => DoNewUser(s, user)
    case Reap(user) => DoReap(s, user)
  }

  function Exec(e: Env, s: State, run: seq<Action>): State {
    if run == [] then s else Next(e, Exec(e, s, run[..|run| - 1]), run[|run| - 1])
  }
}
