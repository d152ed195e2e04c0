/** The code between the atomic steps: the game handlers of internal/httpapi/server.go, Process and the
    batch loop of internal/worker/worker.go, over the Redis store, the queue and the archive as objects.

    Each method is proved against the steps of module LiveGame it is made of. Its ghost parameters are
    the states of the protocol it is called in: `s` when it reads, `t` when it writes, `v` when it
    archives or posts, whatever happened in between; `c` or `w` names the request or the delivery, `m`
    the message it may send. `meanwhile` is the content of the store at t, and `others` is what
    everybody else did to the archive until v. `archiveUp` and `queueUp` say whether Postgres and SQS
    answer. */
module Handlers {
  import opened Options
  import opened Game
  import opened LiveGame
  import Store = GameStore
  import A = Archive

  datatype Response = Accepted | NotFound | Forbidden | Refused | Conflict | Unavailable

  class Jobs {
    var posted: seq<Job>

    constructor ()
      ensures posted == []
    {
      posted := [];
    }

    method Enqueue(job: Job, up: bool) returns (ok: bool)
      modifies this
      ensures ok == up
      ensures posted == old(posted) + if up then [job] else []
    {
      if up {
        posted := posted + [job];
      }
      return up;
    }
  }

  /** The job the steps from s to s' posted as message m. */
  function NewJob(s: State, s': State, m: nat): seq<Job> {
    if m !in s.queue.sent && m in s'.queue.sent then [s'.queue.sent[m]] else []
  }

  /** The steps that follow a commit in the same handler: archive a finished game, and post a job for
      the engine's turn or for a game that could not be archived, or fail to. */
  function FollowUp(e: Env, s: State, c: nat, m: nat, archiveUp: bool, queueUp: bool): State {
    var archived := DoApiArchive(e, s, c, archiveUp);
    if queueUp then DoEnqueue(archived, c, m) else DoDropCall(archived, c)
  }

  lemma NothingToFollow(e: Env, s: State, c: nat, m: nat, archiveUp: bool, queueUp: bool)
    requires c !in s.calls
    ensures FollowUp(e, s, c, m, archiveUp, queueUp) == s
  {
  }

  /** The follow-up waiting at v is the one a write of g leaves. */
  predicate Waiting(v: State, c: nat, g: GameRec, m: nat) {
    && (c in v.calls <==> g.Over() || EngineToMove(g))
    && (c in v.calls ==> v.calls[c] == Call(g, After))
    && m !in v.queue.sent
  }

  /** Request c at v is what the write left of it. */
  predicate GoesOn(written: State, v: State, c: nat, m: nat) {
    && (c in v.calls <==> c in written.calls)
    && (c in v.calls ==> v.calls[c] == written.calls[c])
    && m !in v.queue.sent
  }

  lemma HandOffWaits(t: State, v: State, c: nat, g: GameRec, m: nat)
    requires c !in t.calls && GoesOn(HandOff(t, c, g), v, c, m)
    ensures Waiting(v, c, g, m)
  {
    hide EngineToMove;
  }

  lemma WaitingMeans(v: State, c: nat, g: GameRec, m: nat)
    requires Waiting(v, c, g, m)
    ensures c in v.calls <==> g.Over() || EngineToMove(g)
  {
  }

  /** What the follow-up of a write comes to. */
  lemma FollowUpOf(e: Env, v: State, c: nat, g: GameRec, m: nat, archiveUp: bool, queueUp: bool)
    requires Waiting(v, c, g, m)
    ensures var end := FollowUp(e, v, c, m, archiveUp, queueUp);
      var job := if queueUp then [Job(g.id, g.ply, Move)] else [];
      var saved := if archiveUp then A.Saved(e.rate, v.accounts.db, g) else None;
      && end.live == v.live && c !in end.calls
      && (g.Over() && saved.Some? ==> end.accounts.db == saved.value && NewJob(v, end, m) == [])
      && (g.Over() && saved.None? ==> end.accounts.db == v.accounts.db && NewJob(v, end, m) == job)
      && (!g.Over() ==> end.accounts.db == v.accounts.db
                        && NewJob(v, end, m) == if EngineToMove(g) then job else [])
  {
    hide FollowUp, A.Saved, EngineToMove, NewJob;
    if g.Over() {
      ArchiveFollows(e, v, c, m, archiveUp, queueUp);
    } else if EngineToMove(g) {
      JobFollows(e, v, c, m, archiveUp, queueUp);
    } else {
      NothingToFollow(e, v, c, m, archiveUp, queueUp);
      NoNewJob(v, m);
    }
  }

  lemma JobFollows(e: Env, s: State, c: nat, m: nat, archiveUp: bool, queueUp: bool)
    requires m !in s.queue.sent && c in s.calls && s.calls[c].stage == After && !s.calls[c].g.Over()
    ensures var end := FollowUp(e, s, c, m, archiveUp, queueUp);
      var g := s.calls[c].g;
      && end.live == s.live && c !in end.calls && end.accounts.db == s.accounts.db
      && NewJob(s, end, m) == if queueUp then [Job(g.id, g.ply, Move)] else []
  {
  }

  lemma ArchiveFollows(e: Env, s: State, c: nat, m: nat, archiveUp: bool, queueUp: bool)
    requires m !in s.queue.sent && c in s.calls && s.calls[c].stage == After && s.calls[c].g.Over()
    ensures var end := FollowUp(e, s, c, m, archiveUp, queueUp);
      var g := s.calls[c].g;
      var job := if queueUp then [Job(g.id, g.ply, Move)] else [];
      var saved := if archiveUp then A.Saved(e.rate, s.accounts.db, g) else None;
      && end.live == s.live && c !in end.calls
      && end.accounts.db == (if saved.Some? then saved.value else s.accounts.db)
      && NewJob(s, end, m) == if saved.Some? then [] else job
  {
    hide A.Saved;
  }

  /** Request c of t holds what its first step read at s; it is gone when there was nothing to read. */
  predicate Reading(s: State, t: State, c: nat, id: string, stage: Stage) {
    && c !in s.calls
    && (c in t.calls <==> id in s.live.redis)
    && (c in t.calls ==> t.calls[c] == Start(s, c, id, stage).calls[c])
  }

  lemma CreateSteps(s: State, v: State, c: nat, g: GameRec, m: nat)
    requires c !in s.calls && (g.id in s.live.hist ==> g.id in s.live.redis)
    requires GoesOn(DoCreate(s, c, g), v, c, m)
    ensures DoCreate(s, c, g).live.redis
         == if g.id in s.live.redis then s.live.redis else s.live.redis[g.id := Store.Next(g)]
    ensures g.id in s.live.redis ==> c !in v.calls
    ensures g.id !in s.live.redis ==> Waiting(v, c, Store.Next(g), m)
  {
    hide HandOff;
    if g.id !in s.live.redis {
      var after := LiveGame.Written(s, Store.Next(g));
      assert DoCreate(s, c, g) == HandOff(after, c, Store.Next(g));
      HandOffWaits(after, v, c, Store.Next(g), m);
      assert HandOff(after, c, Store.Next(g)).live == after.live by { HandOffLeavesGames(after, c, Store.Next(g)); }
    }
  }

  lemma HandOffLeavesGames(s: State, c: nat, g: GameRec)
    ensures HandOff(s, c, g).live == s.live
  {
  }

  lemma NoNewJob(s: State, m: nat)
    ensures NewJob(s, s, m) == []
  {
  }

  lemma ReadingHolds(s: State, t: State, c: nat, id: string, stage: Stage)
    requires Reading(s, t, c, id, stage)
    ensures c in t.calls <==> id in s.live.redis
    ensures c in t.calls ==> t.calls[c] == Call(s.live.redis[id], stage)
  {
  }

  lemma NothingToCommit(e: Env, t: State, c: nat)
    requires c !in t.calls
    ensures DoCommitMove(e, t, c) == t == DoCommitResign(t, c)
  {
  }

  /** A commit step writes the changed record over the one read, or does nothing but end the request. */
  lemma CommitMoveOf(e: Env, t: State, c: nat, g: GameRec, user: string, uci: string)
    requires c in t.calls && t.calls[c] == Call(g, Moving(user, uci))
    ensures var seat := g.ColorFor(user);
      DoCommitMove(e, t, c)
      == if seat.None? || Moved(e.rules, g, seat.value, uci).Err? then WithoutCall(t, c)
         else Commit(WithoutCall(t, c), c, Moved(e.rules, g, seat.value, uci).g, g.ply, true)
  {
    hide Moved, Commit;
  }

  lemma CommitResignOf(t: State, c: nat, g: GameRec, user: string)
    requires c in t.calls && t.calls[c] == Call(g, Resigning(user))
    ensures var seat := g.ColorFor(user);
      DoCommitResign(t, c)
      == if seat.None? || g.Over() then WithoutCall(t, c)
         else Commit(WithoutCall(t, c), c, Resigned(g, seat.value).g, g.ply, true)
  {
    hide Commit;
  }

  /** Who is only watching, and which moves are refused to who is not. */
  lemma SeatMeans(e: Env, g: GameRec, user: string, uci: string)
    ensures g.ColorFor(user).None?
       <==> if g.friend then user == "" || (user != g.userId && user != g.opponentId)
            else g.userId != "" && user != g.userId
    ensures g.ColorFor(user).Some? ==>
      (Moved(e.rules, g, g.ColorFor(user).value, uci).Err?
       <==> || g.status == Finished
            || (TurnAt(|g.moves|) == g.player) == (g.friend && user != g.userId)
            || !Replays(e.rules, g.moves) || !e.rules.legal(g.moves, e.rules.clean(uci)))
  {
  }

  class Server {
    const games: Store.Games
    const archive: A.Archive
    const jobs: Jobs

    constructor (games: Store.Games, archive: A.Archive, jobs: Jobs)
      ensures this.games == games && this.archive == archive && this.jobs == jobs
    {
      this.games, this.archive, this.jobs := games, archive, jobs;
    }

    /** afterChange, for the value just written. */
    method AfterChange(e: Env, g: Game, archiveUp: bool, queueUp: bool, ghost v: State, ghost c: nat, ghost m: nat)
      requires Waiting(v, c, g.Snapshot(), m) && archive.View() == v.accounts.db
      modifies archive, jobs
      ensures var end := FollowUp(e, v, c, m, archiveUp, queueUp);
        && archive.View() == end.accounts.db
        && jobs.posted == old(jobs.posted) + NewJob(v, end, m)
        && c !in end.calls
    {
      hide FollowUp, Waiting, A.Saved, NewJob;
      FollowUpOf(e, v, c, g.Snapshot(), m, archiveUp, queueUp);
      var s := g.Snapshot();
      if s.Over() {
        var ok := false;
        if archiveUp {
          ok := archive.SaveFinished(e.rate, s);
        }
        if !ok {
          var _ := jobs.Enqueue(Job(s.id, s.ply, Move), queueUp);
        }
      } else if !s.friend && s.Turn() == s.EngineColor() {
        var _ := jobs.Enqueue(Job(s.id, s.ply, Move), queueUp);
      }
    }

    /** handleCreate with a validated color and mode; `level` is the ladder's for a rated game. The id is
        a fresh one, or one that is still stored. */
    method HandleCreate(e: Env, id: string, user: string, mode: Mode, color: Color, level: int, at: int,
                        queueUp: bool, ghost s: State, ghost v: State, ghost c: nat, ghost m: nat)
      returns (r: Response)
      requires games.redis == s.live.redis && c !in s.calls && (id in s.live.hist ==> id in s.live.redis)
      requires GoesOn(DoCreate(s, c, Newborn(id, user, mode, color, level, at)), v, c, m)
      modifies games, jobs
      ensures var created := DoCreate(s, c, Newborn(id, user, mode, color, level, at));
        var end := FollowUp(e, v, c, m, true, queueUp);
        && games.redis == created.live.redis && end.accounts.db == v.accounts.db
        && (id !in s.live.redis ==>
              created.live.redis == s.live.redis[id :=
                GameRec(id, [], 0, 1, color, user, level, mode == Rated, mode == Friend, "",
                        Ongoing, NoResult, "", at)])
        && jobs.posted == old(jobs.posted) + NewJob(v, end, m)
        && c !in end.calls
        && r == if id !in s.live.redis && (c in created.calls ==> queueUp) then Accepted else Unavailable
    {
      hide FollowUp, Waiting, A.Saved, NewJob, DoCreate;
      ghost var newborn := Newborn(id, user, mode, color, level, at);
      CreateSteps(s, v, c, newborn, m);
      if id in s.live.redis {
        NothingToFollow(e, v, c, m, true, queueUp);
        NoNewJob(v, m);
      } else {
        FollowUpOf(e, v, c, Store.Next(newborn), m, true, queueUp);
        WaitingMeans(v, c, Store.Next(newborn), m);
      }
      var g := new Game(New(id, color, level, mode == Rated, at));
      if mode == Friend {
        g.friend := true;
        g.rated := false;
      }
      g.userId := user;
      assert g.Snapshot() == newborn;
      var created := games.Create(g);
      if !created { return Unavailable; }
      if color == Black && !g.friend {
        var ok := jobs.Enqueue(Job(id, 0, Move), queueUp);
        if !ok { return Unavailable; }
      }
      return Accepted;
    }

    method HandleMove(e: Env, id: string, user: string, uci: string, meanwhile: Store.Redis,
                      archiveUp: bool, queueUp: bool, others: A.Db -> A.Db,
                      ghost s: State, ghost t: State, ghost v: State, ghost c: nat, ghost m: nat)
      returns (r: Response)
      requires games.redis == s.live.redis && meanwhile == t.live.redis
      requires Reading(s, t, c, id, Moving(user, uci)) && GoesOn(DoCommitMove(e, t, c), v, c, m)
      requires v.accounts.db == others(archive.View())
      modifies games, archive, jobs
      ensures var written := DoCommitMove(e, t, c);
        && Followed(e, t, written, v, c, m, archiveUp, queueUp)
        && (r == Accepted <==> written.live != t.live)
        && (r == NotFound <==> id !in s.live.redis)
        && (r == Forbidden <==> id in s.live.redis && var g := s.live.redis[id];
              if g.friend then user == "" || (user != g.userId && user != g.opponentId)
              else g.userId != "" && user != g.userId)
        && (r == Refused <==> r != Forbidden && id in s.live.redis && var g := s.live.redis[id];
              || g.status == Finished
              || (TurnAt(|g.moves|) == g.player) == (g.friend && user != g.userId)
              || !Replays(e.rules, g.moves) || !e.rules.legal(g.moves, e.rules.clean(uci)))
        && r != Unavailable
    {
      if id in s.live.redis { SeatMeans(e, s.live.redis[id], user, uci); }
      hide GameRec.ColorFor, Replays;
      hide FollowUp, HandOff, A.Saved, NewJob, Commit, Moved, Store.Cas, Reading, DoCommitMove, GoesOn;
      ReadingHolds(s, t, c, id, Moving(user, uci));
      if c in t.calls {
        CommitMoveOf(e, t, c, s.live.redis[id], user, uci);
      } else {
        NothingToCommit(e, t, c);
      }
      ghost var rest := WithoutCall(t, c);
      var found := games.Get(id);
      games.redis := meanwhile;
      if found.None? { return NotFound; }
      var g := found.value;
      var seat := g.Snapshot().ColorFor(user);
      if seat.None? { return Forbidden; }
      var prevPly := g.ply;
      var err := g.ApplyMove(e.rules, seat.value, uci);
      if err.Some? { return Refused; }
      r := WriteBack(e, g, prevPly, archiveUp, queueUp, others, rest, v, c, m);
    }

    method HandleResign(e: Env, id: string, user: string, meanwhile: Store.Redis,
                        archiveUp: bool, queueUp: bool, others: A.Db -> A.Db,
                        ghost s: State, ghost t: State, ghost v: State, ghost c: nat, ghost m: nat)
      returns (r: Response)
      requires games.redis == s.live.redis && meanwhile == t.live.redis
      requires Reading(s, t, c, id, Resigning(user)) && GoesOn(DoCommitResign(t, c), v, c, m)
      requires v.accounts.db == others(archive.View())
      modifies games, archive, jobs
      ensures var written := DoCommitResign(t, c);
        && Followed(e, t, written, v, c, m, archiveUp, queueUp)
        && (r == Accepted <==> written.live != t.live)
        && (r == NotFound <==> id !in s.live.redis)
        && (r == Forbidden <==> id in s.live.redis && var g := s.live.redis[id];
              if g.friend then user == "" || (user != g.userId && user != g.opponentId)
              else g.userId != "" && user != g.userId)
        && (r == Refused <==> r != Forbidden && id in s.live.redis && s.live.redis[id].status == Finished)
        && r != Unavailable
    {
      if id in s.live.redis { SeatMeans(e, s.live.redis[id], user, ""); }
      hide GameRec.ColorFor;
      hide FollowUp, HandOff, A.Saved, NewJob, Commit, Moved, Store.Cas, Reading, DoCommitResign, GoesOn;
      ReadingHolds(s, t, c, id, Resigning(user));
      if c in t.calls {
        CommitResignOf(t, c, s.live.redis[id], user);
      } else {
        NothingToCommit(e, t, c);
      }
      ghost var rest := WithoutCall(t, c);
      var found := games.Get(id);
      games.redis := meanwhile;
      if found.None? { return NotFound; }
      var g := found.value;
      var seat := g.Snapshot().ColorFor(user);
      if seat.None? { return Forbidden; }
      var prevPly := g.ply;
      var err := g.Resign(seat.value);
      if err.Some? { return Refused; }
      r := WriteBack(e, g, prevPly, archiveUp, queueUp, others, rest, v, c, m);
    }

    /** Joining again is accepted and writes nothing. */
    method HandleJoin(id: string, user: string, meanwhile: Store.Redis, ghost s: State, ghost t: State, ghost c: nat)
      returns (r: Response)
      requires games.redis == s.live.redis && meanwhile == t.live.redis
      requires Reading(s, t, c, id, Joining(user))
      modifies games
      ensures var end := DoCommitJoin(t, c);
        && games.redis == end.live.redis && c !in end.calls && end.queue == t.queue
        && (r == NotFound <==> c !in t.calls)
        && (r == Unavailable <==> c in t.calls && t.calls[c].g.friend && user == "")
        && (r == Accepted <==>
              || end.live != t.live
              || (c in t.calls && t.calls[c].g.friend && user != ""
                  && user in {t.calls[c].g.userId, t.calls[c].g.opponentId}))
        && (r == Conflict <==>
              && end.live == t.live && c in t.calls && t.calls[c].g.friend && t.calls[c].g.opponentId == ""
              && user != "" && user != t.calls[c].g.userId)
    {
      var found := games.Get(id);
      games.redis := meanwhile;
      if found.None? { return NotFound; }
      var g := found.value;
      if !g.friend { return Refused; }
      if user == "" { return Unavailable; }
      if user == g.userId || user == g.opponentId { return Accepted; }
      if g.opponentId != "" { return Refused; }
      var prevPly := g.ply;
      g.opponentId := user;
      WriteMakesHistory(WithoutCall(t, c), c, g.Snapshot(), prevPly, false);
      var ok := games.Write(g, prevPly);
      return if ok then Accepted else Conflict;
    }

    /** Update, and afterChange when it went through. */
    method WriteBack(e: Env, g: Game, prevPly: int, archiveUp: bool, queueUp: bool, others: A.Db -> A.Db,
                     ghost t: State, ghost v: State, ghost c: nat, ghost m: nat)
      returns (r: Response)
      requires games.redis == t.live.redis && c !in t.calls
      requires GoesOn(Commit(t, c, g.Snapshot(), prevPly, true), v, c, m)
      requires v.accounts.db == others(archive.View())
      modifies games, g, archive, jobs
      ensures var written := Commit(t, c, old(g.Snapshot()), prevPly, true);
        && Followed(e, t, written, v, c, m, archiveUp, queueUp)
        && r == if written.live != t.live then Accepted else Conflict
    {
      hide FollowUp, HandOff, A.Saved, NewJob, Store.Cas, GoesOn, Waiting;
      ghost var next := g.Snapshot();
      WriteMakesHistory(t, c, next, prevPly, true);
      var ok := games.Write(g, prevPly);
      if !ok { return Conflict; }
      ghost var after := LiveGame.Written(t, Store.Next(next));
      HandOffWaits(after, v, c, Store.Next(next), m);
      var db := others(archive.View());
      archive.rows, archive.users, archive.log := db.rows, db.users, db.log;
      AfterChange(e, g, archiveUp, queueUp, v, c, m);
      return Accepted;
    }

    /** After a write the objects hold what the steps at v leave, with the one new job; without one nothing was
        archived or posted. */
    twostate predicate Followed(e: Env, t: State, written: State, v: State, c: nat, m: nat,
                                archiveUp: bool, queueUp: bool)
      reads games, archive, jobs
    {
      var end := FollowUp(e, v, c, m, archiveUp, queueUp);
      && games.redis == written.live.redis
      && if written.live != t.live then
           archive.View() == end.accounts.db && jobs.posted == old(jobs.posted) + NewJob(v, end, m) && c !in end.calls
         else archive.View() == old(archive.View()) && jobs.posted == old(jobs.posted)
    }
  }

  /** A write is a new value of the game's history; a conflict leaves the games as they were. */
  lemma WriteMakesHistory(t: State, c: nat, g: GameRec, expectedPly: int, handOff: bool)
    ensures var written := Commit(t, c, g, expectedPly, handOff);
      match Store.Cas(t.live.redis, g, expectedPly)
      case None => written == t
      case Some(redis) =>
        var after := LiveGame.Written(t, Store.Next(g));
        && written == (if handOff then HandOff(after, c, Store.Next(g)) else after)
        && after.live.redis == written.live.redis == redis && written.live != t.live
  {
    if Store.Cas(t.live.redis, g, expectedPly).Some? {
      var h := LiveGame.Written(t, Store.Next(g)).live.hist;
      assert g.id in h && |h[g.id]| == |Past(t, g.id)| + 1;
    }
  }

  // ---- The worker -----------------------------------------------------------------------------------

  /** A hint the game still waits for. */
  predicate WantsHint(redis: Store.Redis, job: Job) {
    && job.kind == Hint && job.gameId in redis
    && var g := redis[job.gameId]; g.ply == job.ply && !g.Over() && g.Turn() == g.player
  }

  /** The step of Process after its read: play and write if it is the engine's turn. An engine that fails at a
      move or a hint leaves the message, as a crash does. */
  function Answered(e: Env, s: State, t: State, w: nat, job: Job, uci: Option<string>): State {
    match uci
    case Some(m) => DoPlay(e, t, w, m)
    case None =>
      if w in t.deliveries && (t.deliveries[w].pc.Thinking? || WantsHint(s.live.redis, job))
      then WithoutDelivery(t, w) else t
  }

  /** A finished game is still to be archived. */
  predicate Archives(s: State, w: nat) {
    w in s.deliveries && s.deliveries[w].pc.Archiving?
  }

  /** What is left to do at v is what answering left. */
  predicate WorksOn(answered: State, v: State, w: nat) {
    Archives(answered, w) ==> w in v.deliveries && v.deliveries[w] == answered.deliveries[w]
  }

  /** The state after the last step: the archiving one, at v, if there is one. */
  function Worked(e: Env, answered: State, v: State, w: nat, up: bool): State {
    if Archives(answered, w) then DoWorkerArchive(e, v, w, up) else answered
  }

  /** Past the last step, about to acknowledge. */
  predicate Ready(s: State, w: nat) {
    w in s.deliveries && s.deliveries[w].pc == Done
  }

  /** Delivery w of t holds what fetching `job` at s made of it. */
  predicate Fetched(s: State, t: State, w: nat, job: Job) {
    && w in s.deliveries && s.deliveries[w].pc == Received
    && s.deliveries[w].msg in s.queue.sent && s.queue.sent[s.deliveries[w].msg] == job
    && w in t.deliveries && t.deliveries[w] == DoFetch(s, w).deliveries[w]
  }

  /** What answering comes to, by what the fetch found. */
  lemma AnsweredOf(e: Env, s: State, t: State, w: nat, job: Job, uci: Option<string>)
    requires w in t.deliveries && !t.deliveries[w].pc.Received?
    requires t.deliveries[w].pc.Archiving? ==> job.kind == Move
    ensures var played := Answered(e, s, t, w, job, uci);
      match t.deliveries[w].pc
      case Done =>
        played.live == t.live && !Archives(played, w) && (Ready(played, w) <==> uci.Some? || !WantsHint(s.live.redis, job))
      case Archiving(g) => played == t
      case Thinking(g) =>
        if uci.None? || Moved(e.rules, g, g.EngineColor(), uci.value).Err?
        then played.live == t.live && !Archives(played, w) && !Ready(played, w)
        else
          var next := Moved(e.rules, g, g.EngineColor(), uci.value).g;
          match Store.Cas(t.live.redis, next, g.ply)
          case None => played.live == t.live && !Archives(played, w) && Ready(played, w)
          case Some(redis) =>
            && played.live.redis == redis && (Archives(played, w) <==> next.Over())
            && if next.Over() then played.deliveries[w].pc == Archiving(Store.Next(next)) else Ready(played, w)
  {
    hide Moved, DoPlay, WantsHint, Store.Cas;
    if uci.Some? {
      if t.deliveries[w].pc.Thinking? { PlayOf(e, t, w, uci.value); } else { NotPlaying(e, t, w, uci.value); }
    }
    if job.kind == Move { NoHint(s.live.redis, job); }
  }

  lemma NoHint(redis: Store.Redis, job: Job)
    requires job.kind == Move
    ensures !WantsHint(redis, job)
  {
  }

  lemma NotPlaying(e: Env, t: State, w: nat, uci: string)
    requires w in t.deliveries && !t.deliveries[w].pc.Thinking?
    ensures DoPlay(e, t, w, uci) == t
  {
  }

  lemma ArchivingOf(e: Env, v: State, w: nat, up: bool)
    requires Archives(v, w)
    ensures var end := DoWorkerArchive(e, v, w, up);
      match (if up then A.Saved(e.rate, v.accounts.db, v.deliveries[w].pc.g) else None)
      case Some(db) => end.accounts.db == db && Ready(end, w)
      case None => end.accounts.db == v.accounts.db && !Ready(end, w)
  {
    hide A.Saved;
  }

  lemma PlayOf(e: Env, t: State, w: nat, uci: string)
    requires w in t.deliveries && t.deliveries[w].pc.Thinking?
    ensures var g := t.deliveries[w].pc.g;
      var played := DoPlay(e, t, w, uci);
      && played.accounts == t.accounts
      && match Moved(e.rules, g, g.EngineColor(), uci)
         case Err(_) => played == WithoutDelivery(t, w)
         case Ok(next) =>
           && w in played.deliveries
           && match Store.Cas(t.live.redis, next, g.ply)
              case None => played.live == t.live && played.deliveries[w].pc == Done
              case Some(redis) =>
                && played.live.redis == redis
                && played.deliveries[w].pc == if next.Over() then Archiving(Store.Next(next)) else Done
  {
    hide Moved;
  }

  lemma FetchedFinds(s: State, t: State, w: nat, job: Job)
    requires Fetched(s, t, w, job)
    ensures w in t.deliveries && t.deliveries[w].pc == Judged(s.live.redis, job) && !t.deliveries[w].pc.Received?
    ensures t.deliveries[w].pc.Archiving? ==> job.kind == Move
  {
  }

  class Worker {
    const games: Store.Games
    const archive: A.Archive

    constructor (games: Store.Games, archive: A.Archive)
      ensures this.games == games && this.archive == archive
    {
      this.games, this.archive := games, archive;
    }

    /** Process. A true result means Run acknowledges the message. */
    method Process(e: Env, job: Job, meanwhile: Store.Redis, uci: Option<string>, archiveUp: bool,
                   others: A.Db -> A.Db, ghost s: State, ghost t: State, ghost v: State, ghost w: nat)
      returns (ack: bool)
      requires games.redis == s.live.redis && meanwhile == t.live.redis && Fetched(s, t, w, job)
      requires WorksOn(Answered(e, s, t, w, job, uci), v, w) && v.accounts.db == others(archive.View())
      modifies games, archive
      ensures var answered := Answered(e, s, t, w, job, uci);
        && games.redis == answered.live.redis
        && (ack <==> Ready(Worked(e, answered, v, w, archiveUp), w))
        && archive.View() == if Archives(answered, w) then Worked(e, answered, v, w, archiveUp).accounts.db
                             else old(archive.View())
    {
      hide Answered, Fetched, Ready, A.Saved, Store.Cas, Moved, DoWorkerArchive, WantsHint;
      FetchedFinds(s, t, w, job);
      AnsweredOf(e, s, t, w, job, uci);
      ghost var answered := Answered(e, s, t, w, job, uci);
      if Archives(answered, w) { ArchivingOf(e, v, w, archiveUp); }
      HintMeans(s.live.redis, job);
      if job.kind == Import {
        games.redis := meanwhile;
        return true;
      }
      var found := games.Get(job.gameId);
      games.redis := meanwhile;
      if found.None? { return true; }
      var g := found.value;
      if job.kind == Hint {
        ack := GiveHint(g, job, uci);
        return;
      }
      if job.kind == Review { return true; }
      if g.status == Finished {
        ack := Save(e, g, archiveUp, others);
        return;
      }
      if g.ply != job.ply || g.status != Ongoing || g.Snapshot().Turn() != g.Snapshot().EngineColor() {
        return true;
      }
      if uci.None? { return false; }
      var prevPly := g.ply;
      var err := g.ApplyMove(e.rules, g.Snapshot().EngineColor(), uci.value);
      if err.Some? { return false; }
      var ok := games.Write(g, prevPly);
      if !ok { return true; }
      if g.status == Finished {
        ack := Save(e, g, archiveUp, others);
        return;
      }
      return true;
    }

    /** The game's archive, whatever others archived until then. */
    method Save(e: Env, g: Game, archiveUp: bool, others: A.Db -> A.Db) returns (ok: bool)
      modifies archive
      ensures match (if archiveUp then A.Saved(e.rate, others(old(archive.View())), g.Snapshot()) else None)
              case Some(db) => ok && archive.View() == db
              case None => !ok && archive.View() == others(old(archive.View()))
    {
      var db := others(archive.View());
      archive.rows, archive.users, archive.log := db.rows, db.users, db.log;
      if !archiveUp { return false; }
      ok := archive.SaveFinished(e.rate, g.Snapshot());
    }

    /** hint, published or too late. */
    method GiveHint(g: Game, job: Job, uci: Option<string>) returns (ok: bool)
      ensures ok <==> uci.Some? || g.ply != job.ply || g.status == Finished || g.Snapshot().Turn() != g.player
    {
      if g.ply != job.ply || g.status != Ongoing || g.Snapshot().Turn() != g.player { return true; }
      return uci.Some?;
    }
  }

  lemma HintMeans(redis: Store.Redis, job: Job)
    ensures WantsHint(redis, job)
       <==> && job.kind == Hint && job.gameId in redis && redis[job.gameId].ply == job.ply
            && redis[job.gameId].status != Finished && redis[job.gameId].Turn() == redis[job.gameId].player
  {
  }

  // ---- The batch loop -------------------------------------------------------------------------------

  datatype Message = Message(id: nat, job: Job)

  predicate Parked(m: Message) {
    m.job.kind == Review || m.job.kind == Import
  }

  /** What surrounds one message: the store when it is read and when it is written, what others archived
      until then, the engine's answer, whether Postgres and the queue answer, and whether the review lane has
      room. */
  datatype Around = Around(read: Store.Redis, meanwhile: Store.Redis, others: A.Db -> A.Db, uci: Option<string>,
                           archiveUp: bool, ackUp: bool, room: bool)

  /** The states of the protocol a message is read, written and archived in. */
  datatype Moment = Moment(s: State, t: State, v: State)

  function AnsweredAt(e: Env, w: nat, m: Message, a: Around, at: Moment): State {
    Answered(e, at.s, at.t, w, m.job, a.uci)
  }

  function EndAt(e: Env, w: nat, m: Message, a: Around, at: Moment): State {
    Worked(e, AnsweredAt(e, w, m, a, at), at.v, w, a.archiveUp)
  }

  /** The archive the batch left so far. */
  function DbLeft(e: Env, db: A.Db, w: nat, msgs: seq<Message>, around: seq<Around>, moments: seq<Moment>, i: nat): A.Db
    requires i <= |msgs| == |around| == |moments|
  {
    if i == 0 then db
    else if !Parked(msgs[i - 1]) && Archives(AnsweredAt(e, w, msgs[i - 1], around[i - 1], moments[i - 1]), w)
    then EndAt(e, w, msgs[i - 1], around[i - 1], moments[i - 1]).accounts.db
    else DbLeft(e, db, w, msgs, around, moments, i - 1)
  }

  /** The games the last message left, of those before the i-th that were processed. */
  function GamesLeft(e: Env, w: nat, msgs: seq<Message>, around: seq<Around>, moments: seq<Moment>, i: nat): Option<Store.Redis>
    requires i <= |msgs| == |around| == |moments|
  {
    if i == 0 then None
    else if Parked(msgs[i - 1]) then GamesLeft(e, w, msgs, around, moments, i - 1)
    else Some(AnsweredAt(e, w, msgs[i - 1], around[i - 1], moments[i - 1]).live.redis)
  }

  /** Message i is processed at its moments by delivery w. */
  ghost predicate InTurn(e: Env, db: A.Db, w: nat, m: Message, a: Around, at: Moment) {
    && Fetched(at.s, at.t, w, m.job) && at.s.deliveries[w].msg == m.id
    && at.s.live.redis == a.read && at.t.live.redis == a.meanwhile
    && WorksOn(AnsweredAt(e, w, m, a, at), at.v, w) && at.v.accounts.db == a.others(db)
  }

  ghost predicate Sequel(e: Env, db: A.Db, w: nat, msgs: seq<Message>, around: seq<Around>, moments: seq<Moment>) {
    && |msgs| == |around| == |moments|
    && forall i | 0 <= i < |msgs| && !Parked(msgs[i]) ::
         InTurn(e, DbLeft(e, db, w, msgs, around, moments, i), w, msgs[i], around[i], moments[i])
  }

  /** Message i ended ready to be acknowledged, and the queue took it. */
  ghost predicate Acknowledged(e: Env, w: nat, msgs: seq<Message>, around: seq<Around>, moments: seq<Moment>, i: nat)
    requires i < |msgs| == |around| == |moments|
  {
    !Parked(msgs[i]) && around[i].ackUp && Ready(EndAt(e, w, msgs[i], around[i], moments[i]), w)
  }

  /** The reviews and imports that found room, in order. */
  function Laned(msgs: seq<Message>, around: seq<Around>): seq<nat>
    requires |msgs| == |around|
  {
    if msgs == [] then []
    else
      var last := |msgs| - 1;
      Laned(msgs[..last], around[..last])
      + if msgs[last].job.kind in {Review, Import} && around[last].room then [msgs[last].id] else []
  }

  lemma LeftStarts(e: Env, db: A.Db, w: nat, msgs: seq<Message>, around: seq<Around>, moments: seq<Moment>)
    requires |msgs| == |around| == |moments|
    ensures GamesLeft(e, w, msgs, around, moments, 0) == None && DbLeft(e, db, w, msgs, around, moments, 0) == db
  {
  }

  lemma LeftGoesOn(e: Env, db: A.Db, w: nat, msgs: seq<Message>, around: seq<Around>, moments: seq<Moment>, i: nat)
    requires i < |msgs| == |around| == |moments|
    ensures GamesLeft(e, w, msgs, around, moments, i + 1)
         == if Parked(msgs[i]) then GamesLeft(e, w, msgs, around, moments, i)
            else Some(AnsweredAt(e, w, msgs[i], around[i], moments[i]).live.redis)
    ensures DbLeft(e, db, w, msgs, around, moments, i + 1)
         == if !Parked(msgs[i]) && Archives(AnsweredAt(e, w, msgs[i], around[i], moments[i]), w)
            then EndAt(e, w, msgs[i], around[i], moments[i]).accounts.db
            else DbLeft(e, db, w, msgs, around, moments, i)
    ensures Acknowledged(e, w, msgs, around, moments, i)
       <==> !Parked(msgs[i]) && around[i].ackUp && Ready(EndAt(e, w, msgs[i], around[i], moments[i]), w)
  {
    hide Worked, Ready, Answered, Archives;
  }

  lemma NoneLaned()
    ensures Laned([], []) == []
  {
  }

  lemma LanedGoesOn(msgs: seq<Message>, around: seq<Around>, i: nat)
    requires i < |msgs| == |around|
    ensures Laned(msgs[..i + 1], around[..i + 1])
         == Laned(msgs[..i], around[..i])
            + if msgs[i].job.kind in {Review, Import} && around[i].room then [msgs[i].id] else []
  {
    assert msgs[..i + 1][..i] == msgs[..i] && around[..i + 1][..i] == around[..i];
  }

  /** The inner loop of Run over the messages of one Receive. A message is acknowledged exactly when its
      steps end ready for it and the acknowledgement goes through; one that failed, or found the review
      lane full, is left for redelivery. */
  method RunBatch(worker: Worker, e: Env, msgs: seq<Message>, around: seq<Around>,
                  ghost w: nat, ghost moments: seq<Moment>)
    returns (acked: set<nat>, reviews: seq<nat>)
    requires Sequel(e, worker.archive.View(), w, msgs, around, moments)
    modifies worker.games, worker.archive
    ensures forall id :: id in acked <==>
      exists i :: 0 <= i < |msgs| && Acknowledged(e, w, msgs, around, moments, i) && msgs[i].id == id
    ensures reviews == Laned(msgs, around)
    ensures worker.archive.View() == DbLeft(e, old(worker.archive.View()), w, msgs, around, moments, |msgs|)
    ensures match GamesLeft(e, w, msgs, around, moments, |msgs|)
      case None => worker.games.redis == old(worker.games.redis)
      case Some(redis) => worker.games.redis == redis
  {
    hide Worked, Ready, Fetched, Laned, DbLeft, GamesLeft, Acknowledged, Answered, Archives, A.Saved;
    ghost var db := worker.archive.View();
    acked, reviews := {}, [];
    LeftStarts(e, db, w, msgs, around, moments);
    NoneLaned();
    for i := 0 to |msgs|
      invariant forall id :: id in acked <==>
        exists k :: 0 <= k < i && Acknowledged(e, w, msgs, around, moments, k) && msgs[k].id == id
      invariant reviews == Laned(msgs[..i], around[..i])
      invariant worker.archive.View() == DbLeft(e, db, w, msgs, around, moments, i)
      invariant match GamesLeft(e, w, msgs, around, moments, i)
        case None => worker.games.redis == old(worker.games.redis)
        case Some(redis) => worker.games.redis == redis
    {
      var m, a := msgs[i], around[i];
      LeftGoesOn(e, db, w, msgs, around, moments, i);
      LanedGoesOn(msgs, around, i);
      if Parked(m) {
        if a.room { reviews := reviews + [m.id]; }
        continue;
      }
      ghost var at := moments[i];
      assert InTurn(e, DbLeft(e, db, w, msgs, around, moments, i), w, m, a, at);
      worker.games.redis := a.read;
      var ok := worker.Process(e, m.job, a.meanwhile, a.uci, a.archiveUp, a.others, at.s, at.t, at.v, w);
      if !ok { continue; }
      if a.ackUp { acked := acked + {m.id}; }
    }
    assert msgs[..|msgs|] == msgs && around[..|around|] == around;
  }
}
