/** Every step of the live-game protocol keeps its queue, workers and follow-ups in order. */
module LiveWorkSteps {
  import opened Game
  import opened LiveGame
  import opened LiveHistory
  import opened LiveWork
  import Store = GameStore
  import A = Archive

  // ---- Handlers -------------------------------------------------------------------------------

  /** The step leaves queue and workers alone, and any follow-up it adds is in order. */
  ghost predicate OnlyCalls(s: State, s': State) {
    && s'.queue == s.queue && s'.deliveries == s.deliveries
    && (forall c | c in s'.calls :: (c in s.calls && s'.calls[c] == s.calls[c]) || CallOk(s'.calls[c]))
  }

  lemma HandOffIsOrderly(s: State, c: nat, g: GameRec)
    ensures OnlyCalls(s, HandOff(s, c, g))
  {
    hide EngineToMove;
  }

  lemma CommitIsOrderly(s: State, c: nat, g: GameRec, expectedPly: int, handOff: bool)
    ensures OnlyCalls(WithoutCall(s, c), Commit(WithoutCall(s, c), c, g, expectedPly, handOff))
    ensures OnlyCalls(s, Commit(WithoutCall(s, c), c, g, expectedPly, handOff))
  {
    hide HandOff, Store.Cas, CallOk;
    HandOffIsOrderly(Written(WithoutCall(s, c), Store.Next(g)), c, Store.Next(g));
  }

  lemma CommitsAreOrderly(e: Env, s: State, c: nat)
    ensures OnlyCalls(s, DoCommitMove(e, s, c))
    ensures OnlyCalls(s, DoCommitJoin(s, c))
    ensures OnlyCalls(s, DoCommitResign(s, c))
  {
    hide Commit, Moved, Resigned, OnlyCalls;
    WithoutIsOrderly(s, c);
    if c in s.calls {
      forall next: GameRec, handOff | true
        ensures OnlyCalls(s, Commit(WithoutCall(s, c), c, next, s.calls[c].g.ply, handOff))
      {
        CommitIsOrderly(s, c, next, s.calls[c].g.ply, handOff);
      }
    }
  }

  lemma WithoutIsOrderly(s: State, c: nat)
    ensures OnlyCalls(s, s) && OnlyCalls(s, WithoutCall(s, c))
  {
  }

  lemma CreateIsOrderly(s: State, c: nat, g: GameRec)
    ensures OnlyCalls(s, DoCreate(s, c, g))
  {
    hide HandOff, CallOk;
    HandOffIsOrderly(Written(s, Store.Next(g)), c, Store.Next(g));
  }

  lemma StartIsOrderly(s: State, c: nat, id: string, stage: Stage)
    requires !stage.After? && !stage.Requeue?
    ensures OnlyCalls(s, Start(s, c, id, stage))
  {
  }

  lemma DropIsOrderly(s: State, c: nat)
    ensures OnlyCalls(s, DoDropCall(s, c))
  {
    hide CallOk;
  }

  lemma ApiArchiveIsOrderly(e: Env, s: State, c: nat, up: bool)
    ensures OnlyCalls(s, DoApiArchive(e, s, c, up))
  {
    hide A.Saved, EngineToMove;
  }

  lemma OnlyCallsKeepWork(e: Env, s: State, s': State)
    requires Inv(e, s) && Inv(e, s') && Onward(s, s') && Work(s) && OnlyCalls(s, s')
    ensures Work(s')
  {
    hide Inv, Onward, Posted, Settled, DeliveryOk, CallOk;
    WorkStays(e, s, s');
  }

  lemma EnqueueKeepsWork(e: Env, s: State, c: nat, m: nat)
    requires Inv(e, s) && Work(s) && Inv(e, DoEnqueue(s, c, m)) && Onward(s, DoEnqueue(s, c, m))
    ensures Work(DoEnqueue(s, c, m))
  {
    var s' := DoEnqueue(s, c, m);
    if s' != s {
      var g := s.calls[c].g;
      FollowUpIsPosted(e, s, c);
      hide Inv, Onward, Settled, DeliveryOk, CallOk, EngineToMove;
      WorkStays(e, s, s');
    }
  }

  lemma FollowUpIsPosted(e: Env, s: State, c: nat)
    requires Inv(e, s) && Work(s) && c in s.calls
    requires s.calls[c].stage.After? || s.calls[c].stage.Requeue?
    ensures Posted(s.live, Job(s.calls[c].g.id, s.calls[c].g.ply, Move))
  {
    hide Stored, WasStored, Posted, Settled, DeliveryOk;
    assert CallOk(s.calls[c]);
    assert WasStored(s, s.calls[c].g);
    SnapshotIsPosted(e, s, s.calls[c].g);
  }

  lemma SnapshotIsPosted(e: Env, s: State, g: GameRec)
    requires Inv(e, s) && WasStored(s, g) && (g.Over() || EngineToMove(g))
    ensures Posted(s.live, Job(g.id, g.ply, Move))
  {
    hide Inv;
    SnapshotIsEarlier(e, s, g);
  }

  lemma AskKeepsWork(e: Env, s: State, m: nat, job: Job)
    requires Inv(e, s) && Work(s) && Inv(e, DoAsk(s, m, job)) && Onward(s, DoAsk(s, m, job))
    ensures Work(DoAsk(s, m, job))
  {
    hide Inv, Onward, Settled, DeliveryOk, CallOk;
    WorkStays(e, s, DoAsk(s, m, job));
  }

  // ---- Workers --------------------------------------------------------------------------------

  /** Only one delivery changes, and it is in order afterwards (or gone). */
  ghost predicate OneDelivery(s: State, s': State, w: nat) {
    && s'.queue == s.queue && s'.calls == s.calls
    && (forall v | v in s'.deliveries :: v == w || (v in s.deliveries && s'.deliveries[v] == s.deliveries[v]))
    && (w in s'.deliveries ==> DeliveryOk(s', s'.deliveries[w]))
  }

  lemma OneDeliveryKeepsWork(e: Env, s: State, s': State, w: nat)
    requires Inv(e, s) && Inv(e, s') && Onward(s, s') && Work(s) && OneDelivery(s, s', w)
    ensures Work(s')
  {
    hide Inv, Onward, Posted, Settled, DeliveryOk, CallOk;
    WorkStays(e, s, s');
  }

  lemma DeliverIsOrderly(s: State, w: nat, m: nat)
    requires Work(s)
    ensures OneDelivery(s, DoDeliver(s, w, m), w)
  {
    hide Posted, Settled, CallOk;
  }

  lemma FetchIsOrderly(e: Env, s: State, w: nat)
    requires Inv(e, s) && Work(s)
    ensures OneDelivery(s, DoFetch(s, w), w)
  {
    if w in s.deliveries && s.deliveries[w].pc == Received {
      var job := s.queue.sent[s.deliveries[w].msg];
      JudgedRight(e, s, job);
      hide Inv, CallOk;
    }
  }

  lemma JudgedRight(e: Env, s: State, job: Job)
    requires Inv(e, s) && Posted(s.live, job)
    ensures var pc := Judged(s.live.redis, job);
      && (pc == Done ==> Settled(s.live, job))
      && (pc.Thinking? ==> job.kind == Move && pc.g.id == job.gameId && pc.g.ply == job.ply
                           && EngineToMove(pc.g) && s.live.redis[job.gameId] == pc.g)
      && (pc.Archiving? ==> job.kind == Move && pc.g.id == job.gameId && pc.g.Over())
  {
    if job.kind == Move && job.gameId in s.live.redis {
      var g := s.live.redis[job.gameId];
      assert Line(e.rules, job.gameId, s.live.hist[job.gameId]);
      assert g == Last(s.live.hist[job.gameId]);
      assert WellFormed(e.rules, g);
    }
  }

  /** However the engine's move turns out, the job is settled once the worker gets past the write:
      a conflict in a bot game is progress, and success is. */
  lemma PlayIsOrderly(e: Env, s: State, w: nat, uci: string)
    requires Inv(e, s) && Work(s)
    ensures OneDelivery(s, DoPlay(e, s, w, uci), w)
  {
    hide Inv, Posted, Settled, CallOk, EngineToMove, Moved;
    if w in s.deliveries && s.deliveries[w].pc.Thinking? {
      var g := s.deliveries[w].pc.g;
      assert DeliveryOk(s, s.deliveries[w]);
      match Moved(e.rules, g, g.EngineColor(), uci)
      case Err(_) =>
      case Ok(next) => PlayedIsOrderly(e, s, w, uci, next);
    }
  }

  lemma PlayedIsOrderly(e: Env, s: State, w: nat, uci: string, next: GameRec)
    requires Inv(e, s) && Work(s) && w in s.deliveries && s.deliveries[w].pc.Thinking?
    requires var g := s.deliveries[w].pc.g; Moved(e.rules, g, g.EngineColor(), uci) == Ok(next)
    ensures OneDelivery(s, Played(s, w, s.deliveries[w].pc.g, next), w)
  {
    hide Inv, Posted, CallOk, EngineToMove, Moved, Settled;
    var g, job := s.deliveries[w].pc.g, s.queue.sent[s.deliveries[w].msg];
    assert DeliveryOk(s, s.deliveries[w]);
    PlaySettles(e, s, g, uci, next, job);
  }

  lemma PlaySettles(e: Env, s: State, g: GameRec, uci: string, next: GameRec, job: Job)
    requires Inv(e, s) && (exists w :: w in s.deliveries && s.deliveries[w].pc == Thinking(g))
    requires EngineToMove(g) && g.id == job.gameId && g.ply == job.ply
    requires Moved(e.rules, g, g.EngineColor(), uci) == Ok(next)
    ensures next.id == g.id
    ensures if Store.Cas(s.live.redis, next, g.ply).None? then Settled(s.live, job)
            else Settled(Written(s, Store.Next(next)).live, job)
  {
    assert WasStored(s, g);
    hide Settled, Stored, Snapshots, WasStored;
    MovedEvolves(e, s, g, g.EngineColor(), uci);
    if Store.Cas(s.live.redis, next, g.ply).None? {
      ConflictSettles(e, s, g, next, job);
    } else {
      MovedGrows(e, s, g, uci, next);
      MoveSettles(e, s, g, next, job);
    }
  }

  lemma MovedGrows(e: Env, s: State, g: GameRec, uci: string, next: GameRec)
    requires Inv(e, s) && WasStored(s, g) && Moved(e.rules, g, g.EngineColor(), uci) == Ok(next)
    ensures next.ply == g.ply + 1
  {
    assert Line(e.rules, g.id, s.live.hist[g.id]);
    assert WellFormed(e.rules, g);
  }

  lemma ConflictSettles(e: Env, s: State, g: GameRec, next: GameRec, job: Job)
    requires Inv(e, s) && WasStored(s, g) && next.id == g.id && next.revision == g.revision
    requires EngineToMove(g) && g.id == job.gameId && g.ply == job.ply
    requires Store.Cas(s.live.redis, next, g.ply).None?
    ensures Settled(s.live, job)
  {
    hide WellFormed, Evolves, Born;
    ConflictMeansProgress(e, s, g, next);
    assert s.live.hist[g.id] != [];
    if g.id in s.live.redis {
      assert s.live.redis[g.id] == Last(s.live.hist[g.id]);
    }
  }

  lemma MoveSettles(e: Env, s: State, g: GameRec, next: GameRec, job: Job)
    requires Inv(e, s) && WasStored(s, g) && next.id == g.id && next.revision == g.revision
    requires Store.Cas(s.live.redis, next, g.ply).Some?
    requires g.id == job.gameId && g.ply == job.ply && next.ply == g.ply + 1
    ensures Settled(Written(s, Store.Next(next)).live, job)
  {
    assert Past(s, g.id) + [Store.Next(next)] != [];
  }

  lemma WorkerEndIsOrderly(e: Env, s: State, w: nat, up: bool)
    requires Inv(e, s) && Work(s)
    ensures OneDelivery(s, DoWorkerArchive(e, s, w, up), w)
    ensures OneDelivery(s, WithoutDelivery(s, w), w)
  {
    hide A.Saved, Posted, CallOk, EngineToMove;
    if w in s.deliveries && s.deliveries[w].pc.Archiving? {
      var g := s.deliveries[w].pc.g;
      assert DeliveryOk(s, s.deliveries[w]);
      assert WasStored(s, g);
      SnapshotIsEarlier(e, s, g);
      hide Inv;
    }
  }

  lemma AckKeepsWork(e: Env, s: State, w: nat)
    requires Inv(e, s) && Work(s) && Inv(e, DoAck(s, w)) && Onward(s, DoAck(s, w))
    ensures Work(DoAck(s, w))
  {
    hide Inv, Posted, CallOk, EngineToMove, Onward;
    if w in s.deliveries && s.deliveries[w].pc == Done {
      assert DeliveryOk(s, s.deliveries[w]);
      WorkStays(e, s, DoAck(s, w));
    }
  }

  lemma ElsewhereKeepsWork(e: Env, s: State, s': State)
    requires Inv(e, s) && Inv(e, s') && Onward(s, s') && Work(s)
    requires s'.queue == s.queue && s'.calls == s.calls && s'.deliveries == s.deliveries
    ensures Work(s')
  {
    hide Inv, Posted, CallOk, DeliveryOk, Settled, Onward;
    WorkStays(e, s, s');
  }

  predicate ByHandler(a: Action) {
    a.Create? || a.ReadForMove? || a.CommitMove? || a.ReadForJoin? || a.CommitJoin? || a.ReadForResign?
    || a.CommitResign? || a.Enqueue? || a.ApiArchive? || a.DropCall?
  }

  lemma HandlerKeepsWork(e: Env, s: State, a: Action)
    requires Inv(e, s) && Work(s) && ByHandler(a)
    requires Inv(e, Next(e, s, a)) && Onward(s, Next(e, s, a))
    ensures Work(Next(e, s, a))
  {
    hide Inv, Work, Onward, OnlyCalls, DoCommitMove, DoCommitJoin, DoCommitResign, DoPlay,
      DoCreate, DoFetch, DoEnqueue, DoApiArchive, DoDropCall, DoWorkerArchive, DoAck, DoAsk, DoDeliver,
      Start, WithoutDelivery;
    var s' := Next(e, s, a);
    match a {
      case Create(c, id, user, mode, color, level, at) =>
        CreateIsOrderly(s, c, Newborn(id, user, mode, color, level, at));
      case CommitMove(c) => CommitsAreOrderly(e, s, c);
      case CommitJoin(c) => CommitsAreOrderly(e, s, c);
      case CommitResign(c) => CommitsAreOrderly(e, s, c);
      case ReadForMove(c, id, u, uci) => StartIsOrderly(s, c, id, Moving(u, uci));
      case ReadForJoin(c, id, u) => StartIsOrderly(s, c, id, Joining(u));
      case ReadForResign(c, id, u) => StartIsOrderly(s, c, id, Resigning(u));
      case Enqueue(c, m) => EnqueueKeepsWork(e, s, c, m);
      case ApiArchive(c, up) => ApiArchiveIsOrderly(e, s, c, up);
      case DropCall(c) => DropIsOrderly(s, c);
    }
    if !a.Enqueue? {
      OnlyCallsKeepWork(e, s, s');
    }
  }

  lemma WorkerKeepsWork(e: Env, s: State, a: Action)
    requires Sound(e.rules) && Inv(e, s) && Work(s) && Inv(e, Next(e, s, a)) && Onward(s, Next(e, s, a))
    requires a.Deliver? || a.Fetch? || a.Play? || a.WorkerArchive? || a.Crash?
    ensures Work(Next(e, s, a))
  {
    hide Inv, Work, Onward, OneDelivery, DoPlay, DoFetch, DoWorkerArchive, DoDeliver, WithoutDelivery;
    match a {
      case Deliver(w, m) => DeliverIsOrderly(s, w, m);
      case Fetch(w) => FetchIsOrderly(e, s, w);
      case Play(w, uci) => PlayIsOrderly(e, s, w, uci);
      case WorkerArchive(w, up) => WorkerEndIsOrderly(e, s, w, up);
      case Crash(w) => WorkerEndIsOrderly(e, s, w, true);
    }
    OneDeliveryKeepsWork(e, s, Next(e, s, a), a.w);
  }

  lemma StepKeepsWork(e: Env, s: State, a: Action)
    requires Sound(e.rules) && Inv(e, s) && Work(s)
    ensures Inv(e, Next(e, s, a)) && Onward(s, Next(e, s, a)) && Work(Next(e, s, a))
  {
    hide Inv, Work, Onward, OneDelivery, DoCommitMove, DoCommitJoin, DoCommitResign, DoPlay,
      DoCreate, DoFetch, DoEnqueue, DoApiArchive, DoDropCall, DoWorkerArchive, DoAck, DoAsk, DoDeliver,
      Start, WithoutDelivery;
    StepIsOnward(e, s, a);
    match a {
      case Ask(m, id, ply, kind) => AskKeepsWork(e, s, m, Job(id, ply, kind));
      case Deliver(_, _) => WorkerKeepsWork(e, s, a);
      case Fetch(_) => WorkerKeepsWork(e, s, a);
      case Play(_, _) => WorkerKeepsWork(e, s, a);
      case WorkerArchive(_, _) => WorkerKeepsWork(e, s, a);
      case Crash(_) => WorkerKeepsWork(e, s, a);
      case Ack(w) => AckKeepsWork(e, s, w);
      case Expire(_) => ElsewhereKeepsWork(e, s, Next(e, s, a));
      case NewUser(_) => ElsewhereKeepsWork(e, s, Next(e, s, a));
      case Reap(_) => ElsewhereKeepsWork(e, s, Next(e, s, a));
      case _ => HandlerKeepsWork(e, s, a);
    }
  }
}
