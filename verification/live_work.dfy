/** What the queue, the workers and the follow-ups of the live-game protocol can hold: a move job
    names a game that existed with at least that ply, a job done with is settled, and if a job's
    game is between friends that game is already over. */
module LiveWork {
  import opened Game
  import opened LiveGame
  import opened LiveHistory
  import Store = GameStore
  import A = Archive

  ghost predicate Posted(live: Live, job: Job) {
    job.kind == Move ==>
      && job.gameId in live.hist && live.hist[job.gameId] != []
      && job.ply <= Last(live.hist[job.gameId]).ply
      && (Last(live.hist[job.gameId]).friend ==> Last(live.hist[job.gameId]).Over())
  }

  /** There is nothing left to do for this job: its game is gone, over, or past it. */
  ghost predicate Settled(live: Live, job: Job) {
    job.kind == Move ==>
      && job.gameId in live.hist && live.hist[job.gameId] != []
      && var g := Last(live.hist[job.gameId]);
         job.gameId !in live.redis || g.Over() || g.ply > job.ply || TurnAt(job.ply) != g.EngineColor()
  }

  ghost predicate DeliveryOk(s: State, d: Delivery) {
    && d.msg in s.queue.sent
    && var job := s.queue.sent[d.msg];
      match d.pc
      case Received => true
      case Thinking(g) =>
        job.kind == Move && g.id == job.gameId && g.ply == job.ply && EngineToMove(g)
      case Archiving(g) => job.kind == Move && g.id == job.gameId && g.Over()
      case Done => Settled(s.live, job)
  }

  ghost predicate CallOk(call: Call) {
    match call.stage
    case After => call.g.Over() || EngineToMove(call.g)
    case Requeue => call.g.Over()
    case _ => true
  }

  ghost predicate Work(s: State) {
    && (forall m | m in s.queue.sent :: Posted(s.live, s.queue.sent[m]))
    && (forall m | m in s.queue.acked :: m in s.queue.sent && Settled(s.live, s.queue.sent[m]))
    && (forall w | w in s.deliveries :: DeliveryOk(s, s.deliveries[w]))
    && (forall c | c in s.calls :: CallOk(s.calls[c]))
  }

  // ---- Those facts survive every step ---------------------------------------------------------

  /** Histories only grow, and a key that is gone stays gone. */
  ghost predicate Onward(s: State, s': State) {
    && Grows(s, s')
    && (forall id | id in s.live.hist && id !in s.live.redis :: id !in s'.live.redis)
  }

  lemma LastIsLater(e: Env, s: State, s': State, id: string)
    requires Inv(e, s) && Inv(e, s') && Grows(s, s') && id in s.live.hist
    ensures s.live.hist[id] != [] && s'.live.hist[id] != []
    ensures Later(Last(s.live.hist[id]), Last(s'.live.hist[id]))
  {
    hide WellFormed, Evolves, Later, Born;
    var h, h' := s.live.hist[id], s'.live.hist[id];
    assert Line(e.rules, id, h) && Line(e.rules, id, h');
    HistoryIsLinear(e.rules, id, h', |h| - 1, |h'| - 1);
  }

  lemma PostedStays(e: Env, s: State, s': State, job: Job)
    requires Inv(e, s) && Inv(e, s') && Grows(s, s') && Posted(s.live, job)
    ensures Posted(s'.live, job)
  {
    hide Inv;
    if job.kind == Move {
      LastIsLater(e, s, s', job.gameId);
    }
  }

  lemma SettledStays(e: Env, s: State, s': State, job: Job)
    requires Inv(e, s) && Inv(e, s') && Onward(s, s') && Settled(s.live, job)
    ensures Settled(s'.live, job)
  {
    hide Inv;
    if job.kind == Move {
      LastIsLater(e, s, s', job.gameId);
    }
  }

  lemma DeliveryStays(e: Env, s: State, s': State, d: Delivery)
    requires Inv(e, s) && Inv(e, s') && Onward(s, s') && DeliveryOk(s, d)
    requires forall m | m in s.queue.sent :: m in s'.queue.sent && s'.queue.sent[m] == s.queue.sent[m]
    ensures DeliveryOk(s', d)
  {
    hide Inv, Onward, Settled, EngineToMove;
    if d.pc == Done {
      SettledStays(e, s, s', s.queue.sent[d.msg]);
    }
  }

  /** A step keeps Work when what it adds to the queue, the deliveries and the calls is in order. */
  lemma WorkStays(e: Env, s: State, s': State)
    requires Inv(e, s) && Inv(e, s') && Onward(s, s') && Work(s)
    requires forall m | m in s.queue.sent :: m in s'.queue.sent && s'.queue.sent[m] == s.queue.sent[m]
    requires forall m | m in s'.queue.sent :: m in s.queue.sent || Posted(s'.live, s'.queue.sent[m])
    requires forall m | m in s'.queue.acked ::
      m in s.queue.acked || (m in s'.queue.sent && Settled(s'.live, s'.queue.sent[m]))
    requires forall w | w in s'.deliveries ::
      (w in s.deliveries && s'.deliveries[w] == s.deliveries[w]) || DeliveryOk(s', s'.deliveries[w])
    requires forall c | c in s'.calls ::
      (c in s.calls && s'.calls[c] == s.calls[c]) || CallOk(s'.calls[c])
    ensures Work(s')
  {
    hide Inv, Onward, Grows, Posted, Settled, DeliveryOk, CallOk;
    forall m | m in s'.queue.sent ensures Posted(s'.live, s'.queue.sent[m]) {
      if m in s.queue.sent { GrowsOf(s, s'); PostedStays(e, s, s', s.queue.sent[m]); }
    }
    forall m | m in s'.queue.acked ensures m in s'.queue.sent && Settled(s'.live, s'.queue.sent[m]) {
      if m in s.queue.acked { SettledStays(e, s, s', s.queue.sent[m]); }
    }
    forall w | w in s'.deliveries ensures DeliveryOk(s', s'.deliveries[w]) {
      if w in s.deliveries && s'.deliveries[w] == s.deliveries[w] {
        DeliveryStays(e, s, s', s.deliveries[w]);
      }
    }
  }

  lemma GrowsOf(s: State, s': State)
    requires Onward(s, s')
    ensures Grows(s, s')
  {
  }

  // ---- Onward, step by step -------------------------------------------------------------------

  /** How a step can change the live games. */
  ghost predicate LiveStep(s: State, s': State) {
    || s'.live == s.live
    || (exists g: GameRec :: (g.id in s.live.redis || g.id !in s.live.hist)
                             && s'.live == Written(s, g).live)
    || (exists id :: s'.live == DoExpire(s, id).live)
  }

  lemma LiveStepIsOnward(s: State, s': State)
    requires LiveStep(s, s') && Grows(s, s')
    ensures Onward(s, s')
  {
  }

  lemma CommitIsLiveStep(s: State, c: nat, g: GameRec, expectedPly: int, handOff: bool)
    requires expectedPly != Store.MUST_NOT_EXIST
    ensures LiveStep(s, Commit(s, c, g, expectedPly, handOff))
  {
    var next := Store.Next(g);
    if Store.Cas(s.live.redis, g, expectedPly).Some? {
      assert next.id in s.live.redis;
      assert Commit(s, c, g, expectedPly, handOff).live == Written(s, next).live;
    }
  }

  lemma SnapshotPly(e: Env, s: State, g: GameRec)
    requires Inv(e, s) && WasStored(s, g)
    ensures g.ply >= 0
  {
    assert Line(e.rules, g.id, s.live.hist[g.id]);
    assert WellFormed(e.rules, g);
  }

  lemma CallStepIsLive(e: Env, s: State, c: nat)
    requires Inv(e, s)
    ensures LiveStep(s, DoCommitMove(e, s, c))
    ensures LiveStep(s, DoCommitJoin(s, c))
    ensures LiveStep(s, DoCommitResign(s, c))
  {
    hide Stored, WasStored, LiveStep, Commit, Moved, Resigned;
    var rest := WithoutCall(s, c);
    SameLive(s, s);
    SameLive(s, rest);
    if c in s.calls {
      var Call(g, stage) := s.calls[c];
      SnapshotPly(e, s, g);
      forall next: GameRec, handOff | true
        ensures LiveStep(s, Commit(rest, c, next, g.ply, handOff))
      {
        CommitIsLiveStep(rest, c, next, g.ply, handOff);
        LiveStepFrom(s, rest, Commit(rest, c, next, g.ply, handOff));
      }
    }
  }

  lemma SameLive(s: State, s': State)
    requires s'.live == s.live
    ensures LiveStep(s, s')
  {
  }

  lemma LiveStepFrom(s: State, rest: State, s': State)
    requires rest.live == s.live && LiveStep(rest, s')
    ensures LiveStep(s, s')
  {
    if g: GameRec :| (g.id in s.live.redis || g.id !in s.live.hist) && s'.live == Written(rest, g).live {
      assert s'.live == Written(s, g).live;
    } else if id :| s'.live == DoExpire(rest, id).live {
      assert s'.live == DoExpire(s, id).live;
    }
  }

  lemma PlayIsLive(e: Env, s: State, w: nat, uci: string)
    requires Inv(e, s)
    ensures LiveStep(s, DoPlay(e, s, w, uci))
  {
    hide Stored, WasStored, LiveStep, Moved;
    SameLive(s, s);
    SameLive(s, WithoutDelivery(s, w));
    if w in s.deliveries && s.deliveries[w].pc.Thinking? {
      var g := s.deliveries[w].pc.g;
      SnapshotPly(e, s, g);
      match Moved(e.rules, g, g.EngineColor(), uci)
      case Err(_) =>
      case Ok(next) => PlayedIsLive(s, w, g, next);
    }
  }

  lemma PlayedIsLive(s: State, w: nat, g: GameRec, next: GameRec)
    requires w in s.deliveries && g.ply >= 0
    ensures LiveStep(s, Played(s, w, g, next))
  {
    if Store.Cas(s.live.redis, next, g.ply).Some? {
      assert Played(s, w, g, next).live == Written(s, Store.Next(next)).live;
      assert Store.Next(next).id in s.live.redis;
    } else {
      SameLive(s, Played(s, w, g, next));
    }
  }

  lemma CreateIsLive(s: State, c: nat, g: GameRec)
    ensures LiveStep(s, DoCreate(s, c, g))
  {
    if DoCreate(s, c, g) != s {
      assert DoCreate(s, c, g).live == Written(s, Store.Next(g)).live;
    } else {
      SameLive(s, s);
    }
  }

  lemma StepIsLive(e: Env, s: State, a: Action)
    requires Inv(e, s)
    ensures LiveStep(s, Next(e, s, a))
  {
    hide Inv, LiveStep, DoCommitMove, DoCommitJoin, DoCommitResign, DoPlay, DoCreate, A.Saved;
    match a
    case Create(c, id, user, mode, color, level, at) =>
      CreateIsLive(s, c, Newborn(id, user, mode, color, level, at));
    case CommitMove(c) => CallStepIsLive(e, s, c);
    case CommitJoin(c) => CallStepIsLive(e, s, c);
    case CommitResign(c) => CallStepIsLive(e, s, c);
    case Play(w, uci) => PlayIsLive(e, s, w, uci);
    case Expire(id) => ExpireIsLive(s, id);
    case _ => SameLive(s, Next(e, s, a));
  }

  lemma ExpireIsLive(s: State, id: string)
    ensures LiveStep(s, DoExpire(s, id))
  {
  }

  lemma StepIsOnward(e: Env, s: State, a: Action)
    requires Sound(e.rules) && Inv(e, s)
    ensures Inv(e, Next(e, s, a)) && Onward(s, Next(e, s, a))
  {
    hide Inv, LiveStep, Onward, Grows, Next;
    StepKeeps(e, s, a);
    StepIsLive(e, s, a);
    LiveStepIsOnward(s, Next(e, s, a));
  }
}
