/** Acknowledging never strands a turn, and the engine never plays in a friend game. */
module LiveTurns {
  import opened Game
  import opened LiveGame
  import opened LiveHistory
  import opened LiveWork
  import opened LiveWorkSteps
  import Store = GameStore
  import A = Archive

  /** An unacknowledged move job for exactly this ply. */
  ghost predicate HasMessage(s: State, g: GameRec) {
    exists m :: m in s.queue.sent && m !in s.queue.acked && s.queue.sent[m] == Job(g.id, g.ply, Move)
  }

  /** A handler that has committed this value and not yet enqueued. */
  ghost predicate HasFollowUp(s: State, g: GameRec) {
    exists c :: c in s.calls && s.calls[c] == Call(g, After)
  }

  ghost predicate LookedAfter(s: State, g: GameRec) {
    HasMessage(s, g) || HasFollowUp(s, g)
  }

  /** Whenever it is the engine's turn, somebody still owes the game a move, unless a handler died
      or failed to enqueue between its write and its follow-up. */
  ghost predicate NoTurnStranded(s: State) {
    forall id | id in s.live.redis && id !in s.notes.dropped && EngineToMove(s.live.redis[id]) ::
      LookedAfter(s, s.live.redis[id])
  }

  // ---- Steps that take no job away ------------------------------------------------------------

  /** No job is acknowledged or forgotten, and no follow-up for an engine move goes. */
  ghost predicate KeepsJobs(s: State, s': State) {
    && (forall m | m in s.queue.sent :: m in s'.queue.sent && s'.queue.sent[m] == s.queue.sent[m])
    && s'.queue.acked == s.queue.acked
    && s.notes.dropped <= s'.notes.dropped
    && (forall c | c in s.calls && s.calls[c].stage == After && !s.calls[c].g.Over() ::
          c in s'.calls && s'.calls[c] == s.calls[c])
  }

  lemma LookedAfterStays(s: State, s': State, g: GameRec)
    requires KeepsJobs(s, s') && LookedAfter(s, g) && !g.Over()
    ensures LookedAfter(s', g)
  {
    if m :| m in s.queue.sent && m !in s.queue.acked && s.queue.sent[m] == Job(g.id, g.ply, Move) {
      assert s'.queue.sent[m] == Job(g.id, g.ply, Move);
    } else {
      var c :| c in s.calls && s.calls[c] == Call(g, After);
      assert s'.calls[c] == Call(g, After);
    }
  }

  lemma NothingWritten(s: State, s': State)
    requires NoTurnStranded(s) && KeepsJobs(s, s')
    requires forall id | id in s'.live.redis :: id in s.live.redis && s'.live.redis[id] == s.live.redis[id]
    ensures NoTurnStranded(s')
  {
    hide KeepsJobs, LookedAfter;
    DroppedGrows(s, s');
    forall id | id in s'.live.redis && id !in s'.notes.dropped && EngineToMove(s'.live.redis[id])
      ensures LookedAfter(s', s'.live.redis[id])
    {
      LookedAfterStays(s, s', s.live.redis[id]);
    }
  }

  lemma DroppedGrows(s: State, s': State)
    requires KeepsJobs(s, s')
    ensures s.notes.dropped <= s'.notes.dropped
  {
  }

  /** A write leaves the other games to their own jobs, and the written one to a follow-up. */
  lemma OneWritten(s: State, s': State, g: GameRec)
    requires NoTurnStranded(s) && KeepsJobs(s, s') && s'.live.redis == s.live.redis[g.id := g]
    requires EngineToMove(g) ==> LookedAfter(s', g)
    ensures NoTurnStranded(s')
  {
    hide KeepsJobs, LookedAfter;
    DroppedGrows(s, s');
    forall id | id in s'.live.redis && id !in s'.notes.dropped && EngineToMove(s'.live.redis[id])
      ensures LookedAfter(s', s'.live.redis[id])
    {
      if id != g.id {
        LookedAfterStays(s, s', s.live.redis[id]);
      }
    }
  }

  lemma HandOffLooksAfter(s: State, c: nat, g: GameRec)
    ensures EngineToMove(g) ==> LookedAfter(HandOff(s, c, g), g)
    ensures HandOff(s, c, g).live == s.live
    ensures c !in s.calls ==> KeepsJobs(s, HandOff(s, c, g))
  {
    if EngineToMove(g) {
      assert HandOff(s, c, g).calls[c] == Call(g, After);
    }
  }

  lemma CommitStrandsNothing(s: State, c: nat, g: GameRec, expectedPly: int, handOff: bool)
    requires NoTurnStranded(s) && c !in s.calls && (handOff || g.friend)
    ensures NoTurnStranded(Commit(s, c, g, expectedPly, handOff))
  {
    hide NoTurnStranded, LookedAfter, KeepsJobs, HandOff;
    if Store.Cas(s.live.redis, g, expectedPly).Some? {
      var next := Store.Next(g);
      var written := Written(s, next);
      WrittenKeepsJobs(s, next);
      HandOffLooksAfter(written, c, next);
      KeepsJobsOn(s, written, HandOff(written, c, next));
      OneWritten(s, Commit(s, c, g, expectedPly, handOff), next);
    }
  }

  lemma WrittenKeepsJobs(s: State, g: GameRec)
    ensures KeepsJobs(s, Written(s, g))
  {
  }

  lemma KeepsJobsOn(s: State, t: State, u: State)
    requires KeepsJobs(s, t) && KeepsJobs(t, u)
    ensures KeepsJobs(s, u)
  {
  }

  lemma RestStrandsNothing(s: State, c: nat)
    requires NoTurnStranded(s) && (c in s.calls ==> !s.calls[c].stage.After?)
    ensures NoTurnStranded(WithoutCall(s, c))
  {
    NothingWritten(s, WithoutCall(s, c));
  }

  lemma CommitMoveStrandsNothing(e: Env, s: State, c: nat)
    requires NoTurnStranded(s)
    ensures NoTurnStranded(DoCommitMove(e, s, c))
  {
    hide NoTurnStranded, Commit, Moved;
    if c in s.calls && s.calls[c].stage.Moving? {
      var Call(g, Moving(user, uci)) := s.calls[c];
      RestStrandsNothing(s, c);
      match g.ColorFor(user)
      case None =>
      case Some(color) =>
        match Moved(e.rules, g, color, uci)
        case Err(_) =>
        case Ok(next) => CommitStrandsNothing(WithoutCall(s, c), c, next, g.ply, true);
    }
  }

  lemma CommitResignStrandsNothing(s: State, c: nat)
    requires NoTurnStranded(s)
    ensures NoTurnStranded(DoCommitResign(s, c))
  {
    hide NoTurnStranded, Commit, Resigned;
    if c in s.calls && s.calls[c].stage.Resigning? {
      var Call(g, Resigning(user)) := s.calls[c];
      RestStrandsNothing(s, c);
      match g.ColorFor(user)
      case None =>
      case Some(color) =>
        match Resigned(g, color)
        case Err(_) =>
        case Ok(next) => CommitStrandsNothing(WithoutCall(s, c), c, next, g.ply, true);
    }
  }

  lemma CommitJoinStrandsNothing(s: State, c: nat)
    requires NoTurnStranded(s)
    ensures NoTurnStranded(DoCommitJoin(s, c))
  {
    hide NoTurnStranded, Commit;
    if c in s.calls && s.calls[c].stage.Joining? {
      var Call(g, Joining(user)) := s.calls[c];
      RestStrandsNothing(s, c);
      if g.friend {
        CommitStrandsNothing(WithoutCall(s, c), c, g.(opponentId := user), g.ply, false);
      }
    }
  }

  lemma CreateStrandsNothing(s: State, c: nat, g: GameRec)
    requires NoTurnStranded(s)
    ensures NoTurnStranded(DoCreate(s, c, g))
  {
    hide NoTurnStranded, LookedAfter, KeepsJobs, HandOff;
    if g.id !in s.live.hist && c !in s.calls && Store.Cas(s.live.redis, g, Store.MUST_NOT_EXIST).Some? {
      var next := Store.Next(g);
      WrittenKeepsJobs(s, next);
      HandOffLooksAfter(Written(s, next), c, next);
      KeepsJobsOn(s, Written(s, next), HandOff(Written(s, next), c, next));
      OneWritten(s, HandOff(Written(s, next), c, next), next);
    }
  }

  // ---- Enqueue, drop, acknowledge --------------------------------------------------------------

  /** Enqueue trades the follow-up for the job. */
  lemma EnqueueStrandsNothing(s: State, c: nat, m: nat)
    requires Work(s) && NoTurnStranded(s)
    ensures NoTurnStranded(DoEnqueue(s, c, m))
  {
    hide Work, NoTurnStranded, LookedAfter;
    var s' := DoEnqueue(s, c, m);
    if s' != s {
      NewIsUnacked(s, m);
      EnqueuedLooksAfter(s, c, m);
      forall id | id in s'.live.redis && id !in s'.notes.dropped && EngineToMove(s'.live.redis[id])
        ensures LookedAfter(s', s'.live.redis[id])
      {
        StrandedNot(s, id);
      }
      Gathered(s');
    }
  }

  lemma NewIsUnacked(s: State, m: nat)
    requires Work(s) && m !in s.queue.sent
    ensures m !in s.queue.acked
  {
  }

  lemma StrandedNot(s: State, id: string)
    requires NoTurnStranded(s)
    ensures id in s.live.redis && id !in s.notes.dropped && EngineToMove(s.live.redis[id])
        ==> LookedAfter(s, s.live.redis[id])
  {
  }

  lemma Gathered(s: State)
    requires forall id | id in s.live.redis && id !in s.notes.dropped && EngineToMove(s.live.redis[id]) ::
      LookedAfter(s, s.live.redis[id])
    ensures NoTurnStranded(s)
  {
  }

  lemma EnqueuedLooksAfter(s: State, c: nat, m: nat)
    requires DoEnqueue(s, c, m) != s && m !in s.queue.acked
    ensures forall g: GameRec | LookedAfter(s, g) :: LookedAfter(DoEnqueue(s, c, m), g)
  {
    var s' := DoEnqueue(s, c, m);
    forall g: GameRec | LookedAfter(s, g) ensures LookedAfter(s', g) {
      if k :| k in s.queue.sent && k !in s.queue.acked && s.queue.sent[k] == Job(g.id, g.ply, Move) {
        assert s'.queue.sent[k] == Job(g.id, g.ply, Move);
      } else {
        var k :| k in s.calls && s.calls[k] == Call(g, After);
        if k == c {
          assert s'.queue.sent[m] == Job(g.id, g.ply, Move);
        } else {
          assert s'.calls[k] == Call(g, After);
        }
      }
    }
  }

  lemma DropStrandsOnlyNoted(e: Env, s: State, c: nat)
    requires Inv(e, s) && NoTurnStranded(s)
    ensures NoTurnStranded(DoDropCall(s, c))
  {
    hide Inv, NoTurnStranded, LookedAfter;
    var s' := DoDropCall(s, c);
    forall id | id in s'.live.redis && id !in s'.notes.dropped && EngineToMove(s'.live.redis[id])
      ensures LookedAfter(s', s'.live.redis[id])
    {
      StrandedNot(s, id);
      KeyIsId(e, s, id);
      DropKeepsOthers(s, c, s.live.redis[id]);
    }
    Gathered(s');
  }

  lemma KeyIsId(e: Env, s: State, id: string)
    requires Inv(e, s) && id in s.live.redis
    ensures s.live.redis[id].id == id
  {
    assert Line(e.rules, id, s.live.hist[id]);
  }

  lemma DropKeepsOthers(s: State, c: nat, g: GameRec)
    requires LookedAfter(s, g) && g.id !in DoDropCall(s, c).notes.dropped
    ensures LookedAfter(DoDropCall(s, c), g)
  {
    var s' := DoDropCall(s, c);
    if k :| k in s.queue.sent && k !in s.queue.acked && s.queue.sent[k] == Job(g.id, g.ply, Move) {
      assert s'.queue.sent[k] == Job(g.id, g.ply, Move);
    } else {
      var k :| k in s.calls && s.calls[k] == Call(g, After);
      assert k != c;
      assert s'.calls[k] == Call(g, After);
    }
  }

  /** The heart of it: a job that is acknowledged was settled, so it was nobody's turn. */
  lemma AckStrandsNothing(e: Env, s: State, w: nat)
    requires Inv(e, s) && Work(s) && NoTurnStranded(s)
    ensures NoTurnStranded(DoAck(s, w))
  {
    var s' := DoAck(s, w);
    if s' != s {
      var m := s.deliveries[w].msg;
      assert DeliveryOk(s, s.deliveries[w]);
      forall id | id in s'.live.redis && id !in s'.notes.dropped && EngineToMove(s'.live.redis[id])
        ensures LookedAfter(s', s'.live.redis[id])
      {
        var g := s.live.redis[id];
        AckedElsewhere(e, s, id, s.queue.sent[m]);
        if k :| k in s.queue.sent && k !in s.queue.acked && s.queue.sent[k] == Job(g.id, g.ply, Move) {
          assert k != m && s'.queue.sent[k] == Job(g.id, g.ply, Move);
        } else {
          var k :| k in s.calls && s.calls[k] == Call(g, After);
          assert s'.calls[k] == Call(g, After);
        }
      }
    }
  }

  lemma AckedElsewhere(e: Env, s: State, id: string, job: Job)
    requires Inv(e, s) && id in s.live.redis && EngineToMove(s.live.redis[id]) && Settled(s.live, job)
    ensures job != Job(s.live.redis[id].id, s.live.redis[id].ply, Move)
  {
    var g := s.live.redis[id];
    assert Line(e.rules, id, s.live.hist[id]);
    assert g == Last(s.live.hist[id]) && WellFormed(e.rules, g);
  }

  // ---- Every run --------------------------------------------------------------------------------

  lemma PlayStrandsNothing(e: Env, s: State, w: nat, uci: string)
    requires Work(s) && NoTurnStranded(s)
    ensures NoTurnStranded(DoPlay(e, s, w, uci))
  {
    hide NoTurnStranded, LookedAfter, Posted, Settled, CallOk;
    if w in s.deliveries && s.deliveries[w].pc.Thinking? {
      var g := s.deliveries[w].pc.g;
      assert DeliveryOk(s, s.deliveries[w]);
      match Moved(e.rules, g, g.EngineColor(), uci)
      case Err(_) => NothingWritten(s, WithoutDelivery(s, w));
      case Ok(next) =>
        var s' := Played(s, w, g, next);
        if Store.Cas(s.live.redis, next, g.ply).None? {
          NothingWritten(s, s');
        } else {
          assert !EngineToMove(Store.Next(next));
          OneWritten(s, s', Store.Next(next));
        }
    }
  }

  lemma PlainStrandsNothing(e: Env, s: State, a: Action)
    requires NoTurnStranded(s)
    requires a.ReadForMove? || a.ReadForJoin? || a.ReadForResign? || a.Ask? || a.Deliver? || a.Fetch?
          || a.WorkerArchive? || a.Crash? || a.Expire? || a.NewUser? || a.Reap? || a.ApiArchive?
    ensures NoTurnStranded(Next(e, s, a))
  {
    hide NoTurnStranded, A.Saved, Judged, DoCommitMove, DoCommitJoin, DoCommitResign, DoPlay, DoCreate,
      DoEnqueue, DoDropCall, DoAck;
    NothingWritten(s, Next(e, s, a));
  }

  lemma StepStrandsNothing(e: Env, s: State, a: Action)
    requires Inv(e, s) && Work(s) && NoTurnStranded(s)
    ensures NoTurnStranded(Next(e, s, a))
  {
    hide Inv, Work, NoTurnStranded, DoCommitMove, DoCommitJoin, DoCommitResign, DoPlay, DoCreate,
      DoEnqueue, DoDropCall, DoAck, DoFetch, DoApiArchive, DoWorkerArchive, DoAsk, DoDeliver, Start,
      DoExpire, DoNewUser, DoReap, WithoutDelivery;
    match a
    case Create(c, id, user, mode, color, level, at) =>
      CreateStrandsNothing(s, c, Newborn(id, user, mode, color, level, at));
    case CommitMove(c) => CommitMoveStrandsNothing(e, s, c);
    case CommitJoin(c) => CommitJoinStrandsNothing(s, c);
    case CommitResign(c) => CommitResignStrandsNothing(s, c);
    case Enqueue(c, m) => EnqueueStrandsNothing(s, c, m);
    case DropCall(c) => DropStrandsOnlyNoted(e, s, c);
    case Play(w, uci) => PlayStrandsNothing(e, s, w, uci);
    case Ack(w) => AckStrandsNothing(e, s, w);
    case _ => PlainStrandsNothing(e, s, a);
  }

  /** In every run, while the engine is to move in a bot game there is an unacknowledged job for
      exactly its current ply or a handler about to post one. */
  lemma {:induction false} TurnsAreNeverStranded(e: Env, run: seq<Action>)
    requires Sound(e.rules)
    ensures var s := Exec(e, INIT, run); Inv(e, s) && Work(s) && NoTurnStranded(s)
  {
    hide Inv, Work, NoTurnStranded, Next;
    if run == [] {
      StartInOrder(e);
    } else {
      var before := Exec(e, INIT, run[..|run| - 1]);
      TurnsAreNeverStranded(e, run[..|run| - 1]);
      StepKeepsWork(e, before, run[|run| - 1]);
      StepStrandsNothing(e, before, run[|run| - 1]);
    }
  }

  lemma StartInOrder(e: Env)
    ensures Inv(e, INIT) && Work(INIT) && NoTurnStranded(INIT)
  {
  }

  // ---- Friend games -------------------------------------------------------------------------------

  /** In every run, a move job for a friend game means that game is over, so no worker is ever at
      its board, and no engine move is ever written to one. */
  lemma FriendGamesAreLeftAlone(e: Env, run: seq<Action>)
    requires Sound(e.rules)
    ensures var s := Exec(e, INIT, run);
      && (forall m | m in s.queue.sent && s.queue.sent[m].kind == Move ::
            && s.queue.sent[m].gameId in s.live.hist && s.live.hist[s.queue.sent[m].gameId] != []
            && var g := Last(s.live.hist[s.queue.sent[m].gameId]); g.friend ==> g.Over())
      && (forall w | w in s.deliveries && s.deliveries[w].pc.Thinking? :: !s.deliveries[w].pc.g.friend)
      && (forall w, uci, id | id in s.live.redis && s.live.redis[id].friend ::
            id in DoPlay(e, s, w, uci).live.redis && DoPlay(e, s, w, uci).live.redis[id] == s.live.redis[id])
  {
    TurnsAreNeverStranded(e, run);
    var s := Exec(e, INIT, run);
    hide NoTurnStranded;
    forall m | m in s.queue.sent && s.queue.sent[m].kind == Move
      ensures s.queue.sent[m].gameId in s.live.hist && s.live.hist[s.queue.sent[m].gameId] != []
      ensures Last(s.live.hist[s.queue.sent[m].gameId]).friend ==> Last(s.live.hist[s.queue.sent[m].gameId]).Over()
    {
      assert Posted(s.live, s.queue.sent[m]);
    }
    forall w | w in s.deliveries && s.deliveries[w].pc.Thinking? ensures !s.deliveries[w].pc.g.friend {
      assert DeliveryOk(s, s.deliveries[w]);
    }
    forall w, uci, id | id in s.live.redis && s.live.redis[id].friend
      ensures id in DoPlay(e, s, w, uci).live.redis && DoPlay(e, s, w, uci).live.redis[id] == s.live.redis[id]
    {
      PlayLeavesFriends(e, s, w, uci, id);
    }
  }

  lemma PlayLeavesFriends(e: Env, s: State, w: nat, uci: string, id: string)
    requires Inv(e, s) && Work(s) && id in s.live.redis && s.live.redis[id].friend
    ensures id in DoPlay(e, s, w, uci).live.redis && DoPlay(e, s, w, uci).live.redis[id] == s.live.redis[id]
  {
    hide Inv, Work;
    if w in s.deliveries && s.deliveries[w].pc.Thinking? {
      WorkersAvoidFriends(e, s, w, id);
    }
  }

  lemma WorkersAvoidFriends(e: Env, s: State, w: nat, id: string)
    requires Inv(e, s) && Work(s) && id in s.live.redis && s.live.redis[id].friend
    requires w in s.deliveries && s.deliveries[w].pc.Thinking?
    ensures s.deliveries[w].pc.g.id != id
  {
    hide Posted, Settled, CallOk, Stored;
    assert DeliveryOk(s, s.deliveries[w]);
    SnapshotIsEarlier(e, s, s.deliveries[w].pc.g);
  }

  /** No friend game is rated, in any run, so archiving one moves no account. */
  lemma FriendGamesMoveNoRating(e: Env, run: seq<Action>, g: GameRec)
    requires Sound(e.rules) && WasStored(Exec(e, INIT, run), g) && g.friend
    ensures !g.rated
    ensures var db := Exec(e, INIT, run).accounts.db;
      A.Saved(e.rate, db, g).Some? ==> A.Saved(e.rate, db, g).value.users == db.users
  {
    var s := Exec(e, INIT, run);
    EveryRun(e, run);
    var h := s.live.hist[g.id];
    assert Line(e.rules, g.id, h);
    HistoryIsLinear(e.rules, g.id, h, 0, g.revision - 1);
  }
}
