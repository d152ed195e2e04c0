/** Whether a finished game can still reach the archive. A continuation counts on no delivery of a
    message that was acknowledged. */
module LiveFate {
  import opened Game
  import opened LiveGame
  import opened LiveHistory
  import opened LiveWork
  import opened LiveWorkSteps
  import opened LiveTurns
  import opened LiveArchive
  import opened Fresh
  import Store = GameStore
  import A = Archive

  ghost predicate OrderlyStep(s: State, a: Action) {
    a.Deliver? ==> a.m !in s.queue.acked
  }

  ghost predicate Orderly(e: Env, s: State, run: seq<Action>) {
    run != [] ==> && Orderly(e, s, run[..|run| - 1])
                  && OrderlyStep(Exec(e, s, run[..|run| - 1]), run[|run| - 1])
  }

  ghost predicate CanBeArchived(e: Env, s: State, id: string) {
    exists run :: Orderly(e, s, run) && id in Exec(e, s, run).accounts.db.rows
  }

  ghost predicate Ended(s: State, id: string) {
    id in s.live.hist && s.live.hist[id] != [] && Last(s.live.hist[id]).Over()
  }

  /** The row's foreign key can be met: account ids are not used twice. */
  ghost predicate HasOwner(s: State, id: string)
    requires Ended(s, id)
  {
    var user := Last(s.live.hist[id]).userId;
    user == "" || user in s.accounts.db.users || user !in s.accounts.known
  }

  predicate JobFor(job: Job, id: string) {
    job.kind == Move && job.gameId == id
  }

  predicate CallSaves(call: Call, id: string) {
    call.g.id == id && call.stage.After? && call.g.Over()
  }

  predicate CallPosts(call: Call, id: string) {
    call.g.id == id && (call.stage.After? || call.stage.Requeue?)
  }

  predicate WorkerSaves(d: Delivery, id: string) {
    d.pc.Archiving? && d.pc.g.id == id
  }

  predicate WorkerLooks(q: Queue, d: Delivery, id: string) {
    d.pc.Received? && d.msg in q.sent && JobFor(q.sent[d.msg], id)
  }

  predicate Waits(q: Queue, m: nat, id: string) {
    m in q.sent && m !in q.acked && JobFor(q.sent[m], id)
  }

  /** Somebody holds the finished game and is about to save it. */
  ghost predicate InHand(s: State, id: string) {
    || (exists c | c in s.calls :: CallSaves(s.calls[c], id))
    || (exists w | w in s.deliveries :: WorkerSaves(s.deliveries[w], id))
  }

  /** A job for it is about to be posted, waits unacknowledged, or was just received. */
  ghost predicate OnItsWay(s: State, id: string) {
    || (exists c | c in s.calls :: CallPosts(s.calls[c], id))
    || (exists m | m in s.queue.sent :: Waits(s.queue, m, id))
    || (exists w | w in s.deliveries :: WorkerLooks(s.queue, s.deliveries[w], id))
  }

  ghost predicate Within(s: State, id: string) {
    InHand(s, id) || (id in s.live.redis && OnItsWay(s, id))
  }

  ghost predicate Hope(s: State, id: string)
    requires Ended(s, id)
  {
    id in s.accounts.db.rows || (HasOwner(s, id) && Within(s, id))
  }

  // ---- Without hope -------------------------------------------------------------------------------

  /** A step that lets nobody new near the game; while its key is gone, jobs for it lead nowhere. */
  ghost predicate NobodyNew(s: State, s': State, id: string) {
    && (forall c | c in s'.calls ::
          || (c in s.calls && s'.calls[c] == s.calls[c])
          || (!CallSaves(s'.calls[c], id) && (id in s'.live.redis ==> !CallPosts(s'.calls[c], id))))
    && (forall w | w in s'.deliveries ::
          || (w in s.deliveries && s'.deliveries[w] == s.deliveries[w])
          || (&& !WorkerSaves(s'.deliveries[w], id)
              && (id in s'.live.redis ==> !WorkerLooks(s'.queue, s'.deliveries[w], id))))
    && (id in s'.live.redis ==> id in s.live.redis && SameJobs(s, s', id))
  }

  ghost predicate SameJobs(s: State, s': State, id: string) {
    && (forall w | w in s.deliveries && s.deliveries[w].msg in s'.queue.sent :: s.deliveries[w].msg in s.queue.sent)
    && (forall m | m in s.queue.sent :: m in s'.queue.sent && s'.queue.sent[m] == s.queue.sent[m])
    && (forall m | m in s'.queue.sent :: m in s.queue.sent || !JobFor(s'.queue.sent[m], id))
    && s.queue.acked <= s'.queue.acked
  }

  lemma StaysOut(s: State, s': State, id: string)
    requires !Within(s, id) && NobodyNew(s, s', id)
    ensures !Within(s', id)
  {
    hide JobFor;
    if id in s'.live.redis {
      forall m | m in s'.queue.sent ensures !Waits(s'.queue, m, id) {
        if m in s.queue.sent { assert !Waits(s.queue, m, id); }
      }
      forall w | w in s'.deliveries ensures !WorkerLooks(s'.queue, s'.deliveries[w], id) {
        if w in s.deliveries { assert !WorkerLooks(s.queue, s.deliveries[w], id); }
      }
    }
  }

  lemma HandOffIsElsewhere(s: State, c: nat, g: GameRec, id: string)
    requires g.id != id
    ensures NobodyNew(s, HandOff(s, c, g), id)
  {
    hide EngineToMove;
  }

  /** A commit that succeeds on this game, or hands another one off. */
  lemma CommitIsElsewhere(s: State, c: nat, next: GameRec, ply: int, handOff: bool, id: string)
    requires next.id == id && handOff ==> Store.Cas(s.live.redis, next, ply).None?
    requires ply >= 0
    ensures NobodyNew(s, Commit(s, c, next, ply, handOff), id)
  {
    hide HandOff;
    if Store.Cas(s.live.redis, next, ply).Some? && handOff {
      var after := Written(s, Store.Next(next));
      HandOffIsElsewhere(after, c, Store.Next(next), id);
      hide EngineToMove;
      assert NobodyNew(s, HandOff(after, c, Store.Next(next)), id);
    }
  }

  lemma FewerCalls(s: State, c: nat, s': State, id: string)
    requires NobodyNew(WithoutCall(s, c), s', id)
    ensures NobodyNew(s, s', id)
  {
    hide CallPosts, WorkerSaves, WorkerLooks, JobFor;
  }

  lemma NobodyNewItself(s: State, c: nat, id: string)
    ensures NobodyNew(s, s, id) && NobodyNew(s, WithoutCall(s, c), id)
  {
    hide CallPosts, WorkerSaves, WorkerLooks, JobFor;
  }

  /** Nobody writes to a game that has ended but a late second player. */
  lemma EndedConflicts(e: Env, s: State, g: GameRec, next: GameRec, id: string)
    requires Inv(e, s) && Ended(s, id) && WasStored(s, g) && next.id == g.id == id && next.revision == g.revision
    requires !g.Over()
    ensures Store.Cas(s.live.redis, next, g.ply).None?
  {
    if Store.Cas(s.live.redis, next, g.ply).Some? {
      UpdateExtendsSnapshot(e, s, g, next);
    }
  }

  lemma CommitsStayOut(e: Env, s: State, c: nat, id: string)
    requires Inv(e, s) && Ended(s, id)
    ensures NobodyNew(s, DoCommitMove(e, s, c), id)
    ensures NobodyNew(s, DoCommitResign(s, c), id)
    ensures NobodyNew(s, DoCommitJoin(s, c), id)
  {
    hide Inv, Ended, Commit, NobodyNew, WasStored, Store.Cas, Extended;
    NobodyNewItself(s, c, id);
    if c in s.calls {
      var g, rest := s.calls[c].g, WithoutCall(s, c);
      CallHoldsStored(e, s, c);
      SnapshotPly(e, s, g);
      forall next: GameRec, handOff: bool | next.id == g.id && next.revision == g.revision && (handOff ==> !g.Over())
        ensures NobodyNew(s, Commit(rest, c, next, g.ply, handOff), id)
      {
        if g.id == id && handOff { EndedConflicts(e, s, g, next, id); }
        CommitIsElsewhere(rest, c, next, g.ply, handOff, id);
        FewerCalls(s, c, Commit(rest, c, next, g.ply, handOff), id);
      }
      ChangesKeepId(e, g);
    }
  }

  lemma ChangesKeepId(e: Env, g: GameRec)
    ensures forall color, uci | Moved(e.rules, g, color, uci).Ok? ::
      var next := Moved(e.rules, g, color, uci).g;
      next.id == g.id && next.revision == g.revision && !g.Over()
    ensures forall color | Resigned(g, color).Ok? ::
      var next := Resigned(g, color).g;
      next.id == g.id && next.revision == g.revision && !g.Over()
  {
  }

  lemma CreateStaysOut(s: State, c: nat, g: GameRec, id: string)
    requires id in s.live.hist
    ensures NobodyNew(s, DoCreate(s, c, g), id)
  {
    hide HandOff;
    NobodyNewItself(s, c, id);
    if g.id !in s.live.hist && c !in s.calls && Store.Cas(s.live.redis, g, Store.MUST_NOT_EXIST).Some? {
      var after := Written(s, Store.Next(g));
      HandOffIsElsewhere(after, c, Store.Next(g), id);
      hide EngineToMove;
      assert NobodyNew(s, HandOff(after, c, Store.Next(g)), id);
    }
  }

  lemma PlayStaysOut(e: Env, s: State, w: nat, uci: string, id: string)
    requires Inv(e, s) && Work(s) && Ended(s, id)
    ensures NobodyNew(s, DoPlay(e, s, w, uci), id)
  {
    hide Inv, Ended, Moved, Store.Cas, Posted, Settled, CallOk;
    NobodyNewItself(s, 0, id);
    if w in s.deliveries && s.deliveries[w].pc.Thinking? {
      var g := s.deliveries[w].pc.g;
      assert DeliveryOk(s, s.deliveries[w]);
      WorkerHoldsStored(e, s, w);
      SnapshotPly(e, s, g);
      match Moved(e.rules, g, g.EngineColor(), uci)
      case Err(_) => NobodyNewDelivery(s, w, id);
      case Ok(next) =>
        MovedKeepsId(e, g, g.EngineColor(), uci);
        if g.id == id { EndedConflicts(e, s, g, next, id); }
        PlayedStaysOut(s, w, g, next, id);
    }
  }

  lemma MovedKeepsId(e: Env, g: GameRec, color: Color, uci: string)
    requires Moved(e.rules, g, color, uci).Ok?
    ensures var next := Moved(e.rules, g, color, uci).g;
      next.id == g.id && next.revision == g.revision && !g.Over()
  {
  }

  lemma WorkerHoldsStored(e: Env, s: State, w: nat)
    requires Inv(e, s) && w in s.deliveries && HoldsGame(s.deliveries[w].pc)
    ensures WasStored(s, s.deliveries[w].pc.g)
  {
  }

  lemma NobodyNewDelivery(s: State, w: nat, id: string)
    ensures NobodyNew(s, WithoutDelivery(s, w), id)
  {
  }

  lemma PlayedStaysOut(s: State, w: nat, g: GameRec, next: GameRec, id: string)
    requires w in s.deliveries && g.ply >= 0 && next.id == g.id
    requires g.id == id ==> Store.Cas(s.live.redis, next, g.ply).None?
    ensures NobodyNew(s, Played(s, w, g, next), id)
  {
  }

  /** Deliver, Fetch and Enqueue are where a way back would lead. */
  lemma DeliverStaysOut(s: State, w: nat, m: nat, id: string)
    requires !Within(s, id) && m !in s.queue.acked
    ensures NobodyNew(s, DoDeliver(s, w, m), id)
  {
    if m in s.queue.sent && id in s.live.redis { assert !Waits(s.queue, m, id); }
  }

  lemma FetchStaysOut(e: Env, s: State, w: nat, id: string)
    requires Inv(e, s) && !Within(s, id)
    ensures NobodyNew(s, DoFetch(s, w), id)
  {
    hide Inv, InHand, Judged;
    if w in s.deliveries && s.deliveries[w].pc.Received? && s.deliveries[w].msg in s.queue.sent {
      var job := s.queue.sent[s.deliveries[w].msg];
      JudgedIs(e, s, job);
      if id in s.live.redis { assert !WorkerLooks(s.queue, s.deliveries[w], id); }
    }
  }

  lemma JudgedIs(e: Env, s: State, job: Job)
    requires Inv(e, s)
    ensures var pc := Judged(s.live.redis, job);
      && !pc.Received?
      && (pc.Archiving? ==> job.gameId in s.live.redis && JobFor(job, pc.g.id))
  {
    hide WellFormed, Evolves, Snapshots;
    if job.gameId in s.live.redis { assert Line(e.rules, job.gameId, s.live.hist[job.gameId]); }
  }

  lemma EnqueueStaysOut(s: State, c: nat, m: nat, id: string)
    requires Work(s) && !Within(s, id)
    ensures NobodyNew(s, DoEnqueue(s, c, m), id)
  {
    hide Posted, Settled, CallOk, InHand;
    forall w | w in s.deliveries ensures s.deliveries[w].msg in s.queue.sent { assert DeliveryOk(s, s.deliveries[w]); }
    hide Work;
    if c in s.calls && id in s.live.redis { assert !CallPosts(s.calls[c], id); }
  }

  lemma ArchiveStaysOut(e: Env, s: State, a: Action, id: string)
    requires !Within(s, id) && (a.ApiArchive? || a.WorkerArchive?)
    ensures NobodyNew(s, Next(e, s, a), id)
  {
    hide A.Saved, DoPlay, DoCommitMove, DoCommitJoin, DoCommitResign, DoCreate, DoFetch, DoEnqueue;
    if a.ApiArchive? && a.c in s.calls { assert !CallSaves(s.calls[a.c], id); }
  }

  lemma PlainStaysOut(e: Env, s: State, a: Action, id: string)
    requires a.ReadForMove? || a.ReadForJoin? || a.ReadForResign? || a.DropCall? || a.Ack? || a.Crash?
          || a.Expire? || a.NewUser? || a.Reap?
    ensures NobodyNew(s, Next(e, s, a), id)
  {
    hide JobFor, WorkerLooks, WorkerSaves, DoPlay, DoCommitMove, DoCommitJoin, DoCommitResign, DoCreate, DoFetch,
      DoEnqueue, DoApiArchive, DoWorkerArchive, DoDeliver, DoAsk;
  }

  lemma AskStaysOut(s: State, m: nat, job: Job, id: string)
    requires Work(s)
    ensures NobodyNew(s, DoAsk(s, m, job), id)
  {
    hide Posted, Settled, CallOk;
    forall w | w in s.deliveries ensures s.deliveries[w].msg in s.queue.sent { assert DeliveryOk(s, s.deliveries[w]); }
    hide Work;
  }

  lemma StepStaysOut(e: Env, s: State, a: Action, id: string)
    requires Inv(e, s) && Work(s) && Ended(s, id) && !Within(s, id) && OrderlyStep(s, a)
    ensures !Within(Next(e, s, a), id)
  {
    hide Inv, Work, Ended, Within, NobodyNew, DoPlay, DoCommitMove, DoCommitJoin, DoCommitResign, DoCreate, DoFetch,
      DoEnqueue, DoDeliver, DoApiArchive, DoWorkerArchive, Start, DoDropCall, DoAsk, DoAck, WithoutDelivery, DoExpire,
      DoNewUser, DoReap;
    match a {
      case Create(c, id', user, mode, color, level, at) =>
        EndedIsKnown(s, id);
        CreateStaysOut(s, c, Newborn(id', user, mode, color, level, at), id);
      case CommitMove(c) => CommitsStayOut(e, s, c, id);
      case CommitJoin(c) => CommitsStayOut(e, s, c, id);
      case CommitResign(c) => CommitsStayOut(e, s, c, id);
      case Play(w, uci) => PlayStaysOut(e, s, w, uci, id);
      case Deliver(w, m) => DeliverStaysOut(s, w, m, id);
      case Fetch(w) => FetchStaysOut(e, s, w, id);
      case Enqueue(c, m) => EnqueueStaysOut(s, c, m, id);
      case Ask(m, id', ply, kind) => AskStaysOut(s, m, Job(id', ply, kind), id);
      case ApiArchive(c, up) => ArchiveStaysOut(e, s, a, id);
      case WorkerArchive(w, up) => ArchiveStaysOut(e, s, a, id);
      case _ => PlainStaysOut(e, s, a, id);
    }
    StaysOut(s, Next(e, s, a), id);
  }

  lemma EndedIsKnown(s: State, id: string)
    requires Ended(s, id)
    ensures id in s.live.hist
  {
  }

  // ---- Rows and owners ----------------------------------------------------------------------------

  lemma EndedStays(e: Env, s: State, a: Action, id: string)
    requires Sound(e.rules) && Inv(e, s) && Ended(s, id)
    ensures Inv(e, Next(e, s, a)) && Ended(Next(e, s, a), id)
    ensures Last(Next(e, s, a).live.hist[id]).userId == Last(s.live.hist[id]).userId
  {
    hide Inv, Next;
    StepKeeps(e, s, a);
    LastIsLater(e, s, Next(e, s, a), id);
  }

  /** A new row comes out of somebody's hands, and needs its account. */
  lemma RowsComeFromHands(e: Env, s: State, a: Action, id: string)
    requires Inv(e, s) && Ended(s, id)
    requires id !in s.accounts.db.rows && id in Next(e, s, a).accounts.db.rows
    ensures Within(s, id) && HasOwner(s, id)
  {
    hide Next, A.AfterGame, Inv, Within;
    if !TouchesAccounts(a) {
      OthersLeaveAccounts(e, s, a);
      assert false;
    } else if a.ApiArchive? || a.WorkerArchive? {
      SavedFromHands(e, s, a, id);
    } else {
      AccountsAddNoRows(e, s, a);
      assert false;
    }
  }

  lemma AccountsAddNoRows(e: Env, s: State, a: Action)
    requires a.NewUser? || a.Reap?
    ensures Next(e, s, a).accounts.db.rows == s.accounts.db.rows
  {
  }

  lemma SavedFromHands(e: Env, s: State, a: Action, id: string)
    requires Inv(e, s) && Ended(s, id) && (a.ApiArchive? || a.WorkerArchive?)
    requires id !in s.accounts.db.rows && id in Next(e, s, a).accounts.db.rows
    ensures Within(s, id) && HasOwner(s, id)
  {
    hide A.AfterGame, Inv, OnItsWay, DoPlay, DoCommitMove, DoCommitJoin, DoCommitResign, DoCreate, DoFetch, DoEnqueue;
    if a.ApiArchive? {
      CallHoldsStored(e, s, a.c);
      assert CallSaves(s.calls[a.c], id);
      SnapshotIsEarlier(e, s, s.calls[a.c].g);
    } else {
      assert WorkerSaves(s.deliveries[a.w], id);
      WorkerHoldsStored(e, s, a.w);
      SnapshotIsEarlier(e, s, s.deliveries[a.w].pc.g);
    }
  }

  lemma OwnerStaysGone(e: Env, s: State, a: Action, id: string)
    requires Sound(e.rules) && Inv(e, s) && Ended(s, id) && !HasOwner(s, id)
    ensures Ended(Next(e, s, a), id) && !HasOwner(Next(e, s, a), id)
  {
    EndedStays(e, s, a, id);
    AccountsOnlyNew(e, s, a, Last(s.live.hist[id]).userId);
    hide Inv, Next;
  }

  lemma AccountsOnlyNew(e: Env, s: State, a: Action, user: string)
    requires user !in s.accounts.db.users && user in s.accounts.known
    ensures var s' := Next(e, s, a); user !in s'.accounts.db.users && user in s'.accounts.known
  {
    hide Next;
    if !TouchesAccounts(a) {
      OthersLeaveAccounts(e, s, a);
    } else {
      AccountStep(e, s, a, user);
    }
  }

  lemma AccountStep(e: Env, s: State, a: Action, user: string)
    requires user !in s.accounts.db.users && user in s.accounts.known && TouchesAccounts(a)
    ensures var s' := Next(e, s, a); user !in s'.accounts.db.users && user in s'.accounts.known
  {
    hide A.AfterGame, DoPlay, DoCommitMove, DoCommitJoin, DoCommitResign, DoCreate, DoFetch, DoEnqueue;
  }

  lemma StepStaysHopeless(e: Env, s: State, a: Action, id: string)
    requires Sound(e.rules) && Inv(e, s) && Work(s) && Ended(s, id) && !Hope(s, id) && OrderlyStep(s, a)
    ensures Inv(e, Next(e, s, a)) && Work(Next(e, s, a)) && Ended(Next(e, s, a), id) && !Hope(Next(e, s, a), id)
  {
    hide Inv, Work, Ended, HasOwner, Within, OrderlyStep, Next;
    EndedStays(e, s, a, id);
    StepKeepsWork(e, s, a);
    if id in Next(e, s, a).accounts.db.rows { RowsComeFromHands(e, s, a, id); }
    if HasOwner(s, id) {
      StepStaysOut(e, s, a, id);
    } else {
      OwnerStaysGone(e, s, a, id);
    }
  }

  lemma {:induction false} HopelessIsLost(e: Env, s: State, id: string, run: seq<Action>)
    requires Sound(e.rules) && Inv(e, s) && Work(s) && Ended(s, id) && !Hope(s, id) && Orderly(e, s, run)
    ensures var end := Exec(e, s, run); Inv(e, end) && Work(end) && Ended(end, id) && !Hope(end, id)
  {
    hide Inv, Work, Ended, Hope, Next, OrderlyStep;
    if run != [] {
      HopelessIsLost(e, s, id, run[..|run| - 1]);
      StepStaysHopeless(e, Exec(e, s, run[..|run| - 1]), run[|run| - 1], id);
    }
  }

  // ---- With hope ----------------------------------------------------------------------------------

  lemma {:induction false} OneStepMore(e: Env, s: State, a: Action, run: seq<Action>)
    requires OrderlyStep(s, a) && Orderly(e, Next(e, s, a), run)
    ensures Orderly(e, s, [a] + run) && Exec(e, s, [a] + run) == Exec(e, Next(e, s, a), run)
  {
    hide Next, OrderlyStep;
    var longer := [a] + run;
    if run == [] {
      assert longer == [a] && longer[..0] == [];
      assert Exec(e, s, longer[..0]) == s;
    } else {
      OneStepMore(e, s, a, run[..|run| - 1]);
      assert longer[..|longer| - 1] == [a] + run[..|run| - 1];
    }
  }

  lemma StepTowards(e: Env, s: State, a: Action, id: string)
    requires OrderlyStep(s, a) && CanBeArchived(e, Next(e, s, a), id)
    ensures CanBeArchived(e, s, id)
  {
    hide Next, OrderlyStep;
    var run :| Orderly(e, Next(e, s, a), run) && id in Exec(e, Next(e, s, a), run).accounts.db.rows;
    OneStepMore(e, s, a, run);
  }

  lemma AlreadyThere(e: Env, s: State, id: string)
    requires id in s.accounts.db.rows
    ensures CanBeArchived(e, s, id)
  {
    var none: seq<Action> := [];
    assert Orderly(e, s, none) && Exec(e, s, none) == s;
  }

  /** The account is there. */
  ghost predicate Owned(s: State, id: string)
    requires Ended(s, id)
  {
    var user := Last(s.live.hist[id]).userId; user == "" || user in s.accounts.db.users
  }

  lemma InHandIsEnough(e: Env, s: State, id: string)
    requires Inv(e, s) && Work(s) && Ended(s, id) && Owned(s, id) && InHand(s, id)
    ensures CanBeArchived(e, s, id)
  {
    hide Inv, Work, CanBeArchived, A.AfterGame;
    if c :| c in s.calls && CallSaves(s.calls[c], id) {
      CallHoldsStored(e, s, c);
      SnapshotIsEarlier(e, s, s.calls[c].g);
      AlreadyThere(e, Next(e, s, ApiArchive(c, true)), id);
      StepTowards(e, s, ApiArchive(c, true), id);
    } else {
      var w :| w in s.deliveries && WorkerSaves(s.deliveries[w], id);
      WorkerHoldsStored(e, s, w);
      SnapshotIsEarlier(e, s, s.deliveries[w].pc.g);
      AlreadyThere(e, Next(e, s, WorkerArchive(w, true)), id);
      StepTowards(e, s, WorkerArchive(w, true), id);
    }
  }

  lemma CanStep(e: Env, s: State, a: Action, id: string)
    requires Sound(e.rules) && Inv(e, s) && Work(s) && Ended(s, id) && Owned(s, id)
    requires Next(e, s, a).accounts == s.accounts
    ensures var s' := Next(e, s, a); Inv(e, s') && Work(s') && Ended(s', id) && Owned(s', id)
  {
    hide Inv, Work, Next;
    EndedStays(e, s, a, id);
    StepKeepsWork(e, s, a);
  }

  lemma LookingIsEnough(e: Env, s: State, w: nat, id: string)
    requires Sound(e.rules) && Inv(e, s) && Work(s) && Ended(s, id) && Owned(s, id) && id in s.live.redis
    requires w in s.deliveries && WorkerLooks(s.queue, s.deliveries[w], id)
    ensures CanBeArchived(e, s, id)
  {
    hide Inv, Work, Owned, CanBeArchived;
    var s' := Next(e, s, Fetch(w));
    CanStep(e, s, Fetch(w), id);
    RetryGoesToArchive(e, s, s.queue.sent[s.deliveries[w].msg]);
    KeyHoldsLast(e, s, id);
    assert WorkerSaves(s'.deliveries[w], id);
    InHandIsEnough(e, s', id);
    StepTowards(e, s, Fetch(w), id);
  }

  lemma KeyHoldsLast(e: Env, s: State, id: string)
    requires Inv(e, s) && id in s.live.hist
    ensures s.live.hist[id] != [] && Last(s.live.hist[id]).id == id
  {
    assert Line(e.rules, id, s.live.hist[id]);
  }

  lemma WaitingIsEnough(e: Env, s: State, m: nat, id: string)
    requires Sound(e.rules) && Inv(e, s) && Work(s) && Ended(s, id) && Owned(s, id) && id in s.live.redis
    requires Waits(s.queue, m, id)
    ensures CanBeArchived(e, s, id)
  {
    hide Inv, Work, Owned, CanBeArchived;
    var w := Unused(s.deliveries.Keys);
    var s' := Next(e, s, Deliver(w, m));
    CanStep(e, s, Deliver(w, m), id);
    LookingIsEnough(e, s', w, id);
    StepTowards(e, s, Deliver(w, m), id);
  }

  lemma PostingIsEnough(e: Env, s: State, c: nat, id: string)
    requires Sound(e.rules) && Inv(e, s) && Work(s) && Ended(s, id) && Owned(s, id) && id in s.live.redis
    requires c in s.calls && CallPosts(s.calls[c], id)
    ensures CanBeArchived(e, s, id)
  {
    hide Inv, Owned, CanBeArchived, Posted, Settled;
    if CallSaves(s.calls[c], id) {
      InHandIsEnough(e, s, id);
    } else {
      var m := Unused(s.queue.sent.Keys);
      var s' := Next(e, s, Enqueue(c, m));
      CanStep(e, s, Enqueue(c, m), id);
      WaitingIsEnough(e, s', m, id);
      StepTowards(e, s, Enqueue(c, m), id);
    }
  }

  lemma OwnedIsEnough(e: Env, s: State, id: string)
    requires Sound(e.rules) && Inv(e, s) && Work(s) && Ended(s, id) && Owned(s, id) && Within(s, id)
    ensures CanBeArchived(e, s, id)
  {
    hide Inv, Work, Owned, CanBeArchived, CallPosts, Waits, WorkerLooks, InHand;
    if InHand(s, id) {
      InHandIsEnough(e, s, id);
    } else if c :| c in s.calls && CallPosts(s.calls[c], id) {
      PostingIsEnough(e, s, c, id);
    } else if m :| m in s.queue.sent && Waits(s.queue, m, id) {
      WaitingIsEnough(e, s, m, id);
    } else {
      var w :| w in s.deliveries && WorkerLooks(s.queue, s.deliveries[w], id);
      LookingIsEnough(e, s, w, id);
    }
  }

  lemma HopeIsEnough(e: Env, s: State, id: string)
    requires Sound(e.rules) && Inv(e, s) && Work(s) && Ended(s, id) && Hope(s, id)
    ensures CanBeArchived(e, s, id)
  {
    hide Inv, Work, CanBeArchived, Within;
    if id in s.accounts.db.rows {
      AlreadyThere(e, s, id);
    } else if Owned(s, id) {
      OwnedIsEnough(e, s, id);
    } else {
      var user := Last(s.live.hist[id]).userId;
      var a := NewUser(user);
      EndedStays(e, s, a, id);
      StepKeepsWork(e, s, a);
      assert Within(Next(e, s, a), id) by { NewUserIsElsewhere(s, user, id); }
      OwnedIsEnough(e, Next(e, s, a), id);
      StepTowards(e, s, a, id);
    }
  }

  lemma NewUserIsElsewhere(s: State, user: string, id: string)
    requires Within(s, id)
    ensures Within(DoNewUser(s, user), id)
  {
  }

  // ---- Exactly --------------------------------------------------------------------------------------

  /** In every reachable state a finished game can still be archived exactly when it is archived already,
      or its account is not gone for good and somebody holds it for saving, or its key lives and a job
      for it is on its way. */
  lemma ArchivedExactlyWithHope(e: Env, run: seq<Action>, id: string)
    requires Sound(e.rules) && Ended(Exec(e, INIT, run), id)
    ensures CanBeArchived(e, Exec(e, INIT, run), id) <==> Hope(Exec(e, INIT, run), id)
  {
    hide Inv, Work, NoTurnStranded, Ended, Hope;
    var s := Exec(e, INIT, run);
    TurnsAreNeverStranded(e, run);
    HopeDecides(e, s, id);
  }

  lemma HopeDecides(e: Env, s: State, id: string)
    requires Sound(e.rules) && Inv(e, s) && Work(s) && Ended(s, id)
    ensures CanBeArchived(e, s, id) <==> Hope(s, id)
  {
    hide Inv, Work, Ended, HasOwner, Within;
    if Hope(s, id) {
      HopeIsEnough(e, s, id);
    } else {
      forall more | Orderly(e, s, more) ensures id !in Exec(e, s, more).accounts.db.rows {
        HopelessIsLost(e, s, id, more);
      }
    }
  }

  /** When a key expires, a finished game without a row is lost exactly if nobody holds it for saving or
      its account is gone. */
  lemma ExpiryLosesExactly(e: Env, run: seq<Action>, id: string)
    requires Sound(e.rules) && Ended(Exec(e, INIT, run), id)
    ensures var s := Exec(e, INIT, run);
      CanBeArchived(e, DoExpire(s, id), id)
      <==> id in s.accounts.db.rows || (HasOwner(s, id) && InHand(s, id))
  {
    hide Inv, Work, NoTurnStranded, Ended, HasOwner, InHand, OnItsWay;
    var s := Exec(e, INIT, run);
    TurnsAreNeverStranded(e, run);
    EndedStays(e, s, Expire(id), id);
    StepKeepsWork(e, s, Expire(id));
    HopeDecides(e, DoExpire(s, id), id);
    ExpiryLeavesHands(s, id);
  }

  lemma ExpiryLeavesHands(s: State, id: string)
    requires Ended(s, id)
    ensures InHand(DoExpire(s, id), id) <==> InHand(s, id)
    ensures HasOwner(DoExpire(s, id), id) <==> HasOwner(s, id)
  {
  }

  /** An acknowledgement, a conflict's above all, loses a finished game exactly if it could be archived
      before and, of everything that could, only this message was left. */
  lemma AckLosesExactly(e: Env, run: seq<Action>, w: nat, id: string)
    requires Sound(e.rules) && Ended(Exec(e, INIT, run), id)
    requires var s := Exec(e, INIT, run); w in s.deliveries && s.deliveries[w].pc == Done
    ensures var s := Exec(e, INIT, run);
      var m := s.deliveries[w].msg;
      (CanBeArchived(e, s, id) && !CanBeArchived(e, DoAck(s, w), id))
      <==> && id !in s.accounts.db.rows && HasOwner(s, id) && id in s.live.redis
           && !InHand(s, id) && Waits(s.queue, m, id)
           && (forall c | c in s.calls :: !CallPosts(s.calls[c], id))
           && (forall k | k in s.queue.sent && k != m :: !Waits(s.queue, k, id))
           && (forall v | v in s.deliveries :: !WorkerLooks(s.queue, s.deliveries[v], id))
  {
    hide Inv, Work, NoTurnStranded, Ended, HasOwner, Within, Hope, CanBeArchived;
    var s := Exec(e, INIT, run);
    TurnsAreNeverStranded(e, run);
    EndedStays(e, s, Ack(w), id);
    StepKeepsWork(e, s, Ack(w));
    HopeDecides(e, DoAck(s, w), id);
    HopeDecides(e, s, id);
    AckTakesHope(e, s, w, id);
  }

  lemma AckTakesHope(e: Env, s: State, w: nat, id: string)
    requires Ended(s, id) && w in s.deliveries && s.deliveries[w].pc == Done && Ended(DoAck(s, w), id)
    ensures var m := s.deliveries[w].msg;
      (Hope(s, id) && !Hope(DoAck(s, w), id))
      <==> && id !in s.accounts.db.rows && HasOwner(s, id) && id in s.live.redis
           && !InHand(s, id) && Waits(s.queue, m, id)
           && (forall c | c in s.calls :: !CallPosts(s.calls[c], id))
           && (forall k | k in s.queue.sent && k != m :: !Waits(s.queue, k, id))
           && (forall v | v in s.deliveries :: !WorkerLooks(s.queue, s.deliveries[v], id))
  {
    hide JobFor;
    var s' := DoAck(s, w);
    var m := s.deliveries[w].msg;
    assert InHand(s', id) <==> InHand(s, id) by {
      forall v | v in s.deliveries && WorkerSaves(s.deliveries[v], id)
        ensures v in s'.deliveries && WorkerSaves(s'.deliveries[v], id) {}
    }
    hide InHand;
    assert HasOwner(s', id) <==> HasOwner(s, id);
    hide HasOwner, Ended;
    assert forall k | k in s.queue.sent :: Waits(s'.queue, k, id) <==> Waits(s.queue, k, id) && k != m;
    assert forall v | v in s.deliveries && WorkerLooks(s.queue, s.deliveries[v], id) ::
      v in s'.deliveries && WorkerLooks(s'.queue, s'.deliveries[v], id);
    assert forall v | v in s'.deliveries && WorkerLooks(s'.queue, s'.deliveries[v], id) ::
      v in s.deliveries && WorkerLooks(s.queue, s.deliveries[v], id);
  }
}
