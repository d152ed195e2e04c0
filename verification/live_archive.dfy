/** What the archive says after any run, and when a finished game can be lost on the way to it. */
module LiveArchive {
  import opened Game
  import opened LiveGame
  import opened LiveHistory
  import opened LiveWork
  import opened LiveTurns
  import Store = GameStore
  import A = Archive

  // ---- The archive tells the truth --------------------------------------------------------------

  /** Every row is a finished game's archived columns, and every account was once made. */
  ghost predicate Truthful(e: Env, s: State) {
    && A.Ledger(e.rate, s.accounts.db)
    && s.accounts.db.users.Keys <= s.accounts.known
    && "" !in s.accounts.db.users
    && (forall id | id in s.accounts.db.rows ::
          && id in s.live.hist && s.live.hist[id] != [] && Last(s.live.hist[id]).Over()
          && s.accounts.db.rows[id] == A.Columns(Last(s.live.hist[id])))
  }

  lemma TruthfulStays(e: Env, s: State, s': State)
    requires Inv(e, s) && Inv(e, s') && Grows(s, s') && Truthful(e, s) && s'.accounts == s.accounts
    ensures Truthful(e, s')
  {
    hide Inv, A.Ledger;
    forall id | id in s'.accounts.db.rows
      ensures id in s'.live.hist && s'.live.hist[id] != [] && Last(s'.live.hist[id]).Over()
      ensures s'.accounts.db.rows[id] == A.Columns(Last(s'.live.hist[id]))
    {
      LastIsLater(e, s, s', id);
    }
  }

  lemma SaveStaysTruthful(e: Env, s: State, g: GameRec, s': State)
    requires Inv(e, s) && Truthful(e, s) && WasStored(s, g) && g.Over()
    requires A.Saved(e.rate, s.accounts.db, g).Some? && s'.live == s.live
    requires s'.accounts == s.accounts.(db := A.Saved(e.rate, s.accounts.db, g).value)
    ensures Truthful(e, s')
  {
    A.SavedKeepsLedger(e.rate, s.accounts.db, g);
    SnapshotIsEarlier(e, s, g);
    hide Inv, A.Ledger, A.AfterGame;
  }

  lemma StrangersHaveNothing(rate: A.Rate, log: seq<A.Entry>, user: string)
    requires A.EachOnce(log) && forall id | id in A.RowsOf(log) :: A.RowsOf(log)[id].userId != user
    ensures A.Fold(rate, log, user) == A.NEW_USER
  {
    if log != [] {
      var shorter, last := log[..|log| - 1], log[|log| - 1];
      assert A.RowsOf(log)[last.id] == last.row;
      forall id | id in A.RowsOf(shorter) ensures A.RowsOf(shorter)[id].userId != user {
        assert A.RowsOf(log)[id] == A.RowsOf(shorter)[id];
      }
      StrangersHaveNothing(rate, shorter, user);
    }
  }

  lemma AccountsStayTruthful(e: Env, s: State, user: string)
    requires Inv(e, s) && Truthful(e, s)
    ensures Truthful(e, DoNewUser(s, user)) && Truthful(e, DoReap(s, user))
  {
    hide Inv, A.AfterGame;
    if user != "" && user !in s.accounts.known {
      StrangersHaveNothing(e.rate, s.accounts.db.log, user);
    }
  }

  lemma ArchiveStepStaysTruthful(e: Env, s: State, a: Action)
    requires Inv(e, s) && Work(s) && Truthful(e, s) && (a.ApiArchive? || a.WorkerArchive?)
    ensures Truthful(e, Next(e, s, a))
  {
    hide Stored, Truthful, WasStored, A.Saved, Posted, Settled, DoCommitMove, DoCommitJoin, DoCommitResign,
      DoPlay, DoCreate, DoEnqueue, DoDropCall, DoAck, DoFetch;
    var s' := Next(e, s, a);
    if a.ApiArchive? && a.c in s.calls && s.calls[a.c].stage.After? && s.calls[a.c].g.Over() {
      assert WasStored(s, s.calls[a.c].g);
      if Save(e, s, s.calls[a.c].g, a.up).Some? {
        SaveStaysTruthful(e, s, s.calls[a.c].g, s');
      } else {
        Untouched(e, s, s');
      }
    } else if a.WorkerArchive? && a.w in s.deliveries && s.deliveries[a.w].pc.Archiving? {
      assert WasStored(s, s.deliveries[a.w].pc.g) && DeliveryOk(s, s.deliveries[a.w]);
      if Save(e, s, s.deliveries[a.w].pc.g, a.up).Some? {
        SaveStaysTruthful(e, s, s.deliveries[a.w].pc.g, s');
      } else {
        Untouched(e, s, s');
      }
    }
  }

  lemma Untouched(e: Env, s: State, s': State)
    requires Truthful(e, s) && s'.live == s.live && s'.accounts == s.accounts
    ensures Truthful(e, s')
  {
  }

  predicate TouchesAccounts(a: Action) {
    a.ApiArchive? || a.WorkerArchive? || a.NewUser? || a.Reap?
  }

  lemma OthersLeaveAccounts(e: Env, s: State, a: Action)
    requires !TouchesAccounts(a)
    ensures Next(e, s, a).accounts == s.accounts
  {
    hide Moved, Resigned, Store.Cas, Judged, HandOff, Commit, Played;
    forall rest: State, c, g, ply, h ensures Commit(rest, c, g, ply, h).accounts == rest.accounts {
      CommitLeavesAccounts(rest, c, g, ply, h);
    }
    forall rest: State, c, g ensures HandOff(rest, c, g).accounts == rest.accounts {
      HandOffLeavesAccounts(rest, c, g);
    }
    if a.Play? && a.w in s.deliveries && s.deliveries[a.w].pc.Thinking? {
      forall g, next ensures Played(s, a.w, g, next).accounts == s.accounts {
        PlayedLeavesAccounts(s, a.w, g, next);
      }
    }
  }

  lemma HandOffLeavesAccounts(s: State, c: nat, g: GameRec)
    ensures HandOff(s, c, g).accounts == s.accounts
  {
  }

  lemma CommitLeavesAccounts(s: State, c: nat, g: GameRec, ply: int, handOff: bool)
    ensures Commit(s, c, g, ply, handOff).accounts == s.accounts
  {
    HandOffLeavesAccounts(Written(s, Store.Next(g)), c, Store.Next(g));
  }

  lemma PlayedLeavesAccounts(s: State, w: nat, g: GameRec, next: GameRec)
    requires w in s.deliveries
    ensures Played(s, w, g, next).accounts == s.accounts
  {
  }

  lemma StepStaysTruthful(e: Env, s: State, a: Action)
    requires Sound(e.rules) && Inv(e, s) && Work(s) && Truthful(e, s)
    ensures Truthful(e, Next(e, s, a))
  {
    StepKeeps(e, s, a);
    hide Inv, Work, Truthful, Next, Grows;
    if !TouchesAccounts(a) {
      OthersLeaveAccounts(e, s, a);
      TruthfulStays(e, s, Next(e, s, a));
    } else if a.NewUser? || a.Reap? {
      AccountsStayTruthful(e, s, a.user);
      NextAccounts(e, s, a.user);
    } else {
      ArchiveStepStaysTruthful(e, s, a);
    }
  }

  lemma NextAccounts(e: Env, s: State, user: string)
    ensures Next(e, s, NewUser(user)) == DoNewUser(s, user) && Next(e, s, Reap(user)) == DoReap(s, user)
  {
  }

  /** After any run, whoever archived what in whichever order: a row is exactly the columns of its
      finished game, every account is the fold of its archived rated games, its count is their
      number, and its level is on the ladder. */
  lemma {:induction false} ArchiveIsTruthful(e: Env, run: seq<Action>)
    requires Sound(e.rules)
    ensures var s := Exec(e, INIT, run);
      && Truthful(e, s)
      && (forall u | u in s.accounts.db.users ::
            && s.accounts.db.users[u] == A.Fold(e.rate, s.accounts.db.log, u)
            && s.accounts.db.users[u].ratedGames == |A.CountingIds(s.accounts.db.rows, u)|
            && 1 <= s.accounts.db.users[u].botLevel <= 6)
  {
    var s := Exec(e, INIT, run);
    TruthfulRun(e, run);
    forall u | u in s.accounts.db.users
      ensures s.accounts.db.users[u].ratedGames == |A.CountingIds(s.accounts.db.rows, u)|
      ensures 1 <= s.accounts.db.users[u].botLevel <= 6
    {
      A.LedgerCounts(e.rate, s.accounts.db, u);
    }
  }

  lemma {:induction false} TruthfulRun(e: Env, run: seq<Action>)
    requires Sound(e.rules)
    ensures Truthful(e, Exec(e, INIT, run))
  {
    hide Truthful, Next, Inv, Work, NoTurnStranded;
    if run == [] {
      StartIsTruthful(e);
    } else {
      TruthfulRun(e, run[..|run| - 1]);
      TurnsAreNeverStranded(e, run[..|run| - 1]);
      StepStaysTruthful(e, Exec(e, INIT, run[..|run| - 1]), run[|run| - 1]);
    }
  }

  lemma StartIsTruthful(e: Env)
    ensures Truthful(e, INIT)
  {
  }

  /** All copies of a finished game that were ever in anybody's hands would archive alike. */
  lemma FinishedCopiesAgree(e: Env, run: seq<Action>, a: GameRec, b: GameRec)
    requires Sound(e.rules) && WasStored(Exec(e, INIT, run), a) && WasStored(Exec(e, INIT, run), b)
    requires a.id == b.id && a.Over() && b.Over()
    ensures A.Columns(a) == A.Columns(b)
  {
    var s := Exec(e, INIT, run);
    EveryRun(e, run);
    hide Inv;
    SnapshotIsEarlier(e, s, a);
    SnapshotIsEarlier(e, s, b);
  }

  // ---- A game the worker finished ----------------------------------------------------------------

  /** No two workers hold the same message at once. */
  ghost predicate Apart(s: State) {
    forall v, w | v in s.deliveries && w in s.deliveries && s.deliveries[v].msg == s.deliveries[w].msg ::
      v == w
  }

  /** At every moment of the run. */
  ghost predicate NoOverlap(e: Env, run: seq<Action>) {
    Apart(Exec(e, INIT, run)) && (run != [] ==> NoOverlap(e, run[..|run| - 1]))
  }

  /** The message is still there to be delivered again, and no worker holding it will
      acknowledge it without archiving first. */
  ghost predicate StillOwed(s: State, m: nat) {
    && m !in s.queue.acked
    && (forall w | w in s.deliveries && s.deliveries[w].msg == m ::
          s.deliveries[w].pc.Received? || s.deliveries[w].pc.Archiving?)
  }

  ghost predicate Kept(s: State, id: string) {
    id in s.notes.finisher ==>
      && var m := s.notes.finisher[id];
      && id in s.live.hist && s.live.hist[id] != [] && Last(s.live.hist[id]).Over()
      && m in s.queue.sent && s.queue.sent[m].kind == Move && s.queue.sent[m].gameId == id
      && (id in s.accounts.db.rows || id !in s.live.redis || StillOwed(s, m))
  }

  ghost predicate AllKept(s: State) {
    forall id :: Kept(s, id)
  }

  /** What a step must not do for a kept game to stay kept. */
  ghost predicate LeavesOwed(s: State, s': State, m: nat) {
    && (m in s'.queue.acked ==> m in s.queue.acked)
    && (forall w | w in s'.deliveries && s'.deliveries[w].msg == m ::
          || s'.deliveries[w].pc.Received? || s'.deliveries[w].pc.Archiving?
          || (w in s.deliveries && s'.deliveries[w] == s.deliveries[w]))
  }

  lemma KeptStays(e: Env, s: State, s': State, id: string)
    requires Inv(e, s) && Inv(e, s') && Onward(s, s') && Kept(s, id)
    requires s'.notes.finisher == s.notes.finisher && s.accounts.db.rows.Keys <= s'.accounts.db.rows.Keys
    requires forall m | m in s.queue.sent :: m in s'.queue.sent && s'.queue.sent[m] == s.queue.sent[m]
    requires id in s.notes.finisher && StillOwed(s, s.notes.finisher[id])
      ==> LeavesOwed(s, s', s.notes.finisher[id]) || id in s'.accounts.db.rows || id !in s'.live.redis
    ensures Kept(s', id)
  {
    hide Inv;
    if id in s.notes.finisher {
      LastIsLater(e, s, s', id);
    }
  }

  lemma RowsGrow(e: Env, s: State, a: Action)
    ensures s.accounts.db.rows.Keys <= Next(e, s, a).accounts.db.rows.Keys
  {
    hide Inv, Next;
    if TouchesAccounts(a) {
      AccountRowsGrow(e, s, a);
    } else {
      OthersLeaveAccounts(e, s, a);
    }
  }

  lemma AccountRowsGrow(e: Env, s: State, a: Action)
    requires TouchesAccounts(a)
    ensures s.accounts.db.rows.Keys <= Next(e, s, a).accounts.db.rows.Keys
  {
    hide A.AfterGame, DoCommitMove, DoCommitJoin, DoCommitResign, DoPlay, DoCreate, DoEnqueue, DoDropCall,
      DoAck, DoFetch;
  }

  /** The queue only ever gets new messages. */
  ghost predicate QueueGrows(s: State, s': State) {
    forall m | m in s.queue.sent :: m in s'.queue.sent && s'.queue.sent[m] == s.queue.sent[m]
  }

  /** Everything a handler does, seen from the workers' side. */
  ghost predicate BesideWorkers(s: State, s': State) {
    s'.deliveries == s.deliveries && s'.queue.acked == s.queue.acked && QueueGrows(s, s')
    && s'.notes.finisher == s.notes.finisher
  }

  lemma HandOffIsBeside(s: State, c: nat, g: GameRec)
    ensures BesideWorkers(s, HandOff(s, c, g))
  {
  }

  lemma CommitIsBeside(s: State, c: nat, g: GameRec, ply: int, handOff: bool)
    ensures BesideWorkers(s, Commit(s, c, g, ply, handOff))
  {
    hide HandOff;
    HandOffIsBeside(Written(s, Store.Next(g)), c, Store.Next(g));
  }

  lemma CommitsAreBeside(e: Env, s: State, c: nat)
    ensures BesideWorkers(s, DoCommitMove(e, s, c))
    ensures BesideWorkers(s, DoCommitJoin(s, c))
    ensures BesideWorkers(s, DoCommitResign(s, c))
  {
    hide Commit, Moved, Resigned;
    if c in s.calls {
      forall next: GameRec, handOff | true
        ensures BesideWorkers(WithoutCall(s, c), Commit(WithoutCall(s, c), c, next, s.calls[c].g.ply, handOff))
      {
        CommitIsBeside(WithoutCall(s, c), c, next, s.calls[c].g.ply, handOff);
      }
    }
  }

  lemma CreateIsBeside(s: State, c: nat, g: GameRec)
    ensures BesideWorkers(s, DoCreate(s, c, g))
  {
    hide HandOff;
    HandOffIsBeside(Written(s, Store.Next(g)), c, Store.Next(g));
  }

  lemma OtherIsBeside(e: Env, s: State, a: Action)
    requires a.ReadForMove? || a.ReadForJoin? || a.ReadForResign? || a.Ask? || a.Enqueue? || a.DropCall?
          || a.ApiArchive? || a.NewUser? || a.Reap? || a.Expire?
    ensures BesideWorkers(s, Next(e, s, a))
  {
    hide A.Saved, DoCommitMove, DoCommitJoin, DoCommitResign, DoPlay, DoCreate, DoAck, DoFetch,
      DoWorkerArchive, DoDeliver;
  }

  predicate ByWorker(a: Action) {
    a.Deliver? || a.Fetch? || a.Play? || a.WorkerArchive? || a.Ack? || a.Crash?
  }

  lemma HandlersAreBeside(e: Env, s: State, a: Action)
    requires !ByWorker(a)
    ensures BesideWorkers(s, Next(e, s, a))
  {
    hide BesideWorkers, DoCommitMove, DoCommitJoin, DoCommitResign, DoPlay, DoCreate, DoAck, DoFetch,
      DoWorkerArchive, DoDeliver, DoEnqueue, DoDropCall, DoApiArchive, DoAsk, Start, DoExpire, DoNewUser, DoReap;
    match a
    case Create(c, id, user, mode, color, level, at) =>
      CreateIsBeside(s, c, Newborn(id, user, mode, color, level, at));
    case CommitMove(c) => CommitsAreBeside(e, s, c);
    case CommitJoin(c) => CommitsAreBeside(e, s, c);
    case CommitResign(c) => CommitsAreBeside(e, s, c);
    case _ => OtherIsBeside(e, s, a);
  }

  lemma HandlerKeeps(e: Env, s: State, s': State, id: string)
    requires Inv(e, s) && Inv(e, s') && Onward(s, s') && Kept(s, id) && BesideWorkers(s, s')
    requires s.accounts.db.rows.Keys <= s'.accounts.db.rows.Keys
    ensures Kept(s', id)
  {
    hide Inv, Onward;
    KeptStays(e, s, s', id);
  }

  /** A redelivery that finds the finished game goes straight to the archive; one that finds the
      key expired gives up. The engine is asked in neither case. */
  lemma RetryGoesToArchive(e: Env, s: State, job: Job)
    requires Inv(e, s) && job.kind == Move && job.gameId in s.live.hist
    requires s.live.hist[job.gameId] != [] && Last(s.live.hist[job.gameId]).Over()
    ensures Judged(s.live.redis, job)
         == if job.gameId in s.live.redis then Archiving(Last(s.live.hist[job.gameId])) else Done
  {
  }

  lemma FetchKeeps(e: Env, s: State, w: nat, id: string)
    requires Inv(e, s) && Kept(s, id) && Inv(e, DoFetch(s, w)) && Onward(s, DoFetch(s, w))
    ensures Kept(DoFetch(s, w), id)
  {
    hide Judged, Onward;
    if id in s.notes.finisher && w in s.deliveries && s.deliveries[w].msg == s.notes.finisher[id] {
      RetryGoesToArchive(e, s, s.queue.sent[s.deliveries[w].msg]);
    }
    hide Inv;
    KeptStays(e, s, DoFetch(s, w), id);
  }

  lemma WorkerArchiveKeeps(e: Env, s: State, w: nat, up: bool, id: string)
    requires Inv(e, s) && Work(s) && Kept(s, id)
    requires Inv(e, DoWorkerArchive(e, s, w, up)) && Onward(s, DoWorkerArchive(e, s, w, up))
    ensures Kept(DoWorkerArchive(e, s, w, up), id)
  {
    hide Inv, Onward, Posted, Settled, CallOk, EngineToMove;
    if w in s.deliveries { assert DeliveryOk(s, s.deliveries[w]); }
    KeptStays(e, s, DoWorkerArchive(e, s, w, up), id);
  }

  lemma AckKeepsOwed(e: Env, s: State, w: nat, id: string)
    requires Inv(e, s) && Kept(s, id) && Inv(e, DoAck(s, w)) && Onward(s, DoAck(s, w))
    ensures Kept(DoAck(s, w), id)
  {
    hide Inv, Onward;
    KeptStays(e, s, DoAck(s, w), id);
  }

  lemma DeliverKeeps(e: Env, s: State, w: nat, m: nat, id: string)
    requires Inv(e, s) && Kept(s, id) && Inv(e, DoDeliver(s, w, m)) && Onward(s, DoDeliver(s, w, m))
    ensures Kept(DoDeliver(s, w, m), id)
  {
    hide Inv, Onward;
    KeptStays(e, s, DoDeliver(s, w, m), id);
  }

  lemma CrashKeeps(e: Env, s: State, w: nat, id: string)
    requires Inv(e, s) && Kept(s, id) && Inv(e, WithoutDelivery(s, w)) && Onward(s, WithoutDelivery(s, w))
    ensures Kept(WithoutDelivery(s, w), id)
  {
    hide Inv, Onward;
    KeptStays(e, s, WithoutDelivery(s, w), id);
  }

  // ---- The finishing write -------------------------------------------------------------------

  /** Nobody acknowledged the message of a turn that is still the engine's. */
  lemma TurnIsUnacked(e: Env, s: State, w: nat, next: GameRec)
    requires Inv(e, s) && Work(s) && w in s.deliveries && s.deliveries[w].pc.Thinking?
    requires var g := s.deliveries[w].pc.g;
      next.id == g.id && next.revision == g.revision && Store.Cas(s.live.redis, next, g.ply).Some?
    ensures s.deliveries[w].msg !in s.queue.acked
  {
    var g, m := s.deliveries[w].pc.g, s.deliveries[w].msg;
    assert DeliveryOk(s, s.deliveries[w]);
    assert WasStored(s, g);
    UpdateExtendsSnapshot(e, s, g, next);
    hide Snapshots, Posted, CallOk;
    if m in s.queue.acked {
      assert Settled(s.live, s.queue.sent[m]);
      AckedElsewhere(e, s, g.id, s.queue.sent[m]);
      assert false;
    }
  }

  lemma FinishIsOwed(s: State, w: nat, g: GameRec, next: GameRec)
    requires Apart(s) && w in s.deliveries && s.deliveries[w].msg !in s.queue.acked
    requires Store.Cas(s.live.redis, next, g.ply).Some? && next.Over()
    ensures StillOwed(Played(s, w, g, next), s.deliveries[w].msg)
  {
  }

  lemma PlayedKeeps(e: Env, s: State, w: nat, g: GameRec, uci: string, next: GameRec, id: string)
    requires Inv(e, s) && Work(s) && Apart(s) && Kept(s, id)
    requires w in s.deliveries && s.deliveries[w].pc == Thinking(g)
    requires Moved(e.rules, g, g.EngineColor(), uci) == Ok(next)
    requires Inv(e, Played(s, w, g, next)) && Onward(s, Played(s, w, g, next))
    ensures Kept(Played(s, w, g, next), id)
  {
    assert DeliveryOk(s, s.deliveries[w]);
    assert next.id == g.id && next.revision == g.revision;
    hide Inv, Moved, Work, Onward, Posted, Settled, CallOk, EngineToMove, Apart, StillOwed, Kept;
    if id == g.id && Played(s, w, g, next).notes.finisher != s.notes.finisher {
      TurnIsUnacked(e, s, w, next);
      FinishKeeps(s, w, g, next);
    } else {
      OtherPlayKeeps(e, s, w, g, next, id);
    }
  }

  lemma FinishKeeps(s: State, w: nat, g: GameRec, next: GameRec)
    requires Apart(s) && w in s.deliveries && s.deliveries[w].msg !in s.queue.acked
    requires s.deliveries[w].msg in s.queue.sent
    requires s.queue.sent[s.deliveries[w].msg].kind == Move && s.queue.sent[s.deliveries[w].msg].gameId == g.id
    requires Store.Cas(s.live.redis, next, g.ply).Some? && next.Over() && next.id == g.id
    ensures Kept(Played(s, w, g, next), g.id)
  {
    FinishIsOwed(s, w, g, next);
    hide Apart, StillOwed;
    assert Past(s, g.id) + [Store.Next(next)] != [];
  }

  lemma OtherPlayKeeps(e: Env, s: State, w: nat, g: GameRec, next: GameRec, id: string)
    requires Inv(e, s) && Kept(s, id) && w in s.deliveries && s.deliveries[w].pc == Thinking(g)
    requires Inv(e, Played(s, w, g, next)) && Onward(s, Played(s, w, g, next))
    requires next.id == g.id
    requires id != g.id || Played(s, w, g, next).notes.finisher == s.notes.finisher
    ensures Kept(Played(s, w, g, next), id)
  {
    hide Inv, Onward;
    var s' := Played(s, w, g, next);
    if id in s.notes.finisher {
      LastIsLaterOn(e, s, s', id);
      StillThere(s, s', id);
    }
  }

  lemma LastIsLaterOn(e: Env, s: State, s': State, id: string)
    requires Inv(e, s) && Inv(e, s') && Onward(s, s') && id in s.live.hist
    ensures id in s'.live.hist && s.live.hist[id] != [] && s'.live.hist[id] != []
    ensures Last(s.live.hist[id]).Over() ==> Last(s'.live.hist[id]).Over()
  {
    hide Inv;
    LastIsLater(e, s, s', id);
  }

  lemma StillThere(s: State, s': State, id: string)
    requires Onward(s, s') && id in s.live.hist
    ensures id !in s.live.redis ==> id !in s'.live.redis
  {
  }

  lemma PlayKeepsFinished(e: Env, s: State, w: nat, uci: string, id: string)
    requires Inv(e, s) && Work(s) && Apart(s) && Kept(s, id)
    requires Inv(e, DoPlay(e, s, w, uci)) && Onward(s, DoPlay(e, s, w, uci))
    ensures Kept(DoPlay(e, s, w, uci), id)
  {
    hide Inv, Work, Onward, Apart, Kept, Played;
    if w in s.deliveries && s.deliveries[w].pc.Thinking? {
      var g := s.deliveries[w].pc.g;
      match Moved(e.rules, g, g.EngineColor(), uci)
      case Err(_) => CrashKeeps(e, s, w, id);
      case Ok(next) => PlayedKeeps(e, s, w, g, uci, next, id);
    }
  }

  lemma StepKeepsFinished(e: Env, s: State, a: Action, id: string)
    requires Sound(e.rules) && Inv(e, s) && Work(s) && Apart(s) && Kept(s, id)
    ensures Kept(Next(e, s, a), id)
  {
    StepIsOnward(e, s, a);
    hide Inv, Work, Onward, Apart, Kept, BesideWorkers, DoCommitMove, DoCommitJoin, DoCommitResign, DoPlay,
      DoCreate, DoAck, DoFetch, DoWorkerArchive, DoDeliver, DoEnqueue, DoDropCall, DoApiArchive, DoAsk, Start,
      DoExpire, DoNewUser, DoReap, WithoutDelivery;
    var s' := Next(e, s, a);
    match a
    case Deliver(w, m) => DeliverKeeps(e, s, w, m, id);
    case Fetch(w) => FetchKeeps(e, s, w, id);
    case Play(w, uci) => PlayKeepsFinished(e, s, w, uci, id);
    case WorkerArchive(w, up) => WorkerArchiveKeeps(e, s, w, up, id);
    case Ack(w) => AckKeepsOwed(e, s, w, id);
    case Crash(w) => CrashKeeps(e, s, w, id);
    case _ =>
      HandlersAreBeside(e, s, a);
      RowsGrow(e, s, a);
      HandlerKeeps(e, s, s', id);
  }

  /** While no two workers hold one message, a game the worker finished is archived, or its message
      is still unacknowledged, or the key expired before any retry got through. */
  lemma {:induction false} FinishedGamesAreKept(e: Env, run: seq<Action>)
    requires Sound(e.rules) && NoOverlap(e, run)
    ensures AllKept(Exec(e, INIT, run))
  {
    hide Inv, Work, NoTurnStranded, Next, Kept;
    if run == [] {
      NothingFinished();
    } else {
      var shorter := run[..|run| - 1];
      FinishedGamesAreKept(e, shorter);
      TurnsAreNeverStranded(e, shorter);
      assert NoOverlap(e, shorter);
      forall id ensures Kept(Exec(e, INIT, run), id) {
        assert Kept(Exec(e, INIT, shorter), id);
        StepKeepsFinished(e, Exec(e, INIT, shorter), run[|run| - 1], id);
      }
    }
  }

  lemma NothingFinished()
    ensures AllKept(INIT)
  {
  }
}
