/** Every run of the live-game protocol stores one linear history per game. */
module LiveHistory {
  import opened Game
  import opened LiveGame
  import Store = GameStore
  import A = Archive

  /** b is one legal move on from a. */
  ghost predicate MoveStep(r: Rules, a: GameRec, b: GameRec) {
    && !a.Over()
    && |b.moves| == |a.moves| + 1
    && r.legal(a.moves, b.moves[|a.moves|])
    && b == Extended(r, a, b.moves[|a.moves|]).(revision := a.revision + 1)
  }

  ghost predicate ResignStep(a: GameRec, b: GameRec) {
    && !a.Over()
    && (exists color :: b == Resigned(a, color).g.(revision := a.revision + 1))
  }

  ghost predicate JoinStep(a: GameRec, b: GameRec) {
    && a.friend && a.opponentId == "" && b.opponentId != "" && b.opponentId != a.userId
    && b == a.(opponentId := b.opponentId, revision := a.revision + 1)
  }

  ghost predicate Evolves(r: Rules, a: GameRec, b: GameRec) {
    MoveStep(r, a, b) || ResignStep(a, b) || JoinStep(a, b)
  }

  ghost predicate Born(g: GameRec, id: string) {
    && g.id == id && g.moves == [] && g.ply == 0 && g.revision == 1 && g.status == Ongoing
    && g.result == NoResult && g.termination == "" && g.opponentId == ""
    && (g.friend ==> !g.rated)
  }

  /** One game's stored values in order: revisions count up from 1, and each value is one move, one
      resignation or one join on from the one before. */
  ghost predicate Line(r: Rules, id: string, h: seq<GameRec>) {
    && h != []
    && Born(h[0], id)
    && (forall k | 0 <= k < |h| :: h[k].id == id && h[k].revision == k + 1 && WellFormed(r, h[k]))
    && (forall k | 0 < k < |h| :: Evolves(r, h[k - 1], h[k]))
  }

  function Last(h: seq<GameRec>): GameRec
    requires h != []
  {
    h[|h| - 1]
  }

  ghost predicate Stored(r: Rules, s: State) {
    && (forall id | id in s.live.hist :: Line(r, id, s.live.hist[id]))
    && (forall id | id in s.live.redis :: id in s.live.hist && s.live.redis[id] == Last(s.live.hist[id]))
  }

  /** A snapshot somebody holds really was the stored value once. */
  ghost predicate WasStored(s: State, g: GameRec) {
    && g.id in s.live.hist
    && 1 <= g.revision <= |s.live.hist[g.id]|
    && s.live.hist[g.id][g.revision - 1] == g
  }

  ghost predicate HoldsGame(pc: Pc) { pc.Thinking? || pc.Archiving? }

  ghost predicate Snapshots(s: State) {
    && (forall c | c in s.calls :: WasStored(s, s.calls[c].g))
    && (forall w | w in s.deliveries && HoldsGame(s.deliveries[w].pc) ::
          WasStored(s, s.deliveries[w].pc.g))
  }

  ghost predicate Inv(e: Env, s: State) {
    Stored(e.rules, s) && Snapshots(s)
  }

  // ---- One write ----------------------------------------------------------------------------

  /** Nothing is ever taken back: s' knows every history s knows, possibly longer. */
  ghost predicate Grows(s: State, s': State) {
    forall id | id in s.live.hist :: id in s'.live.hist && s.live.hist[id] <= s'.live.hist[id]
  }

  /** A compare-and-set that succeeds found exactly the snapshot its caller read: revisions are
      never reused, so an equal revision is an equal record. */
  lemma UpdateExtendsSnapshot(e: Env, s: State, g: GameRec, next: GameRec)
    requires Inv(e, s) && WasStored(s, g) && next.id == g.id && next.revision == g.revision
    requires Store.Cas(s.live.redis, next, g.ply).Some?
    ensures s.live.redis[g.id] == g && Last(s.live.hist[g.id]) == g
  {
    var h := s.live.hist[g.id];
    assert Line(e.rules, g.id, h);
    assert WellFormed(e.rules, h[g.revision - 1]);
    assert s.live.redis[g.id].revision == |h|;
  }

  lemma WriteKeeps(e: Env, s: State, g: GameRec, next: GameRec)
    requires Inv(e, s) && WasStored(s, g) && next.id == g.id && next.revision == g.revision
    requires Store.Cas(s.live.redis, next, g.ply).Some?
    requires Evolves(e.rules, g, Store.Next(next)) && WellFormed(e.rules, next)
    ensures Inv(e, Written(s, Store.Next(next))) && Grows(s, Written(s, Store.Next(next)))
    ensures WasStored(Written(s, Store.Next(next)), Store.Next(next))
  {
    UpdateExtendsSnapshot(e, s, g, next);
    LineGrows(e.rules, g.id, s.live.hist[g.id], Store.Next(next));
    WrittenKeeps(e, s, Store.Next(next));
  }

  lemma LineGrows(r: Rules, id: string, h: seq<GameRec>, g: GameRec)
    requires Line(r, id, h) && g.id == id && g.revision == |h| + 1 && Evolves(r, Last(h), g)
    requires WellFormed(r, g.(revision := |h|))
    ensures Line(r, id, h + [g])
  {
    assert WellFormed(r, g);
  }

  lemma WrittenKeeps(e: Env, s: State, g: GameRec)
    requires Inv(e, s) && Line(e.rules, g.id, Past(s, g.id) + [g])
    ensures Inv(e, Written(s, g)) && Grows(s, Written(s, g)) && WasStored(Written(s, g), g)
  {
    var s' := Written(s, g);
    var h := Past(s, g.id) + [g];
    assert h[|h| - 1] == g && g.revision == |h|;
    SnapshotsKept(s, s');
  }

  lemma SnapshotsKept(s: State, s': State)
    requires Snapshots(s) && Grows(s, s') && s'.calls == s.calls && s'.deliveries == s.deliveries
    ensures Snapshots(s')
  {
  }

  /** A step that writes no game only has to hold snapshots that were stored. */
  lemma NoWriteKeeps(e: Env, s: State, s': State)
    requires Inv(e, s) && s'.live.hist == s.live.hist
    requires forall id | id in s'.live.redis :: id in s.live.redis && s'.live.redis[id] == s.live.redis[id]
    requires forall c | c in s'.calls :: WasStored(s, s'.calls[c].g)
    requires forall w | w in s'.deliveries && HoldsGame(s'.deliveries[w].pc) ::
               WasStored(s, s'.deliveries[w].pc.g)
    ensures Inv(e, s') && Grows(s, s')
  {
  }

  lemma HandOffKeeps(e: Env, s: State, c: nat, g: GameRec)
    requires Inv(e, s) && WasStored(s, g)
    ensures Inv(e, HandOff(s, c, g)) && HandOff(s, c, g).live == s.live
  {
    hide Line, WellFormed, Evolves;
    NoWriteKeeps(e, s, HandOff(s, c, g));
  }

  lemma CommitKeeps(e: Env, s: State, c: nat, g: GameRec, next: GameRec, handOff: bool)
    requires Inv(e, s) && WasStored(s, g) && next.id == g.id && next.revision == g.revision
    requires Evolves(e.rules, g, Store.Next(next)) && WellFormed(e.rules, next)
    ensures Inv(e, Commit(s, c, next, g.ply, handOff)) && Grows(s, Commit(s, c, next, g.ply, handOff))
  {
    hide Stored, Snapshots, WasStored, WellFormed, Evolves, HandOff;
    if Store.Cas(s.live.redis, next, g.ply).Some? {
      WriteKeeps(e, s, g, next);
      if handOff {
        HandOffKeeps(e, Written(s, Store.Next(next)), c, Store.Next(next));
      }
    }
  }

  // ---- Every step ---------------------------------------------------------------------------

  lemma NewLine(r: Rules, g: GameRec)
    requires Sound(r) && Born(g, g.id)
    ensures Line(r, g.id, [g])
  {
  }

  lemma CreateKeeps(e: Env, s: State, c: nat, g: GameRec)
    requires Sound(e.rules) && Inv(e, s) && Born(Store.Next(g), g.id)
    ensures Inv(e, DoCreate(s, c, g)) && Grows(s, DoCreate(s, c, g))
  {
    hide Inv, WasStored, Line, HandOff;
    if g.id !in s.live.hist && c !in s.calls && Store.Cas(s.live.redis, g, Store.MUST_NOT_EXIST).Some? {
      var next := Store.Next(g);
      NewLine(e.rules, next);
      assert Past(s, g.id) + [next] == [next];
      WrittenKeeps(e, s, next);
      HandOffKeeps(e, Written(s, next), c, next);
    }
  }

  lemma CommitMoveKeeps(e: Env, s: State, c: nat)
    requires Inv(e, s)
    ensures Inv(e, DoCommitMove(e, s, c)) && Grows(s, DoCommitMove(e, s, c))
  {
    hide Line, WellFormed, Evolves;
    if c in s.calls && s.calls[c].stage.Moving? {
      var Call(g, Moving(user, uci)) := s.calls[c];
      var rest := WithoutCall(s, c);
      NoWriteKeeps(e, s, rest);
      match g.ColorFor(user)
      case None =>
      case Some(color) =>
        MovedEvolves(e, s, g, color, uci);
        match Moved(e.rules, g, color, uci)
        case Err(_) =>
        case Ok(next) => CommitKeeps(e, rest, c, g, next, true);
    }
  }

  lemma MovedEvolves(e: Env, s: State, g: GameRec, color: Color, uci: string)
    requires Inv(e, s) && WasStored(s, g)
    ensures Moved(e.rules, g, color, uci).Ok? ==>
      var next := Moved(e.rules, g, color, uci).g;
      && WellFormed(e.rules, next) && Evolves(e.rules, g, Store.Next(next))
      && next.id == g.id && next.revision == g.revision
  {
    assert Line(e.rules, g.id, s.live.hist[g.id]);
    MoveKeepsWellFormed(e.rules, g, color, uci);
    if Moved(e.rules, g, color, uci).Ok? {
      var b := Store.Next(Moved(e.rules, g, color, uci).g);
      assert b.moves[|g.moves|] == e.rules.clean(uci);
    }
  }

  lemma CommitJoinKeeps(e: Env, s: State, c: nat)
    requires Inv(e, s)
    ensures Inv(e, DoCommitJoin(s, c)) && Grows(s, DoCommitJoin(s, c))
  {
    if c in s.calls && s.calls[c].stage.Joining? {
      var Call(g, Joining(user)) := s.calls[c];
      NoWriteKeeps(e, s, WithoutCall(s, c));
      if g.friend && user != "" && user != g.userId && user != g.opponentId && g.opponentId == "" {
        var next := g.(opponentId := user);
        JoinedEvolves(e, s, g, user);
        CommitKeeps(e, WithoutCall(s, c), c, g, next, false);
      }
    }
  }

  lemma JoinedEvolves(e: Env, s: State, g: GameRec, user: string)
    requires Inv(e, s) && WasStored(s, g)
    requires g.friend && user != g.userId && user != "" && g.opponentId == ""
    ensures Evolves(e.rules, g, Store.Next(g.(opponentId := user)))
    ensures WellFormed(e.rules, g.(opponentId := user))
  {
    assert Line(e.rules, g.id, s.live.hist[g.id]);
    assert WellFormed(e.rules, g);
  }

  lemma ResignedEvolves(e: Env, s: State, g: GameRec, color: Color)
    requires Inv(e, s) && WasStored(s, g)
    ensures Resigned(g, color).Ok? ==>
      var next := Resigned(g, color).g;
      && WellFormed(e.rules, next) && Evolves(e.rules, g, Store.Next(next))
      && next.id == g.id && next.revision == g.revision
  {
    assert Line(e.rules, g.id, s.live.hist[g.id]);
    ResignKeepsWellFormed(e.rules, g, color);
    if Resigned(g, color).Ok? {
      assert Store.Next(Resigned(g, color).g) == Resigned(g, color).g.(revision := g.revision + 1);
    }
  }

  lemma CallHoldsStored(e: Env, s: State, c: nat)
    requires Inv(e, s) && c in s.calls
    ensures WasStored(s, s.calls[c].g)
  {
  }

  lemma CallDone(e: Env, s: State, c: nat)
    requires Inv(e, s)
    ensures Inv(e, WithoutCall(s, c)) && Grows(s, WithoutCall(s, c))
  {
    NoWriteKeeps(e, s, WithoutCall(s, c));
  }

  lemma CommitResignKeeps(e: Env, s: State, c: nat)
    requires Inv(e, s)
    ensures Inv(e, DoCommitResign(s, c)) && Grows(s, DoCommitResign(s, c))
  {
    hide Stored, Resigned, Commit, Snapshots;
    if c in s.calls && s.calls[c].stage.Resigning? {
      var Call(g, Resigning(user)) := s.calls[c];
      CallHoldsStored(e, s, c);
      CallDone(e, s, c);
      match g.ColorFor(user)
      case None =>
      case Some(color) =>
        ResignedEvolves(e, s, g, color);
        match Resigned(g, color)
        case Err(_) =>
        case Ok(next) => CommitKeeps(e, WithoutCall(s, c), c, g, next, true);
    }
  }

  lemma PlayKeeps(e: Env, s: State, w: nat, uci: string)
    requires Inv(e, s)
    ensures Inv(e, DoPlay(e, s, w, uci)) && Grows(s, DoPlay(e, s, w, uci))
  {
    hide Line, WellFormed, Evolves;
    if w in s.deliveries && s.deliveries[w].pc.Thinking? {
      var g := s.deliveries[w].pc.g;
      MovedEvolves(e, s, g, g.EngineColor(), uci);
      match Moved(e.rules, g, g.EngineColor(), uci)
      case Err(_) => QuietKeeps(e, s, WithoutDelivery(s, w));
      case Ok(next) => PlayedKeeps(e, s, w, g, next);
    }
  }

  lemma PlayedKeeps(e: Env, s: State, w: nat, g: GameRec, next: GameRec)
    requires Inv(e, s) && WasStored(s, g) && next.id == g.id && next.revision == g.revision
    requires Evolves(e.rules, g, Store.Next(next)) && WellFormed(e.rules, next)
    requires w in s.deliveries
    ensures Inv(e, Played(s, w, g, next)) && Grows(s, Played(s, w, g, next))
  {
    hide Line, WellFormed, Evolves;
    if Store.Cas(s.live.redis, next, g.ply).Some? {
      WriteKeeps(e, s, g, next);
      NoWriteKeeps(e, Written(s, Store.Next(next)), Played(s, w, g, next));
    } else {
      QuietKeeps(e, s, At(s, w, Done));
    }
  }

  lemma StepKeeps(e: Env, s: State, a: Action)
    requires Sound(e.rules) && Inv(e, s)
    ensures Inv(e, Next(e, s, a)) && Grows(s, Next(e, s, a))
  {
    hide Inv, Grows, Quiet, Start, DoCommitMove, DoCommitJoin, DoCommitResign, DoPlay,
      DoFetch, DoCreate, DoEnqueue, DoApiArchive, DoDropCall, DoWorkerArchive, DoAck, DoNewUser, DoReap;
    match a
    case Create(c, id, user, mode, color, level, at) =>
      CreateKeeps(e, s, c, Newborn(id, user, mode, color, level, at));
    case CommitMove(c) => CommitMoveKeeps(e, s, c);
    case CommitJoin(c) => CommitJoinKeeps(e, s, c);
    case CommitResign(c) => CommitResignKeeps(e, s, c);
    case Play(w, uci) => PlayKeeps(e, s, w, uci);
    case ReadForMove(c, id, user, uci) => ReadKeeps(e, s, c, id, Moving(user, uci));
    case ReadForJoin(c, id, user) => ReadKeeps(e, s, c, id, Joining(user));
    case ReadForResign(c, id, user) => ReadKeeps(e, s, c, id, Resigning(user));
    case Fetch(w) => FetchKeeps(e, s, w);
    case _ => QuietStepKeeps(e, s, a);
  }

  lemma CurrentWasStored(e: Env, s: State)
    requires Inv(e, s)
    ensures forall id | id in s.live.redis :: WasStored(s, s.live.redis[id])
  {
    forall id | id in s.live.redis ensures WasStored(s, s.live.redis[id]) {
      assert Line(e.rules, id, s.live.hist[id]);
    }
  }

  lemma ReadKeeps(e: Env, s: State, c: nat, id: string, stage: Stage)
    requires Inv(e, s)
    ensures Inv(e, Start(s, c, id, stage)) && Grows(s, Start(s, c, id, stage))
  {
    hide Line, WellFormed, Evolves;
    CurrentWasStored(e, s);
    NoWriteKeeps(e, s, Start(s, c, id, stage));
  }

  lemma FetchKeeps(e: Env, s: State, w: nat)
    requires Inv(e, s)
    ensures Inv(e, DoFetch(s, w)) && Grows(s, DoFetch(s, w))
  {
    hide Line, WellFormed, Evolves;
    CurrentWasStored(e, s);
    NoWriteKeeps(e, s, DoFetch(s, w));
  }

  /** A step that only takes games, calls and deliveries away, or does not touch them. */
  ghost predicate Quiet(s: State, s': State) {
    && s'.live.hist == s.live.hist
    && (forall id | id in s'.live.redis :: id in s.live.redis && s'.live.redis[id] == s.live.redis[id])
    && (forall c | c in s'.calls :: c in s.calls && s'.calls[c].g == s.calls[c].g)
    && (forall w | w in s'.deliveries && HoldsGame(s'.deliveries[w].pc) ::
          w in s.deliveries && s'.deliveries[w] == s.deliveries[w])
  }

  lemma EnqueueIsQuiet(s: State, c: nat, m: nat)
    ensures Quiet(s, DoEnqueue(s, c, m))
  {
  }

  lemma ApiArchiveIsQuiet(e: Env, s: State, c: nat, up: bool)
    ensures Quiet(s, DoApiArchive(e, s, c, up))
  {
    hide A.Saved;
  }

  lemma DropCallIsQuiet(s: State, c: nat)
    ensures Quiet(s, DoDropCall(s, c))
  {
  }

  lemma WorkerArchiveIsQuiet(e: Env, s: State, w: nat, up: bool)
    ensures Quiet(s, DoWorkerArchive(e, s, w, up))
  {
    hide A.Saved;
  }

  lemma AckIsQuiet(s: State, w: nat)
    ensures Quiet(s, DoAck(s, w)) && Quiet(s, WithoutDelivery(s, w))
  {
  }

  lemma DeliverIsQuiet(s: State, w: nat, m: nat)
    ensures Quiet(s, DoDeliver(s, w, m))
  {
  }

  lemma AccountsAreQuiet(s: State, user: string, m: nat, job: Job)
    ensures Quiet(s, DoNewUser(s, user))
    ensures Quiet(s, DoReap(s, user))
    ensures Quiet(s, DoAsk(s, m, job))
  {
  }

  lemma ExpireIsQuiet(s: State, id: string)
    ensures Quiet(s, DoExpire(s, id))
  {
  }

  lemma QuietStepKeeps(e: Env, s: State, a: Action)
    requires Inv(e, s)
    requires a.Enqueue? || a.ApiArchive? || a.DropCall? || a.Ask? || a.Deliver? || a.WorkerArchive?
          || a.Ack? || a.Crash? || a.Expire? || a.NewUser? || a.Reap?
    ensures Inv(e, Next(e, s, a)) && Grows(s, Next(e, s, a))
  {
    hide Inv, Grows, Start, DoCommitMove, DoCommitJoin, DoCommitResign, DoPlay,
      DoFetch, DoCreate, DoEnqueue, DoApiArchive, DoDropCall, DoWorkerArchive, DoAck, WithoutDelivery,
      DoNewUser, DoReap, DoAsk, DoDeliver, Quiet;
    match a {
      case Enqueue(c, m) => EnqueueIsQuiet(s, c, m);
      case ApiArchive(c, up) => ApiArchiveIsQuiet(e, s, c, up);
      case DropCall(c) => DropCallIsQuiet(s, c);
      case WorkerArchive(w, up) => WorkerArchiveIsQuiet(e, s, w, up);
      case Ack(w) => AckIsQuiet(s, w);
      case Crash(w) => AckIsQuiet(s, w);
      case Deliver(w, m) => DeliverIsQuiet(s, w, m);
      case NewUser(user) => AccountsAreQuiet(s, user, 0, Job("", 0, Move));
      case Reap(user) => AccountsAreQuiet(s, user, 0, Job("", 0, Move));
      case Ask(m, id, ply, kind) => AccountsAreQuiet(s, "", m, Job(id, ply, kind));
      case Expire(id) => ExpireIsQuiet(s, id);
    }
    QuietKeeps(e, s, Next(e, s, a));
  }

  lemma QuietKeeps(e: Env, s: State, s': State)
    requires Inv(e, s) && Quiet(s, s')
    ensures Inv(e, s') && Grows(s, s')
  {
    hide Line, WasStored;
    NoWriteKeeps(e, s, s');
  }

  // ---- Every run ----------------------------------------------------------------------------

  /** In every run, whatever the interleaving, each stored revision of a game was written once,
      by an update of the value before it, and the key holds the last of them or nothing. */
  lemma {:induction false} EveryRun(e: Env, run: seq<Action>)
    requires Sound(e.rules)
    ensures Inv(e, Exec(e, INIT, run))
  {
    if run != [] {
      EveryRun(e, run[..|run| - 1]);
      StepKeeps(e, Exec(e, INIT, run[..|run| - 1]), run[|run| - 1]);
    }
  }

  /** A later moment of a run only ever adds to the history of an earlier one. */
  lemma {:induction false} HistoryOnlyGrows(e: Env, run: seq<Action>, k: nat)
    requires Sound(e.rules) && k <= |run|
    ensures Grows(Exec(e, INIT, run[..k]), Exec(e, INIT, run))
    decreases |run|
  {
    if k == |run| {
      assert run[..k] == run;
    } else {
      var shorter := run[..|run| - 1];
      HistoryOnlyGrows(e, shorter, k);
      assert shorter[..k] == run[..k];
      EveryRun(e, shorter);
      StepKeeps(e, Exec(e, INIT, shorter), run[|run| - 1]);
    }
  }

  // ---- Reading a history --------------------------------------------------------------------

  /** From an earlier value of a game to a later one: the move list grows as a prefix, the seats
      and terms stay, and once over nothing archived changes again (a late join still may fill the
      second seat). */
  ghost predicate Later(a: GameRec, b: GameRec) {
    && a.moves <= b.moves && a.ply <= b.ply
    && a.id == b.id && a.player == b.player && a.userId == b.userId && a.level == b.level
    && a.rated == b.rated && a.friend == b.friend && a.createdAt == b.createdAt
    && (a.Over() ==> b.Over() && b.moves == a.moves && b.result == a.result
                     && b.termination == a.termination && A.Columns(b) == A.Columns(a))
    && (a.opponentId != "" ==> b.opponentId == a.opponentId)
    && (!a.friend && a.revision < b.revision ==> a.ply < b.ply || b.Over())
  }

  lemma {:induction false} HistoryIsLinear(r: Rules, id: string, h: seq<GameRec>, i: nat, j: nat)
    requires Line(r, id, h) && i <= j < |h|
    ensures Later(h[i], h[j])
    decreases j
  {
    hide WellFormed, Evolves, Later, Born;
    if i == j {
      LaterItself(h[i]);
    } else {
      HistoryIsLinear(r, id, h, i, j - 1);
      StepIsLater(r, h[j - 1], h[j]);
      LaterChains(h[i], h[j - 1], h[j]);
    }
  }

  lemma LaterItself(a: GameRec)
    ensures Later(a, a)
  {
  }

  lemma LaterChains(a: GameRec, b: GameRec, c: GameRec)
    requires Later(a, b) && Later(b, c) && a.revision <= b.revision <= c.revision
    ensures Later(a, c)
  {
  }

  lemma StepIsLater(r: Rules, a: GameRec, b: GameRec)
    requires WellFormed(r, a) && Evolves(r, a, b)
    ensures Later(a, b)
  {
    if MoveStep(r, a, b) {
      var m := b.moves[|a.moves|];
      assert b.moves == a.moves + [m];
    }
  }

  /** Every snapshot anybody holds is an earlier value of what the key holds now, if it holds
      anything. */
  lemma SnapshotIsEarlier(e: Env, s: State, g: GameRec)
    requires Inv(e, s) && WasStored(s, g)
    ensures Later(g, Last(s.live.hist[g.id]))
    ensures g.id in s.live.redis ==> Later(g, s.live.redis[g.id])
  {
    HistoryIsLinear(e.rules, g.id, s.live.hist[g.id], g.revision - 1, |s.live.hist[g.id]| - 1);
  }

  /** A conflict in a bot game means real progress: only joins change a game without moving it
      on, and only friend games are joined. */
  lemma ConflictMeansProgress(e: Env, s: State, g: GameRec, next: GameRec)
    requires Inv(e, s) && WasStored(s, g) && next.id == g.id && next.revision == g.revision
    requires !g.friend && Store.Cas(s.live.redis, next, g.ply).None?
    ensures g.id !in s.live.redis || s.live.redis[g.id].ply > g.ply || s.live.redis[g.id].Over()
  {
    SnapshotIsEarlier(e, s, g);
    assert Line(e.rules, g.id, s.live.hist[g.id]);
    assert WellFormed(e.rules, g);
  }

  /** In a friend game it does not: a join makes a move's compare-and-set fail with the game
      where it was. */
  lemma ConflictAfterJoin(e: Env, g: GameRec, joiner: string)
    requires g.friend && g.opponentId == "" && !g.Over()
    ensures var redis: Store.Redis := map[g.id := g];
      var joined := Store.Cas(redis, g.(opponentId := joiner), g.ply);
      && (g.ply != Store.MUST_NOT_EXIST ==> joined.Some?)
      && (joined.Some? ==> Store.Cas(joined.value, g, g.ply).None?
                           && joined.value[g.id].ply == g.ply && !joined.value[g.id].Over())
  {
  }
}
