/** Who wrote each value of a game's history, in every run of the live-game protocol. */
module LiveSeats {
  import opened Game
  import opened LiveGame
  import opened LiveHistory
  import opened LiveTurns
  import W = LiveWork

  /** The user may play this colour: in a friend game whoever sits there, in a bot game its owner, or anybody
      when it has none. */
  ghost predicate HasSeat(g: GameRec, user: string, color: Color) {
    if g.friend then user != "" && user == if color == g.player then g.userId else g.opponentId
    else color == g.player && (g.userId == "" || user == g.userId)
  }

  /** The user has the seat whose turn it is at a, and the move is the one they sent. */
  ghost predicate MovedBy(e: Env, a: GameRec, b: GameRec, user: string, uci: string) {
    HasSeat(a, user, TurnAt(|a.moves|)) && b.moves == a.moves + [e.rules.clean(uci)] && !a.Over()
  }

  /** The user gave up a colour whose seat they have. */
  ghost predicate ResignedBy(a: GameRec, b: GameRec, user: string) {
    && b.moves == a.moves && !a.Over() && b.Over() && b.termination == "resignation"
    && ((b.result == BlackWins && HasSeat(a, user, White)) || (b.result == WhiteWins && HasSeat(a, user, Black)))
  }

  ghost predicate JoinedBy(a: GameRec, b: GameRec, user: string) {
    && a.friend && a.opponentId == "" && user != "" && user != a.userId
    && b == a.(opponentId := user, revision := b.revision)
  }

  ghost predicate PlayedByEngine(e: Env, a: GameRec, b: GameRec, uci: string) {
    !a.friend && TurnAt(|a.moves|) != a.player && b.moves == a.moves + [e.rules.clean(uci)] && !a.Over()
  }

  /** This step at s, by whom it has to be, turned a into b. */
  ghost predicate Wrote(e: Env, s: State, step: Action, a: GameRec, b: GameRec) {
    match step
    case CommitMove(c) =>
      && c in s.calls && s.calls[c].g == a && s.calls[c].stage.Moving?
      && MovedBy(e, a, b, s.calls[c].stage.user, s.calls[c].stage.uci)
    case CommitResign(c) =>
      && c in s.calls && s.calls[c].g == a && s.calls[c].stage.Resigning?
      && ResignedBy(a, b, s.calls[c].stage.user)
    case CommitJoin(c) =>
      && c in s.calls && s.calls[c].g == a && s.calls[c].stage.Joining?
      && JoinedBy(a, b, s.calls[c].stage.user)
    case Play(w, uci) => PlayedByEngine(e, a, b, uci)
    case _ => false
  }

  // ---- One step -----------------------------------------------------------------------------------

  /** The game gained one value, which this step wrote over the last one. */
  ghost predicate Extends(e: Env, s: State, s': State, step: Action, id: string) {
    var h := Past(s, id);
    && h != [] && |Past(s', id)| == |h| + 1 && h <= Past(s', id)
    && Wrote(e, s, step, h[|h| - 1], Past(s', id)[|h|])
  }

  lemma CommitExtends(e: Env, s: State, c: nat, g: GameRec, next: GameRec, handOff: bool, id: string)
    requires Inv(e, s) && WasStored(s, g) && next.id == g.id && next.revision == g.revision
    ensures var h, h' := Past(s, id), Past(Commit(s, c, next, g.ply, handOff), id);
      || h' == h
      || (h != [] && h[|h| - 1] == g && h' == h + [Store.Next(next)])
  {
    hide Inv, WasStored, HandOff;
    if Store.Cas(s.live.redis, next, g.ply).Some? {
      UpdateExtendsSnapshot(e, s, g, next);
      StoredOnce(s, g);
      HandOffKeepsPast(Written(s, Store.Next(next)), c, Store.Next(next), id);
    }
  }

  lemma HandOffKeepsPast(s: State, c: nat, g: GameRec, id: string)
    ensures Past(HandOff(s, c, g), id) == Past(s, id)
  {
  }

  lemma MoveHasSeat(e: Env, g: GameRec, user: string, uci: string)
    requires g.ColorFor(user).Some? && Moved(e.rules, g, g.ColorFor(user).value, uci).Ok?
    ensures MovedBy(e, g, Store.Next(Moved(e.rules, g, g.ColorFor(user).value, uci).g), user, uci)
  {
  }

  lemma ResignHasSeat(g: GameRec, user: string)
    requires g.ColorFor(user).Some? && Resigned(g, g.ColorFor(user).value).Ok?
    ensures ResignedBy(g, Store.Next(Resigned(g, g.ColorFor(user).value).g), user)
  {
  }

  lemma CommitIsStep(e: Env, s: State, rest: State, c: nat, g: GameRec, next: GameRec, handOff: bool, step: Action,
                     id: string)
    requires Inv(e, rest) && WasStored(rest, g) && next.id == g.id && next.revision == g.revision
    requires rest.live == s.live && Wrote(e, s, step, g, Store.Next(next))
    ensures var s' := Commit(rest, c, next, g.ply, handOff);
      Past(s', id) == Past(s, id) || Extends(e, s, s', step, id)
  {
    hide Inv, WasStored, Commit, Wrote;
    CommitExtends(e, rest, c, g, next, handOff, id);
  }

  lemma CommitMoveExtends(e: Env, s: State, c: nat, id: string)
    requires Inv(e, s)
    ensures var s' := DoCommitMove(e, s, c); Past(s', id) == Past(s, id) || Extends(e, s, s', CommitMove(c), id)
  {
    hide Inv, WasStored, Moved, Commit, MovedBy, Extends;
    if c in s.calls && s.calls[c].stage.Moving? {
      var Call(g, Moving(user, uci)) := s.calls[c];
      CallDone(e, s, c);
      CallHoldsStored(e, s, c);
      StillStored(s, WithoutCall(s, c), g);
      match g.ColorFor(user)
      case None =>
      case Some(color) =>
        MovedKeepsId(e, g, color, uci);
        match Moved(e.rules, g, color, uci)
        case Err(_) =>
        case Ok(next) =>
          MoveHasSeat(e, g, user, uci);
          CommitIsStep(e, s, WithoutCall(s, c), c, g, next, true, CommitMove(c), id);
    }
  }

  lemma StillStored(s: State, s': State, g: GameRec)
    requires WasStored(s, g) && s'.live == s.live
    ensures WasStored(s', g)
  {
  }

  lemma MovedKeepsId(e: Env, g: GameRec, color: Color, uci: string)
    ensures Moved(e.rules, g, color, uci).Ok? ==>
      var next := Moved(e.rules, g, color, uci).g; next.id == g.id && next.revision == g.revision
  {
  }

  lemma CommitResignExtends(e: Env, s: State, c: nat, id: string)
    requires Inv(e, s)
    ensures var s' := DoCommitResign(s, c); Past(s', id) == Past(s, id) || Extends(e, s, s', CommitResign(c), id)
  {
    hide Inv, WasStored, Commit, ResignedBy, Extends;
    if c in s.calls && s.calls[c].stage.Resigning? {
      var Call(g, Resigning(user)) := s.calls[c];
      CallDone(e, s, c);
      CallHoldsStored(e, s, c);
      StillStored(s, WithoutCall(s, c), g);
      match g.ColorFor(user)
      case None =>
      case Some(color) =>
        if Resigned(g, color).Ok? {
          ResignHasSeat(g, user);
          CommitIsStep(e, s, WithoutCall(s, c), c, g, Resigned(g, color).g, true, CommitResign(c), id);
        }
    }
  }

  lemma CommitJoinExtends(e: Env, s: State, c: nat, id: string)
    requires Inv(e, s)
    ensures var s' := DoCommitJoin(s, c); Past(s', id) == Past(s, id) || Extends(e, s, s', CommitJoin(c), id)
  {
    hide Inv, WasStored, Commit, Extends;
    if c in s.calls && s.calls[c].stage.Joining? {
      var Call(g, Joining(user)) := s.calls[c];
      CallDone(e, s, c);
      CallHoldsStored(e, s, c);
      StillStored(s, WithoutCall(s, c), g);
      if g.friend && user != "" && user != g.userId && user != g.opponentId && g.opponentId == "" {
        CommitIsStep(e, s, WithoutCall(s, c), c, g, g.(opponentId := user), false, CommitJoin(c), id);
      }
    }
  }

  lemma PlayExtends(e: Env, s: State, w: nat, uci: string, id: string)
    requires Inv(e, s) && W.Work(s)
    ensures var s' := DoPlay(e, s, w, uci); Past(s', id) == Past(s, id) || Extends(e, s, s', Play(w, uci), id)
  {
    hide Inv, W.Work, WasStored, Moved, Extends, Played;
    if w in s.deliveries && s.deliveries[w].pc.Thinking? {
      var g := s.deliveries[w].pc.g;
      ThinkingMeans(e, s, w);
      MovedKeepsId(e, g, g.EngineColor(), uci);
      match Moved(e.rules, g, g.EngineColor(), uci)
      case Err(_) =>
      case Ok(next) =>
        EngineHasTurn(e, g, uci);
        PlayedIsStep(e, s, w, g, next, Play(w, uci), id);
    }
  }

  lemma ThinkingMeans(e: Env, s: State, w: nat)
    requires Inv(e, s) && W.Work(s) && w in s.deliveries && s.deliveries[w].pc.Thinking?
    ensures WasStored(s, s.deliveries[w].pc.g) && EngineToMove(s.deliveries[w].pc.g)
  {
    assert W.DeliveryOk(s, s.deliveries[w]);
  }

  lemma EngineHasTurn(e: Env, g: GameRec, uci: string)
    requires EngineToMove(g) && Moved(e.rules, g, g.EngineColor(), uci).Ok?
    ensures PlayedByEngine(e, g, Store.Next(Moved(e.rules, g, g.EngineColor(), uci).g), uci)
  {
  }

  lemma PlayedIsStep(e: Env, s: State, w: nat, g: GameRec, next: GameRec, step: Action, id: string)
    requires Inv(e, s) && WasStored(s, g) && next.id == g.id && next.revision == g.revision && w in s.deliveries
    requires Wrote(e, s, step, g, Store.Next(next))
    ensures var s' := Played(s, w, g, next); Past(s', id) == Past(s, id) || Extends(e, s, s', step, id)
  {
    hide Inv, WasStored, Wrote;
    if Store.Cas(s.live.redis, next, g.ply).Some? {
      UpdateExtendsSnapshot(e, s, g, next);
      StoredOnce(s, g);
    }
  }

  lemma StoredOnce(s: State, g: GameRec)
    requires WasStored(s, g)
    ensures g.id in s.live.hist && s.live.hist[g.id] != []
  {
  }

  /** Nothing else writes a game. */
  lemma OthersKeepPast(e: Env, s: State, step: Action, id: string)
    requires !step.Create? && !step.CommitMove? && !step.CommitJoin? && !step.CommitResign? && !step.Play?
    ensures Past(Next(e, s, step), id) == Past(s, id)
  {
    hide A.Saved, Judged;
  }

  lemma CreateExtends(s: State, c: nat, g: GameRec, id: string)
    ensures var h' := Past(DoCreate(s, c, g), id); h' == Past(s, id) || (Past(s, id) == [] && |h'| == 1)
  {
  }

  lemma StepExtends(e: Env, s: State, step: Action, id: string)
    requires Inv(e, s) && W.Work(s)
    ensures var s' := Next(e, s, step);
      || Past(s', id) == Past(s, id)
      || (Past(s, id) == [] && |Past(s', id)| == 1)
      || Extends(e, s, s', step, id)
  {
    var s' := Next(e, s, step);
    hide Inv, W.Work, DoCommitMove, DoCommitJoin, DoCommitResign, DoPlay, DoCreate, DoEnqueue, DoApiArchive,
      DoDropCall, DoFetch, DoWorkerArchive, DoAck, Start, DoAsk, DoDeliver, DoExpire, DoNewUser, DoReap,
      Extends, Past;
    if Past(s', id) != Past(s, id) {
      match step
      case Create(c, gid, user, mode, color, level, at) =>
        CreateExtends(s, c, Newborn(gid, user, mode, color, level, at), id);
      case CommitMove(c) => CommitMoveExtends(e, s, c, id);
      case CommitJoin(c) => CommitJoinExtends(e, s, c, id);
      case CommitResign(c) => CommitResignExtends(e, s, c, id);
      case Play(w, uci) => PlayExtends(e, s, w, uci, id);
      case _ => OthersKeepPast(e, s, step, id);
    }
  }

  // ---- Every run ----------------------------------------------------------------------------------

  /** The i-th step of the run turned a into b. */
  ghost predicate WroteIn(e: Env, run: seq<Action>, i: nat, a: GameRec, b: GameRec)
    requires i < |run|
  {
    Wrote(e, Exec(e, INIT, run[..i]), run[i], a, b)
  }

  lemma StartIsEmpty(e: Env, run: seq<Action>, id: string)
    ensures run == [] ==> Past(Exec(e, INIT, run), id) == []
  {
  }

  /** In every run each value of a game but the first was written over the one before by somebody who may: a
      move by who has the seat whose turn it is, a resignation by who has the seat that loses, a second seat by
      who takes it, and the engine's moves on its turn of a bot game by a worker. */
  lemma {:induction false} EveryValueHasItsAuthor(e: Env, run: seq<Action>, id: string, k: nat) returns (i: nat)
    requires Sound(e.rules) && 0 < k < |Past(Exec(e, INIT, run), id)|
    ensures i < |run|
    ensures var h := Past(Exec(e, INIT, run), id); WroteIn(e, run, i, h[k - 1], h[k])
  {
    hide Next, Wrote, Past, Inv, W.Work, NoTurnStranded, Grows, Extends;
    var last := |run| - 1;
    StartIsEmpty(e, run, id);
    var shorter, s := run[..last], Exec(e, INIT, run[..last]);
    TurnsAreNeverStranded(e, shorter);
    StepKeeps(e, s, run[last]);
    StepExtends(e, s, run[last], id);
    PastGrows(s, Next(e, s, run[last]), id);
    if k < |Past(s, id)| {
      i := EveryValueHasItsAuthor(e, shorter, id, k);
      assert shorter[..i] == run[..i];
    } else {
      i := last;
      ExtendsMeans(e, s, Next(e, s, run[last]), run[last], id);
    }
  }

  lemma PastGrows(s: State, s': State, id: string)
    requires Grows(s, s')
    ensures Past(s, id) <= Past(s', id)
  {
  }

  lemma ExtendsMeans(e: Env, s: State, s': State, step: Action, id: string)
    requires Extends(e, s, s', step, id)
    ensures var k := |Past(s, id)|;
      |Past(s', id)| == k + 1 && k > 0 && Wrote(e, s, step, Past(s', id)[k - 1], Past(s', id)[k])
  {
    hide Wrote;
  }

  // ---- Who asked ----------------------------------------------------------------------------------

  /** The request that started a call which has not written yet. */
  ghost predicate AskedFor(run: seq<Action>, c: nat, call: Call) {
    match call.stage
    case Moving(user, uci) => ReadForMove(c, call.g.id, user, uci) in run
    case Resigning(user) => ReadForResign(c, call.g.id, user) in run
    case Joining(user) => ReadForJoin(c, call.g.id, user) in run
    case _ => true
  }

  /** Call c of s' is one of s, or one that has written. */
  ghost predicate Known(s: State, s': State, c: nat) {
    c in s'.calls ==>
      s'.calls[c].stage.After? || s'.calls[c].stage.Requeue? || (c in s.calls && s'.calls[c] == s.calls[c])
  }

  lemma CommitKnows(s: State, rest: State, k: nat, g: GameRec, expectedPly: int, handOff: bool, c: nat)
    requires Known(s, rest, c)
    ensures Known(s, Commit(rest, k, g, expectedPly, handOff), c)
  {
    hide Store.Cas;
  }

  lemma CommitMoveKnows(e: Env, s: State, k: nat, c: nat)
    ensures Known(s, DoCommitMove(e, s, k), c)
  {
    hide Moved, Commit, GameRec.ColorFor;
    if k in s.calls && s.calls[k].stage.Moving? {
      var Call(g, Moving(user, uci)) := s.calls[k];
      match g.ColorFor(user)
      case None =>
      case Some(color) =>
        match Moved(e.rules, g, color, uci)
        case Err(_) =>
        case Ok(next) => CommitKnows(s, WithoutCall(s, k), k, next, g.ply, true, c);
    }
  }

  lemma CommitResignKnows(s: State, k: nat, c: nat)
    ensures Known(s, DoCommitResign(s, k), c)
  {
    hide Resigned, Commit, GameRec.ColorFor;
    if k in s.calls && s.calls[k].stage.Resigning? {
      var Call(g, Resigning(user)) := s.calls[k];
      match g.ColorFor(user)
      case None =>
      case Some(color) =>
        match Resigned(g, color)
        case Err(_) =>
        case Ok(next) => CommitKnows(s, WithoutCall(s, k), k, next, g.ply, true, c);
    }
  }

  lemma CommitJoinKnows(s: State, k: nat, c: nat)
    ensures Known(s, DoCommitJoin(s, k), c)
  {
    hide Commit;
    if k in s.calls && s.calls[k].stage.Joining? {
      var Call(g, Joining(user)) := s.calls[k];
      CommitKnows(s, WithoutCall(s, k), k, g.(opponentId := user), g.ply, false, c);
    }
  }

  lemma OthersKnow(e: Env, s: State, step: Action, c: nat)
    requires !step.ReadForMove? && !step.ReadForResign? && !step.ReadForJoin?
    requires !step.CommitMove? && !step.CommitJoin? && !step.CommitResign? && !step.Play?
    ensures Known(s, Next(e, s, step), c)
  {
    hide A.Saved, Judged, Store.Cas;
  }

  lemma StepAsks(e: Env, s: State, step: Action, c: nat)
    requires Inv(e, s) && c in Next(e, s, step).calls
    ensures var call := Next(e, s, step).calls[c]; AskedFor([step], c, call) || (c in s.calls && call == s.calls[c])
  {
    hide Inv, DoCommitMove, DoCommitJoin, DoCommitResign, DoPlay, DoCreate, DoEnqueue, DoApiArchive,
      DoDropCall, DoFetch, DoWorkerArchive, DoAck, DoAsk, DoDeliver, DoExpire, DoNewUser, DoReap;
    match step
    case ReadForMove(_, id, _, _) => ReadsItsOwn(e, s, id);
    case ReadForResign(_, id, _) => ReadsItsOwn(e, s, id);
    case ReadForJoin(_, id, _) => ReadsItsOwn(e, s, id);
    case CommitMove(k) => CommitMoveKnows(e, s, k, c);
    case CommitResign(k) => CommitResignKnows(s, k, c);
    case CommitJoin(k) => CommitJoinKnows(s, k, c);
    case Play(w, uci) => PlayKeepsCalls(e, s, w, uci);
    case _ => OthersKnow(e, s, step, c);
  }

  lemma PlayKeepsCalls(e: Env, s: State, w: nat, uci: string)
    ensures DoPlay(e, s, w, uci).calls == s.calls && DoFetch(s, w).calls == s.calls
  {
    hide Moved, Store.Cas, Judged;
  }

  lemma ReadsItsOwn(e: Env, s: State, id: string)
    requires Inv(e, s)
    ensures id in s.live.redis ==> s.live.redis[id].id == id
  {
    if id in s.live.redis { KeyIsId(e, s, id); }
  }

  /** In every run, every call that has not written yet was started by a request of its user for its game. */
  lemma {:induction false} CallsWereAsked(e: Env, run: seq<Action>, c: nat)
    requires Sound(e.rules) && c in Exec(e, INIT, run).calls
    ensures AskedFor(run, c, Exec(e, INIT, run).calls[c])
  {
    hide Next, Inv;
    if run != [] {
      var last := |run| - 1;
      var s := Exec(e, INIT, run[..last]);
      EveryRun(e, run[..last]);
      StepAsks(e, s, run[last], c);
      assert run == run[..last] + [run[last]];
      if c in s.calls { CallsWereAsked(e, run[..last], c); }
    }
  }

  /** In every run, each move of a friend game, and of the player's colour in a bot game, is one that a user with
      the seat of that colour asked for: in an owned bot game its owner. */
  lemma MovesAreAskedBySeats(e: Env, run: seq<Action>, id: string, k: nat)
    requires Sound(e.rules) && 0 < k < |Past(Exec(e, INIT, run), id)|
    ensures var a, b := Past(Exec(e, INIT, run), id)[k - 1], Past(Exec(e, INIT, run), id)[k];
      |b.moves| > |a.moves| && (a.friend || TurnAt(|a.moves|) == a.player) ==>
        exists c, user, uci ::
          && ReadForMove(c, id, user, uci) in run
          && HasSeat(a, user, TurnAt(|a.moves|)) && b.moves == a.moves + [e.rules.clean(uci)]
  {
    var i := EveryValueHasItsAuthor(e, run, id, k);
    AuthorAsked(e, run, id, k, i);
  }

  /** In every run, each resignation is one that a user with the losing seat asked for: in an owned bot game its
      owner. */
  lemma ResignationsAreAskedBySeats(e: Env, run: seq<Action>, id: string, k: nat)
    requires Sound(e.rules) && 0 < k < |Past(Exec(e, INIT, run), id)|
    ensures var a, b := Past(Exec(e, INIT, run), id)[k - 1], Past(Exec(e, INIT, run), id)[k];
      b.moves == a.moves && b.Over() && !a.Over() ==>
        exists c, user ::
          && ReadForResign(c, id, user) in run
          && HasSeat(a, user, if b.result == BlackWins then White else Black)
  {
    var i := EveryValueHasItsAuthor(e, run, id, k);
    AuthorAsked(e, run, id, k, i);
  }

  lemma AuthorAsked(e: Env, run: seq<Action>, id: string, k: nat, i: nat)
    requires Sound(e.rules) && 0 < k < |Past(Exec(e, INIT, run), id)| && i < |run|
    requires WroteIn(e, run, i, Past(Exec(e, INIT, run), id)[k - 1], Past(Exec(e, INIT, run), id)[k])
    ensures var s, a := Exec(e, INIT, run[..i]), Past(Exec(e, INIT, run), id)[k - 1];
      match run[i]
      case CommitMove(c) =>
        && c in s.calls && s.calls[c].stage.Moving?
        && ReadForMove(c, id, s.calls[c].stage.user, s.calls[c].stage.uci) in run
      case CommitResign(c) =>
        c in s.calls && s.calls[c].stage.Resigning? && ReadForResign(c, id, s.calls[c].stage.user) in run
      case _ => true
  {
    hide Exec;
    var s := Exec(e, INIT, run[..i]);
    EveryRun(e, run);
    HistoryIsItsOwn(e, Exec(e, INIT, run), id, k - 1);
    match run[i]
    case CommitMove(c) => CallsWereAsked(e, run[..i], c);
    case CommitResign(c) => CallsWereAsked(e, run[..i], c);
    case _ =>
  }

  lemma HistoryIsItsOwn(e: Env, s: State, id: string, k: nat)
    requires Inv(e, s) && k < |Past(s, id)|
    ensures Past(s, id)[k].id == id
  {
    assert Line(e.rules, id, s.live.hist[id]);
  }
}
