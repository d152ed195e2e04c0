/** The two ways a game the worker finished is lost after all. Each is a concrete run. */
module LiveLoss {
  import opened Options
  import opened Game
  import opened LiveGame
  import opened LiveArchive
  import opened LiveFate

  /** Any first move wins. */
  function OneMoveGame(): Env {
    Env(Rules(s => s, (moves, uci) => true,
              moves => if |moves| == 1 then Some(Ending(WhiteWins, "checkmate")) else None),
        (p, results) => p)
  }

  lemma OneMoveGameIsSound()
    ensures Sound(OneMoveGame().rules)
  {
  }

  ghost predicate Reached(e: Env, run: seq<Action>, s: State) {
    Exec(e, INIT, run) == s
  }

  lemma Step(e: Env, run: seq<Action>, k: nat, s: State, s': State)
    requires k < |run| && Reached(e, run[..k], s) && Next(e, s, run[k]) == s'
    ensures Reached(e, run[..k + 1], s')
    ensures NoOverlap(e, run[..k]) && Apart(s') ==> NoOverlap(e, run[..k + 1])
  {
    hide Next, Apart;
    assert run[..k + 1][..k] == run[..k];
  }

  /** One worker finishes the game with the database down, the key expires, and the redelivery
      finds no game and acknowledges. */
  const EXPIRED := [
    Create(0, "g", "", Learning, Black, 1, 0), Enqueue(0, 0),
    Deliver(0, 0), Fetch(0), Play(0, "e2e4"), WorkerArchive(0, false),
    Expire("g"), Deliver(0, 0), Fetch(0), Ack(0)]

  /** Two workers hold the same message: one finishes the game and crashes, the other's conflict
      acknowledges. */
  const OVERLAPPED := [
    Create(0, "g", "", Learning, Black, 1, 0), Enqueue(0, 0),
    Deliver(0, 0), Fetch(0), Deliver(1, 0), Fetch(1),
    Play(0, "e2e4"), Play(1, "d2d4"), Crash(0), Ack(1)]

  ghost predicate Lost(s: State, id: string) {
    && id in s.notes.finisher && s.notes.finisher[id] in s.queue.acked
    && id !in s.accounts.db.rows
  }

  /** The bot is white and to move. */
  function Opening(): GameRec {
    New("g", Black, 1, false, 0).(revision := 1)
  }

  function Won(uci: string): GameRec {
    Opening().(revision := 2, moves := [uci], ply := 1, status := Finished, result := WhiteWins,
               termination := "checkmate")
  }

  function Created(): State {
    INIT.(live := Live(map["g" := Opening()], map["g" := [Opening()]]),
          calls := map[0 := Call(Opening(), After)])
  }

  function Queued(): State {
    Created().(calls := map[], queue := Queue(map[0 := Job("g", 0, Move)], {}))
  }

  function Busy(deliveries: map<nat, Delivery>): State { Queued().(deliveries := deliveries) }

  function Over(deliveries: map<nat, Delivery>): State {
    Busy(deliveries).(live := Live(map["g" := Won("e2e4")], map["g" := [Opening(), Won("e2e4")]]),
                      notes := Notes(map["g" := 0], {}))
  }

  function Gone(deliveries: map<nat, Delivery>): State {
    Over(deliveries).(live := Live(map[], map["g" := [Opening(), Won("e2e4")]]))
  }

  lemma CreateStep()
    ensures DoCreate(INIT, 0, Newborn("g", "", Learning, Black, 1, 0)) == Created()
  {
    var g := Newborn("g", "", Learning, Black, 1, 0);
    assert g.(revision := 1) == Opening();
    var s := Written(INIT, Opening());
    assert Past(INIT, "g") + [Opening()] == [Opening()];
    assert s.live == Live(map["g" := Opening()], map["g" := [Opening()]]);
    assert EngineToMove(Opening());
    assert HandOff(s, 0, Opening()).calls == map[0 := Call(Opening(), After)];
  }

  lemma EnqueueStep()
    ensures DoEnqueue(Created(), 0, 0) == Queued()
  {
    assert DoEnqueue(Created(), 0, 0).calls == map[];
    assert DoEnqueue(Created(), 0, 0).queue == Queue(map[0 := Job("g", 0, Move)], {});
  }

  lemma WinStep(d: map<nat, Delivery>, w: nat)
    requires w in d && d[w] == Delivery(0, Thinking(Opening()))
    ensures DoPlay(OneMoveGame(), Busy(d), w, "e2e4") == Over(d[w := Delivery(0, Archiving(Won("e2e4")))])
  {
    var e, s, g := OneMoveGame(), Busy(d), Opening();
    assert g.moves + ["e2e4"] == ["e2e4"];
    assert Extended(e.rules, g, "e2e4").(revision := 2) == Won("e2e4");
    assert Moved(e.rules, g, g.EngineColor(), "e2e4") == Ok(Extended(e.rules, g, "e2e4"));
    var after := Written(s, Won("e2e4"));
    assert Past(s, "g") + [Won("e2e4")] == [Opening(), Won("e2e4")];
    assert after.live == Live(map["g" := Won("e2e4")], map["g" := [Opening(), Won("e2e4")]]);
    assert s.notes.finisher["g" := 0] == map["g" := 0];
  }

  lemma ConflictStep(d: map<nat, Delivery>, w: nat)
    requires w in d && d[w] == Delivery(0, Thinking(Opening()))
    ensures DoPlay(OneMoveGame(), Over(d), w, "d2d4") == Over(d[w := Delivery(0, Done)])
  {
    var e, g := OneMoveGame(), Opening();
    assert Moved(e.rules, g, g.EngineColor(), "d2d4") == Ok(Extended(e.rules, g, "d2d4"));
  }

  lemma WorkerSteps(s: State, w: nat, m: nat)
    requires m in s.queue.sent && w !in s.deliveries
    ensures DoDeliver(s, w, m) == s.(deliveries := s.deliveries[w := Delivery(m, Received)])
  {
  }

  /** Over any state with one job for the opening move. */
  lemma FetchStep(s: State, w: nat)
    requires s.queue.sent == map[0 := Job("g", 0, Move)]
    requires w in s.deliveries && s.deliveries[w] == Delivery(0, Received)
    ensures s.live.redis == map["g" := Opening()]
      ==> DoFetch(s, w) == s.(deliveries := s.deliveries[w := Delivery(0, Thinking(Opening()))])
    ensures s.live.redis == map[]
      ==> DoFetch(s, w) == s.(deliveries := s.deliveries[w := Delivery(0, Done)])
  {
  }

  ghost predicate Quietly(run: seq<Action>, k: nat, s: State)
    requires k <= |run|
  {
    Reached(OneMoveGame(), run[..k], s) && NoOverlap(OneMoveGame(), run[..k])
  }

  lemma Opened()
    ensures Quietly(EXPIRED, 2, Queued())
  {
    var e := OneMoveGame();
    assert EXPIRED[..0] == [];
    CreateStep();
    Step(e, EXPIRED, 0, INIT, Created());
    EnqueueStep();
    Step(e, EXPIRED, 1, Created(), Queued());
  }

  /** A delivery comes in and the worker sits down at the board. */
  lemma SitsDown(run: seq<Action>, k: nat, d: map<nat, Delivery>, w: nat)
    requires k + 2 <= |run| && run[k] == Deliver(w, 0) && run[k + 1] == Fetch(w) && w !in d
    requires Reached(OneMoveGame(), run[..k], Busy(d))
    ensures Reached(OneMoveGame(), run[..k + 2], Busy(d[w := Delivery(0, Thinking(Opening()))]))
    ensures d == map[] && NoOverlap(OneMoveGame(), run[..k]) ==> NoOverlap(OneMoveGame(), run[..k + 2])
  {
    var e, got := OneMoveGame(), Busy(d[w := Delivery(0, Received)]);
    var there := Busy(d[w := Delivery(0, Thinking(Opening()))]);
    WorkerSteps(Busy(d), w, 0);
    Step(e, run, k, Busy(d), got);
    FetchStep(got, w);
    assert got.deliveries[w := Delivery(0, Thinking(Opening()))] == there.deliveries;
    Step(e, run, k + 1, got, there);
  }

  const NONE: map<nat, Delivery> := map[]
  const AT_BOARD: map<nat, Delivery> := map[0 := Delivery(0, Thinking(Opening()))]
  const ARCHIVING: map<nat, Delivery> := map[0 := Delivery(0, Archiving(Won("e2e4")))]

  lemma Seated()
    ensures Quietly(EXPIRED, 4, Busy(AT_BOARD))
  {
    Opened();
    assert Queued() == Busy(NONE);
    SitsDown(EXPIRED, 2, NONE, 0);
    assert NONE[0 := Delivery(0, Thinking(Opening()))] == AT_BOARD;
  }

  lemma WonAtTheBoard()
    ensures Quietly(EXPIRED, 5, Over(ARCHIVING))
  {
    hide OneMoveGame, DoPlay, Busy, Over, Apart;
    Seated();
    WinStep(AT_BOARD, 0);
    assert AT_BOARD[0 := Delivery(0, Archiving(Won("e2e4")))] == ARCHIVING;
    ArchivingIsApart();
    Step(OneMoveGame(), EXPIRED, 4, Busy(AT_BOARD), Over(ARCHIVING));
  }

  lemma ArchivingIsApart()
    ensures Apart(Over(ARCHIVING))
  {
  }

  lemma ArchiveDown()
    ensures DoWorkerArchive(OneMoveGame(), Over(ARCHIVING), 0, false) == Over(NONE)
  {
    assert ARCHIVING - {0} == NONE;
  }

  lemma NobodyOverlaps(s: State)
    requires s.deliveries == map[]
    ensures Apart(s)
  {
  }

  lemma WonButNotArchived()
    ensures Quietly(EXPIRED, 6, Over(NONE))
  {
    hide DoWorkerArchive, Apart;
    WonAtTheBoard();
    ArchiveDown();
    NobodyOverlaps(Over(NONE));
    Step(OneMoveGame(), EXPIRED, 5, Over(ARCHIVING), Over(NONE));
  }

  lemma KeyExpired()
    ensures Quietly(EXPIRED, 7, Gone(NONE))
  {
    WonButNotArchived();
    assert DoExpire(Over(NONE), "g") == Gone(NONE);
    Step(OneMoveGame(), EXPIRED, 6, Over(NONE), Gone(NONE));
  }

  lemma Redelivered()
    ensures Quietly(EXPIRED, 8, Gone(NONE[0 := Delivery(0, Received)]))
  {
    KeyExpired();
    WorkerSteps(Gone(NONE), 0, 0);
    Step(OneMoveGame(), EXPIRED, 7, Gone(NONE), Gone(NONE[0 := Delivery(0, Received)]));
  }

  lemma ExpiredAndRedelivered()
    ensures Quietly(EXPIRED, 9, Gone(map[0 := Delivery(0, Done)]))
  {
    var got, done := Gone(NONE[0 := Delivery(0, Received)]), Gone(map[0 := Delivery(0, Done)]);
    Redelivered();
    FetchStep(got, 0);
    assert got.deliveries[0 := Delivery(0, Done)] == done.deliveries;
    Step(OneMoveGame(), EXPIRED, 8, got, done);
  }

  /** No two workers ever hold one message, and still the game can never be archived from then on. */
  lemma ExpiryLosesAGame()
    ensures Sound(OneMoveGame().rules) && NoOverlap(OneMoveGame(), EXPIRED)
    ensures Lost(Exec(OneMoveGame(), INIT, EXPIRED), "g")
    ensures !CanBeArchived(OneMoveGame(), Exec(OneMoveGame(), INIT, EXPIRED), "g")
  {
    hide CanBeArchived, Apart;
    var e, done := OneMoveGame(), Gone(map[0 := Delivery(0, Done)]);
    ExpiredAndRedelivered();
    NobodyOverlaps(DoAck(done, 0));
    Step(e, EXPIRED, 9, done, DoAck(done, 0));
    assert EXPIRED[..10] == EXPIRED;
    OneMoveGameIsSound();
    OutOfReach(DoAck(done, 0));
    ArchivedExactlyWithHope(e, EXPIRED, "g");
  }

  lemma OutOfReach(s: State)
    requires s.live.hist == map["g" := [Opening(), Won("e2e4")]] && s.calls == map[] && s.deliveries == map[]
    requires s.queue.sent.Keys == s.queue.acked && "g" !in s.accounts.db.rows
    ensures Ended(s, "g") && !Hope(s, "g")
  {
    hide JobFor;
  }

  lemma BothSeated()
    ensures Reached(OneMoveGame(), OVERLAPPED[..6],
                    Busy(AT_BOARD[1 := Delivery(0, Thinking(Opening()))]))
  {
    Seated();
    assert OVERLAPPED[..4] == EXPIRED[..4];
    SitsDown(OVERLAPPED, 4, AT_BOARD, 1);
  }

  /** The key never expires here: overlap alone loses the game. */
  lemma OverlapLosesAGame()
    ensures Lost(Exec(OneMoveGame(), INIT, OVERLAPPED), "g")
    ensures "g" in Exec(OneMoveGame(), INIT, OVERLAPPED).live.redis
    ensures !CanBeArchived(OneMoveGame(), Exec(OneMoveGame(), INIT, OVERLAPPED), "g")
  {
    hide CanBeArchived;
    var e := OneMoveGame();
    BothSeated();
    var both := AT_BOARD[1 := Delivery(0, Thinking(Opening()))];
    WinStep(both, 0);
    var first := both[0 := Delivery(0, Archiving(Won("e2e4")))];
    Step(e, OVERLAPPED, 6, Busy(both), Over(first));
    ConflictStep(first, 1);
    var second := first[1 := Delivery(0, Done)];
    Step(e, OVERLAPPED, 7, Over(first), Over(second));
    assert second.Keys == {0, 1};
    OverlapEnds(second);
  }

  lemma OverlapEnds(d: map<nat, Delivery>)
    requires Reached(OneMoveGame(), OVERLAPPED[..8], Over(d)) && d.Keys == {0, 1} && d[1] == Delivery(0, Done)
    ensures Lost(Exec(OneMoveGame(), INIT, OVERLAPPED), "g")
    ensures "g" in Exec(OneMoveGame(), INIT, OVERLAPPED).live.redis
    ensures !CanBeArchived(OneMoveGame(), Exec(OneMoveGame(), INIT, OVERLAPPED), "g")
  {
    hide CanBeArchived;
    var e := OneMoveGame();
    var crashed := WithoutDelivery(Over(d), 0);
    Step(e, OVERLAPPED, 8, Over(d), crashed);
    Step(e, OVERLAPPED, 9, crashed, DoAck(crashed, 1));
    assert OVERLAPPED[..10] == OVERLAPPED;
    assert DoAck(crashed, 1).deliveries == map[];
    OneMoveGameIsSound();
    OutOfReach(DoAck(crashed, 1));
    ArchivedExactlyWithHope(e, OVERLAPPED, "g");
  }
}
