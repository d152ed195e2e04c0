/** Runs in which a reload rewrites a puzzle in progress: the stored step ends up outside the solution, or an
    attempt is solved on two different lines, at once or by a move that was looked up before. And a run with a
    miss that is not cleared yet. */
module AttemptsRewritten {
  import opened Options
  import opened Puzzle
  import opened Attempts
  import opened AttemptsRuns
  import opened AttemptsLines
  import opened AttemptsGone

  /** Every move is playable, none mates. */
  function AnyMove(): Board<nat> {
    Board(fen => Some(0), (pos, uci) => Some(pos + 1), pos => false, s => s)
  }

  const LONG := Puzzle("a", "", ["x", "y", "z", "w"])
  const SHORT := Puzzle("a", "", ["x", "y"])
  const OTHER := Puzzle("a", "", ["x", "q", "z", "w"])
  const RANKED_KEY := Key(Ranked, "u")
  const STREAK_KEY := Key(Streak, "u")
  const ACCOUNTS := map["u" := Account(0, 0)]

  function Started(key: Key, uci: string): seq<Action> {
    LookedUp(key, uci) + [Grade(1, true)]
  }

  /** A move is under way, and graded by nothing yet. */
  function LookedUp(key: Key, uci: string): seq<Action> {
    [Load(map["a" := LONG]), ReadNext(0, key), DrawNext(0, "a", 1), ReadMove(1, key, uci), Look(1)]
  }

  function Start(): State { Init(ACCOUNTS) }

  function Corpus(): State {
    Start().(corpus := map["a" := LONG], db := Start().db.(counters := map["a" := Counters(0, 0, 0)]),
             notes := Start().notes.(lines := {LONG}))
  }

  function Drawn(key: Key): State {
    Corpus().(redis := map[key := Progress("a", 0, 0, 1)],
              notes := Notes(map[("u", 1) := Draw(key, 1, "a")], map[key := 1], {LONG}, []))
  }

  function Asked(key: Key, uci: string): State {
    Drawn(key).(requests := map[1 := Request(key, Grading(Progress("a", 0, 0, 1), uci, Some(LONG)))])
  }

  lemma More(run: seq<Action>, a: Action)
    ensures Exec(AnyMove(), Start(), run + [a]) == Next(AnyMove(), Exec(AnyMove(), Start(), run), a)
  {
    assert (run + [a])[..|run|] == run;
  }

  lemma LoadStep()
    ensures DoLoad(Start(), map["a" := LONG]) == Corpus()
  {
    var s := DoLoad(Start(), map["a" := LONG]);
    assert s.corpus == map["a" := LONG];
    assert s.db.counters == map["a" := Counters(0, 0, 0)];
    var puzzles := map["a" := LONG];
    assert puzzles["a"] in puzzles.Values && puzzles.Values == {LONG};
  }

  lemma DrawSteps(key: Key)
    requires key.user == "u"
    ensures DoDraw(DoReadNext(Corpus(), 0, key), 0, "a", 1) == Drawn(key)
  {
    var s := DoDraw(DoReadNext(Corpus(), 0, key), 0, "a", 1);
    assert s.requests == map[];
    assert s.redis == map[key := Progress("a", 0, 0, 1)];
    assert s.notes.draws == map[("u", 1) := Draw(key, 1, "a")];
    assert s.notes.runs == map[key := 1];
  }

  lemma AskSteps(key: Key, uci: string)
    ensures DoLook(DoReadMove(Drawn(key), 1, key, uci), 1) == Asked(key, uci)
  {
    var s := DoReadMove(Drawn(key), 1, key, uci);
    assert s.requests[1] == Request(key, Looking(Progress("a", 0, 0, 1), Some(uci)));
    assert DoLook(s, 1).requests == Asked(key, uci).requests;
  }

  lemma StartedAsks(key: Key, uci: string)
    requires key.user == "u"
    ensures Exec(AnyMove(), Start(), Started(key, uci)) == DoGrade(AnyMove(), Asked(key, uci), 1, true)
  {
    hide DoGrade, Asked, LookedUp;
    LooksUp(key, uci);
    More(LookedUp(key, uci), Grade(1, true));
  }

  lemma LooksUp(key: Key, uci: string)
    requires key.user == "u"
    ensures Exec(AnyMove(), Start(), LookedUp(key, uci)) == Asked(key, uci)
  {
    hide DoLoad, DoReadNext, DoDraw, DoReadMove, DoLook, DoGrade, Corpus, Drawn, Asked;
    LoadStep();
    DrawSteps(key);
    AskSteps(key, uci);
    var none: seq<Action> := [];
    assert Exec(AnyMove(), Start(), none) == Start();
    var r1 := none + [Load(map["a" := LONG])];
    More(none, Load(map["a" := LONG]));
    var r2 := r1 + [ReadNext(0, key)];
    More(r1, ReadNext(0, key));
    var r3 := r2 + [DrawNext(0, "a", 1)];
    More(r2, DrawNext(0, "a", 1));
    var r4 := r3 + [ReadMove(1, key, uci)];
    More(r3, ReadMove(1, key, uci));
    var r5 := r4 + [Look(1)];
    More(r4, Look(1));
    assert r5 == LookedUp(key, uci);
  }

  lemma FacingLong(line: Puzzle, step: nat)
    requires line.moves == LONG.moves || line.moves == OTHER.moves
    requires step == 0 || step == 2
    ensures Facing(AnyMove(), line, step).Some?
  {
    AnyLineIsPlayed(line.moves[..step + 1]);
  }

  lemma {:induction false} AnyLineIsPlayed(moves: seq<string>)
    ensures PlayAll(AnyMove(), 0, moves).Some?
  {
    if moves != [] { AnyLineIsPlayed(moves[..|moves| - 1]); }
  }

  lemma Grades()
    ensures Graded(AnyMove(), LONG, 0, "y") == Verdict(true, false)
    ensures Graded(AnyMove(), LONG, 0, "v") == Verdict(false, false)
    ensures Graded(AnyMove(), OTHER, 2, "w") == Verdict(true, true)
  {
    FacingLong(LONG, 0);
    FacingLong(OTHER, 2);
    assert LONG.moves[1..] == ["y", "z", "w"] && OTHER.moves[1..] == ["q", "z", "w"];
    hide Facing;
  }

  function Climbed1(): State {
    Drawn(RANKED_KEY).(redis := map[RANKED_KEY := Progress("a", 2, 0, 1)],
                       notes := Drawn(RANKED_KEY).notes.(log := [Accepted(RANKED_KEY, "a", LONG, 1, 0, "y")]))
  }

  lemma FirstPly()
    ensures Exec(AnyMove(), Start(), Started(RANKED_KEY, "y")) == Climbed1()
  {
    StartedAsks(RANKED_KEY, "y");
    Grades();
    hide Graded, Exec;
    var s := DoGrade(AnyMove(), Asked(RANKED_KEY, "y"), 1, true);
    assert s.requests == map[];
    assert s.redis == map[RANKED_KEY := Progress("a", 2, 0, 1)];
    assert s.notes.log == [Accepted(RANKED_KEY, "a", LONG, 1, 0, "y")];
  }

  /** The solution is cut short under an attempt: the stored step is outside it, and whatever is played next
      is a miss. */
  lemma ShortenedUnderAnAttempt()
    ensures var s := Exec(AnyMove(), Start(), Started(RANKED_KEY, "y") + [Load(map["a" := SHORT])]);
      && RANKED_KEY in s.redis && s.redis[RANKED_KEY] == Progress("a", 2, 0, 1) && s.corpus["a"] == SHORT
      && !AllInside(s)
      && (forall uci :: Graded(AnyMove(), s.corpus["a"], s.redis[RANKED_KEY].step, uci) == Verdict(false, false))
  {
    FirstPly();
    More(Started(RANKED_KEY, "y"), Load(map["a" := SHORT]));
    hide Exec, Graded;
    assert SHORT.moves[1..] == ["y"];
    var s := DoLoad(Climbed1(), map["a" := SHORT]);
    assert !Inside(s.corpus["a"], s.redis[RANKED_KEY].step);
    forall uci ensures Graded(AnyMove(), SHORT, 2, uci) == Verdict(false, false) {
      OutsideOnlyMisses(AnyMove(), SHORT, 2, uci);
    }
  }

  /** The line is changed under an attempt: it is recorded solved though its first move is not the first of
      the line it was finished on. */
  const TWO_LINES :=
    Started(RANKED_KEY, "y") + [Load(map["a" := OTHER])] + [ReadMove(2, RANKED_KEY, "w")] + [Look(2)] + [Grade(2, true)]

  lemma SolvedOnTwoLines()
    ensures var log := Exec(AnyMove(), Start(), TWO_LINES).notes.log;
      && |log| == 2 && log[0] == Accepted(RANKED_KEY, "a", LONG, 1, 0, "y")
      && log[1] == Settled(RANKED_KEY, 1, "a", OTHER, 1, 2, "w", true)
      && !Matches(AnyMove(), OTHER, 0, "y")
  {
    hide Exec, Climbed1;
    FirstPly();
    var r0 := Started(RANKED_KEY, "y");
    var r1 := r0 + [Load(map["a" := OTHER])];
    More(r0, Load(map["a" := OTHER]));
    var r2 := r1 + [ReadMove(2, RANKED_KEY, "w")];
    More(r1, ReadMove(2, RANKED_KEY, "w"));
    var r3 := r2 + [Look(2)];
    More(r2, Look(2));
    More(r3, Grade(2, true));
    LastPly();
    assert OTHER.moves[1..] == ["q", "z", "w"];
  }

  lemma LastPly()
    ensures var s := DoLook(DoReadMove(DoLoad(Climbed1(), map["a" := OTHER]), 2, RANKED_KEY, "w"), 2);
      DoGrade(AnyMove(), s, 2, true).notes.log
      == [Accepted(RANKED_KEY, "a", LONG, 1, 0, "y"), Settled(RANKED_KEY, 1, "a", OTHER, 1, 2, "w", true)]
  {
    Grades();
    hide Graded;
    var loaded := DoLoad(Climbed1(), map["a" := OTHER]);
    LoadsOther();
    var asked := DoReadMove(loaded, 2, RANKED_KEY, "w");
    assert asked.requests[2] == Request(RANKED_KEY, Looking(Progress("a", 2, 0, 1), Some("w")));
    var s := DoLook(asked, 2);
    assert s.requests[2] == Request(RANKED_KEY, Grading(Progress("a", 2, 0, 1), "w", Some(OTHER)));
    hide DoLoad, DoLook, DoReadMove, Ended;
    assert DoGrade(AnyMove(), s, 2, true) == Ended(s, 2, RANKED_KEY, Progress("a", 2, 0, 1), OTHER, "w", true, true);
    EndsSolved(s);
  }

  lemma EndsSolved(s: State)
    requires "a" in s.db.counters && s.db.accounts == ACCOUNTS && s.db.attempts == map[]
    requires s.notes.log == [Accepted(RANKED_KEY, "a", LONG, 1, 0, "y")]
    requires s.notes.draws == map[("u", 1) := Draw(RANKED_KEY, 1, "a")]
    ensures Ended(s, 2, RANKED_KEY, Progress("a", 2, 0, 1), OTHER, "w", true, true).notes.log
         == [Accepted(RANKED_KEY, "a", LONG, 1, 0, "y"), Settled(RANKED_KEY, 1, "a", OTHER, 1, 2, "w", true)]
  {
  }

  lemma LoadsOther()
    ensures var s := DoLoad(Climbed1(), map["a" := OTHER]);
      && "a" in s.corpus && s.corpus["a"] == OTHER && "a" in s.db.counters && s.db.accounts == ACCOUNTS
      && s.db.attempts == map[] && s.requests == map[] && s.redis == map[RANKED_KEY := Progress("a", 2, 0, 1)]
      && s.notes.log == [Accepted(RANKED_KEY, "a", LONG, 1, 0, "y")]
      && s.notes.draws == map[("u", 1) := Draw(RANKED_KEY, 1, "a")]
  {
  }

  // ---- A move looked up before the reload -----------------------------------------------------------

  function WrittenAfter(line: Puzzle): State {
    var s := DoLoad(Asked(RANKED_KEY, "y"), map["a" := line]);
    s.(redis := map[RANKED_KEY := Progress("a", 2, 0, 1)], requests := map[],
       notes := s.notes.(log := [Accepted(RANKED_KEY, "a", LONG, 1, 0, "y")]))
  }

  lemma GradedByTheOldLine(line: Puzzle)
    requires Loadable(map["a" := line])
    ensures DoGrade(AnyMove(), DoLoad(Asked(RANKED_KEY, "y"), map["a" := line]), 1, true) == WrittenAfter(line)
  {
    Grades();
    hide Graded, Loadable;
    var s := DoGrade(AnyMove(), DoLoad(Asked(RANKED_KEY, "y"), map["a" := line]), 1, true);
    assert s.requests == map[];
    assert s.redis == map[RANKED_KEY := Progress("a", 2, 0, 1)];
    assert s.notes.log == [Accepted(RANKED_KEY, "a", LONG, 1, 0, "y")];
  }

  lemma ReloadThenGrade(line: Puzzle)
    requires Loadable(map["a" := line])
    ensures Exec(AnyMove(), Start(), LookedUp(RANKED_KEY, "y") + [Load(map["a" := line])])
         == DoLoad(Asked(RANKED_KEY, "y"), map["a" := line])
    ensures Exec(AnyMove(), Start(), LookedUp(RANKED_KEY, "y") + [Load(map["a" := line])] + [Grade(1, true)])
         == WrittenAfter(line)
  {
    hide Exec, LookedUp, DoGrade, DoLoad, Asked, WrittenAfter;
    LooksUp(RANKED_KEY, "y");
    More(LookedUp(RANKED_KEY, "y"), Load(map["a" := line]));
    More(LookedUp(RANKED_KEY, "y") + [Load(map["a" := line])], Grade(1, true));
    GradedByTheOldLine(line);
  }

  /** The solution is cut short under a move that was looked up: all steps are inside after the reload, and one is
      outside once the move is written. */
  lemma ShortenedUnderAMove()
    ensures var run := LookedUp(RANKED_KEY, "y") + [Load(map["a" := SHORT])];
      && AllInside(Exec(AnyMove(), Start(), run))
      && !AllInside(Exec(AnyMove(), Start(), run + [Grade(1, true)]))
  {
    ReloadThenGrade(SHORT);
    hide Exec;
    assert SHORT.moves[1..] == ["y"];
    assert DoLoad(Asked(RANKED_KEY, "y"), map["a" := SHORT]).corpus["a"] == SHORT;
    var s := WrittenAfter(SHORT);
    assert !Inside(s.corpus["a"], s.redis[RANKED_KEY].step);
  }

  /** The line is changed under a move that was looked up, before any was judged; the attempt is recorded solved
      on two lines all the same. */
  const TWO_LINES_LATER :=
    LookedUp(RANKED_KEY, "y") + [Load(map["a" := OTHER])] + [Grade(1, true)]
    + [ReadMove(2, RANKED_KEY, "w")] + [Look(2)] + [Grade(2, true)]

  lemma SolvedOnTwoLinesLater()
    ensures Exec(AnyMove(), Start(), LookedUp(RANKED_KEY, "y") + [Load(map["a" := OTHER])]).notes.log == []
    ensures Exec(AnyMove(), Start(), TWO_LINES_LATER).notes.log
         == [Accepted(RANKED_KEY, "a", LONG, 1, 0, "y"), Settled(RANKED_KEY, 1, "a", OTHER, 1, 2, "w", true)]
  {
    hide Exec, LookedUp, WrittenAfter, DoGrade;
    ReloadThenGrade(OTHER);
    var r0 := LookedUp(RANKED_KEY, "y") + [Load(map["a" := OTHER])] + [Grade(1, true)];
    var r1 := r0 + [ReadMove(2, RANKED_KEY, "w")];
    More(r0, ReadMove(2, RANKED_KEY, "w"));
    var r2 := r1 + [Look(2)];
    More(r1, Look(2));
    More(r2, Grade(2, true));
    WonLater();
  }

  lemma WonLater()
    ensures var s := DoLook(DoReadMove(WrittenAfter(OTHER), 2, RANKED_KEY, "w"), 2);
      DoGrade(AnyMove(), s, 2, true).notes.log
      == [Accepted(RANKED_KEY, "a", LONG, 1, 0, "y"), Settled(RANKED_KEY, 1, "a", OTHER, 1, 2, "w", true)]
  {
    Grades();
    hide Graded;
    var written := WrittenAfter(OTHER);
    assert written.corpus["a"] == OTHER && "a" in written.db.counters && written.db.accounts == ACCOUNTS;
    var asked := DoReadMove(written, 2, RANKED_KEY, "w");
    assert asked.requests[2] == Request(RANKED_KEY, Looking(Progress("a", 2, 0, 1), Some("w")));
    var s := DoLook(asked, 2);
    assert s.requests[2] == Request(RANKED_KEY, Grading(Progress("a", 2, 0, 1), "w", Some(OTHER)));
    assert s.db == written.db && s.notes == written.notes;
    hide DoLoad, DoLook, DoReadMove, Ended, WrittenAfter;
    assert DoGrade(AnyMove(), s, 2, true) == Ended(s, 2, RANKED_KEY, Progress("a", 2, 0, 1), OTHER, "w", true, true);
    EndsSolved(s);
  }

  /** A wrong move is recorded and its run not cleared: there deleting "a" by hand revives the run, and deleting
      anything else does not. */
  lemma DeletingTheMissedPuzzleRevivesTheRun(ids: set<string>)
    ensures var s := Exec(AnyMove(), Start(), Started(STREAK_KEY, "v"));
      && Missing(s, STREAK_KEY)
      && (CanGrow(AnyMove(), Purged(s, ids), 1, STREAK_KEY, 1) <==> "a" in ids)
  {
    StartedAsks(STREAK_KEY, "v");
    Grades();
    hide Graded, Exec, CanGrow;
    var s := DoGrade(AnyMove(), Asked(STREAK_KEY, "v"), 1, true);
    assert s.notes.log == [Settled(STREAK_KEY, 1, "a", LONG, 1, 0, "v", false)];
    assert Missed(s.notes.log[0], STREAK_KEY, RunOf(s, STREAK_KEY));
    var q := Puzzle("b", "", ["x", "y"]);
    OnePlySolves(q);
    GrowsExactlyIfGone(AnyMove(), ACCOUNTS, Started(STREAK_KEY, "v"), STREAK_KEY, ids, q, ["y"]);
  }

  lemma OnePlySolves(q: Puzzle)
    requires q.moves == ["x", "y"]
    ensures Solves(AnyMove(), q, 0, ["y"])
  {
    AnyLineIsPlayed(q.moves[..1]);
    assert q.moves[1..] == ["y"];
  }
}
