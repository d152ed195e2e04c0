/** What a reload that rewrites a puzzle does to the attempts on it: as long as none rewrites a puzzle in
    progress, an attempt is climbed on one line and its step is inside it. */
module AttemptsLines {
  import opened Options
  import opened Puzzle
  import opened Attempts
  import opened AttemptsChain
  import opened AttemptsPresent
  import opened AttemptsRuns

  ghost predicate InProgress(s: State, puzzle: string) {
    || (exists key | key in s.redis :: s.redis[key].puzzle == puzzle)
    || (exists r | r in s.requests && ReadOf(s.requests[r].stage).Some? ::
          ReadOf(s.requests[r].stage).value.puzzle == puzzle)
  }

  /** The loader may add puzzles, and rewrite those nobody is at. */
  ghost predicate LeavesInProgress(s: State, puzzles: map<string, Puzzle>) {
    forall id | id in puzzles && id in s.corpus && InProgress(s, id) :: puzzles[id] == s.corpus[id]
  }

  ghost predicate Undisturbed<P>(b: Board<P>, s: State, run: seq<Action>) {
    run != [] ==>
      && Undisturbed(b, s, run[..|run| - 1])
      && (run[|run| - 1].Load? ==> LeavesInProgress(Exec(b, s, run[..|run| - 1]), run[|run| - 1].puzzles))
  }

  /** For a solution of odd length, which is every solution that ends on the solver, the step is inside. */
  predicate Inside(line: Puzzle, step: int) {
    |line.Solution()| % 2 == 1 ==> step < |line.Solution()|
  }

  predicate Judges(e: Event) { e.Accepted? || e.Settled? }

  predicate Of(e: Event, user: string, p: Progress) {
    Judges(e) && e.key.user == user && e.puzzle == p.puzzle && e.started == p.started
  }

  /** Every move of the attempt so far was judged by the line loaded now, and the step is inside it. */
  ghost predicate OnLine(s: State, key: Key, p: Progress) {
    p.puzzle != "" ==>
      && p.puzzle in s.corpus && Inside(s.corpus[p.puzzle], p.step)
      && (forall k | 0 <= k < |s.notes.log| && Of(s.notes.log[k], key.user, p) ::
            s.notes.log[k].line == s.corpus[p.puzzle])
  }

  ghost predicate LooksNow(s: State, stage: Stage) {
    stage.Grading? && stage.line.Some? ==>
      stage.read.puzzle in s.corpus && stage.line.value == s.corpus[stage.read.puzzle]
  }

  ghost predicate OneLine(log: seq<Event>) {
    forall j, k | 0 <= j < k < |log| && Judges(log[j]) && Judges(log[k]) && log[j].key.user == log[k].key.user
                  && log[j].puzzle == log[k].puzzle && log[j].started == log[k].started ::
      log[j].line == log[k].line
  }

  ghost predicate EventsDrawn(s: State) {
    forall k | 0 <= k < |s.notes.log| && Judges(s.notes.log[k]) ::
      (s.notes.log[k].key.user, s.notes.log[k].started) in s.notes.draws
  }

  ghost predicate Straight(s: State) {
    && (forall key | key in s.redis :: OnLine(s, key, s.redis[key]))
    && (forall r | r in s.requests && ReadOf(s.requests[r].stage).Some? ::
          OnLine(s, s.requests[r].key, ReadOf(s.requests[r].stage).value))
    && (forall r | r in s.requests :: LooksNow(s, s.requests[r].stage))
    && OneLine(s.notes.log)
    && EventsDrawn(s)
  }

  // ---- Steps ----------------------------------------------------------------------------------------

  ghost predicate StillOnLine(s: State, s': State) {
    forall key, p :: OnLine(s, key, p) ==> OnLine(s', key, p)
  }

  lemma StraightStays(s: State, s': State)
    requires Straight(s) && StillOnLine(s, s') && s'.corpus == s.corpus
    requires OneLine(s'.notes.log) && EventsDrawn(s')
    requires forall key | key in s'.redis ::
      (key in s.redis && s'.redis[key] == s.redis[key]) || OnLine(s', key, s'.redis[key])
    requires forall r | r in s'.requests && ReadOf(s'.requests[r].stage).Some? ::
      || (r in s.requests && s'.requests[r].key == s.requests[r].key
          && ReadOf(s'.requests[r].stage) == ReadOf(s.requests[r].stage))
      || OnLine(s', s'.requests[r].key, ReadOf(s'.requests[r].stage).value)
    requires forall r | r in s'.requests ::
      (r in s.requests && s'.requests[r] == s.requests[r]) || LooksNow(s', s'.requests[r].stage)
    ensures Straight(s')
  {
    hide OnLine, OneLine, EventsDrawn, ReadOf;
    forall r | r in s'.requests ensures LooksNow(s', s'.requests[r].stage) {
      if r in s.requests && s'.requests[r] == s.requests[r] { assert LooksNow(s, s.requests[r].stage); }
    }
  }

  lemma SameLog(s: State, s': State)
    requires s'.corpus == s.corpus && s'.notes.log == s.notes.log
    requires s.notes.draws.Keys <= s'.notes.draws.Keys
    ensures StillOnLine(s, s')
    ensures EventsDrawn(s) ==> EventsDrawn(s')
  {
  }

  lemma OneMoreEvent(s: State, s': State, e: Event)
    requires s'.corpus == s.corpus && s'.notes.log == s.notes.log + [e] && s'.notes.draws == s.notes.draws
    requires Judges(e) ==> && e.puzzle in s.corpus && e.line == s.corpus[e.puzzle]
                           && (e.key.user, e.started) in s.notes.draws
                           && e.puzzle != "" && OnLine(s, e.key, Progress(e.puzzle, e.step, 0, e.started))
    requires OneLine(s.notes.log) && EventsDrawn(s)
    ensures StillOnLine(s, s') && OneLine(s'.notes.log) && EventsDrawn(s')
  {
    var log, more := s.notes.log, s'.notes.log;
    forall j, k | 0 <= j < k < |more| && Judges(more[j]) && Judges(more[k]) && more[j].key.user == more[k].key.user
                  && more[j].puzzle == more[k].puzzle && more[j].started == more[k].started
      ensures more[j].line == more[k].line
    {
      assert more[j] == log[j];
      if k < |log| {
        assert more[k] == log[k];
      } else {
        assert Of(log[j], e.key.user, Progress(e.puzzle, e.step, 0, e.started));
      }
    }
    forall key, p | OnLine(s, key, p) ensures OnLine(s', key, p) {
      forall k | 0 <= k < |more| && Of(more[k], key.user, p) && p.puzzle != ""
        ensures more[k].line == s.corpus[p.puzzle]
      {
        if k < |log| { assert Of(log[k], key.user, p); }
      }
    }
  }

  /** The count of a progress value plays no part. */
  lemma AnyCount(s: State, key: Key, p: Progress, count: nat)
    requires OnLine(s, key, p)
    ensures OnLine(s, key, p.(count := count))
  {
    assert forall e :: Of(e, key.user, p.(count := count)) <==> Of(e, key.user, p);
  }

  lemma NextStepOnLine<P>(b: Board<P>, s: State, key: Key, read: Progress, uci: string)
    requires OnLine(s, key, read) && read.puzzle != "" && read.step % 2 == 0
    requires var v := Graded(b, s.corpus[read.puzzle], read.step, uci); v.correct && !v.finished
    ensures OnLine(s, key, read.(step := read.step + 2))
  {
    GradedMeans(b, s.corpus[read.puzzle], read.step, uci);
    hide Graded;
    assert forall e :: Of(e, key.user, read.(step := read.step + 2)) <==> Of(e, key.user, read);
  }

  lemma GradingHolds(s: State, r: nat)
    requires Straight(s) && Runs(s) && r in s.requests && s.requests[r].stage.Grading?
    requires s.requests[r].stage.line.Some?
    ensures var Request(key, Grading(read, uci, line)) := s.requests[r];
      && OnLine(s, key, read) && (key.user, read.started) in s.notes.draws
      && read.puzzle in s.corpus && line.value == s.corpus[read.puzzle]
  {
    hide OnLine, OneLine, EventsDrawn, RunOk, RequestOk, NoGrowthAfterMiss, LogOk, DrawsOk;
    var Request(key, Grading(read, uci, line)) := s.requests[r];
    assert Drawn(s, key, read) && LooksNow(s, s.requests[r].stage);
  }

  lemma HeldIsEven<P>(b: Board<P>, s: State, r: nat)
    requires Inv(b, s) && r in s.requests && ReadOf(s.requests[r].stage).Some?
    ensures ReadOf(s.requests[r].stage).value.step % 2 == 0
  {
    hide Booked, Climbed;
    assert Honest(b, s.notes.log, s.requests[r].key, ReadOf(s.requests[r].stage).value);
  }

  lemma SteppedOnStaysStraight<P>(b: Board<P>, s: State, r: nat, key: Key, read: Progress, line: Puzzle, uci: string)
    requires Straight(s) && Inv(b, s) && Runs(s) && read.puzzle != ""
    requires r in s.requests && s.requests[r] == Request(key, Grading(read, uci, Some(line)))
    requires var v := Graded(b, line, read.step, uci); v.correct && !v.finished
    ensures Straight(SteppedOn(s, r, key, read, line, uci))
  {
    hide Graded, OnLine, OneLine, EventsDrawn, Inv, Runs, StillOnLine;
    var s' := SteppedOn(s, r, key, read, line, uci);
    GradingHolds(s, r);
    HeldIsEven(b, s, r);
    if s'.notes.log != s.notes.log {
      AnyCount(s, key, read, 0);
      OneMoreEvent(s, s', Accepted(key, read.puzzle, line, read.started, read.step, uci));
      NextStepOnLine(b, s, key, read, uci);
      Carried(s, s', key, read.(step := read.step + 2));
    } else {
      SameLog(s, s');
    }
    StraightStays(s, s');
  }

  lemma Carried(s: State, s': State, key: Key, p: Progress)
    requires StillOnLine(s, s') && OnLine(s, key, p)
    ensures OnLine(s', key, p)
  {
  }

  lemma EndedStaysStraight(s: State, r: nat, key: Key, read: Progress, line: Puzzle, uci: string, correct: bool, up: bool)
    requires Straight(s) && Runs(s) && read.puzzle != ""
    requires r in s.requests && s.requests[r] == Request(key, Grading(read, uci, Some(line)))
    ensures Straight(Ended(s, r, key, read, line, uci, correct, up))
  {
    hide Recorded, OnLine, OneLine, EventsDrawn, Runs, StillOnLine;
    var s' := Ended(s, r, key, read, line, uci, correct, up);
    GradingHolds(s, r);
    if s'.notes.log != s.notes.log {
      var e := Settled(key, DrawOf(s, key.user, read.started).run, read.puzzle, line, read.started,
                       read.step, uci, correct);
      AnyCount(s, key, read, 0);
      OneMoreEvent(s, s', e);
    } else {
      SameLog(s, s');
    }
    StraightStays(s, s');
  }

  lemma ForgottenStaysStraight(s: State, r: nat, key: Key, read: Progress)
    requires Straight(s)
    ensures Straight(Forgotten(s, r, key, read))
  {
    hide OnLine, OneLine, StillOnLine, EventsDrawn;
    var s' := Forgotten(s, r, key, read);
    SameLog(s, s');
    StraightStays(s, s');
  }

  lemma GradeStaysStraight<P>(b: Board<P>, s: State, r: nat, up: bool)
    requires Straight(s) && Inv(b, s) && Loaded(s) && Runs(s)
    ensures Straight(DoGrade(b, s, r, up))
  {
    hide Straight, Inv, Runs, Graded, SteppedOn, Ended, Forgotten;
    if r in s.requests && s.requests[r].stage.Grading? {
      var Request(key, Grading(read, uci, found)) := s.requests[r];
      match found
      case None => ForgottenStaysStraight(s, r, key, read);
      case Some(line) =>
        assert Holds(s, s.requests[r].stage);
        var v := Graded(b, line, read.step, uci);
        if v.correct && !v.finished {
          SteppedOnStaysStraight(b, s, r, key, read, line, uci);
        } else {
          EndedStaysStraight(s, r, key, read, line, uci, v.correct, up);
        }
    }
  }

  lemma AdvanceStaysStraight(s: State, r: nat)
    requires Straight(s)
    ensures Straight(DoAdvance(s, r))
  {
    hide OneLine, StillOnLine, EventsDrawn;
    var s' := DoAdvance(s, r);
    if s'.notes.log != s.notes.log {
      var Request(key, Advancing(read)) := s.requests[r];
      OneMoreEvent(s, s', Grew(key, RunOf(s, key), read.count + 1));
      assert OnLine(s', key, read.(puzzle := "", step := 0, count := read.count + 1));
    } else {
      SameLog(s, s');
    }
    hide OnLine;
    StraightStays(s, s');
  }

  lemma DrawStaysStraight(s: State, r: nat, puzzle: string, now: int)
    requires Straight(s)
    ensures Straight(DoDraw(s, r, puzzle, now))
  {
    hide OneLine, StillOnLine;
    var s' := DoDraw(s, r, puzzle, now);
    SameLog(s, s');
    if s' != s {
      assert forall count: nat :: OnLine(s', s.requests[r].key, Progress(puzzle, 0, count, now));
    }
    hide OnLine, EventsDrawn;
    StraightStays(s, s');
  }

  lemma LookStaysStraight(s: State, r: nat)
    requires Straight(s)
    ensures Straight(DoLook(s, r))
  {
    hide OnLine, OneLine, StillOnLine, EventsDrawn;
    SameLog(s, DoLook(s, r));
    StraightStays(s, DoLook(s, r));
  }

  lemma QuietStaysStraight(s: State, s': State)
    requires Straight(s) && s'.corpus == s.corpus && s'.notes == s.notes
    requires forall key | key in s'.redis :: key in s.redis && s'.redis[key] == s.redis[key]
    requires forall r | r in s'.requests ::
      || (r in s.requests && s'.requests[r] == s.requests[r])
      || (&& !s'.requests[r].stage.Grading?
          && (ReadOf(s'.requests[r].stage).Some? ==>
                || (r in s.requests && s'.requests[r].key == s.requests[r].key
                    && ReadOf(s'.requests[r].stage) == ReadOf(s.requests[r].stage))
                || (s'.requests[r].key in s.redis
                    && ReadOf(s'.requests[r].stage) == Some(s.redis[s'.requests[r].key]))))
    ensures Straight(s')
  {
    hide OnLine, OneLine, EventsDrawn, ReadOf;
    SameLog(s, s');
    forall r | r in s'.requests && ReadOf(s'.requests[r].stage).Some?
               && s'.requests[r].key in s.redis
               && ReadOf(s'.requests[r].stage) == Some(s.redis[s'.requests[r].key])
      ensures OnLine(s', s'.requests[r].key, ReadOf(s'.requests[r].stage).value)
    {
      Carried(s, s', s'.requests[r].key, s.redis[s'.requests[r].key]);
    }
    hide StillOnLine;
    StraightStays(s, s');
  }

  lemma ReadsStayStraight(s: State, r: nat, key: Key, uci: string)
    requires Straight(s)
    ensures Straight(DoReadMove(s, r, key, uci)) && Straight(DoReadNext(s, r, key))
  {
    hide Straight;
    QuietStaysStraight(s, DoReadMove(s, r, key, uci));
    QuietStaysStraight(s, DoReadNext(s, r, key));
  }

  lemma FollowUpsStayStraight(s: State, r: nat, up: bool)
    requires Straight(s)
    ensures Straight(DoSaveBest(s, r, up)) && Straight(DoClear(s, r)) && Straight(DoDropGone(s, r))
  {
    hide Straight, BestSaved;
    QuietStaysStraight(s, DoSaveBest(s, r, up));
    QuietStaysStraight(s, DoClear(s, r));
    QuietStaysStraight(s, DoDropGone(s, r));
  }

  lemma LoadStaysStraight(s: State, puzzles: map<string, Puzzle>)
    requires Straight(s) && Present(s) && LeavesInProgress(s, puzzles)
    ensures Straight(DoLoad(s, puzzles))
  {
    hide Loadable, OneLine;
    var s' := DoLoad(s, puzzles);
    forall key | key in s'.redis ensures OnLine(s', key, s'.redis[key]) {
      assert Here(s, s.redis[key]) && OnLine(s, key, s.redis[key]);
      assert InProgress(s, s.redis[key].puzzle);
    }
    forall r | r in s'.requests && ReadOf(s'.requests[r].stage).Some?
      ensures OnLine(s', s'.requests[r].key, ReadOf(s'.requests[r].stage).value)
    {
      var p := ReadOf(s.requests[r].stage).value;
      assert Here(s, p) && OnLine(s, s.requests[r].key, p);
      assert InProgress(s, p.puzzle);
    }
    forall r | r in s'.requests ensures LooksNow(s', s'.requests[r].stage) {
      assert LooksNow(s, s.requests[r].stage);
      if s.requests[r].stage.Grading? { assert InProgress(s, s.requests[r].stage.read.puzzle); }
    }
  }

  lemma StepStaysStraight<P>(b: Board<P>, s: State, a: Action)
    requires Straight(s) && Inv(b, s) && Loaded(s) && Present(s) && Runs(s)
    requires a.Load? ==> LeavesInProgress(s, a.puzzles)
    ensures Straight(Next(b, s, a))
  {
    hide Straight, Inv, Loaded, Present, Runs, LeavesInProgress, DoGrade, DoAdvance, DoDraw, DoReadMove, DoLook,
      DoSaveBest, DoClear, DoReadNext, DoDropGone, DoLoad;
    match a
    case Grade(r, up) => GradeStaysStraight(b, s, r, up);
    case Advance(r) => AdvanceStaysStraight(s, r);
    case DrawNext(r, puzzle, now) => DrawStaysStraight(s, r, puzzle, now);
    case Look(r) => LookStaysStraight(s, r);
    case ReadMove(r, key, uci) => ReadsStayStraight(s, r, key, uci);
    case ReadNext(r, key) => ReadsStayStraight(s, r, key, "");
    case SaveBest(r, up) => FollowUpsStayStraight(s, r, up);
    case Clear(r) => FollowUpsStayStraight(s, r, true);
    case DropGone(r) => FollowUpsStayStraight(s, r, true);
    case Abandon(r) => QuietStaysStraight(s, Without(s, r));
    case Expire(key) => QuietStaysStraight(s, s.(redis := s.redis - {key}));
    case Load(puzzles) => LoadStaysStraight(s, puzzles);
  }

  lemma {:induction false} UndisturbedIsStraight<P>(b: Board<P>, accounts: map<string, Account>, run: seq<Action>)
    requires Undisturbed(b, Init(accounts), run)
    ensures Straight(Exec(b, Init(accounts), run))
  {
    hide Straight, Inv, Loaded, Present, Runs, NoGrowthAfterMiss, Next, LeavesInProgress;
    if run == [] {
      NothingJudgedYet(accounts);
    } else {
      var before := Exec(b, Init(accounts), run[..|run| - 1]);
      UndisturbedIsStraight(b, accounts, run[..|run| - 1]);
      MissEndsTheRun(b, accounts, run[..|run| - 1]);
      StepStaysStraight(b, before, run[|run| - 1]);
    }
  }

  lemma NothingJudgedYet(accounts: map<string, Account>)
    ensures Straight(Init(accounts))
  {
  }

  // ---- What it comes to -----------------------------------------------------------------------------

  /** In every run that rewrites no puzzle in progress: the stored step is even and, for a solution of odd
      length, inside it. */
  lemma StoredStepInRange<P>(b: Board<P>, accounts: map<string, Account>, run: seq<Action>, key: Key)
    requires Undisturbed(b, Init(accounts), run) && key in Exec(b, Init(accounts), run).redis
    ensures var s := Exec(b, Init(accounts), run);
      var p := s.redis[key];
      && 0 <= p.step && p.step % 2 == 0
      && (p.puzzle != "" ==> p.puzzle in s.corpus && Inside(s.corpus[p.puzzle], p.step))
  {
    UndisturbedIsStraight(b, accounts, run);
    EveryRun(b, accounts, run);
    var s := Exec(b, Init(accounts), run);
    hide Climbed, Booked, OneLine, EventsDrawn, Undisturbed;
    assert Honest(b, s.notes.log, key, s.redis[key]) && OnLine(s, key, s.redis[key]);
  }

  /** And an attempt recorded solved was climbed, ply by ply, on the very line it was finished on. */
  lemma ClimbedOnOneLine<P>(b: Board<P>, accounts: map<string, Account>, run: seq<Action>, j: nat, k: nat)
    requires Undisturbed(b, Init(accounts), run)
    requires var log := Exec(b, Init(accounts), run).notes.log;
      && j < |log| && k < |log| && log[k].Settled? && log[j].Accepted?
      && log[j].key == log[k].key && log[j].puzzle == log[k].puzzle && log[j].started == log[k].started
    ensures var log := Exec(b, Init(accounts), run).notes.log; log[j].line == log[k].line
  {
    UndisturbedIsStraight(b, accounts, run);
    hide Undisturbed, Exec;
    SameLine(Exec(b, Init(accounts), run), j, k);
  }

  lemma SameLine(s: State, j: nat, k: nat)
    requires Straight(s) && j < |s.notes.log| && k < |s.notes.log|
    requires Judges(s.notes.log[j]) && Judges(s.notes.log[k]) && s.notes.log[j].key == s.notes.log[k].key
    requires s.notes.log[j].puzzle == s.notes.log[k].puzzle && s.notes.log[j].started == s.notes.log[k].started
    ensures s.notes.log[j].line == s.notes.log[k].line
  {
    hide OnLine, EventsDrawn, LooksNow;
  }

  ghost predicate AllInside(s: State) {
    forall key | key in s.redis && s.redis[key].puzzle in s.corpus ::
      Inside(s.corpus[s.redis[key].puzzle], s.redis[key].step)
  }

  /** Once a step is outside, no move is right any more: the attempt can only be missed. */
  lemma OutsideOnlyMisses<P>(b: Board<P>, line: Puzzle, step: int, uci: string)
    requires !Inside(line, step)
    ensures Graded(b, line, step, uci) == Verdict(false, false)
  {
  }
}
