/** What an operator who deletes puzzles, which no code does, can do to a streak: let its count grow after
    its miss. */
module AttemptsGone {
  import opened Options
  import opened Puzzle
  import opened Attempts
  import opened AttemptsChain
  import opened AttemptsPresent
  import opened AttemptsRuns
  import opened Fresh

  /** DELETE FROM puzzles by hand; the attempts on them go with them. */
  function Purged(s: State, ids: set<string>): State {
    s.(corpus := s.corpus - ids,
       db := s.db.(attempts := map id | id in s.db.attempts && id.puzzle !in ids :: s.db.attempts[id],
                   counters := s.db.counters - ids))
  }

  /** Somewhere after the first `from` events the n-th run of the key grows. */
  ghost predicate Grows(log: seq<Event>, from: nat, key: Key, n: nat) {
    exists j :: from <= j < |log| && log[j].Grew? && log[j].key == key && log[j].run == n
  }

  ghost predicate CanGrow<P>(b: Board<P>, s: State, from: nat, key: Key, n: nat) {
    exists more :: Grows(Exec(b, s, more).notes.log, from, key, n)
  }

  /** The miss of the key's current run is recorded, and the run not cleared yet. */
  ghost predicate Missing(s: State, key: Key) {
    key in s.redis && exists i :: 0 <= i < |s.notes.log| && Missed(s.notes.log[i], key, RunOf(s, key))
  }

  // ---- While the puzzle is there ------------------------------------------------------------------

  /** The n-th run is on an attempt that is already recorded, and nobody is past it. */
  ghost predicate Stuck(s: State, key: Key) {
    key in s.redis
    && var p := s.redis[key];
    && p.puzzle != "" && p.puzzle in s.corpus
    && AttemptId(key.user, p.puzzle, p.started) in s.db.attempts
    && (forall r | r in s.requests && s.requests[r].key == key :: !PastIt(s.requests[r].stage, p))
  }

  ghost predicate PastIt(stage: Stage, p: Progress) {
    || (stage.Advancing? && On(stage.read, p))
    || (stage.Drawing? && stage.before.Some? && On(stage.before.value, p))
  }

  ghost predicate Dead(s: State, key: Key, n: nat) {
    || RunOf(s, key) > n
    || (RunOf(s, key) == n && (key !in s.redis || Stuck(s, key)))
  }

  ghost predicate Silent(s: State, s': State, key: Key, n: nat) {
    && s.notes.log <= s'.notes.log
    && forall j | |s.notes.log| <= j < |s'.notes.log| ::
         !(s'.notes.log[j].Grew? && s'.notes.log[j].key == key && s'.notes.log[j].run == n)
  }

  /** A step that leaves the key's value and run alone, or drops the value. */
  lemma QuietStaysDead(s: State, s': State, key: Key, n: nat)
    requires Dead(s, key, n) && RunOf(s', key) == RunOf(s, key)
    requires key in s'.redis ==> key in s.redis && On(s'.redis[key], s.redis[key])
    requires s.corpus.Keys <= s'.corpus.Keys && s.db.attempts.Keys <= s'.db.attempts.Keys
    requires key in s.redis && Stuck(s, key) ==> forall r | r in s'.requests && s'.requests[r].key == key ::
      (r in s.requests && s'.requests[r] == s.requests[r]) || !PastIt(s'.requests[r].stage, s.redis[key])
    ensures Dead(s', key, n)
  {
  }

  lemma SteppedOnStaysDead(s: State, r: nat, k: Key, read: Progress, line: Puzzle, uci: string, key: Key, n: nat)
    requires Dead(s, key, n)
    ensures Dead(SteppedOn(s, r, k, read, line, uci), key, n) && Silent(s, SteppedOn(s, r, k, read, line, uci), key, n)
  {
    QuietStaysDead(s, SteppedOn(s, r, k, read, line, uci), key, n);
  }

  lemma EndedStaysDead(s: State, r: nat, k: Key, read: Progress, line: Puzzle, uci: string, correct: bool, up: bool,
                       key: Key, n: nat)
    requires Dead(s, key, n)
    ensures Dead(Ended(s, r, k, read, line, uci, correct, up), key, n)
    ensures Silent(s, Ended(s, r, k, read, line, uci, correct, up), key, n)
  {
    QuietStaysDead(s, Ended(s, r, k, read, line, uci, correct, up), key, n);
  }

  lemma ForgottenStaysDead(s: State, r: nat, k: Key, read: Progress, key: Key, n: nat)
    requires Dead(s, key, n)
    ensures Dead(Forgotten(s, r, k, read), key, n) && Silent(s, Forgotten(s, r, k, read), key, n)
  {
    QuietStaysDead(s, Forgotten(s, r, k, read), key, n);
  }

  lemma GradeStaysDead<P>(b: Board<P>, s: State, r: nat, up: bool, key: Key, n: nat)
    requires Dead(s, key, n)
    ensures Dead(DoGrade(b, s, r, up), key, n) && Silent(s, DoGrade(b, s, r, up), key, n)
  {
    hide Dead, Silent, Graded, SteppedOn, Ended, Forgotten;
    SilentItself(s, s, key, n);
    if r in s.requests && s.requests[r].stage.Grading? {
      var Request(k, Grading(read, uci, found)) := s.requests[r];
      match found
      case None => ForgottenStaysDead(s, r, k, read, key, n);
      case Some(line) =>
        SteppedOnStaysDead(s, r, k, read, line, uci, key, n);
        EndedStaysDead(s, r, k, read, line, uci, Graded(b, line, read.step, uci).correct, up, key, n);
    }
  }

  lemma SilentItself(s: State, s': State, key: Key, n: nat)
    requires s'.notes.log == s.notes.log
    ensures Silent(s, s', key, n)
  {
  }

  lemma AdvanceStaysDead(s: State, r: nat, key: Key, n: nat)
    requires Dead(s, key, n)
    ensures Dead(DoAdvance(s, r), key, n) && Silent(s, DoAdvance(s, r), key, n)
  {
    if r in s.requests && s.requests[r].stage.Advancing? {
      assert key in s.redis && Stuck(s, key) && s.requests[r].key == key ==> !PastIt(s.requests[r].stage, s.redis[key]);
    }
  }

  lemma DrawStaysDead(s: State, r: nat, puzzle: string, now: int, key: Key, n: nat)
    requires Dead(s, key, n)
    ensures Dead(DoDraw(s, r, puzzle, now), key, n)
  {
    if r in s.requests && s.requests[r].stage.Drawing? {
      assert key in s.redis && Stuck(s, key) && s.requests[r].key == key ==> !PastIt(s.requests[r].stage, s.redis[key]);
    }
  }

  lemma LookStaysDead(s: State, r: nat, key: Key, n: nat)
    requires Dead(s, key, n)
    ensures Dead(DoLook(s, r), key, n)
  {
    QuietStaysDead(s, DoLook(s, r), key, n);
  }

  lemma OthersStayDead<P>(b: Board<P>, s: State, a: Action, key: Key, n: nat)
    requires Dead(s, key, n) && !a.Grade? && !a.Advance? && !a.DrawNext? && !a.Look?
    ensures Dead(Next(b, s, a), key, n) && Next(b, s, a).notes.log == s.notes.log
  {
    hide DoGrade, DoAdvance, DoDraw, DoLook, Dead, Stuck, On;
    QuietStaysDead(s, Next(b, s, a), key, n);
  }

  lemma StepStaysDead<P>(b: Board<P>, s: State, a: Action, key: Key, n: nat)
    requires Dead(s, key, n)
    ensures Dead(Next(b, s, a), key, n) && Silent(s, Next(b, s, a), key, n)
  {
    hide Dead, Silent, DoGrade, DoAdvance, DoDraw, DoLook, DoReadMove, DoReadNext, DoSaveBest, DoClear, DoDropGone, DoLoad;
    match a
    case Grade(r, up) => GradeStaysDead(b, s, r, up, key, n);
    case Advance(r) => AdvanceStaysDead(s, r, key, n);
    case DrawNext(r, puzzle, now) =>
      DrawStaysDead(s, r, puzzle, now, key, n);
      DrawLogsNothing(s, r, puzzle, now);
      SilentItself(s, DoDraw(s, r, puzzle, now), key, n);
    case Look(r) =>
      LookStaysDead(s, r, key, n);
      LookLogsNothing(s, r);
      SilentItself(s, DoLook(s, r), key, n);
    case _ =>
      OthersStayDead(b, s, a, key, n);
      SilentItself(s, Next(b, s, a), key, n);
  }

  lemma DrawLogsNothing(s: State, r: nat, puzzle: string, now: int)
    ensures DoDraw(s, r, puzzle, now).notes.log == s.notes.log
  {
  }

  lemma LookLogsNothing(s: State, r: nat)
    ensures DoLook(s, r).notes.log == s.notes.log
  {
  }

  lemma {:induction false} DeadNeverGrows<P>(b: Board<P>, s: State, more: seq<Action>, key: Key, n: nat)
    requires Dead(s, key, n)
    ensures Dead(Exec(b, s, more), key, n) && Silent(s, Exec(b, s, more), key, n)
  {
    hide Dead, Silent, Next;
    if more == [] {
      SilentItself(s, s, key, n);
    } else {
      var mid := Exec(b, s, more[..|more| - 1]);
      DeadNeverGrows(b, s, more[..|more| - 1], key, n);
      StepStaysDead(b, mid, more[|more| - 1], key, n);
      SilentChains(s, mid, Next(b, mid, more[|more| - 1]), key, n);
    }
  }

  lemma SilentChains(s: State, t: State, u: State, key: Key, n: nat)
    requires Silent(s, t, key, n) && Silent(t, u, key, n)
    ensures Silent(s, u, key, n)
  {
  }

  /** A missed run stands on the attempt it missed. */
  lemma MissedIsStuck<P>(b: Board<P>, s: State, key: Key)
    requires Inv(b, s) && Present(s) && Runs(s) && Missing(s, key)
    ensures Stuck(s, key)
  {
    hide AllHonest, Fair;
    var log, n, p := s.notes.log, RunOf(s, key), s.redis[key];
    var i :| 0 <= i < |log| && Missed(log[i], key, n);
    assert RunOk(s, key) && Drawn(s, key, p) && Here(s, p);
    assert s.notes.draws[(key.user, log[i].started)] == Draw(key, n, log[i].puzzle);
    assert !SolvedAt(s, key.user, log[i].started);
    assert log[i].started == p.started;
    assert IdOf(log[i]) == AttemptId(key.user, p.puzzle, p.started);
    forall r | r in s.requests && s.requests[r].key == key ensures !PastIt(s.requests[r].stage, p) {
      assert RequestOk(s, s.requests[r]);
    }
  }

  lemma StuckHasAccount(s: State, key: Key)
    requires Present(s) && Stuck(s, key)
    ensures key.user in s.db.accounts
  {
    assert Signed(s.db);
  }

  lemma PurgeElsewhere(s: State, ids: set<string>, key: Key)
    requires Stuck(s, key) && s.redis[key].puzzle !in ids
    ensures Stuck(Purged(s, ids), key)
  {
  }

  // ---- Once it is gone ----------------------------------------------------------------------------

  /** These moves solve the puzzle from this step on. */
  predicate Solves<P>(b: Board<P>, line: Puzzle, step: int, ucis: seq<string>)
    decreases |ucis|
  {
    && ucis != []
    && var v := Graded(b, line, step, ucis[0]);
    && v.correct && (if v.finished then |ucis| == 1 else Solves(b, line, step + 2, ucis[1..]))
  }

  lemma {:induction false} OneStepMore<P>(b: Board<P>, s: State, a: Action, run: seq<Action>)
    ensures Exec(b, s, [a] + run) == Exec(b, Next(b, s, a), run)
  {
    hide Next;
    var longer := [a] + run;
    if run == [] {
      assert longer == [a] && longer[..0] == [];
      assert Exec(b, s, longer[..0]) == s;
    } else {
      OneStepMore(b, s, a, run[..|run| - 1]);
      assert longer[..|longer| - 1] == [a] + run[..|run| - 1];
    }
  }

  lemma StepTowards<P>(b: Board<P>, s: State, a: Action, from: nat, key: Key, n: nat)
    requires CanGrow(b, Next(b, s, a), from, key, n)
    ensures CanGrow(b, s, from, key, n)
  {
    hide Next, Grows;
    var run :| Grows(Exec(b, Next(b, s, a), run).notes.log, from, key, n);
    OneStepMore(b, s, a, run);
  }

  lemma HasGrown<P>(b: Board<P>, s: State, from: nat, key: Key, n: nat)
    requires Grows(s.notes.log, from, key, n)
    ensures CanGrow(b, s, from, key, n)
  {
    hide Grows;
    var none: seq<Action> := [];
    assert Exec(b, s, none) == s;
  }

  lemma AdvancingGrows<P>(b: Board<P>, s: State, r: nat, key: Key, read: Progress, from: nat)
    requires r in s.requests && s.requests[r] == Request(key, Advancing(read)) && Value(s.redis, key) == Some(read)
    requires from <= |s.notes.log|
    ensures CanGrow(b, s, from, key, RunOf(s, key))
  {
    hide CanGrow;
    var s' := DoAdvance(s, r);
    assert s'.notes.log[|s.notes.log|].Grew?;
    HasGrown(b, s', from, key, RunOf(s, key));
    StepTowards(b, s, Advance(r), from, key, RunOf(s, key));
  }

  /** Ready to be played: on a puzzle of the corpus, not recorded yet, for an account. */
  ghost predicate Playable(s: State, r: nat, key: Key, p: Progress, line: Puzzle) {
    && r !in s.requests && Value(s.redis, key) == Some(p)
    && p.puzzle in s.corpus && s.corpus[p.puzzle] == line && p.puzzle in s.db.counters && key.user in s.db.accounts
    && AttemptId(key.user, p.puzzle, p.started) !in s.db.attempts
  }

  lemma {:induction false} PlayedOutGrows<P>(b: Board<P>, s: State, r: nat, key: Key, p: Progress, line: Puzzle,
                                             ucis: seq<string>, from: nat)
    requires Playable(s, r, key, p, line) && Solves(b, line, p.step, ucis) && key.mode == Streak
    requires from <= |s.notes.log|
    ensures CanGrow(b, s, from, key, RunOf(s, key))
    decreases |ucis|
  {
    hide CanGrow, Graded;
    var s1 := DoReadMove(s, r, key, ucis[0]);
    var s2 := DoLook(s1, r);
    assert s2.requests[r] == Request(key, Grading(p, ucis[0], Some(line)));
    var s3 := DoGrade(b, s2, r, true);
    if Graded(b, line, p.step, ucis[0]).finished {
      assert s3.requests[r] == Request(key, Advancing(p)) by { hide Playable; Finishes(s2, r, key, p, line, ucis[0]); }
      AdvancingGrows(b, s3, r, key, p, from);
    } else {
      var next := p.(step := p.step + 2);
      assert Playable(s3, r, key, next, line);
      PlayedOutGrows(b, s3, r, key, next, line, ucis[1..], from);
    }
    StepTowards(b, s2, Grade(r, true), from, key, RunOf(s, key));
    StepTowards(b, s1, Look(r), from, key, RunOf(s, key));
    StepTowards(b, s, ReadMove(r, key, ucis[0]), from, key, RunOf(s, key));
  }

  lemma Finishes(s: State, r: nat, key: Key, p: Progress, line: Puzzle, uci: string)
    requires key.mode == Streak && p.puzzle in s.db.counters && key.user in s.db.accounts
    requires AttemptId(key.user, p.puzzle, p.started) !in s.db.attempts
    ensures Ended(s, r, key, p, line, uci, true, true).requests[r] == Request(key, Advancing(p))
    ensures Ended(s, r, key, p, line, uci, true, true).redis == s.redis
  {
  }

  /** The next puzzle drawn over the run's own state, and played. */
  lemma DrawnOverGrows<P>(b: Board<P>, s: State, r: nat, key: Key, q: Puzzle, ucis: seq<string>, now: int, from: nat)
    requires key.mode == Streak && r in s.requests && key in s.redis
    requires s.requests[r] == Request(key, Drawing(Some(s.redis[key])))
    requires q.id in s.corpus && s.corpus[q.id] == q && q.id in s.db.counters && key.user in s.db.accounts
    requires (key.user, now) !in s.notes.draws && AttemptId(key.user, q.id, now) !in s.db.attempts
    requires Solves(b, q, 0, ucis) && from <= |s.notes.log|
    ensures CanGrow(b, s, from, key, RunOf(s, key))
  {
    hide CanGrow, Solves;
    var s' := DoDraw(s, r, q.id, now);
    var drawn := Progress(q.id, 0, s.redis[key].count, now);
    assert Playable(s', r, key, drawn, q) && RunOf(s', key) == RunOf(s, key);
    PlayedOutGrows(b, s', r, key, drawn, q, ucis, from);
    StepTowards(b, s, DrawNext(r, q.id, now), from, key, RunOf(s, key));
  }

  /** A run on a puzzle that is gone, with another that can be solved, grows. */
  lemma GoneRunGrows<P>(b: Board<P>, s: State, key: Key, q: Puzzle, ucis: seq<string>)
    requires key.mode == Streak && key in s.redis && s.redis[key].puzzle !in s.corpus
    requires key.user in s.db.accounts
    requires Loadable(map[q.id := q]) && q.id != s.redis[key].puzzle && Solves(b, q, 0, ucis)
    ensures CanGrow(b, s, |s.notes.log|, key, RunOf(s, key))
  {
    hide CanGrow, Solves, Loadable, DoDraw;
    var from, n, p := |s.notes.log|, RunOf(s, key), s.redis[key];
    var r := Unused(s.requests.Keys);
    var now := UnusedTime(s);
    var loading := map[q.id := q];
    var s1 := DoLoad(s, loading);
    var s2 := DoReadNext(s1, r, key);
    var s3 := DoLook(s2, r);
    assert s2.requests[r] == Request(key, Looking(p, None));
    assert s3.requests[r] == Request(key, Drawing(Some(p)));
    DrawnOverGrows(b, s3, r, key, q, ucis, now, from);
    hide DoLoad, DoReadNext, DoLook;
    StepTowards(b, s2, Look(r), from, key, n);
    StepTowards(b, s1, ReadNext(r, key), from, key, n);
    StepTowards(b, s, Load(loading), from, key, n);
  }

  lemma UnusedTime(s: State) returns (now: nat)
    ensures forall user :: (user, now) !in s.notes.draws
    ensures forall user, puzzle :: AttemptId(user, puzzle, now) !in s.db.attempts
  {
    var drawn: set<nat> := set d | d in s.notes.draws && d.1 >= 0 :: d.1;
    var recorded: set<nat> := set id | id in s.db.attempts && id.started >= 0 :: id.started;
    now := Unused(drawn + recorded);
    assert forall d | d in s.notes.draws && d.1 >= 0 :: d.1 in drawn;
    assert forall id | id in s.db.attempts && id.started >= 0 :: id.started in recorded;
    assert forall user: string :: (user, now).1 == now;
    assert forall user, puzzle :: AttemptId(user, puzzle, now).started == now;
  }

  // ---- Exactly --------------------------------------------------------------------------------------

  /** Whatever happens after a miss was recorded, and before its run is cleared: if puzzles are deleted by
      hand, that run can still grow exactly when the puzzle it missed is among them. (Given a puzzle that can
      be solved at all.) */
  lemma GrowsExactlyIfGone<P>(b: Board<P>, accounts: map<string, Account>, run: seq<Action>, key: Key,
                              ids: set<string>, q: Puzzle, ucis: seq<string>)
    requires var s := Exec(b, Init(accounts), run);
      && key.mode == Streak && Missing(s, key)
      && Loadable(map[q.id := q]) && q.id != s.redis[key].puzzle && Solves(b, q, 0, ucis)
    ensures var s := Exec(b, Init(accounts), run);
      CanGrow(b, Purged(s, ids), |s.notes.log|, key, RunOf(s, key)) <==> s.redis[key].puzzle in ids
  {
    hide Inv, Loaded, Present, Runs, NoGrowthAfterMiss, Missing, CanGrow, Solves, Loadable;
    var s := Exec(b, Init(accounts), run);
    MissEndsTheRun(b, accounts, run);
    MissedIsStuck(b, s, key);
    StuckHasAccount(s, key);
    if s.redis[key].puzzle in ids {
      GoneRunGrows(b, Purged(s, ids), key, q, ucis);
    } else {
      PurgeElsewhere(s, ids, key);
      NeverGrows(b, Purged(s, ids), |s.notes.log|, key);
    }
  }

  lemma NeverGrows<P>(b: Board<P>, s: State, from: nat, key: Key)
    requires Stuck(s, key) && from == |s.notes.log|
    ensures !CanGrow(b, s, from, key, RunOf(s, key))
  {
    hide Stuck;
    var n := RunOf(s, key);
    assert Dead(s, key, n);
    forall more ensures !Grows(Exec(b, s, more).notes.log, from, key, n) {
      DeadNeverGrows(b, s, more, key, n);
    }
  }

  // ---- A move between two puzzles -----------------------------------------------------------------

  /** In every run, whatever happened since a move was read: grading it deletes an attempt, recording nothing,
      exactly when the move was read between two puzzles of a streak and the run still is where it was. Its count
      is not saved as a best. */
  lemma MoveBetweenPuzzlesForgetsTheRun<P>(b: Board<P>, accounts: map<string, Account>, run: seq<Action>,
                                           r: nat, up: bool)
    requires var s := Exec(b, Init(accounts), run); r in s.requests && s.requests[r].stage.Grading?
    ensures var s := Exec(b, Init(accounts), run);
      var end := DoGrade(b, s, r, up);
      var key, read := s.requests[r].key, s.requests[r].stage.read;
      && (key in s.redis && key !in end.redis <==> read.puzzle == "" && Value(s.redis, key) == Some(read))
      && (key in s.redis && key !in end.redis ==> end.db == s.db && end.notes == s.notes)
  {
    hide Inv, Runs, NoGrowthAfterMiss, Graded, Recorded;
    var s := Exec(b, Init(accounts), run);
    MissEndsTheRun(b, accounts, run);
    hide Exec;
    assert Holds(s, s.requests[r].stage);
  }
}
