/** Once a streak miss is recorded, that run's count never grows again, even when the clearing
    compare-and-set loses its race. */
module AttemptsRuns {
  import opened Options
  import opened Puzzle
  import opened Attempts
  import opened AttemptsChain
  import opened AttemptsPresent

  // ---- Where progress values come from ----------------------------------------------------------

  /** A value stored or held was drawn, and its puzzle is the one drawn or, between two puzzles of
      a run, none. */
  ghost predicate Drawn(s: State, key: Key, p: Progress) {
    && (key.user, p.started) in s.notes.draws
    && var d := s.notes.draws[(key.user, p.started)];
    && d.key == key
    && (p.puzzle == d.puzzle || p.puzzle == "")
  }

  ghost predicate AllDrawn(s: State) {
    && (forall key | key in s.redis :: Drawn(s, key, s.redis[key]))
    && (forall r | r in s.requests && ReadOf(s.requests[r].stage).Some? ::
          Drawn(s, s.requests[r].key, ReadOf(s.requests[r].stage).value))
  }

  /** The attempt drawn at this time was recorded solved. */
  ghost predicate SolvedAt(s: State, user: string, started: int) {
    && (user, started) in s.notes.draws
    && var id := AttemptId(user, s.notes.draws[(user, started)].puzzle, started);
    && id in s.db.attempts && s.db.attempts[id].solved
  }

  /** A run only ever leaves a puzzle behind solved. */
  ghost predicate RunOk(s: State, key: Key) {
    key in s.redis ==>
      && (key.user, s.redis[key].started) in s.notes.draws
      && s.notes.draws[(key.user, s.redis[key].started)].run == RunOf(s, key)
      && (s.redis[key].puzzle == "" ==> SolvedAt(s, key.user, s.redis[key].started))
      && (forall t | (key.user, t) in s.notes.draws && s.notes.draws[(key.user, t)].key == key
                     && s.notes.draws[(key.user, t)].run == RunOf(s, key) && t != s.redis[key].started ::
            SolvedAt(s, key.user, t))
  }

  ghost predicate RequestOk(s: State, q: Request) {
    && (q.stage.Advancing? ==> q.stage.read.puzzle != "" && SolvedAt(s, q.key.user, q.stage.read.started))
    && (q.stage.Drawing? && q.stage.before.Some? ==> q.stage.before.value.puzzle == "")
  }

  ghost predicate DrawsOk(s: State) {
    forall u, t | (u, t) in s.notes.draws ::
      s.notes.draws[(u, t)].key.user == u && s.notes.draws[(u, t)].run <= RunOf(s, s.notes.draws[(u, t)].key)
  }

  /** A settled event names the run its puzzle was drawn for. */
  ghost predicate LogOk(s: State, log: seq<Event>) {
    forall k | 0 <= k < |log| && log[k].Settled? ::
      && (log[k].key.user, log[k].started) in s.notes.draws
      && s.notes.draws[(log[k].key.user, log[k].started)] == Draw(log[k].key, log[k].run, log[k].puzzle)
  }

  ghost predicate Missed(e: Event, key: Key, run: nat) {
    e.Settled? && !e.solved && e.key == key && e.run == run
  }

  ghost predicate NoGrowthAfterMiss(log: seq<Event>) {
    forall i, j | 0 <= i < j < |log| && log[j].Grew? :: !Missed(log[i], log[j].key, log[j].run)
  }

  ghost predicate Runs(s: State) {
    && AllDrawn(s)
    && (forall key :: RunOk(s, key))
    && (forall r | r in s.requests :: RequestOk(s, s.requests[r]))
    && DrawsOk(s)
    && LogOk(s, s.notes.log)
    && NoGrowthAfterMiss(s.notes.log)
  }

  // ---- Nothing is taken back ----------------------------------------------------------------------

  ghost predicate Kept(s: State, s': State) {
    && (forall d | d in s.notes.draws :: d in s'.notes.draws && s'.notes.draws[d] == s.notes.draws[d])
    && (forall id | id in s.db.attempts :: id in s'.db.attempts && s'.db.attempts[id] == s.db.attempts[id])
  }

  lemma RunsStay(s: State, s': State)
    requires Runs(s) && Kept(s, s') && DrawsOk(s') && LogOk(s', s'.notes.log)
    requires NoGrowthAfterMiss(s'.notes.log)
    requires forall key | key in s'.redis ::
      (key in s.redis && s'.redis[key] == s.redis[key]) || Drawn(s', key, s'.redis[key])
    requires forall key | key in s'.redis ::
      || RunOk(s', key)
      || (&& key in s.redis && s'.redis[key] == s.redis[key] && RunOf(s', key) == RunOf(s, key)
          && (forall t | (key.user, t) in s'.notes.draws && s'.notes.draws[(key.user, t)].key == key ::
                (key.user, t) in s.notes.draws))
    requires forall r | r in s'.requests && ReadOf(s'.requests[r].stage).Some? ::
      || (r in s.requests && s'.requests[r].key == s.requests[r].key
          && ReadOf(s'.requests[r].stage) == ReadOf(s.requests[r].stage))
      || Drawn(s', s'.requests[r].key, ReadOf(s'.requests[r].stage).value)
    requires forall r | r in s'.requests ::
      (r in s.requests && s'.requests[r] == s.requests[r]) || RequestOk(s', s'.requests[r])
    ensures Runs(s')
  {
    hide ReadOf, LogOk, NoGrowthAfterMiss, DrawsOk;
    assert AllDrawn(s') by { hide RunOk, RequestOk; }
    forall key ensures RunOk(s', key) {
      assert RunOk(s, key);
    }
    forall r | r in s'.requests ensures RequestOk(s', s'.requests[r]) {
      if r in s.requests && s'.requests[r] == s.requests[r] { assert RequestOk(s, s.requests[r]); }
    }
  }

  lemma LogOkStays(s: State, s': State, log: seq<Event>)
    requires LogOk(s, log) && Kept(s, s')
    ensures LogOk(s', log)
  {
  }

  lemma LoggedStays(log: seq<Event>, e: Event)
    requires NoGrowthAfterMiss(log)
    requires e.Grew? ==> forall i | 0 <= i < |log| :: !Missed(log[i], e.key, e.run)
    ensures NoGrowthAfterMiss(log + [e])
  {
  }

  // ---- Steps ------------------------------------------------------------------------------------

  lemma SteppedOnKeepsRuns(s: State, r: nat, key: Key, read: Progress, line: Puzzle, uci: string)
    requires Runs(s) && r in s.requests && s.requests[r].key == key
    requires ReadOf(s.requests[r].stage) == Some(read) && read.puzzle != ""
    ensures Runs(SteppedOn(s, r, key, read, line, uci))
  {
    hide RunOk, RequestOk, SolvedAt, NoGrowthAfterMiss, DrawsOk;
    var s' := SteppedOn(s, r, key, read, line, uci);
    var next := read.(step := read.step + 2);
    assert Drawn(s, key, read);
    if Replaced(s.redis, key, Some(read), Some(next)).Some? {
      LoggedStays(s.notes.log, Accepted(key, read.puzzle, line, read.started, read.step, uci));
      assert RunOk(s, key);
      SteppedRunOk(s, s', key, read);
    }
    DrawsStayOk(s, s');
    RunsStay(s, s');
  }

  lemma SteppedRunOk(s: State, s': State, key: Key, read: Progress)
    requires RunOk(s, key) && Value(s.redis, key) == Some(read) && read.puzzle != ""
    requires s'.redis == s.redis[key := read.(step := read.step + 2)] && s'.db == s.db
    requires s'.notes.draws == s.notes.draws && s'.notes.runs == s.notes.runs
    ensures RunOk(s', key)
  {
  }

  lemma DrawsStayOk(s: State, s': State)
    requires DrawsOk(s) && s'.notes.draws == s.notes.draws && s'.notes.runs == s.notes.runs
    ensures DrawsOk(s')
  {
  }

  lemma EndedKeepsRuns(s: State, r: nat, key: Key, read: Progress, line: Puzzle, uci: string, correct: bool, up: bool)
    requires Runs(s) && r in s.requests && s.requests[r].key == key
    requires ReadOf(s.requests[r].stage) == Some(read) && read.puzzle != ""
    ensures Runs(Ended(s, r, key, read, line, uci, correct, up))
  {
    hide RunOk, RequestOk, SolvedAt, NoGrowthAfterMiss, DrawsOk, Recorded;
    RecordedGrows(s.db, AttemptId(key.user, read.puzzle, read.started), Attempt(key.mode, correct));
    var s' := Ended(s, r, key, read, line, uci, correct, up);
    assert Drawn(s, key, read);
    var id := AttemptId(key.user, read.puzzle, read.started);
    if up && Recorded(s.db, id, Attempt(key.mode, correct)).Some? {
      var e := Settled(key, DrawOf(s, key.user, read.started).run, read.puzzle, line, read.started,
                       read.step, uci, correct);
      EndedRequestOk(s, s', r, key, read, line, uci, correct);
      LoggedStays(s.notes.log, e);
      assert LogOk(s', s.notes.log + [e]);
    }
    DrawsStayOk(s, s');
    RunsStay(s, s');
  }

  lemma RecordedGrows(db: Db, id: AttemptId, row: Attempt)
    ensures Recorded(db, id, row).Some? ==>
      Recorded(db, id, row).value.attempts == db.attempts[id := row] && id !in db.attempts
  {
  }

  lemma EndedRequestOk(s: State, s': State, r: nat, key: Key, read: Progress, line: Puzzle, uci: string, correct: bool)
    requires Drawn(s, key, read) && read.puzzle != "" && s' == Ended(s, r, key, read, line, uci, correct, true)
    requires Recorded(s.db, AttemptId(key.user, read.puzzle, read.started), Attempt(key.mode, correct)).Some?
    ensures RequestOk(s', s'.requests[r])
  {
  }

  lemma ForgottenKeepsRuns(s: State, r: nat, key: Key, read: Progress)
    requires Runs(s)
    ensures Runs(Forgotten(s, r, key, read))
  {
    hide RunOk, RequestOk, SolvedAt, Drawn;
    RunsStay(s, Forgotten(s, r, key, read));
  }

  lemma GradeKeepsRuns<P>(b: Board<P>, s: State, r: nat, up: bool)
    requires Runs(s) && Loaded(s)
    ensures Runs(DoGrade(b, s, r, up))
  {
    hide Runs, Graded, SteppedOn, Ended, Forgotten;
    if r in s.requests && s.requests[r].stage.Grading? {
      var Request(key, Grading(read, uci, found)) := s.requests[r];
      match found
      case None => ForgottenKeepsRuns(s, r, key, read);
      case Some(line) =>
        assert Holds(s, s.requests[r].stage);
        SteppedOnKeepsRuns(s, r, key, read, line, uci);
        EndedKeepsRuns(s, r, key, read, line, uci, Graded(b, line, read.step, uci).correct, up);
    }
  }

  /** The count grows only for a run every puzzle of which so far is recorded solved. */
  lemma NoMissInGrowingRun<P>(b: Board<P>, s: State, r: nat)
    requires Inv(b, s) && Runs(s) && r in s.requests && s.requests[r].stage.Advancing?
    requires var Request(key, Advancing(read)) := s.requests[r]; Value(s.redis, key) == Some(read)
    ensures forall i | 0 <= i < |s.notes.log| ::
      !Missed(s.notes.log[i], s.requests[r].key, RunOf(s, s.requests[r].key))
  {
    hide AllHonest, Fair;
    var Request(key, Advancing(read)) := s.requests[r];
    var log := s.notes.log;
    assert RunOk(s, key) && RequestOk(s, s.requests[r]);
    forall i | 0 <= i < |log| ensures !Missed(log[i], key, RunOf(s, key)) {
      if log[i].Settled? && log[i].key == key && log[i].run == RunOf(s, key) {
        assert SolvedAt(s, key.user, log[i].started);
      }
    }
  }

  lemma AdvanceKeepsRuns<P>(b: Board<P>, s: State, r: nat)
    requires Inv(b, s) && Runs(s)
    ensures Runs(DoAdvance(s, r))
  {
    hide Inv, RunOk, RequestOk, SolvedAt, NoGrowthAfterMiss, DrawsOk;
    var s' := DoAdvance(s, r);
    if r in s.requests && s.requests[r].stage.Advancing? {
      var Request(key, Advancing(read)) := s.requests[r];
      assert Drawn(s, key, read) && RequestOk(s, s.requests[r]);
      if Value(s.redis, key) == Some(read) {
        NoMissInGrowingRun(b, s, r);
        LoggedStays(s.notes.log, Grew(key, RunOf(s, key), read.count + 1));
        assert RunOk(s, key);
        AdvancedRunOk(s, s', r, key, read);
      }
      DrawsStayOk(s, s');
      RunsStay(s, s');
    }
  }

  lemma AdvancedRunOk(s: State, s': State, r: nat, key: Key, read: Progress)
    requires RunOk(s, key) && Value(s.redis, key) == Some(read)
    requires r in s.requests && s.requests[r] == Request(key, Advancing(read)) && RequestOk(s, s.requests[r])
    requires s'.redis == s.redis[key := read.(puzzle := "", step := 0, count := read.count + 1)] && s'.db == s.db
    requires s'.notes.draws == s.notes.draws && s'.notes.runs == s.notes.runs
    ensures RunOk(s', key)
  {
  }

  lemma DrawKeepsRuns(s: State, r: nat, puzzle: string, now: int)
    requires Runs(s) && Loaded(s)
    ensures Runs(DoDraw(s, r, puzzle, now))
  {
    var s' := DoDraw(s, r, puzzle, now);
    if s' != s {
      var Request(key, Drawing(before)) := s.requests[r];
      assert RunOk(s, key) && RequestOk(s, s.requests[r]);
      assert LineOf(s, s.corpus[puzzle], puzzle);
      if Value(s.redis, key) == before {
        assert Kept(s, s');
        DrawnRunOk(s, s', r, puzzle, now);
        DrawnDrawsOk(s, s', r, puzzle, now);
        LogOkStays(s, s', s.notes.log);
      }
      hide RunOk, RequestOk, SolvedAt, DrawsOk, LogOk, NoGrowthAfterMiss;
      RunsStay(s, s');
    }
  }

  lemma DrawnRunOk(s: State, s': State, r: nat, puzzle: string, now: int)
    requires Runs(s) && s' == DoDraw(s, r, puzzle, now) && s' != s && puzzle != ""
    requires var Request(key, Drawing(before)) := s.requests[r]; Value(s.redis, key) == before
    ensures RunOk(s', s.requests[r].key)
    ensures Drawn(s', s.requests[r].key, s'.redis[s.requests[r].key])
  {
    var Request(key, Drawing(before)) := s.requests[r];
    assert RunOk(s, key) && RequestOk(s, s.requests[r]);
    hide AllDrawn, LogOk, NoGrowthAfterMiss;
    forall t | (key.user, t) in s'.notes.draws && s'.notes.draws[(key.user, t)].key == key
               && s'.notes.draws[(key.user, t)].run == RunOf(s', key) && t != now
      ensures SolvedAt(s', key.user, t)
    {
      assert before.Some?;
      assert SolvedAt(s, key.user, t);
    }
  }

  lemma DrawnDrawsOk(s: State, s': State, r: nat, puzzle: string, now: int)
    requires DrawsOk(s) && s' == DoDraw(s, r, puzzle, now)
    ensures DrawsOk(s')
  {
  }

  /** A step that neither notes nor settles anything, and holds nothing it did not read. */
  lemma QuietKeepsRuns(s: State, s': State)
    requires Runs(s) && s'.notes.(lines := s.notes.lines) == s.notes && s'.db.attempts == s.db.attempts
    requires forall key | key in s'.redis :: key in s.redis && s'.redis[key] == s.redis[key]
    requires forall r | r in s'.requests ::
      || (r in s.requests && s'.requests[r] == s.requests[r])
      || (&& RequestOk(s', s'.requests[r])
          && (ReadOf(s'.requests[r].stage).Some? ==>
                Drawn(s', s'.requests[r].key, ReadOf(s'.requests[r].stage).value)))
    ensures Runs(s')
  {
    hide RunOk, RequestOk, SolvedAt, Drawn, ReadOf;
    SameNotes(s, s');
    RunsStay(s, s');
  }

  lemma ReadMoveKeepsRuns(s: State, r: nat, key: Key, uci: string)
    requires Runs(s)
    ensures Runs(DoReadMove(s, r, key, uci))
  {
    hide RunOk, SolvedAt, DrawsOk, LogOk, NoGrowthAfterMiss;
    QuietKeepsRuns(s, DoReadMove(s, r, key, uci));
  }

  lemma ReadNextKeepsRuns(s: State, r: nat, key: Key)
    requires Runs(s)
    ensures Runs(DoReadNext(s, r, key))
  {
    hide RunOk, SolvedAt, DrawsOk, LogOk, NoGrowthAfterMiss;
    QuietKeepsRuns(s, DoReadNext(s, r, key));
  }

  /** A puzzle that is looked up is there, so only a run between two puzzles is drawn over. */
  lemma LookKeepsRuns(s: State, r: nat)
    requires Runs(s) && Present(s)
    ensures Runs(DoLook(s, r))
  {
    hide RunOk, SolvedAt, DrawsOk, LogOk, NoGrowthAfterMiss, Kept;
    if r in s.requests && s.requests[r].stage.Looking? {
      assert Here(s, s.requests[r].stage.read) && Drawn(s, s.requests[r].key, s.requests[r].stage.read);
      LookedOk(s, r);
    }
    hide Drawn, RequestOk, Present, DoLook;
    QuietKeepsRuns(s, DoLook(s, r));
  }

  lemma LookedOk(s: State, r: nat)
    requires r in s.requests && s.requests[r].stage.Looking? && Here(s, s.requests[r].stage.read)
    requires Drawn(s, s.requests[r].key, s.requests[r].stage.read)
    ensures var s' := DoLook(s, r);
      && s' == s.(requests := s'.requests)
      && (forall q | q in s'.requests && q != r :: q in s.requests && s'.requests[q] == s.requests[q])
      && (r in s'.requests ==>
            && RequestOk(s', s'.requests[r])
            && (ReadOf(s'.requests[r].stage).Some? ==>
                  Drawn(s', s'.requests[r].key, ReadOf(s'.requests[r].stage).value)))
  {
    hide SolvedAt;
  }

  lemma SaveBestKeepsRuns(s: State, r: nat, up: bool)
    requires Runs(s)
    ensures Runs(DoSaveBest(s, r, up))
  {
    hide RunOk, SolvedAt, DrawsOk, LogOk, NoGrowthAfterMiss;
    QuietKeepsRuns(s, DoSaveBest(s, r, up));
  }

  lemma ClearKeepsRuns(s: State, r: nat)
    requires Runs(s)
    ensures Runs(DoClear(s, r))
  {
    hide Runs, Forgotten;
    if r in s.requests && s.requests[r].stage.Clearing? {
      ForgottenKeepsRuns(s, r, s.requests[r].key, s.requests[r].stage.read);
    }
  }

  lemma DropGoneKeepsRuns(s: State, r: nat)
    requires Runs(s)
    ensures Runs(DoDropGone(s, r))
  {
    hide RunOk, SolvedAt, DrawsOk, LogOk, NoGrowthAfterMiss;
    QuietKeepsRuns(s, DoDropGone(s, r));
  }

  lemma SameNotes(s: State, s': State)
    requires s'.notes.(lines := s.notes.lines) == s.notes && DrawsOk(s) && LogOk(s, s.notes.log)
    ensures DrawsOk(s') && LogOk(s', s'.notes.log)
  {
  }

  lemma LoadKeepsRuns(s: State, puzzles: map<string, Puzzle>)
    requires Runs(s)
    ensures Runs(DoLoad(s, puzzles))
  {
    hide RunOk, SolvedAt, DrawsOk, LogOk, NoGrowthAfterMiss, Loadable;
    QuietKeepsRuns(s, DoLoad(s, puzzles));
  }

  lemma StepKeepsRuns<P>(b: Board<P>, s: State, a: Action)
    requires Inv(b, s) && Loaded(s) && Present(s) && Runs(s)
    ensures Runs(Next(b, s, a))
  {
    hide Inv, Loaded, Present, Runs, RequestOk, Drawn, DoGrade, DoAdvance, DoDraw, DoSaveBest, DoReadMove, DoLook,
      DoClear, DoReadNext, DoDropGone, DoLoad;
    match a
    case Grade(r, up) => GradeKeepsRuns(b, s, r, up);
    case Advance(r) => AdvanceKeepsRuns(b, s, r);
    case DrawNext(r, puzzle, now) => DrawKeepsRuns(s, r, puzzle, now);
    case ReadNext(r, key) => ReadNextKeepsRuns(s, r, key);
    case ReadMove(r, key, uci) => ReadMoveKeepsRuns(s, r, key, uci);
    case Look(r) => LookKeepsRuns(s, r);
    case SaveBest(r, up) => SaveBestKeepsRuns(s, r, up);
    case Clear(r) => ClearKeepsRuns(s, r);
    case DropGone(r) => DropGoneKeepsRuns(s, r);
    case Abandon(r) => QuietKeepsRuns(s, Without(s, r));
    case Expire(key) => QuietKeepsRuns(s, s.(redis := s.redis - {key}));
    case Load(puzzles) => LoadKeepsRuns(s, puzzles);
  }

  // ---- Every run ----------------------------------------------------------------------------------

  /** In every run, no event makes a streak's count grow after a miss of the same run was recorded. */
  lemma {:induction false} MissEndsTheRun<P>(b: Board<P>, accounts: map<string, Account>, run: seq<Action>)
    ensures var s := Exec(b, Init(accounts), run);
      Inv(b, s) && Loaded(s) && Present(s) && Runs(s) && NoGrowthAfterMiss(s.notes.log)
  {
    hide Next, Inv, Loaded, Present, Runs;
    EveryRun(b, accounts, run);
    if run == [] {
      NoRunsYet(accounts);
      NothingHeldYet(accounts);
    } else {
      var before := Exec(b, Init(accounts), run[..|run| - 1]);
      MissEndsTheRun(b, accounts, run[..|run| - 1]);
      StepKeepsRuns(b, before, run[|run| - 1]);
      StepStaysPresent(b, before, run[|run| - 1]);
    }
    NothingGrew(Exec(b, Init(accounts), run));
  }

  lemma NothingGrew(s: State)
    requires Runs(s)
    ensures NoGrowthAfterMiss(s.notes.log)
  {
  }

  lemma NoRunsYet(accounts: map<string, Account>)
    ensures Runs(Init(accounts))
  {
  }
}
