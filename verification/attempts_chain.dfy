/** Whatever requests race, an attempt is settled at most once, and one recorded as solved really
    was solved move by move. */
module AttemptsChain {
  import opened Options
  import opened Puzzle
  import opened Attempts

  // ---- The climb ------------------------------------------------------------------------------

  /** The event is this attempt's accepted move at `step`, the solution's by the line it was graded
      against. */
  ghost predicate Rung<P>(b: Board<P>, e: Event, key: Key, puzzle: string,
                          started: int, step: int)
  {
    && e.Accepted? && e.key == key && e.puzzle == puzzle && e.started == started && e.step == step
    && Matches(b, e.line, step, e.uci)
  }

  /** Every earlier solver ply was matched, in order. */
  ghost predicate Climbed<P>(b: Board<P>, log: seq<Event>, key: Key,
                             puzzle: string, started: int, step: int)
    decreases |log|
  {
    || step == 0
    || (&& step > 0
        && (exists k :: && 0 <= k < |log|
                        && Rung(b, log[k], key, puzzle, started, step - 2)
                        && Climbed(b, log[..k], key, puzzle, started, step - 2)))
  }

  lemma ClimbedStays<P>(b: Board<P>, log: seq<Event>, more: seq<Event>,
                        key: Key, puzzle: string, started: int, step: int)
    requires Climbed(b, log, key, puzzle, started, step) && log <= more
    ensures Climbed(b, more, key, puzzle, started, step)
  {
    if step != 0 {
      var k :| 0 <= k < |log| && Rung(b, log[k], key, puzzle, started, step - 2)
            && Climbed(b, log[..k], key, puzzle, started, step - 2);
      assert more[..k] == log[..k] && more[k] == log[k];
    }
  }

  ghost predicate Honest<P>(b: Board<P>, log: seq<Event>, key: Key, p: Progress) {
    && p.step >= 0 && p.step % 2 == 0
    && (p.puzzle == "" ==> p.step == 0)
    && Climbed(b, log, key, p.puzzle, p.started, p.step)
  }

  function ReadOf(stage: Stage): Option<Progress> {
    match stage
    case Drawing(before) => before
    case _ => Some(stage.read)
  }

  /** Two values of one attempt. */
  ghost predicate On(p: Progress, q: Progress) {
    p.puzzle == q.puzzle && p.started == q.started
  }

  /** Everything stored or held is honest. */
  ghost predicate AllHonest<P>(b: Board<P>, s: State) {
    && (forall key | key in s.redis :: Honest(b, s.notes.log, key, s.redis[key]))
    && (forall r | r in s.requests && ReadOf(s.requests[r].stage).Some? ::
          Honest(b, s.notes.log, s.requests[r].key, ReadOf(s.requests[r].stage).value))
  }

  // ---- The record -----------------------------------------------------------------------------

  function IdOf(e: Event): AttemptId
    requires e.Settled?
  {
    AttemptId(e.key.user, e.puzzle, e.started)
  }

  /** A settled event says what grading said, after the climb it claims. */
  ghost predicate Fair<P>(b: Board<P>, before: seq<Event>, e: Event) {
    e.Settled? ==>
      && Climbed(b, before, e.key, e.puzzle, e.started, e.step)
      && Graded(b, e.line, e.step, e.uci).correct == e.solved
      && Graded(b, e.line, e.step, e.uci).finished == e.solved
  }

  /** The table and the log agree, and no attempt is settled twice. */
  ghost predicate Booked<P>(b: Board<P>, db: Db, log: seq<Event>) {
    && (forall k | 0 <= k < |log| :: Fair(b, log[..k], log[k]))
    && (forall k | 0 <= k < |log| && log[k].Settled? ::
          IdOf(log[k]) in db.attempts
          && db.attempts[IdOf(log[k])] == Attempt(log[k].key.mode, log[k].solved))
    && (forall j, k | 0 <= j < k < |log| && log[j].Settled? && log[k].Settled? :: IdOf(log[j]) != IdOf(log[k]))
    && (forall id | id in db.attempts :: exists k :: 0 <= k < |log| && log[k].Settled? && IdOf(log[k]) == id)
  }

  ghost predicate Inv<P>(b: Board<P>, s: State) {
    AllHonest(b, s) && Booked(b, s.db, s.notes.log)
  }

  // ---- The lines ------------------------------------------------------------------------------

  ghost predicate LineOf(s: State, line: Puzzle, puzzle: string) {
    puzzle != "" && line.id == puzzle && line in s.notes.lines
  }

  ghost predicate GradedOn(s: State, e: Event) {
    (e.Accepted? || e.Settled?) ==> LineOf(s, e.line, e.puzzle)
  }

  ghost predicate Holds(s: State, stage: Stage) {
    stage.Grading? && stage.line.Some? ==> LineOf(s, stage.line.value, stage.read.puzzle)
  }

  /** Every line graded against, or about to be, was loaded for that puzzle. */
  ghost predicate Loaded(s: State) {
    && (forall id | id in s.corpus :: LineOf(s, s.corpus[id], id))
    && (forall r | r in s.requests :: Holds(s, s.requests[r].stage))
    && (forall k | 0 <= k < |s.notes.log| :: GradedOn(s, s.notes.log[k]))
  }

  lemma LoadedStays(s: State, s': State)
    requires Loaded(s) && s.notes.lines <= s'.notes.lines && s.notes.log <= s'.notes.log
    requires forall id | id in s'.corpus ::
      (id in s.corpus && s'.corpus[id] == s.corpus[id]) || LineOf(s', s'.corpus[id], id)
    requires forall r | r in s'.requests ::
      (r in s.requests && s'.requests[r] == s.requests[r]) || Holds(s', s'.requests[r].stage)
    requires forall k | |s.notes.log| <= k < |s'.notes.log| :: GradedOn(s', s'.notes.log[k])
    ensures Loaded(s')
  {
    forall k | 0 <= k < |s'.notes.log| ensures GradedOn(s', s'.notes.log[k]) {
      if k < |s.notes.log| { assert GradedOn(s, s.notes.log[k]); }
    }
    forall r | r in s'.requests ensures Holds(s', s'.requests[r].stage) {
      if r in s.requests && s'.requests[r] == s.requests[r] { assert Holds(s, s.requests[r].stage); }
    }
  }

  lemma GradeKeepsLoaded<P>(b: Board<P>, s: State, r: nat, up: bool)
    requires Loaded(s)
    ensures Loaded(DoGrade(b, s, r, up))
  {
    hide Graded, Recorded, Replaced, SteppedOn, Ended, Loaded;
    if r in s.requests && s.requests[r].stage.Grading? {
      var Request(key, Grading(read, uci, found)) := s.requests[r];
      match found
      case None => ForgottenKeepsLoaded(s, r, key, read);
      case Some(line) =>
        HoldsLine(s, r);
        JudgedKeepsLoaded(s, r, key, read, line, uci, Graded(b, line, read.step, uci).correct, up);
    }
  }

  lemma HoldsLine(s: State, r: nat)
    requires Loaded(s) && r in s.requests && s.requests[r].stage.Grading? && s.requests[r].stage.line.Some?
    ensures LineOf(s, s.requests[r].stage.line.value, s.requests[r].stage.read.puzzle)
  {
    assert Holds(s, s.requests[r].stage);
  }

  lemma ForgottenKeepsLoaded(s: State, r: nat, key: Key, read: Progress)
    requires Loaded(s)
    ensures Loaded(Forgotten(s, r, key, read))
  {
    hide GradedOn, Holds, LineOf;
    SameLines(s, Forgotten(s, r, key, read));
    LoadedStays(s, Forgotten(s, r, key, read));
  }

  lemma JudgedKeepsLoaded(s: State, r: nat, key: Key, read: Progress, line: Puzzle, uci: string, correct: bool,
                          up: bool)
    requires Loaded(s) && LineOf(s, line, read.puzzle)
    ensures Loaded(SteppedOn(s, r, key, read, line, uci)) && Loaded(Ended(s, r, key, read, line, uci, correct, up))
  {
    hide Recorded, Loaded;
    LoadedStays(s, SteppedOn(s, r, key, read, line, uci));
    LoadedStays(s, Ended(s, r, key, read, line, uci, correct, up));
  }

  lemma SameLines(s: State, s': State)
    requires s'.notes.lines == s.notes.lines
    ensures forall line, puzzle :: LineOf(s, line, puzzle) ==> LineOf(s', line, puzzle)
  {
  }

  lemma StepKeepsLoaded<P>(b: Board<P>, s: State, a: Action)
    requires Loaded(s)
    ensures Loaded(Next(b, s, a))
  {
    hide Loaded, BestSaved, Replaced, DoGrade, DoLoad;
    match a
    case Grade(r, up) => GradeKeepsLoaded(b, s, r, up);
    case Load(puzzles) => LoadKeepsLoaded(s, puzzles);
    case Look(r) => LookKeepsLoaded(s, r);
    case Advance(r) => AdvanceKeepsLoaded(s, r);
    case _ => PlainKeepsLoaded(b, s, a);
  }

  lemma LoadKeepsLoaded(s: State, puzzles: map<string, Puzzle>)
    requires Loaded(s)
    ensures Loaded(DoLoad(s, puzzles))
  {
    LoadedStays(s, DoLoad(s, puzzles));
  }

  lemma LookKeepsLoaded(s: State, r: nat)
    requires Loaded(s)
    ensures Loaded(DoLook(s, r))
  {
    hide GradedOn;
    LoadedStays(s, DoLook(s, r));
  }

  lemma AdvanceKeepsLoaded(s: State, r: nat)
    requires Loaded(s)
    ensures Loaded(DoAdvance(s, r))
  {
    LoadedStays(s, DoAdvance(s, r));
  }

  lemma PlainKeepsLoaded<P>(b: Board<P>, s: State, a: Action)
    requires Loaded(s) && !a.Grade? && !a.Load? && !a.Look? && !a.Advance?
    ensures Loaded(Next(b, s, a))
  {
    hide BestSaved, Replaced, DoGrade, DoLoad, DoLook, DoAdvance, GradedOn, LineOf;
    LoadedStays(s, Next(b, s, a));
  }

  // ---- Steps ----------------------------------------------------------------------------------

  lemma HonestStays<P>(b: Board<P>, log: seq<Event>, more: seq<Event>,
                       key: Key, p: Progress)
    requires Honest(b, log, key, p) && log <= more
    ensures Honest(b, more, key, p)
  {
    ClimbedStays(b, log, more, key, p.puzzle, p.started, p.step);
  }

  /** A step keeps everything honest when what it stores or picks up anew is. */
  lemma AllHonestStays<P>(b: Board<P>, s: State, s': State)
    requires AllHonest(b, s) && s.notes.log <= s'.notes.log
    requires forall key | key in s'.redis ::
      (key in s.redis && s'.redis[key] == s.redis[key]) || Honest(b, s'.notes.log, key, s'.redis[key])
    requires forall r | r in s'.requests && ReadOf(s'.requests[r].stage).Some? ::
      || (r in s.requests && s'.requests[r].key == s.requests[r].key
          && ReadOf(s'.requests[r].stage) == ReadOf(s.requests[r].stage))
      || Honest(b, s'.notes.log, s'.requests[r].key, ReadOf(s'.requests[r].stage).value)
    ensures AllHonest(b, s')
  {
    hide Honest, ReadOf;
    forall key | key in s'.redis ensures Honest(b, s'.notes.log, key, s'.redis[key]) {
      if key in s.redis && s'.redis[key] == s.redis[key] {
        HonestStays(b, s.notes.log, s'.notes.log, key, s.redis[key]);
      }
    }
    forall r | r in s'.requests && ReadOf(s'.requests[r].stage).Some?
      ensures Honest(b, s'.notes.log, s'.requests[r].key, ReadOf(s'.requests[r].stage).value)
    {
      if r in s.requests && s'.requests[r].key == s.requests[r].key
         && ReadOf(s'.requests[r].stage) == ReadOf(s.requests[r].stage) {
        HonestStays(b, s.notes.log, s'.notes.log, s.requests[r].key, ReadOf(s.requests[r].stage).value);
      }
    }
  }

  /** An event that settles nothing leaves the books alone. */
  lemma UnsettledStaysBooked<P>(b: Board<P>, db: Db, db': Db, log: seq<Event>, e: Event)
    requires Booked(b, db, log) && !e.Settled? && db'.attempts == db.attempts
    ensures Booked(b, db', log + [e])
  {
    hide Climbed, Graded;
    var more := log + [e];
    forall k | 0 <= k < |more| ensures Fair(b, more[..k], more[k]) {
      if k < |log| { assert more[..k] == log[..k] && more[k] == log[k]; }
    }
    forall id | id in db'.attempts ensures exists k :: 0 <= k < |more| && more[k].Settled? && IdOf(more[k]) == id {
      var k :| 0 <= k < |log| && log[k].Settled? && IdOf(log[k]) == id;
      assert more[k] == log[k];
    }
  }

  lemma FairWith<P>(b: Board<P>, log: seq<Event>, e: Event)
    requires (forall k | 0 <= k < |log| :: Fair(b, log[..k], log[k])) && Fair(b, log, e)
    ensures forall k | 0 <= k < |log + [e]| :: Fair(b, (log + [e])[..k], (log + [e])[k])
  {
    hide Fair;
    var more := log + [e];
    forall k | 0 <= k < |more| ensures Fair(b, more[..k], more[k]) {
      if k < |log| { assert more[..k] == log[..k] && more[k] == log[k]; } else { assert more[..k] == log; }
    }
  }

  lemma SettledStaysBooked<P>(b: Board<P>, db: Db, log: seq<Event>, e: Event)
    requires Booked(b, db, log) && e.Settled? && Fair(b, log, e)
    requires Recorded(db, IdOf(e), Attempt(e.key.mode, e.solved)).Some?
    ensures Booked(b, Recorded(db, IdOf(e), Attempt(e.key.mode, e.solved)).value, log + [e])
  {
    hide Fair;
    var more := log + [e];
    var db' := Recorded(db, IdOf(e), Attempt(e.key.mode, e.solved)).value;
    assert db'.attempts == db.attempts[IdOf(e) := Attempt(e.key.mode, e.solved)];
    hide Recorded;
    FairWith(b, log, e);
    forall id | id in db'.attempts ensures exists k :: 0 <= k < |more| && more[k].Settled? && IdOf(more[k]) == id {
      if id == IdOf(e) {
        assert more[|log|] == e;
      } else {
        var k :| 0 <= k < |log| && log[k].Settled? && IdOf(log[k]) == id;
        assert more[k] == log[k];
      }
    }
  }

  lemma SteppedOnKeeps<P>(b: Board<P>, s: State, r: nat, key: Key,
                          read: Progress, line: Puzzle, uci: string)
    requires Inv(b, s) && r in s.requests && s.requests[r] == Request(key, Grading(read, uci, Some(line)))
    requires var v := Graded(b, line, read.step, uci); v.correct && !v.finished
    requires read.puzzle != ""
    ensures Inv(b, SteppedOn(s, r, key, read, line, uci))
  {
    hide Honest, Graded, Booked;
    var s' := SteppedOn(s, r, key, read, line, uci);
    var next := read.(step := read.step + 2);
    assert Honest(b, s.notes.log, key, read);
    if Replaced(s.redis, key, Some(read), Some(next)).Some? {
      var e := Accepted(key, read.puzzle, line, read.started, read.step, uci);
      GradedMeans(b, line, read.step, uci);
      ClimbsOn(b, s.notes.log, e, read);
      UnsettledStaysBooked(b, s.db, s.db, s.notes.log, e);
    }
    AllHonestStays(b, s, s');
  }

  lemma OneRungMore<P>(b: Board<P>, log: seq<Event>, k: nat, key: Key, puzzle: string, started: int, step: int)
    requires k < |log| && step > 0
    requires Rung(b, log[k], key, puzzle, started, step - 2)
    requires Climbed(b, log[..k], key, puzzle, started, step - 2)
    ensures Climbed(b, log, key, puzzle, started, step)
  {
    hide Rung;
  }

  lemma ClimbsOn<P>(b: Board<P>, log: seq<Event>, e: Event, read: Progress)
    requires e.Accepted? && e.puzzle == read.puzzle && e.started == read.started && e.step == read.step
    requires Honest(b, log, e.key, read) && read.puzzle != ""
    requires Matches(b, e.line, read.step, e.uci)
    ensures Honest(b, log + [e], e.key, read.(step := read.step + 2))
  {
    hide Matches;
    var more := log + [e];
    assert more[|log|] == e && more[..|log|] == log;
    OneRungMore(b, more, |log|, e.key, read.puzzle, read.started, read.step + 2);
  }

  lemma EndedKeeps<P>(b: Board<P>, s: State, r: nat, key: Key,
                      read: Progress, line: Puzzle, uci: string, up: bool)
    requires Inv(b, s) && r in s.requests && s.requests[r] == Request(key, Grading(read, uci, Some(line)))
    requires var v := Graded(b, line, read.step, uci); !(v.correct && !v.finished)
    ensures Inv(b, Ended(s, r, key, read, line, uci, Graded(b, line, read.step, uci).correct, up))
  {
    hide Graded, Booked, Recorded, Climbed;
    var v := Graded(b, line, read.step, uci);
    var s' := Ended(s, r, key, read, line, uci, v.correct, up);
    assert Honest(b, s.notes.log, key, read);
    GradedMeans(b, line, read.step, uci);
    var id := AttemptId(key.user, read.puzzle, read.started);
    if up && Recorded(s.db, id, Attempt(key.mode, v.correct)).Some? {
      var e := Settled(key, DrawOf(s, key.user, read.started).run, read.puzzle, line, read.started,
                       read.step, uci, v.correct);
      assert IdOf(e) == id;
      SettledStaysBooked(b, s.db, s.notes.log, e);
    }
    hide Honest;
    AllHonestStays(b, s, s');
  }

  lemma ForgottenKeeps<P>(b: Board<P>, s: State, r: nat, key: Key, read: Progress)
    requires Inv(b, s)
    ensures Inv(b, Forgotten(s, r, key, read))
  {
    hide Honest, Booked;
    AllHonestStays(b, s, Forgotten(s, r, key, read));
  }

  lemma GradeKeeps<P>(b: Board<P>, s: State, r: nat, up: bool)
    requires Inv(b, s) && Loaded(s)
    ensures Inv(b, DoGrade(b, s, r, up))
  {
    hide Inv, Graded, SteppedOn, Ended, Forgotten;
    if r in s.requests && s.requests[r].stage.Grading? {
      var Request(key, Grading(read, uci, found)) := s.requests[r];
      match found
      case None => ForgottenKeeps(b, s, r, key, read);
      case Some(line) =>
        assert Holds(s, s.requests[r].stage);
        var v := Graded(b, line, read.step, uci);
        if v.correct && !v.finished {
          SteppedOnKeeps(b, s, r, key, read, line, uci);
        } else {
          EndedKeeps(b, s, r, key, read, line, uci, up);
        }
    }
  }

  lemma AdvanceKeeps<P>(b: Board<P>, s: State, r: nat)
    requires Inv(b, s)
    ensures Inv(b, DoAdvance(s, r))
  {
    if r in s.requests && s.requests[r].stage.Advancing? {
      var Request(key, Advancing(read)) := s.requests[r];
      var s' := DoAdvance(s, r);
      var next := read.(puzzle := "", step := 0, count := read.count + 1);
      if Replaced(s.redis, key, Some(read), Some(next)).Some? {
        UnsettledStaysBooked(b, s.db, s.db, s.notes.log, Grew(key, RunOf(s, key), next.count));
        assert Honest(b, s'.notes.log, key, next);
      }
      hide Honest, Booked;
      AllHonestStays(b, s, s');
    }
  }

  lemma DrawKeeps<P>(b: Board<P>, s: State, r: nat, puzzle: string, now: int)
    requires Inv(b, s)
    ensures Inv(b, DoDraw(s, r, puzzle, now))
  {
    var s' := DoDraw(s, r, puzzle, now);
    assert forall key, count | true :: Honest(b, s.notes.log, key, Progress(puzzle, 0, count, now)) by {
      forall key, count: nat ensures Honest(b, s.notes.log, key, Progress(puzzle, 0, count, now)) {
      }
    }
    hide Honest, Booked;
    AllHonestStays(b, s, s');
  }

  lemma SaveBestKeeps<P>(b: Board<P>, s: State, r: nat, up: bool)
    requires Inv(b, s)
    ensures Inv(b, DoSaveBest(s, r, up))
  {
    var s' := DoSaveBest(s, r, up);
    assert s'.db.attempts == s.db.attempts;
    assert Booked(b, s'.db, s.notes.log) by { hide Fair; }
    hide Honest, Booked;
    AllHonestStays(b, s, s');
  }

  lemma LoadKeeps<P>(b: Board<P>, s: State, puzzles: map<string, Puzzle>)
    requires Inv(b, s)
    ensures Inv(b, DoLoad(s, puzzles))
  {
    hide Honest, Fair, Loadable;
    var s' := DoLoad(s, puzzles);
    assert s'.db.attempts == s.db.attempts;
    assert Booked(b, s'.db, s.notes.log);
    hide Booked;
    AllHonestStays(b, s, s');
  }

  lemma LookKeeps<P>(b: Board<P>, s: State, r: nat)
    requires Inv(b, s)
    ensures Inv(b, DoLook(s, r))
  {
    hide Honest, Booked, Found;
    AllHonestStays(b, s, DoLook(s, r));
  }

  lemma PlainKeeps<P>(b: Board<P>, s: State, a: Action)
    requires Inv(b, s)
    requires a.ReadMove? || a.Look? || a.Clear? || a.ReadNext? || a.DropGone? || a.Abandon? || a.Expire?
    ensures Inv(b, Next(b, s, a))
  {
    hide Honest, Booked, DoLook, DoGrade, DoAdvance, DoDraw, DoSaveBest, DoLoad;
    if a.Look? {
      LookKeeps(b, s, a.r);
    } else {
      AllHonestStays(b, s, Next(b, s, a));
    }
  }

  lemma StepKeeps<P>(b: Board<P>, s: State, a: Action)
    requires Inv(b, s) && Loaded(s)
    ensures Inv(b, Next(b, s, a))
  {
    hide Inv, Loaded, DoLook, DoLoad, DoGrade, DoAdvance, DoDraw, DoSaveBest, DoReadMove, DoClear, DoReadNext, DoDropGone;
    match a
    case Grade(r, up) => GradeKeeps(b, s, r, up);
    case Advance(r) => AdvanceKeeps(b, s, r);
    case DrawNext(r, puzzle, now) => DrawKeeps(b, s, r, puzzle, now);
    case SaveBest(r, up) => SaveBestKeeps(b, s, r, up);
    case Load(puzzles) => LoadKeeps(b, s, puzzles);
    case _ => PlainKeeps(b, s, a);
  }

  lemma {:induction false} EveryRun<P>(b: Board<P>, accounts: map<string, Account>, run: seq<Action>)
    ensures Inv(b, Exec(b, Init(accounts), run)) && Loaded(Exec(b, Init(accounts), run))
  {
    hide Next, Inv, Loaded;
    if run == [] {
      StartIsHonest(b, accounts);
    } else {
      EveryRun(b, accounts, run[..|run| - 1]);
      StepKeeps(b, Exec(b, Init(accounts), run[..|run| - 1]), run[|run| - 1]);
      StepKeepsLoaded(b, Exec(b, Init(accounts), run[..|run| - 1]), run[|run| - 1]);
    }
  }

  lemma StartIsHonest<P>(b: Board<P>, accounts: map<string, Account>)
    ensures Inv(b, Init(accounts)) && Loaded(Init(accounts))
  {
  }

  // ---- What it comes to -------------------------------------------------------------------------

  /** In every run: an attempt id is settled at most once; an attempt recorded solved has every
      earlier solver ply matched in order before it, and its last accepted move ended the line or
      mated; and a miss is a move grading refused. Each move is judged by the line loaded when its
      request looked the puzzle up. */
  lemma SettledOnceAndFairly<P>(b: Board<P>, accounts: map<string, Account>, run: seq<Action>, k: nat)
    requires var log := Exec(b, Init(accounts), run).notes.log; k < |log| && log[k].Settled?
    ensures var s := Exec(b, Init(accounts), run);
      var e := s.notes.log[k];
      && (forall j | 0 <= j < |s.notes.log| && j != k && s.notes.log[j].Settled? :: IdOf(s.notes.log[j]) != IdOf(e))
      && (forall j | 0 <= j <= k :: GradedOn(s, s.notes.log[j]))
      && (e.solved ==> && Climbed(b, s.notes.log[..k], e.key, e.puzzle, e.started, e.step)
                       && (Matches(b, e.line, e.step, e.uci) || Mates(b, e.line, e.step, e.uci))
                       && (e.step == |e.line.Solution()| - 1 || Mates(b, e.line, e.step, e.uci)))
      && (!e.solved ==> !Graded(b, e.line, e.step, e.uci).correct)
  {
    EveryRun(b, accounts, run);
    var s := Exec(b, Init(accounts), run);
    hide Climbed, AllHonest;
    var e := s.notes.log[k];
    assert Fair(b, s.notes.log[..k], e);
    GradedMeans(b, e.line, e.step, e.uci);
  }
}
