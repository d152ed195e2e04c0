/** The loader takes no puzzle away, so no attempt is ever left on one that is gone. */
module AttemptsPresent {
  import opened Options
  import opened Puzzle
  import opened Attempts
  import opened AttemptsChain

  ghost predicate Here(s: State, p: Progress) {
    p.puzzle != "" ==> p.puzzle in s.corpus
  }

  /** Every puzzle stored or held is in the corpus, and a move's request found it there. */
  ghost predicate Present(s: State) {
    && (forall key | key in s.redis :: Here(s, s.redis[key]))
    && (forall r | r in s.requests && ReadOf(s.requests[r].stage).Some? ::
          Here(s, ReadOf(s.requests[r].stage).value))
    && (forall r | r in s.requests && s.requests[r].stage.Grading? ::
          s.requests[r].stage.line.None? ==> s.requests[r].stage.read.puzzle == "")
    && s.corpus.Keys <= s.db.counters.Keys
    && Signed(s.db)
  }

  /** Every attempt's account is there. */
  ghost predicate Signed(db: Db) {
    forall id | id in db.attempts :: id.user in db.accounts
  }

  /** What a step stores or picks up anew has to be there. */
  lemma PresentStays(s: State, s': State)
    requires Present(s) && s.corpus.Keys <= s'.corpus.Keys <= s'.db.counters.Keys && Signed(s'.db)
    requires forall key | key in s'.redis ::
      (key in s.redis && s'.redis[key] == s.redis[key]) || Here(s', s'.redis[key])
    requires forall r | r in s'.requests && ReadOf(s'.requests[r].stage).Some? ::
      || (r in s.requests && ReadOf(s'.requests[r].stage) == ReadOf(s.requests[r].stage))
      || Here(s', ReadOf(s'.requests[r].stage).value)
    requires forall r | r in s'.requests && s'.requests[r].stage.Grading? ::
      || (r in s.requests && s'.requests[r].stage == s.requests[r].stage)
      || (s'.requests[r].stage.line.None? ==> s'.requests[r].stage.read.puzzle == "")
    ensures Present(s')
  {
  }

  lemma RecordedKeepsCounters(db: Db, id: AttemptId, row: Attempt)
    ensures Recorded(db, id, row).Some? ==>
      var after := Recorded(db, id, row).value;
      after.counters.Keys == db.counters.Keys && (Signed(db) ==> Signed(after))
  {
  }

  lemma GradeStaysPresent<P>(b: Board<P>, s: State, r: nat, up: bool)
    requires Present(s) && Loaded(s)
    ensures Present(DoGrade(b, s, r, up))
  {
    hide Present, Graded, Recorded, SteppedOn, Ended, Forgotten;
    if r in s.requests && s.requests[r].stage.Grading? {
      var Request(key, Grading(read, uci, found)) := s.requests[r];
      match found
      case None => ForgottenStaysPresent(s, r, key, read);
      case Some(line) =>
        HeldIsHere(s, r);
        SteppedOnStaysPresent(s, r, key, read, line, uci);
        EndedStaysPresent(s, r, key, read, line, uci, Graded(b, line, read.step, uci).correct, up);
    }
  }

  lemma HeldIsHere(s: State, r: nat)
    requires Present(s) && Loaded(s) && r in s.requests && s.requests[r].stage.Grading?
    requires s.requests[r].stage.line.Some?
    ensures s.requests[r].stage.read.puzzle in s.corpus
  {
    assert Holds(s, s.requests[r].stage);
  }

  lemma ForgottenStaysPresent(s: State, r: nat, key: Key, read: Progress)
    requires Present(s)
    ensures Present(Forgotten(s, r, key, read))
  {
    PresentStays(s, Forgotten(s, r, key, read));
  }

  lemma SteppedOnStaysPresent(s: State, r: nat, key: Key, read: Progress, line: Puzzle, uci: string)
    requires Present(s) && read.puzzle in s.corpus
    ensures Present(SteppedOn(s, r, key, read, line, uci))
  {
    PresentStays(s, SteppedOn(s, r, key, read, line, uci));
  }

  lemma EndedStaysPresent(s: State, r: nat, key: Key, read: Progress, line: Puzzle, uci: string, correct: bool,
                          up: bool)
    requires Present(s) && read.puzzle in s.corpus
    ensures Present(Ended(s, r, key, read, line, uci, correct, up))
  {
    hide Recorded;
    RecordedKeepsCounters(s.db, AttemptId(key.user, read.puzzle, read.started), Attempt(key.mode, correct));
    PresentStays(s, Ended(s, r, key, read, line, uci, correct, up));
  }

  lemma AdvanceStaysPresent(s: State, r: nat)
    requires Present(s)
    ensures Present(DoAdvance(s, r))
  {
    PresentStays(s, DoAdvance(s, r));
  }

  lemma DrawStaysPresent(s: State, r: nat, puzzle: string, now: int)
    requires Present(s)
    ensures Present(DoDraw(s, r, puzzle, now))
  {
    PresentStays(s, DoDraw(s, r, puzzle, now));
  }

  lemma LoadStaysPresent(s: State, puzzles: map<string, Puzzle>)
    requires Present(s)
    ensures Present(DoLoad(s, puzzles))
  {
    hide Loadable;
    PresentStays(s, DoLoad(s, puzzles));
  }

  lemma LookStaysPresent(s: State, r: nat)
    requires Present(s)
    ensures Present(DoLook(s, r))
  {
    hide Signed;
    var s' := DoLook(s, r);
    if r in s.requests && s.requests[r].stage.Looking? {
      assert s'.redis == s.redis && s'.corpus == s.corpus && s'.db == s.db;
      assert ReadOf(s.requests[r].stage) == Some(s.requests[r].stage.read);
      assert r in s'.requests ==> ReadOf(s'.requests[r].stage) == ReadOf(s.requests[r].stage);
      hide Here;
      PresentStays(s, s');
    }
  }

  lemma SaveBestStaysPresent(s: State, r: nat, up: bool)
    requires Present(s)
    ensures Present(DoSaveBest(s, r, up))
  {
    PresentStays(s, DoSaveBest(s, r, up));
  }

  lemma ClearStaysPresent(s: State, r: nat)
    requires Present(s)
    ensures Present(DoClear(s, r))
  {
    PresentStays(s, DoClear(s, r));
  }

  lemma DropGoneStaysPresent(s: State, r: nat)
    requires Present(s)
    ensures Present(DoDropGone(s, r))
  {
    PresentStays(s, DoDropGone(s, r));
  }

  lemma OthersStayPresent<P>(b: Board<P>, s: State, a: Action)
    requires Present(s)
    requires a.ReadMove? || a.ReadNext? || a.Abandon? || a.Expire?
    ensures Present(Next(b, s, a))
  {
    hide DoGrade, DoAdvance, DoDraw, DoLoad, DoLook, DoSaveBest, DoClear, DoDropGone;
    PresentStays(s, Next(b, s, a));
  }

  lemma StepStaysPresent<P>(b: Board<P>, s: State, a: Action)
    requires Present(s) && Loaded(s)
    ensures Present(Next(b, s, a))
  {
    hide Present, Loaded, DoGrade, DoAdvance, DoDraw, DoReadMove, DoLook, DoSaveBest, DoClear, DoReadNext, DoDropGone, DoLoad;
    match a
    case Grade(r, up) => GradeStaysPresent(b, s, r, up);
    case Advance(r) => AdvanceStaysPresent(s, r);
    case DrawNext(r, puzzle, now) => DrawStaysPresent(s, r, puzzle, now);
    case Load(puzzles) => LoadStaysPresent(s, puzzles);
    case Look(r) => LookStaysPresent(s, r);
    case SaveBest(r, up) => SaveBestStaysPresent(s, r, up);
    case Clear(r) => ClearStaysPresent(s, r);
    case DropGone(r) => DropGoneStaysPresent(s, r);
    case _ => OthersStayPresent(b, s, a);
  }

  lemma NothingHeldYet(accounts: map<string, Account>)
    ensures Present(Init(accounts))
  {
  }
}
