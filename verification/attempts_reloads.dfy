/** What a reload that rewrites puzzles under way leads to later on: exactly when no stored step ends up
    outside its solution, and exactly when no move is judged by another line than the moves before it. A
    continuation rewrites no puzzle in progress again. */
module AttemptsReloads {
  import opened Options
  import opened Puzzle
  import opened Attempts
  import opened AttemptsChain
  import opened AttemptsPresent
  import opened AttemptsRuns
  import opened AttemptsLines

  // ---- Nobody is ahead of what is stored ----------------------------------------------------------

  ghost predicate ReadBehind(s: State, q: Request) {
    ReadOf(q.stage).Some? && q.key in s.redis && On(ReadOf(q.stage).value, s.redis[q.key]) ==>
      ReadOf(q.stage).value.step <= s.redis[q.key].step
  }

  ghost predicate EventBehind(s: State, key: Key, e: Event)
    requires key in s.redis
  {
    Of(e, key.user, s.redis[key]) ==> e.step <= s.redis[key].step && (e.Accepted? ==> e.step < s.redis[key].step)
  }

  /** Whatever was read or judged of a stored attempt is no further than the attempt is, and what was accepted
      is behind it. */
  ghost predicate Behind(s: State) {
    && (forall r | r in s.requests :: ReadBehind(s, s.requests[r]))
    && (forall key, k | key in s.redis && 0 <= k < |s.notes.log| :: EventBehind(s, key, s.notes.log[k]))
    && EventsDrawn(s)
  }

  /** A stored value is further on in its attempt, or of one that nobody is ahead of. */
  ghost predicate Further(s: State, s': State, key: Key)
    requires key in s'.redis
  {
    || (key in s.redis && On(s.redis[key], s'.redis[key]) && s.redis[key].step <= s'.redis[key].step)
    || (&& (forall r | r in s'.requests && s'.requests[r].key == key :: ReadBehind(s', s'.requests[r]))
        && (forall k | 0 <= k < |s.notes.log| :: EventBehind(s', key, s.notes.log[k])))
  }

  lemma BehindStays(s: State, s': State)
    requires Behind(s) && EventsDrawn(s') && s.notes.log <= s'.notes.log
    requires forall key | key in s'.redis :: Further(s, s', key)
    requires forall key, k | key in s'.redis && |s.notes.log| <= k < |s'.notes.log| ::
      EventBehind(s', key, s'.notes.log[k])
    requires forall r | r in s'.requests ::
      || (r in s.requests && s'.requests[r].key == s.requests[r].key
          && ReadOf(s'.requests[r].stage) == ReadOf(s.requests[r].stage))
      || ReadBehind(s', s'.requests[r])
    ensures Behind(s')
  {
    hide EventsDrawn, ReadOf, Of;
    forall r | r in s'.requests ensures ReadBehind(s', s'.requests[r]) {
      if r in s.requests && s'.requests[r].key == s.requests[r].key
         && ReadOf(s'.requests[r].stage) == ReadOf(s.requests[r].stage) {
        assert ReadBehind(s, s.requests[r]);
        if s'.requests[r].key in s'.redis { assert Further(s, s', s'.requests[r].key); }
      }
    }
    forall key, k | key in s'.redis && 0 <= k < |s'.notes.log| ensures EventBehind(s', key, s'.notes.log[k]) {
      if k < |s.notes.log| {
        assert Further(s, s', key);
        if key in s.redis && On(s.redis[key], s'.redis[key]) {
          assert EventBehind(s, key, s.notes.log[k]);
          OfOn(s.notes.log[k], key.user, s.redis[key], s'.redis[key]);
        }
      }
    }
  }

  lemma OfOn(e: Event, user: string, p: Progress, q: Progress)
    requires On(p, q)
    ensures Of(e, user, p) <==> Of(e, user, q)
  {
  }

  lemma SameKey(s: State, key: Key, p: Progress, other: Key, q: Progress)
    requires Drawn(s, key, p) && Drawn(s, other, q) && key.user == other.user && p.started == q.started
    ensures key == other
  {
  }

  /** A judged move of a value that was read is of the same key, and no further than what is stored of its
      attempt. */
  lemma JudgedBehind(s: State, r: nat, read: Progress, e: Event, key: Key)
    requires Behind(s) && AllDrawn(s) && r in s.requests && ReadOf(s.requests[r].stage) == Some(read)
    requires Judges(e) && e.key == s.requests[r].key && e.puzzle == read.puzzle && e.started == read.started
    requires e.step == read.step && key in s.redis
    ensures Of(e, key.user, s.redis[key]) ==>
      key == e.key && On(read, s.redis[key]) && e.step <= s.redis[key].step
  {
    if Of(e, key.user, s.redis[key]) {
      SameKey(s, e.key, read, key, s.redis[key]);
      assert ReadBehind(s, s.requests[r]);
    }
  }

  lemma EventsDrawnStays(s: State, s': State, e: Event)
    requires EventsDrawn(s) && s'.notes.draws == s.notes.draws && s'.notes.log == s.notes.log + [e]
    requires Judges(e) ==> (e.key.user, e.started) in s.notes.draws
    ensures EventsDrawn(s')
  {
    forall k | 0 <= k < |s'.notes.log| && Judges(s'.notes.log[k])
      ensures (s'.notes.log[k].key.user, s'.notes.log[k].started) in s'.notes.draws
    {
      if k < |s.notes.log| { assert s'.notes.log[k] == s.notes.log[k]; }
    }
  }

  lemma MoreDraws(s: State, s': State)
    requires EventsDrawn(s) && s'.notes.log == s.notes.log && s.notes.draws.Keys <= s'.notes.draws.Keys
    ensures EventsDrawn(s')
  {
  }

  lemma SteppedOnStaysBehind(s: State, r: nat, key: Key, read: Progress, line: Puzzle, uci: string)
    requires Behind(s) && AllDrawn(s)
    requires r in s.requests && s.requests[r] == Request(key, Grading(read, uci, Some(line)))
    ensures Behind(SteppedOn(s, r, key, read, line, uci))
  {
    hide EventsDrawn, Drawn;
    var s' := SteppedOn(s, r, key, read, line, uci);
    assert ReadOf(s.requests[r].stage) == Some(read);
    assert Drawn(s, key, read);
    if s'.notes.log != s.notes.log {
      var e := Accepted(key, read.puzzle, line, read.started, read.step, uci);
      DrawnAt(s, key, read);
      EventsDrawnStays(s, s', e);
      forall k | k in s'.redis ensures EventBehind(s', k, e) && Further(s, s', k) {
        JudgedBehind(s, r, read, e, k);
      }
    } else {
      MoreDraws(s, s');
    }
    BehindStays(s, s');
  }

  lemma DrawnAt(s: State, key: Key, p: Progress)
    requires Drawn(s, key, p)
    ensures (key.user, p.started) in s.notes.draws
  {
  }

  lemma EndedStaysBehind(s: State, r: nat, key: Key, read: Progress, line: Puzzle, uci: string, correct: bool, up: bool)
    requires Behind(s) && AllDrawn(s)
    requires r in s.requests && s.requests[r] == Request(key, Grading(read, uci, Some(line)))
    ensures Behind(Ended(s, r, key, read, line, uci, correct, up))
  {
    hide EventsDrawn, Drawn, Recorded;
    var s' := Ended(s, r, key, read, line, uci, correct, up);
    assert ReadOf(s.requests[r].stage) == Some(read);
    assert Drawn(s, key, read);
    if s'.notes.log != s.notes.log {
      var e := Settled(key, DrawOf(s, key.user, read.started).run, read.puzzle, line, read.started,
                       read.step, uci, correct);
      DrawnAt(s, key, read);
      EventsDrawnStays(s, s', e);
      forall k | k in s'.redis ensures EventBehind(s', k, e) && Further(s, s', k) {
        JudgedBehind(s, r, read, e, k);
      }
    } else {
      MoreDraws(s, s');
    }
    BehindStays(s, s');
  }

  lemma QuietStaysBehind(s: State, s': State)
    requires Behind(s) && s'.notes.log == s.notes.log && s'.notes.draws == s.notes.draws
    requires forall key | key in s'.redis :: key in s.redis && s'.redis[key] == s.redis[key]
    requires forall r | r in s'.requests && ReadOf(s'.requests[r].stage).Some? ::
      || (r in s.requests && s'.requests[r].key == s.requests[r].key
          && ReadOf(s'.requests[r].stage) == ReadOf(s.requests[r].stage))
      || (s'.requests[r].key in s'.redis
          && ReadOf(s'.requests[r].stage) == Some(s'.redis[s'.requests[r].key]))
    ensures Behind(s')
  {
    hide EventsDrawn, ReadOf, Of;
    MoreDraws(s, s');
    BehindStays(s, s');
  }

  lemma ForgottenStaysBehind(s: State, r: nat, key: Key, read: Progress)
    requires Behind(s)
    ensures Behind(Forgotten(s, r, key, read))
  {
    hide Behind;
    QuietStaysBehind(s, Forgotten(s, r, key, read));
  }

  lemma GradeStaysBehind<P>(b: Board<P>, s: State, r: nat, up: bool)
    requires Behind(s) && Runs(s)
    ensures Behind(DoGrade(b, s, r, up))
  {
    hide Behind, AllDrawn, RunOk, RequestOk, DrawsOk, LogOk, NoGrowthAfterMiss, Graded, SteppedOn, Ended, Forgotten;
    if r in s.requests && s.requests[r].stage.Grading? {
      var Request(key, Grading(read, uci, found)) := s.requests[r];
      match found
      case None => ForgottenStaysBehind(s, r, key, read);
      case Some(line) =>
        SteppedOnStaysBehind(s, r, key, read, line, uci);
        EndedStaysBehind(s, r, key, read, line, uci, Graded(b, line, read.step, uci).correct, up);
    }
  }

  lemma AdvanceStaysBehind<P>(b: Board<P>, s: State, r: nat)
    requires Behind(s) && Inv(b, s) && Loaded(s)
    ensures Behind(DoAdvance(s, r))
  {
    hide Booked, Climbed, EventsDrawn;
    var s' := DoAdvance(s, r);
    if s'.notes.log != s.notes.log {
      var Request(key, Advancing(read)) := s.requests[r];
      var e := Grew(key, RunOf(s, key), read.count + 1);
      EventsDrawnStays(s, s', e);
      forall q | q in s'.requests && s'.requests[q].key == key ensures ReadBehind(s', s'.requests[q]) {
        if ReadOf(s.requests[q].stage).Some? {
          assert Honest(b, s.notes.log, key, ReadOf(s.requests[q].stage).value);
        }
      }
      forall k | 0 <= k < |s.notes.log| ensures EventBehind(s', key, s.notes.log[k]) {
        assert GradedOn(s, s.notes.log[k]);
      }
      assert Further(s, s', key);
      hide Inv, Loaded;
      BehindStays(s, s');
    } else {
      hide Inv, Loaded, Behind;
      QuietStaysBehind(s, s');
    }
  }

  lemma DrawStaysBehind(s: State, r: nat, puzzle: string, now: int)
    requires Behind(s) && AllDrawn(s)
    ensures Behind(DoDraw(s, r, puzzle, now))
  {
    var s' := DoDraw(s, r, puzzle, now);
    MoreDraws(s, s');
    if s'.redis != s.redis {
      var key := s.requests[r].key;
      forall q | q in s'.requests && s'.requests[q].key == key ensures ReadBehind(s', s'.requests[q]) {
        if ReadOf(s.requests[q].stage).Some? { assert Drawn(s, key, ReadOf(s.requests[q].stage).value); }
      }
      assert Further(s, s', key);
    }
    hide EventsDrawn, AllDrawn;
    BehindStays(s, s');
  }

  lemma OthersStayBehind<P>(b: Board<P>, s: State, a: Action)
    requires Behind(s) && !a.Grade? && !a.Advance? && !a.DrawNext? && !a.Look?
    ensures Behind(Next(b, s, a))
  {
    hide Behind, DoGrade, DoAdvance, DoDraw, DoLook;
    QuietStaysBehind(s, Next(b, s, a));
  }

  lemma LookStaysBehind(s: State, r: nat)
    requires Behind(s)
    ensures Behind(DoLook(s, r))
  {
    hide Behind, Found;
    QuietStaysBehind(s, DoLook(s, r));
  }

  // ---- Every reachable state ------------------------------------------------------------------------

  ghost predicate Known<P>(b: Board<P>, s: State) {
    Inv(b, s) && Loaded(s) && Present(s) && Runs(s) && Behind(s)
  }

  lemma KnownStays<P>(b: Board<P>, s: State, a: Action)
    requires Known(b, s)
    ensures Known(b, Next(b, s, a))
  {
    hide Inv, Loaded, Present, Runs, Behind, Next;
    StepKeeps(b, s, a);
    StepKeepsLoaded(b, s, a);
    StepStaysPresent(b, s, a);
    StepKeepsRuns(b, s, a);
    StepStaysBehind(b, s, a);
  }

  lemma StepStaysBehind<P>(b: Board<P>, s: State, a: Action)
    requires Known(b, s)
    ensures Behind(Next(b, s, a))
  {
    hide Inv, Loaded, Present, Behind, DoGrade, DoAdvance, DoDraw, DoLook, RunOk, RequestOk, DrawsOk, LogOk,
      NoGrowthAfterMiss, AllDrawn;
    match a
    case Grade(r, up) => GradeStaysBehind(b, s, r, up);
    case Advance(r) => AdvanceStaysBehind(b, s, r);
    case DrawNext(r, puzzle, now) => DrawStaysBehind(s, r, puzzle, now);
    case Look(r) => LookStaysBehind(s, r);
    case _ => OthersStayBehind(b, s, a);
  }

  lemma {:induction false} EveryStateIsKnown<P>(b: Board<P>, accounts: map<string, Account>, run: seq<Action>)
    ensures Known(b, Exec(b, Init(accounts), run))
  {
    hide Known, Next;
    if run == [] {
      StartIsKnown(b, accounts);
    } else {
      EveryStateIsKnown(b, accounts, run[..|run| - 1]);
      KnownStays(b, Exec(b, Init(accounts), run[..|run| - 1]), run[|run| - 1]);
    }
  }

  lemma StartIsKnown<P>(b: Board<P>, accounts: map<string, Account>)
    ensures Known(b, Init(accounts))
  {
    StartIsHonest(b, accounts);
    NothingHeldYet(accounts);
    NoRunsYet(accounts);
  }

  // ---- Steps ----------------------------------------------------------------------------------------

  predicate Onward<P>(b: Board<P>, line: Puzzle, step: int, uci: string) {
    var v := Graded(b, line, step, uci); v.correct && !v.finished
  }

  ghost predicate StoredFits(s: State, corpus: map<string, Puzzle>, key: Key)
    requires key in s.redis
  {
    s.redis[key].puzzle in corpus ==> Inside(corpus[s.redis[key].puzzle], s.redis[key].step)
  }

  /** The move waits to be graded and would be written: its next step has to fit the solution in this corpus,
      whatever line it is graded against. */
  ghost predicate MoveFits<P>(b: Board<P>, s: State, corpus: map<string, Puzzle>, q: Request) {
    && q.stage.Grading? && q.stage.line.Some? && Value(s.redis, q.key) == Some(q.stage.read)
    && q.stage.read.puzzle in corpus && Onward(b, q.stage.line.value, q.stage.read.step, q.stage.uci)
    ==> Inside(corpus[q.stage.read.puzzle], q.stage.read.step + 2)
  }

  ghost predicate Fits<P>(b: Board<P>, s: State, corpus: map<string, Puzzle>) {
    && (forall key | key in s.redis :: StoredFits(s, corpus, key))
    && (forall r | r in s.requests :: MoveFits(b, s, corpus, s.requests[r]))
  }

  /** No waiting move was made on this very value. */
  ghost predicate Unread(s: State, key: Key)
    requires key in s.redis
  {
    forall r | r in s.requests && s.requests[r].key == key && s.requests[r].stage.Grading? ::
      s.requests[r].stage.read != s.redis[key]
  }

  lemma FitsStays<P>(b: Board<P>, s: State, s': State)
    requires Fits(b, s, s.corpus) && s'.corpus == s.corpus
    requires forall key | key in s'.redis ::
      || (key in s.redis && s'.redis[key] == s.redis[key])
      || (StoredFits(s', s.corpus, key) && Unread(s', key))
    requires forall r | r in s'.requests ::
      (r in s.requests && s'.requests[r] == s.requests[r]) || MoveFits(b, s', s.corpus, s'.requests[r])
    ensures Fits(b, s', s'.corpus)
  {
    hide Onward, Inside;
    forall r | r in s'.requests ensures MoveFits(b, s', s.corpus, s'.requests[r]) {
      if r in s.requests && s'.requests[r] == s.requests[r] { assert MoveFits(b, s, s.corpus, s.requests[r]); }
    }
    forall key | key in s'.redis ensures StoredFits(s', s.corpus, key) {
      if key in s.redis && s'.redis[key] == s.redis[key] { assert StoredFits(s, s.corpus, key); }
    }
  }

  /** A write that takes an attempt further leaves nobody on the new value. */
  lemma FurtherIsUnread(s: State, s': State, key: Key)
    requires Behind(s) && key in s.redis && key in s'.redis
    requires On(s.redis[key], s'.redis[key]) && s.redis[key].step < s'.redis[key].step
    requires forall r | r in s'.requests :: r in s.requests && s'.requests[r] == s.requests[r]
    ensures Unread(s', key)
  {
    hide EventsDrawn;
    forall r | r in s'.requests && s'.requests[r].key == key && s'.requests[r].stage.Grading?
      ensures s'.requests[r].stage.read != s'.redis[key]
    {
      assert ReadBehind(s, s.requests[r]);
    }
  }

  lemma SteppedOnStaysFit<P>(b: Board<P>, s: State, r: nat, key: Key, read: Progress, line: Puzzle, uci: string)
    requires Fits(b, s, s.corpus) && Behind(s)
    requires r in s.requests && s.requests[r] == Request(key, Grading(read, uci, Some(line)))
    requires Onward(b, line, read.step, uci)
    ensures var s' := SteppedOn(s, r, key, read, line, uci); Fits(b, s', s'.corpus)
  {
    hide Behind, Onward, Inside, Unread, Fits;
    var s' := SteppedOn(s, r, key, read, line, uci);
    FitsAt(b, s, key, r);
    if s'.redis != s.redis {
      FurtherIsUnread(s, s', key);
      assert StoredFits(s', s.corpus, key);
    }
    FitsStays(b, s, s');
  }

  lemma FitsAt<P>(b: Board<P>, s: State, key: Key, r: nat)
    requires Fits(b, s, s.corpus) && r in s.requests
    ensures MoveFits(b, s, s.corpus, s.requests[r])
    ensures key in s.redis ==> StoredFits(s, s.corpus, key)
  {
    hide MoveFits, StoredFits;
  }

  lemma EndedStaysFit<P>(b: Board<P>, s: State, r: nat, key: Key, read: Progress, line: Puzzle, uci: string,
                         correct: bool, up: bool)
    requires Fits(b, s, s.corpus)
    ensures var s' := Ended(s, r, key, read, line, uci, correct, up); Fits(b, s', s'.corpus)
  {
    hide Recorded, Fits, Onward;
    FitsStays(b, s, Ended(s, r, key, read, line, uci, correct, up));
  }

  lemma ForgottenStaysFit<P>(b: Board<P>, s: State, r: nat, key: Key, read: Progress)
    requires Fits(b, s, s.corpus)
    ensures var s' := Forgotten(s, r, key, read); Fits(b, s', s'.corpus)
  {
    hide Fits;
    FitsStays(b, s, Forgotten(s, r, key, read));
  }

  lemma GradeStaysFit<P>(b: Board<P>, s: State, r: nat, up: bool)
    requires Fits(b, s, s.corpus) && Behind(s)
    ensures var s' := DoGrade(b, s, r, up); Fits(b, s', s'.corpus)
  {
    hide Fits, Behind, Graded, SteppedOn, Ended, Forgotten;
    if r in s.requests && s.requests[r].stage.Grading? {
      var Request(key, Grading(read, uci, found)) := s.requests[r];
      match found
      case None => ForgottenStaysFit(b, s, r, key, read);
      case Some(line) =>
        var v := Graded(b, line, read.step, uci);
        if v.correct && !v.finished {
          SteppedOnStaysFit(b, s, r, key, read, line, uci);
        } else {
          EndedStaysFit(b, s, r, key, read, line, uci, v.correct, up);
        }
    }
  }

  /** A move looked up now is graded by the line there is now, which it cannot leave. */
  lemma LookStaysFit<P>(b: Board<P>, s: State, r: nat)
    requires Fits(b, s, s.corpus) && Inv(b, s)
    ensures var s' := DoLook(s, r); Fits(b, s', s'.corpus)
  {
    hide Fits, Inv, Onward;
    var s' := DoLook(s, r);
    if r in s.requests && s.requests[r].stage.Looking? && s.requests[r].stage.move.Some? {
      var Request(key, Looking(read, move)) := s.requests[r];
      HeldIsEven(b, s, r);
      if read.puzzle in s.corpus && Onward(b, s.corpus[read.puzzle], read.step, move.value) {
        OnwardIsInside(b, s.corpus[read.puzzle], read.step, move.value);
      }
    }
    FitsStays(b, s, s');
  }

  lemma OnwardIsInside<P>(b: Board<P>, line: Puzzle, step: int, uci: string)
    requires Onward(b, line, step, uci) && step % 2 == 0
    ensures Inside(line, step + 2)
  {
    GradedMeans(b, line, step, uci);
    hide Graded;
  }

  lemma AdvanceStaysFit<P>(b: Board<P>, s: State, r: nat)
    requires Fits(b, s, s.corpus) && Loaded(s) && Inv(b, s)
    ensures var s' := DoAdvance(s, r); Fits(b, s', s'.corpus)
  {
    hide Fits, Inv, Onward, Graded;
    var s' := DoAdvance(s, r);
    if s'.redis != s.redis {
      var key := s.requests[r].key;
      NamelessIsNowhere(s);
      BetweenFits(b, s, s', key);
    } else {
      FitsStays(b, s, s');
    }
  }

  lemma NamelessIsNowhere(s: State)
    requires Loaded(s)
    ensures "" !in s.corpus
  {
    assert forall id | id in s.corpus :: LineOf(s, s.corpus[id], id);
  }

  /** A run between two puzzles is on none. */
  lemma BetweenFits<P>(b: Board<P>, s: State, s': State, key: Key)
    requires Fits(b, s, s.corpus) && s'.corpus == s.corpus && "" !in s.corpus
    requires key in s'.redis && s'.redis[key].puzzle == ""
    requires forall k | k in s'.redis && k != key :: k in s.redis && s'.redis[k] == s.redis[k]
    requires forall r | r in s'.requests :: r in s.requests && s'.requests[r] == s.requests[r]
    ensures Fits(b, s', s'.corpus)
  {
    hide Onward, Inside;
    forall r | r in s'.requests ensures MoveFits(b, s', s.corpus, s'.requests[r]) {
      assert MoveFits(b, s, s.corpus, s.requests[r]);
    }
    forall k | k in s'.redis ensures StoredFits(s', s.corpus, k) {
      if k != key { assert StoredFits(s, s.corpus, k); }
    }
  }

  lemma DrawStaysFit<P>(b: Board<P>, s: State, r: nat, puzzle: string, now: int)
    requires Fits(b, s, s.corpus) && AllDrawn(s)
    ensures var s' := DoDraw(s, r, puzzle, now); Fits(b, s', s'.corpus)
  {
    hide Fits, Onward;
    var s' := DoDraw(s, r, puzzle, now);
    if s'.redis != s.redis {
      var key := s.requests[r].key;
      forall q | q in s'.requests && s'.requests[q].key == key && s'.requests[q].stage.Grading?
        ensures s'.requests[q].stage.read != s'.redis[key]
      {
        assert ReadOf(s.requests[q].stage).Some? && Drawn(s, key, ReadOf(s.requests[q].stage).value);
      }
      assert StoredFits(s', s.corpus, key) && Unread(s', key);
    }
    hide AllDrawn;
    FitsStays(b, s, s');
  }

  lemma LoadStaysFit<P>(b: Board<P>, s: State, puzzles: map<string, Puzzle>)
    requires Fits(b, s, s.corpus) && Present(s) && LeavesInProgress(s, puzzles)
    ensures var s' := DoLoad(s, puzzles); Fits(b, s', s'.corpus)
  {
    hide Onward, Inside;
    var s' := DoLoad(s, puzzles);
    forall key | key in s'.redis ensures StoredFits(s', s'.corpus, key) {
      assert StoredFits(s, s.corpus, key) && Here(s, s.redis[key]) && InProgress(s, s.redis[key].puzzle);
    }
    forall r | r in s'.requests ensures MoveFits(b, s', s'.corpus, s'.requests[r]) {
      assert MoveFits(b, s, s.corpus, s.requests[r]);
      if ReadOf(s.requests[r].stage).Some? {
        assert Here(s, ReadOf(s.requests[r].stage).value);
        assert InProgress(s, ReadOf(s.requests[r].stage).value.puzzle);
      }
    }
  }

  lemma OthersStayFit<P>(b: Board<P>, s: State, a: Action)
    requires Fits(b, s, s.corpus) && !a.Grade? && !a.Advance? && !a.DrawNext? && !a.Look? && !a.Load?
    ensures var s' := Next(b, s, a); Fits(b, s', s'.corpus)
  {
    hide Fits, Onward, DoGrade, DoAdvance, DoDraw, DoLook, DoLoad;
    FitsStays(b, s, Next(b, s, a));
  }

  lemma StepStaysFit<P>(b: Board<P>, s: State, a: Action)
    requires Known(b, s) && Fits(b, s, s.corpus) && (a.Load? ==> LeavesInProgress(s, a.puzzles))
    ensures var s' := Next(b, s, a); Fits(b, s', s'.corpus)
  {
    hide Fits, Inv, Loaded, Present, Behind, LeavesInProgress, DoGrade, DoAdvance, DoDraw, DoLook, DoLoad, RunOk,
      RequestOk, DrawsOk, LogOk, NoGrowthAfterMiss, AllDrawn;
    match a
    case Grade(r, up) => GradeStaysFit(b, s, r, up);
    case Advance(r) => AdvanceStaysFit(b, s, r);
    case DrawNext(r, puzzle, now) => DrawStaysFit(b, s, r, puzzle, now);
    case Look(r) => LookStaysFit(b, s, r);
    case Load(puzzles) => LoadStaysFit(b, s, puzzles);
    case _ => OthersStayFit(b, s, a);
  }

  lemma {:induction false} FitsForGood<P>(b: Board<P>, s: State, more: seq<Action>)
    requires Known(b, s) && Fits(b, s, s.corpus) && Undisturbed(b, s, more)
    ensures var end := Exec(b, s, more); Known(b, end) && Fits(b, end, end.corpus)
  {
    hide Known, Fits, Next, LeavesInProgress;
    if more != [] {
      FitsForGood(b, s, more[..|more| - 1]);
      StepStaysFit(b, Exec(b, s, more[..|more| - 1]), more[|more| - 1]);
      KnownStays(b, Exec(b, s, more[..|more| - 1]), more[|more| - 1]);
    }
  }

  ghost predicate StepsStayInside<P>(b: Board<P>, s: State) {
    forall more | Undisturbed(b, s, more) :: AllInside(Exec(b, s, more))
  }

  lemma One<P>(b: Board<P>, s: State, a: Action)
    requires !a.Load?
    ensures Undisturbed(b, s, [a]) && Exec(b, s, [a]) == Next(b, s, a)
    ensures Undisturbed(b, s, []) && Exec(b, s, []) == s
  {
    hide Next;
    assert [a][..0] == [];
    assert Exec(b, s, [a][..0]) == s;
  }

  lemma MisfitGoesWrong<P>(b: Board<P>, s: State)
    requires !Fits(b, s, s.corpus)
    ensures !StepsStayInside(b, s)
  {
    hide Graded;
    One(b, s, Abandon(0));
    if r :| r in s.requests && !MoveFits(b, s, s.corpus, s.requests[r]) {
      One(b, s, Grade(r, true));
      var s' := DoGrade(b, s, r, true);
      var key := s.requests[r].key;
      assert s'.redis[key] == s.redis[key].(step := s.redis[key].step + 2);
      assert !AllInside(s');
    } else {
      var key :| key in s.redis && !StoredFits(s, s.corpus, key);
      assert !AllInside(s);
    }
  }

  /** From any reachable state, unless a puzzle in progress is rewritten again: no stored step is ever outside its
      solution exactly when none is now and no move that waits to be graded would write one. */
  lemma StepsStayInsideExactly<P>(b: Board<P>, s: State)
    requires Known(b, s)
    ensures StepsStayInside(b, s) <==> Fits(b, s, s.corpus)
  {
    hide Known;
    if Fits(b, s, s.corpus) {
      forall more | Undisturbed(b, s, more) ensures AllInside(Exec(b, s, more)) {
        FitsForGood(b, s, more);
        FitIsInside(b, Exec(b, s, more));
      }
    } else {
      MisfitGoesWrong(b, s);
    }
  }

  lemma FitIsInside<P>(b: Board<P>, s: State)
    requires Fits(b, s, s.corpus)
    ensures AllInside(s)
  {
    hide MoveFits, Inside;
    forall key | key in s.redis && s.redis[key].puzzle in s.corpus
      ensures Inside(s.corpus[s.redis[key].puzzle], s.redis[key].step)
    {
      assert StoredFits(s, s.corpus, key);
    }
  }

  // ---- A reload -------------------------------------------------------------------------------------

  /** After a reload, and whatever follows it but another that rewrites a puzzle in progress: no stored step is
      ever outside its solution exactly when every stored attempt is inside the solution it has then, and no
      accepted move that was looked up before and not written yet takes its attempt out of it. */
  lemma ReloadKeepsStepsExactly<P>(b: Board<P>, accounts: map<string, Account>, run: seq<Action>,
                                   puzzles: map<string, Puzzle>)
    requires Loadable(puzzles)
    ensures var s := Exec(b, Init(accounts), run);
      StepsStayInside(b, DoLoad(s, puzzles)) <==> Fits(b, s, s.corpus + puzzles)
  {
    hide Known, Fits, Loadable, StepsStayInside, Exec;
    var s := Exec(b, Init(accounts), run);
    EveryStateIsKnown(b, accounts, run);
    KnownStays(b, s, Load(puzzles));
    StepsStayInsideExactly(b, DoLoad(s, puzzles));
    LoadedFits(b, s, puzzles);
  }

  lemma LoadedFits<P>(b: Board<P>, s: State, puzzles: map<string, Puzzle>)
    requires Loadable(puzzles)
    ensures var s' := DoLoad(s, puzzles);
      s'.corpus == s.corpus + puzzles && (Fits(b, s', s'.corpus) <==> Fits(b, s, s.corpus + puzzles))
  {
    hide Loadable, Onward, Inside;
    var s', corpus := DoLoad(s, puzzles), s.corpus + puzzles;
    assert forall key | key in s.redis :: StoredFits(s', corpus, key) <==> StoredFits(s, corpus, key);
    assert forall r | r in s.requests ::
      MoveFits(b, s', corpus, s.requests[r]) <==> MoveFits(b, s, corpus, s.requests[r]);
  }
}
