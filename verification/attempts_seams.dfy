/** A move is judged by the line the accepted moves before it were judged by: exactly when that can stop being
    so, after a reload above all. */
module AttemptsSeams {
  import opened Options
  import opened Puzzle
  import opened Attempts
  import opened AttemptsChain
  import opened AttemptsPresent
  import opened AttemptsRuns
  import opened AttemptsLines
  import opened AttemptsReloads
  import opened Fresh

  /** An accepted move of the attempt before this step. */
  predicate Below(e: Event, user: string, p: Progress) {
    e.Accepted? && Of(e, user, p) && 0 <= e.step < p.step
  }

  ghost predicate Under(log: seq<Event>, user: string, p: Progress, line: Puzzle) {
    forall k | 0 <= k < |log| && Below(log[k], user, p) :: log[k].line == line
  }

  function At(e: Event): Progress
    requires Judges(e)
  {
    Progress(e.puzzle, e.step, 0, e.started)
  }

  /** Every judged move was judged by the line of the accepted moves before it. */
  ghost predicate Seamless(log: seq<Event>) {
    forall k | 0 <= k < |log| && Judges(log[k]) :: Under(log, log[k].key.user, At(log[k]), log[k].line)
  }

  /** The attempt can still be recorded. */
  predicate Free(db: Db, key: Key, p: Progress) {
    && AttemptId(key.user, p.puzzle, p.started) !in db.attempts
    && key.user in db.accounts && p.puzzle in db.counters
  }

  /** Some move made on this value would be judged. */
  ghost predicate MayMove<P>(b: Board<P>, db: Db, key: Key, p: Progress, line: Puzzle) {
    Free(db, key, p) || exists uci :: Onward(b, line, p.step, uci)
  }

  /** This move, made on this value, would be. */
  predicate Live<P>(b: Board<P>, s: State, key: Key, read: Progress, line: Puzzle, uci: string) {
    if Onward(b, line, read.step, uci) then Value(s.redis, key) == Some(read) else Free(s.db, key, read)
  }

  ghost predicate StoredFlows<P>(b: Board<P>, s: State, key: Key)
    requires key in s.redis
  {
    var p := s.redis[key];
    p.puzzle in s.corpus && MayMove(b, s.db, key, p, s.corpus[p.puzzle]) ==>
      Under(s.notes.log, key.user, p, s.corpus[p.puzzle])
  }

  ghost predicate GradingFlows<P>(b: Board<P>, s: State, key: Key, read: Progress, uci: string, line: Puzzle) {
    Live(b, s, key, read, line, uci) ==>
      && Under(s.notes.log, key.user, read, line)
      && (Onward(b, line, read.step, uci) && read.puzzle in s.corpus && s.corpus[read.puzzle] != line ==>
            !MayMove(b, s.db, key, read.(step := read.step + 2), s.corpus[read.puzzle]))
  }

  ghost predicate LookingFlows<P>(b: Board<P>, s: State, key: Key, read: Progress, uci: string) {
    read.puzzle in s.corpus && Live(b, s, key, read, s.corpus[read.puzzle], uci) ==>
      Under(s.notes.log, key.user, read, s.corpus[read.puzzle])
  }

  ghost predicate RequestFlows<P>(b: Board<P>, s: State, q: Request) {
    && (q.stage.Grading? && q.stage.line.Some? ==>
          GradingFlows(b, s, q.key, q.stage.read, q.stage.uci, q.stage.line.value))
    && (q.stage.Looking? && q.stage.move.Some? ==> LookingFlows(b, s, q.key, q.stage.read, q.stage.move.value))
  }

  ghost predicate Flows<P>(b: Board<P>, s: State) {
    && Seamless(s.notes.log)
    && (forall key | key in s.redis :: StoredFlows(b, s, key))
    && (forall r | r in s.requests :: RequestFlows(b, s, s.requests[r]))
  }

  // ---- What a step may do ---------------------------------------------------------------------------

  ghost predicate StillUnder(s: State, s': State, user: string, p: Progress) {
    forall line :: Under(s.notes.log, user, p, line) ==> Under(s'.notes.log, user, p, line)
  }

  ghost predicate FreeShrinks(s: State, s': State) {
    forall key, p :: Free(s'.db, key, p) ==> Free(s.db, key, p)
  }

  /** No move under way was made on this very value. */
  ghost predicate Unheld(s: State, key: Key)
    requires key in s.redis
  {
    forall r | r in s.requests && s.requests[r].key == key && UnderWay(s, s.requests[r].stage) ::
      s.requests[r].stage.read != s.redis[key]
  }

  ghost predicate UnderWay(s: State, stage: Stage) {
    (stage.Grading? && stage.line.Some?) || (stage.Looking? && stage.read.puzzle in s.corpus)
  }

  lemma StoredStays<P>(b: Board<P>, s: State, s': State, key: Key)
    requires key in s.redis && key in s'.redis && s'.redis[key] == s.redis[key] && StoredFlows(b, s, key)
    requires s'.corpus == s.corpus && FreeShrinks(s, s') && StillUnder(s, s', key.user, s.redis[key])
    ensures StoredFlows(b, s', key)
  {
    hide Free, Under, Onward;
  }

  /** Nothing new is stored that a request could have been waiting on. */
  ghost predicate NoComeback(s: State, s': State, key: Key) {
    key in s'.redis ==> (key in s.redis && s'.redis[key] == s.redis[key]) || Unheld(s', key)
  }

  lemma RequestStays<P>(b: Board<P>, s: State, s': State, r: nat)
    requires r in s.requests && r in s'.requests && s'.requests[r] == s.requests[r]
    requires RequestFlows(b, s, s.requests[r]) && s'.corpus == s.corpus && FreeShrinks(s, s')
    requires NoComeback(s, s', s.requests[r].key)
    requires ReadOf(s.requests[r].stage).Some? ==>
      StillUnder(s, s', s.requests[r].key.user, ReadOf(s.requests[r].stage).value)
    ensures RequestFlows(b, s', s'.requests[r])
  {
    hide Free, Under, Onward;
    var key := s.requests[r].key;
    if UnderWay(s, s.requests[r].stage) {
      var read := s.requests[r].stage.read;
      assert Value(s'.redis, key) == Some(read) ==> Value(s.redis, key) == Some(read);
    }
  }

  lemma FlowsStays<P>(b: Board<P>, s: State, s': State)
    requires Flows(b, s) && Seamless(s'.notes.log) && s'.corpus == s.corpus && FreeShrinks(s, s')
    requires forall key | key in s'.redis ::
      || (key in s.redis && s'.redis[key] == s.redis[key] && StillUnder(s, s', key.user, s.redis[key]))
      || (StoredFlows(b, s', key) && Unheld(s', key))
    requires forall r | r in s'.requests ::
      || (r in s.requests && s'.requests[r] == s.requests[r]
          && (ReadOf(s.requests[r].stage).Some? ==>
                StillUnder(s, s', s.requests[r].key.user, ReadOf(s.requests[r].stage).value)))
      || RequestFlows(b, s', s'.requests[r])
    ensures Flows(b, s')
  {
    hide Free, Under, Onward, Seamless, StoredFlows, RequestFlows, FreeShrinks, StillUnder, Unheld, ReadOf;
    forall key | key in s'.redis ensures StoredFlows(b, s', key) {
      if key in s.redis && s'.redis[key] == s.redis[key] && StillUnder(s, s', key.user, s.redis[key]) {
        StoredStays(b, s, s', key);
      }
    }
    forall r | r in s'.requests ensures RequestFlows(b, s', s'.requests[r]) {
      if r in s.requests && s'.requests[r] == s.requests[r]
         && (ReadOf(s.requests[r].stage).Some? ==>
               StillUnder(s, s', s.requests[r].key.user, ReadOf(s.requests[r].stage).value)) {
        RequestStays(b, s, s', r);
      }
    }
  }

  lemma SameEvents(s: State, s': State)
    requires s'.notes.log == s.notes.log
    ensures forall user, p :: StillUnder(s, s', user, p)
  {
  }

  /** An event that accepts nothing is below nothing. */
  lemma NothingAccepted(s: State, s': State, e: Event)
    requires s'.notes.log == s.notes.log + [e] && !e.Accepted?
    ensures forall user, p :: StillUnder(s, s', user, p)
  {
    forall user, p, line | Under(s.notes.log, user, p, line) ensures Under(s'.notes.log, user, p, line) {
      forall k | 0 <= k < |s'.notes.log| && Below(s'.notes.log[k], user, p) ensures s'.notes.log[k].line == line {
        assert k < |s.notes.log| && s'.notes.log[k] == s.notes.log[k];
      }
    }
  }

  lemma SeamlessWith(s: State, s': State, e: Event)
    requires Seamless(s.notes.log) && s'.notes.log == s.notes.log + [e]
    requires Judges(e) ==> Under(s'.notes.log, e.key.user, At(e), e.line)
    requires forall k | 0 <= k < |s.notes.log| && Judges(s.notes.log[k]) ::
      StillUnder(s, s', s.notes.log[k].key.user, At(s.notes.log[k]))
    ensures Seamless(s'.notes.log)
  {
    hide Under;
    forall k | 0 <= k < |s'.notes.log| && Judges(s'.notes.log[k])
      ensures Under(s'.notes.log, s'.notes.log[k].key.user, At(s'.notes.log[k]), s'.notes.log[k].line)
    {
      if k < |s.notes.log| { assert s'.notes.log[k] == s.notes.log[k]; }
    }
  }

  /** Only the attempt matters, and how far. */
  lemma UnderOn(log: seq<Event>, user: string, p: Progress, q: Progress, line: Puzzle)
    requires On(p, q) && p.step == q.step
    ensures Under(log, user, p, line) <==> Under(log, user, q, line)
  {
    assert forall e :: Below(e, user, p) <==> Below(e, user, q);
  }

  // ---- An accepted move -----------------------------------------------------------------------------

  /** An accepted move of the stored value is below nothing anybody holds. */
  lemma AcceptedIsBelowNone(s: State, s': State, e: Event, read: Progress, key: Key, p: Progress)
    requires AllDrawn(s) && Drawn(s, e.key, read) && Drawn(s, key, p)
    requires e.Accepted? && e.puzzle == read.puzzle && e.started == read.started && e.step == read.step
    requires s'.notes.log == s.notes.log + [e]
    requires key == e.key && On(p, read) ==> p.step <= read.step
    ensures StillUnder(s, s', key.user, p)
  {
    forall line | Under(s.notes.log, key.user, p, line) ensures Under(s'.notes.log, key.user, p, line) {
      forall k | 0 <= k < |s'.notes.log| && Below(s'.notes.log[k], key.user, p) ensures s'.notes.log[k].line == line {
        if k < |s.notes.log| {
          assert s'.notes.log[k] == s.notes.log[k];
        } else {
          SameKey(s, key, p, e.key, read);
          assert false;
        }
      }
    }
  }

  lemma ReadIsStillUnder(s: State, s': State, e: Event, read: Progress, r: nat)
    requires Behind(s) && AllDrawn(s) && Value(s.redis, e.key) == Some(read) && r in s.requests
    requires ReadOf(s.requests[r].stage).Some?
    requires e.Accepted? && e.puzzle == read.puzzle && e.started == read.started && e.step == read.step
    requires s'.notes.log == s.notes.log + [e]
    ensures StillUnder(s, s', s.requests[r].key.user, ReadOf(s.requests[r].stage).value)
  {
    hide EventsDrawn, StillUnder, Drawn;
    var p := ReadOf(s.requests[r].stage).value;
    assert Drawn(s, e.key, read) && Drawn(s, s.requests[r].key, p) && ReadBehind(s, s.requests[r]);
    AcceptedIsBelowNone(s, s', e, read, s.requests[r].key, p);
  }

  lemma StoredIsStillUnder(s: State, s': State, e: Event, read: Progress, key: Key)
    requires AllDrawn(s) && Value(s.redis, e.key) == Some(read) && key in s.redis
    requires e.Accepted? && e.puzzle == read.puzzle && e.started == read.started && e.step == read.step
    requires s'.notes.log == s.notes.log + [e]
    ensures StillUnder(s, s', key.user, s.redis[key])
  {
    hide StillUnder, Drawn;
    assert Drawn(s, e.key, read) && Drawn(s, key, s.redis[key]);
    AcceptedIsBelowNone(s, s', e, read, key, s.redis[key]);
  }

  /** The events so far are not above it either. */
  lemma EventsAreStillUnder(s: State, s': State, e: Event, read: Progress, j: nat)
    requires Behind(s) && Value(s.redis, e.key) == Some(read) && j < |s.notes.log| && Judges(s.notes.log[j])
    requires e.Accepted? && e.puzzle == read.puzzle && e.started == read.started && e.step == read.step
    requires s'.notes.log == s.notes.log + [e]
    ensures StillUnder(s, s', s.notes.log[j].key.user, At(s.notes.log[j]))
  {
    var user, p := s.notes.log[j].key.user, At(s.notes.log[j]);
    assert EventBehind(s, e.key, s.notes.log[j]);
    forall line | Under(s.notes.log, user, p, line) ensures Under(s'.notes.log, user, p, line) {
      forall k | 0 <= k < |s'.notes.log| && Below(s'.notes.log[k], user, p) ensures s'.notes.log[k].line == line {
        if k < |s.notes.log| {
          assert s'.notes.log[k] == s.notes.log[k];
        } else {
          assert Of(s.notes.log[j], e.key.user, read);
          assert false;
        }
      }
    }
  }

  lemma SteppedSeamless(s: State, s': State, e: Event, read: Progress)
    requires Behind(s) && Value(s.redis, e.key) == Some(read) && Seamless(s.notes.log)
    requires e.Accepted? && e.puzzle == read.puzzle && e.started == read.started && e.step == read.step
    requires s'.notes.log == s.notes.log + [e] && Under(s.notes.log, e.key.user, read, e.line)
    ensures Seamless(s'.notes.log)
  {
    hide StillUnder, Behind, Seamless;
    forall j | 0 <= j < |s.notes.log| && Judges(s.notes.log[j])
      ensures StillUnder(s, s', s.notes.log[j].key.user, At(s.notes.log[j]))
    {
      EventsAreStillUnder(s, s', e, read, j);
    }
    UnderOn(s.notes.log, e.key.user, read, At(e), e.line);
    NotUnderItself(s, s', e);
    SeamlessWith(s, s', e);
  }

  lemma NotUnderItself(s: State, s': State, e: Event)
    requires Judges(e) && s'.notes.log == s.notes.log + [e] && Under(s.notes.log, e.key.user, At(e), e.line)
    ensures Under(s'.notes.log, e.key.user, At(e), e.line)
  {
    forall k | 0 <= k < |s'.notes.log| && Below(s'.notes.log[k], e.key.user, At(e)) ensures s'.notes.log[k].line == e.line {
      assert k < |s.notes.log| && s'.notes.log[k] == s.notes.log[k];
    }
  }

  /** What is stored after it is over it, if it was by the line there is now. */
  lemma NextIsUnder(s: State, s': State, e: Event, read: Progress)
    requires Behind(s) && Value(s.redis, e.key) == Some(read)
    requires e.Accepted? && e.puzzle == read.puzzle && e.started == read.started && e.step == read.step
    requires s'.notes.log == s.notes.log + [e] && Under(s.notes.log, e.key.user, read, e.line)
    ensures Under(s'.notes.log, e.key.user, read.(step := read.step + 2), e.line)
  {
    hide EventsDrawn;
    var next := read.(step := read.step + 2);
    forall k | 0 <= k < |s'.notes.log| && Below(s'.notes.log[k], e.key.user, next) ensures s'.notes.log[k].line == e.line {
      if k < |s.notes.log| {
        assert s'.notes.log[k] == s.notes.log[k] && EventBehind(s, e.key, s.notes.log[k]);
        assert Below(s.notes.log[k], e.key.user, read);
      }
    }
  }

  lemma FurtherIsUnheld(s: State, s': State, key: Key)
    requires Behind(s) && key in s.redis && key in s'.redis
    requires On(s.redis[key], s'.redis[key]) && s.redis[key].step < s'.redis[key].step
    requires forall r | r in s'.requests :: r in s.requests && s'.requests[r] == s.requests[r]
    ensures Unheld(s', key)
  {
    hide EventsDrawn;
    forall r | r in s'.requests && s'.requests[r].key == key && UnderWay(s', s'.requests[r].stage)
      ensures s'.requests[r].stage.read != s'.redis[key]
    {
      assert ReadBehind(s, s.requests[r]);
    }
  }

  lemma FlowsAt<P>(b: Board<P>, s: State, r: nat)
    requires Flows(b, s) && r in s.requests
    ensures RequestFlows(b, s, s.requests[r])
  {
    hide RequestFlows, StoredFlows, Seamless;
  }

  lemma SteppedOnStaysFlowing<P>(b: Board<P>, s: State, r: nat, key: Key, read: Progress, line: Puzzle, uci: string)
    requires Flows(b, s) && Behind(s) && AllDrawn(s)
    requires r in s.requests && s.requests[r] == Request(key, Grading(read, uci, Some(line)))
    requires Onward(b, line, read.step, uci)
    ensures Flows(b, SteppedOn(s, r, key, read, line, uci))
  {
    hide Behind, AllDrawn, Onward, Under, Unheld, Flows, Seamless, StillUnder, Free;
    var s' := SteppedOn(s, r, key, read, line, uci);
    FlowsAt(b, s, r);
    SeamlessNow(b, s);
    if s'.redis != s.redis {
      var e := Accepted(key, read.puzzle, line, read.started, read.step, uci);
      var next := read.(step := read.step + 2);
      SteppedSeamless(s, s', e, read);
      NextIsUnder(s, s', e, read);
      FurtherIsUnheld(s, s', key);
      SteppedStored(b, s, s', key, read, line, uci);
      forall q | q in s'.requests && ReadOf(s.requests[q].stage).Some?
        ensures StillUnder(s, s', s.requests[q].key.user, ReadOf(s.requests[q].stage).value)
      {
        ReadIsStillUnder(s, s', e, read, q);
      }
      forall k | k in s'.redis && k != key ensures StillUnder(s, s', k.user, s.redis[k]) {
        StoredIsStillUnder(s, s', e, read, k);
      }
      SameFree(s, s');
      FlowsStays(b, s, s');
    } else {
      LessFlows(b, s, s', r);
    }
  }

  lemma SteppedStored<P>(b: Board<P>, s: State, s': State, key: Key, read: Progress, line: Puzzle, uci: string)
    requires Value(s.redis, key) == Some(read) && Onward(b, line, read.step, uci)
    requires GradingFlows(b, s, key, read, uci, line)
    requires s'.redis == s.redis[key := read.(step := read.step + 2)] && s'.corpus == s.corpus && s'.db == s.db
    requires Under(s'.notes.log, key.user, read.(step := read.step + 2), line)
    ensures StoredFlows(b, s', key)
  {
    hide Onward, Under, MayMove;
  }

  lemma SeamlessNow<P>(b: Board<P>, s: State)
    requires Flows(b, s)
    ensures Seamless(s.notes.log)
  {
    hide StoredFlows, RequestFlows, Seamless;
  }

  lemma SameFree(s: State, s': State)
    requires s'.db.accounts.Keys == s.db.accounts.Keys && s'.db.counters.Keys == s.db.counters.Keys
    requires s.db.attempts.Keys <= s'.db.attempts.Keys
    ensures FreeShrinks(s, s')
  {
  }

  /** One request, or one key, fewer. */
  lemma LessFlows<P>(b: Board<P>, s: State, s': State, r: nat)
    requires Flows(b, s) && s'.notes.log == s.notes.log && s'.corpus == s.corpus && FreeShrinks(s, s')
    requires forall key | key in s'.redis :: key in s.redis && s'.redis[key] == s.redis[key]
    requires forall q | q in s'.requests ::
      (q in s.requests && s'.requests[q] == s.requests[q]) || (!s'.requests[q].stage.Grading? && !s'.requests[q].stage.Looking?)
    ensures Flows(b, s')
  {
    hide Flows, FreeShrinks, StillUnder, Seamless, StoredFlows, GradingFlows, LookingFlows;
    SeamlessNow(b, s);
    SameEvents(s, s');
    FlowsStays(b, s, s');
  }

  // ---- The other steps --------------------------------------------------------------------------------

  lemma EndedStaysFlowing<P>(b: Board<P>, s: State, r: nat, key: Key, read: Progress, line: Puzzle, uci: string, up: bool)
    requires Flows(b, s) && r in s.requests && s.requests[r] == Request(key, Grading(read, uci, Some(line)))
    requires !Onward(b, line, read.step, uci)
    ensures Flows(b, Ended(s, r, key, read, line, uci, Graded(b, line, read.step, uci).correct, up))
  {
    hide Onward, Under, Flows, Seamless, StillUnder, Graded, FreeShrinks;
    var correct := Graded(b, line, read.step, uci).correct;
    var s' := Ended(s, r, key, read, line, uci, correct, up);
    FlowsAt(b, s, r);
    SeamlessNow(b, s);
    RecordedIsFree(s.db, key, read, Attempt(key.mode, correct));
    hide Recorded, Free;
    if s'.notes.log != s.notes.log {
      var e := Settled(key, DrawOf(s, key.user, read.started).run, read.puzzle, line, read.started,
                       read.step, uci, correct);
      NothingAccepted(s, s', e);
      UnderOn(s.notes.log, key.user, read, At(e), line);
      NotUnderItself(s, s', e);
      SeamlessWith(s, s', e);
      SameFree(s, s');
      FlowsStays(b, s, s');
    } else {
      SameFree(s, s');
      LessFlows(b, s, s', r);
    }
  }

  lemma RecordedIsFree(db: Db, key: Key, p: Progress, row: Attempt)
    ensures var id := AttemptId(key.user, p.puzzle, p.started);
      && (Recorded(db, id, row).Some? <==> Free(db, key, p))
      && (Recorded(db, id, row).Some? ==>
            var after := Recorded(db, id, row).value;
            && after.accounts.Keys == db.accounts.Keys && after.counters.Keys == db.counters.Keys
            && db.attempts.Keys <= after.attempts.Keys)
  {
  }

  lemma ForgottenStaysFlowing<P>(b: Board<P>, s: State, r: nat, key: Key, read: Progress)
    requires Flows(b, s)
    ensures Flows(b, Forgotten(s, r, key, read))
  {
    hide Flows, FreeShrinks;
    SameFree(s, Forgotten(s, r, key, read));
    LessFlows(b, s, Forgotten(s, r, key, read), r);
  }

  lemma GradeStaysFlowing<P>(b: Board<P>, s: State, r: nat, up: bool)
    requires Flows(b, s) && Behind(s) && AllDrawn(s)
    ensures Flows(b, DoGrade(b, s, r, up))
  {
    hide Flows, Behind, AllDrawn, Graded, SteppedOn, Ended, Forgotten;
    if r in s.requests && s.requests[r].stage.Grading? {
      var Request(key, Grading(read, uci, found)) := s.requests[r];
      match found
      case None => ForgottenStaysFlowing(b, s, r, key, read);
      case Some(line) =>
        if Onward(b, line, read.step, uci) {
          SteppedOnStaysFlowing(b, s, r, key, read, line, uci);
        } else {
          EndedStaysFlowing(b, s, r, key, read, line, uci, up);
        }
    }
  }

  lemma ReadMoveStaysFlowing<P>(b: Board<P>, s: State, r: nat, key: Key, uci: string)
    requires Flows(b, s)
    ensures Flows(b, DoReadMove(s, r, key, uci))
  {
    var s' := DoReadMove(s, r, key, uci);
    if s' != s {
      assert StoredFlows(b, s, key);
      hide Flows, Onward, Under, Free, Seamless, StillUnder, FreeShrinks;
      assert RequestFlows(b, s', s'.requests[r]);
      SeamlessNow(b, s);
      SameEvents(s, s');
      SameFree(s, s');
      FlowsStays(b, s, s');
    }
  }

  lemma LookStaysFlowing<P>(b: Board<P>, s: State, r: nat)
    requires Flows(b, s)
    ensures Flows(b, DoLook(s, r))
  {
    hide Flows, Onward, Under, Free, Seamless, StillUnder, FreeShrinks, MayMove;
    var s' := DoLook(s, r);
    SeamlessNow(b, s);
    SameEvents(s, s');
    SameFree(s, s');
    if r in s.requests && s.requests[r].stage.Looking? {
      FlowsAt(b, s, r);
      if r in s'.requests { assert RequestFlows(b, s', s'.requests[r]); }
    }
    hide RequestFlows, StoredFlows;
    FlowsStays(b, s, s');
  }

  lemma AdvanceStaysFlowing<P>(b: Board<P>, s: State, r: nat)
    requires Flows(b, s) && Loaded(s)
    ensures Flows(b, DoAdvance(s, r))
  {
    hide Flows, Onward, Under, Free, Seamless, StillUnder, FreeShrinks, MayMove;
    var s' := DoAdvance(s, r);
    NamelessIsNowhere(s);
    SeamlessNow(b, s);
    SameFree(s, s');
    if s'.redis != s.redis {
      var Request(key, Advancing(read)) := s.requests[r];
      var e := Grew(key, RunOf(s, key), read.count + 1);
      NothingAccepted(s, s', e);
      SeamlessWith(s, s', e);
      forall q | q in s'.requests && s'.requests[q].key == key && UnderWay(s', s'.requests[q].stage)
        ensures s'.requests[q].stage.read != s'.redis[key]
      {
        assert Holds(s, s.requests[q].stage);
      }
      assert StoredFlows(b, s', key) && Unheld(s', key);
      hide RequestFlows, StoredFlows, Unheld;
      FlowsStays(b, s, s');
    } else {
      LessFlows(b, s, s', r);
    }
  }

  lemma DrawStaysFlowing<P>(b: Board<P>, s: State, r: nat, puzzle: string, now: int)
    requires Flows(b, s) && AllDrawn(s)
    ensures Flows(b, DoDraw(s, r, puzzle, now))
  {
    hide Flows, Onward, Free, Seamless, StillUnder, FreeShrinks, MayMove;
    var s' := DoDraw(s, r, puzzle, now);
    SeamlessNow(b, s);
    SameEvents(s, s');
    SameFree(s, s');
    if s'.redis != s.redis {
      var key := s.requests[r].key;
      forall q | q in s'.requests && s'.requests[q].key == key && UnderWay(s', s'.requests[q].stage)
        ensures s'.requests[q].stage.read != s'.redis[key]
      {
        assert ReadOf(s.requests[q].stage).Some? && Drawn(s, key, ReadOf(s.requests[q].stage).value);
      }
      assert StoredFlows(b, s', key) && Unheld(s', key);
    }
    hide RequestFlows, StoredFlows, Unheld, AllDrawn;
    FlowsStays(b, s, s');
  }

  /** Loading frees no attempt on a puzzle that was there. */
  lemma LoadingFreesNone<P>(b: Board<P>, s: State, puzzles: map<string, Puzzle>, key: Key, p: Progress, line: Puzzle)
    requires p.puzzle in s.db.counters
    ensures Free(DoLoad(s, puzzles).db, key, p) <==> Free(s.db, key, p)
    ensures MayMove(b, DoLoad(s, puzzles).db, key, p, line) <==> MayMove(b, s.db, key, p, line)
  {
    hide Onward, Loadable;
  }

  lemma LoadedHas(s: State, puzzles: map<string, Puzzle>, p: Progress)
    requires Present(s) && Loaded(s) && Here(s, p) && LeavesInProgress(s, puzzles) && InProgress(s, p.puzzle)
    ensures p.puzzle in DoLoad(s, puzzles).corpus ==>
      && p.puzzle in s.corpus && p.puzzle in s.db.counters
      && DoLoad(s, puzzles).corpus[p.puzzle] == s.corpus[p.puzzle]
  {
    NamelessIsNowhere(s);
  }

  lemma LoadedStoredFlows<P>(b: Board<P>, s: State, puzzles: map<string, Puzzle>, key: Key)
    requires Present(s) && Loaded(s) && LeavesInProgress(s, puzzles) && key in s.redis && StoredFlows(b, s, key)
    ensures StoredFlows(b, DoLoad(s, puzzles), key)
  {
    assert Here(s, s.redis[key]) && InProgress(s, s.redis[key].puzzle);
    LoadedHas(s, puzzles, s.redis[key]);
    if s.redis[key].puzzle in s.corpus {
      LoadingFreesNone(b, s, puzzles, key, s.redis[key], s.corpus[s.redis[key].puzzle]);
    }
    hide MayMove, Under, Present, Loaded, LeavesInProgress, Loadable;
  }

  lemma LoadedRequestFlows<P>(b: Board<P>, s: State, puzzles: map<string, Puzzle>, r: nat)
    requires Present(s) && Loaded(s) && LeavesInProgress(s, puzzles) && r in s.requests
    requires RequestFlows(b, s, s.requests[r])
    ensures RequestFlows(b, DoLoad(s, puzzles), s.requests[r])
  {
    hide MayMove, Under, Onward, Free, Here, LeavesInProgress;
    var Request(key, stage) := s.requests[r];
    if stage.Grading? || stage.Looking? {
      var read := stage.read;
      assert ReadOf(stage) == Some(read) && Here(s, read) && InProgress(s, read.puzzle);
      LoadedHas(s, puzzles, read);
      if stage.Grading? && stage.line.Some? { HeldIsHere(s, r); }
      if read.puzzle in s.corpus {
        CountedIfThere(s, read);
        LoadingFreesNone(b, s, puzzles, key, read, s.corpus[read.puzzle]);
        LoadingFreesNone(b, s, puzzles, key, read.(step := read.step + 2), s.corpus[read.puzzle]);
      }
    }
    hide Present, Loaded, Loadable;
  }

  lemma CountedIfThere(s: State, p: Progress)
    requires Present(s) && p.puzzle in s.corpus
    ensures p.puzzle in s.db.counters
  {
  }

  /** The attempts under way keep their line, and no new counter frees one. */
  lemma LoadStaysFlowing<P>(b: Board<P>, s: State, puzzles: map<string, Puzzle>)
    requires Flows(b, s) && Present(s) && Loaded(s) && LeavesInProgress(s, puzzles)
    ensures Flows(b, DoLoad(s, puzzles))
  {
    hide Present, Loaded, LeavesInProgress, StoredFlows, RequestFlows, Seamless, Loadable;
    var s' := DoLoad(s, puzzles);
    forall key | key in s'.redis ensures StoredFlows(b, s', key) {
      LoadedStoredFlows(b, s, puzzles, key);
    }
    forall r | r in s'.requests ensures RequestFlows(b, s', s'.requests[r]) {
      LoadedRequestFlows(b, s, puzzles, r);
    }
  }

  lemma ReadNextStaysFlowing<P>(b: Board<P>, s: State, r: nat, key: Key)
    requires Flows(b, s)
    ensures Flows(b, DoReadNext(s, r, key))
  {
    hide Flows, Onward, Under, Free, Seamless, StillUnder, FreeShrinks, MayMove;
    var s' := DoReadNext(s, r, key);
    SeamlessNow(b, s);
    SameEvents(s, s');
    SameFree(s, s');
    FlowsStays(b, s, s');
  }

  lemma OthersStayFlowing<P>(b: Board<P>, s: State, a: Action)
    requires Flows(b, s)
    requires a.SaveBest? || a.Clear? || a.DropGone? || a.Abandon? || a.Expire?
    ensures Flows(b, Next(b, s, a))
  {
    hide Flows, FreeShrinks, DoGrade, DoAdvance, DoDraw, DoLook, DoLoad, DoReadMove, DoReadNext;
    SameFree(s, Next(b, s, a));
    LessFlows(b, s, Next(b, s, a), 0);
  }

  lemma StepStaysFlowing<P>(b: Board<P>, s: State, a: Action)
    requires Known(b, s) && Flows(b, s) && (a.Load? ==> LeavesInProgress(s, a.puzzles))
    ensures Flows(b, Next(b, s, a))
  {
    hide Flows, Inv, Loaded, Present, Behind, LeavesInProgress, DoGrade, DoAdvance, DoDraw, DoLook, DoLoad,
      DoReadMove, DoReadNext, DoSaveBest, DoClear, DoDropGone, RunOk, RequestOk, DrawsOk, LogOk, NoGrowthAfterMiss,
      AllDrawn;
    match a
    case Grade(r, up) => GradeStaysFlowing(b, s, r, up);
    case Advance(r) => AdvanceStaysFlowing(b, s, r);
    case DrawNext(r, puzzle, now) => DrawStaysFlowing(b, s, r, puzzle, now);
    case Look(r) => LookStaysFlowing(b, s, r);
    case ReadMove(r, key, uci) => ReadMoveStaysFlowing(b, s, r, key, uci);
    case ReadNext(r, key) => ReadNextStaysFlowing(b, s, r, key);
    case Load(puzzles) => LoadStaysFlowing(b, s, puzzles);
    case _ => OthersStayFlowing(b, s, a);
  }

  lemma {:induction false} FlowsForGood<P>(b: Board<P>, s: State, more: seq<Action>)
    requires Known(b, s) && Flows(b, s) && Undisturbed(b, s, more)
    ensures var end := Exec(b, s, more); Known(b, end) && Flows(b, end)
  {
    hide Known, Flows, Next, LeavesInProgress;
    if more != [] {
      FlowsForGood(b, s, more[..|more| - 1]);
      StepStaysFlowing(b, Exec(b, s, more[..|more| - 1]), more[|more| - 1]);
      KnownStays(b, Exec(b, s, more[..|more| - 1]), more[|more| - 1]);
    }
  }

  // ---- Where it goes wrong ----------------------------------------------------------------------------

  ghost predicate MovesStaySeamless<P>(b: Board<P>, s: State) {
    forall more | Undisturbed(b, s, more) :: Seamless(Exec(b, s, more).notes.log)
  }

  lemma {:induction false} Prepended<P>(b: Board<P>, s: State, a: Action, more: seq<Action>)
    requires !a.Load? && Undisturbed(b, Next(b, s, a), more)
    ensures Undisturbed(b, s, [a] + more) && Exec(b, s, [a] + more) == Exec(b, Next(b, s, a), more)
  {
    hide Next, LeavesInProgress;
    var longer := [a] + more;
    if more == [] {
      assert longer == [a];
      One(b, s, a);
    } else {
      Prepended(b, s, a, more[..|more| - 1]);
      assert longer[..|longer| - 1] == [a] + more[..|more| - 1];
    }
  }

  lemma WrongAfterAll<P>(b: Board<P>, s: State, a: Action)
    requires !a.Load? && !MovesStaySeamless(b, Next(b, s, a))
    ensures !MovesStaySeamless(b, s)
  {
    hide Next, Undisturbed, Seamless;
    var more :| Undisturbed(b, Next(b, s, a), more) && !Seamless(Exec(b, Next(b, s, a), more).notes.log);
    Prepended(b, s, a, more);
  }

  lemma WrongNow<P>(b: Board<P>, s: State)
    requires !Seamless(s.notes.log)
    ensures !MovesStaySeamless(b, s)
  {
    One(b, s, Abandon(0));
  }

  lemma LessUnder(log: seq<Event>, e: Event, user: string, p: Progress, line: Puzzle)
    requires !Under(log, user, p, line)
    ensures !Under(log + [e], user, p, line)
  {
    var k :| 0 <= k < |log| && Below(log[k], user, p) && log[k].line != line;
    assert (log + [e])[k] == log[k];
  }

  /** A live move over moves of another line. */
  lemma LiveMoveGoesWrong<P>(b: Board<P>, s: State, r: nat, key: Key, read: Progress, uci: string, line: Puzzle)
    requires r in s.requests && s.requests[r] == Request(key, Grading(read, uci, Some(line)))
    requires Live(b, s, key, read, line, uci) && !Under(s.notes.log, key.user, read, line)
    ensures !MovesStaySeamless(b, s)
  {
    hide MovesStaySeamless, Graded, Under;
    var s' := DoGrade(b, s, r, true);
    RecordedIsFree(s.db, key, read, Attempt(key.mode, Graded(b, line, read.step, uci).correct));
    hide Recorded, Free;
    assert |s'.notes.log| == |s.notes.log| + 1;
    var e := s'.notes.log[|s.notes.log|];
    assert s'.notes.log == s.notes.log + [e];
    assert Judges(e) && e.key == key && e.line == line && On(read, At(e)) && read.step == At(e).step;
    LessUnder(s.notes.log, e, key.user, read, line);
    UnderOn(s'.notes.log, key.user, read, At(e), line);
    NotSeamless(s'.notes.log, |s.notes.log|);
    WrongNow(b, s');
    WrongAfterAll(b, s, Grade(r, true));
  }

  lemma NotSeamless(log: seq<Event>, k: nat)
    requires k < |log| && Judges(log[k]) && !Under(log, log[k].key.user, At(log[k]), log[k].line)
    ensures !Seamless(log)
  {
    hide Under;
  }

  /** A move can be made, over moves of another line. */
  lemma StoredGoesWrong<P>(b: Board<P>, s: State, key: Key)
    requires key in s.redis && !StoredFlows(b, s, key)
    ensures !MovesStaySeamless(b, s)
  {
    hide MovesStaySeamless, Under, Onward;
    var p := s.redis[key];
    var line := s.corpus[p.puzzle];
    var uci := if Free(s.db, key, p) then "" else var u :| Onward(b, line, p.step, u); u;
    var r := Unused(s.requests.Keys);
    var s1 := DoReadMove(s, r, key, uci);
    var s2 := DoLook(s1, r);
    assert s2.requests[r] == Request(key, Grading(p, uci, Some(line)));
    LiveMoveGoesWrong(b, s2, r, key, p, uci, line);
    WrongAfterAll(b, s1, Look(r));
    WrongAfterAll(b, s, ReadMove(r, key, uci));
  }

  /** A move by the old line goes through and another one after it. */
  lemma OldLineGoesWrong<P>(b: Board<P>, s: State, r: nat, key: Key, read: Progress, uci: string, line: Puzzle)
    requires r in s.requests && s.requests[r] == Request(key, Grading(read, uci, Some(line)))
    requires Onward(b, line, read.step, uci) && Value(s.redis, key) == Some(read) && read.step >= 0
    requires read.puzzle in s.corpus && s.corpus[read.puzzle] != line
    requires MayMove(b, s.db, key, read.(step := read.step + 2), s.corpus[read.puzzle])
    ensures !MovesStaySeamless(b, s)
  {
    hide MovesStaySeamless, Graded, MayMove;
    var s' := DoGrade(b, s, r, true);
    var next := read.(step := read.step + 2);
    assert s'.redis[key] == next && s'.db == s.db && s'.corpus == s.corpus;
    assert Below(s'.notes.log[|s.notes.log|], key.user, next);
    assert !StoredFlows(b, s', key);
    StoredGoesWrong(b, s', key);
    WrongAfterAll(b, s, Grade(r, true));
  }

  lemma RequestGoesWrong<P>(b: Board<P>, s: State, r: nat)
    requires Inv(b, s) && r in s.requests && !RequestFlows(b, s, s.requests[r])
    ensures !MovesStaySeamless(b, s)
  {
    hide MovesStaySeamless, Under, Onward, MayMove, Inv, Free;
    var Request(key, stage) := s.requests[r];
    if stage.Grading? {
      var line := stage.line.value;
      if Under(s.notes.log, key.user, stage.read, line) {
        HeldIsNatural(b, s, r);
        OldLineGoesWrong(b, s, r, key, stage.read, stage.uci, line);
      } else {
        LiveMoveGoesWrong(b, s, r, key, stage.read, stage.uci, line);
      }
    } else {
      var s' := DoLook(s, r);
      var line := s.corpus[stage.read.puzzle];
      assert s'.requests[r] == Request(key, Grading(stage.read, stage.move.value, Some(line)));
      LiveMoveGoesWrong(b, s', r, key, stage.read, stage.move.value, line);
      WrongAfterAll(b, s, Look(r));
    }
  }

  lemma HeldIsNatural<P>(b: Board<P>, s: State, r: nat)
    requires Inv(b, s) && r in s.requests && ReadOf(s.requests[r].stage).Some?
    ensures ReadOf(s.requests[r].stage).value.step >= 0
  {
    hide Booked, Climbed;
    assert Honest(b, s.notes.log, s.requests[r].key, ReadOf(s.requests[r].stage).value);
  }

  // ---- Exactly ----------------------------------------------------------------------------------------

  /** From any reachable state, unless a puzzle in progress is rewritten again: no move is ever judged by another
      line than the accepted moves before it exactly when none was, none that is under way or can be made on a
      stored attempt would be, and no old-line move waits that could be followed by one. */
  lemma MovesStaySeamlessExactly<P>(b: Board<P>, s: State)
    requires Known(b, s)
    ensures MovesStaySeamless(b, s) <==> Flows(b, s)
  {
    hide StoredFlows, RequestFlows, Seamless, Inv, Loaded, Present, Runs, Behind;
    if Flows(b, s) {
      forall more | Undisturbed(b, s, more) ensures Seamless(Exec(b, s, more).notes.log) {
        FlowsForGood(b, s, more);
      }
    } else if !Seamless(s.notes.log) {
      WrongNow(b, s);
    } else if key :| key in s.redis && !StoredFlows(b, s, key) {
      StoredGoesWrong(b, s, key);
    } else {
      var r :| r in s.requests && !RequestFlows(b, s, s.requests[r]);
      RequestGoesWrong(b, s, r);
    }
  }

  // ---- A reload ---------------------------------------------------------------------------------------

  predicate Rewrites(s: State, puzzles: map<string, Puzzle>, puzzle: string) {
    puzzle in puzzles && puzzle in s.corpus && puzzles[puzzle] != s.corpus[puzzle]
  }

  /** A stored attempt past its first move can no longer be moved on. */
  ghost predicate StoredRests<P>(b: Board<P>, s: State, puzzles: map<string, Puzzle>, key: Key)
    requires key in s.redis
  {
    var p := s.redis[key];
    Rewrites(s, puzzles, p.puzzle) && p.step > 0 ==> !MayMove(b, s.db, key, p, puzzles[p.puzzle])
  }

  /** A move looked up before is not followed by another, if it goes through and does not end the attempt; and
      one not looked up yet comes to nothing, if its attempt is past the first move. */
  ghost predicate RequestRests<P>(b: Board<P>, s: State, puzzles: map<string, Puzzle>, q: Request) {
    && (q.stage.Grading? && Rewrites(s, puzzles, q.stage.read.puzzle) && Value(s.redis, q.key) == Some(q.stage.read)
        && Onward(b, s.corpus[q.stage.read.puzzle], q.stage.read.step, q.stage.uci) ==>
          !MayMove(b, s.db, q.key, q.stage.read.(step := q.stage.read.step + 2), puzzles[q.stage.read.puzzle]))
    && (q.stage.Looking? && q.stage.move.Some? && Rewrites(s, puzzles, q.stage.read.puzzle) && q.stage.read.step > 0 ==>
          !Live(b, s, q.key, q.stage.read, puzzles[q.stage.read.puzzle], q.stage.move.value))
  }

  ghost predicate RewrittenRest<P>(b: Board<P>, s: State, puzzles: map<string, Puzzle>) {
    && (forall key | key in s.redis :: StoredRests(b, s, puzzles, key))
    && (forall r | r in s.requests :: RequestRests(b, s, puzzles, s.requests[r]))
  }

  /** As long as no reload before rewrote a puzzle in progress: after this one, and whatever follows it but
      another that does, no move is ever judged by another line than the accepted moves before it exactly when on
      the puzzles it rewrites no attempt past its first move can be moved on, and no move that would be accepted
      by the old line waits to be written and can be followed by another. */
  lemma ReloadKeepsLinesExactly<P>(b: Board<P>, accounts: map<string, Account>, run: seq<Action>,
                                   puzzles: map<string, Puzzle>)
    requires Undisturbed(b, Init(accounts), run) && Loadable(puzzles)
    ensures var s := Exec(b, Init(accounts), run);
      MovesStaySeamless(b, DoLoad(s, puzzles)) <==> RewrittenRest(b, s, puzzles)
  {
    hide Known, Flows, Straight, Loadable, MovesStaySeamless, Exec, Undisturbed, RewrittenRest;
    var s := Exec(b, Init(accounts), run);
    EveryStateIsKnown(b, accounts, run);
    UndisturbedIsStraight(b, accounts, run);
    KnownStays(b, s, Load(puzzles));
    MovesStaySeamlessExactly(b, DoLoad(s, puzzles));
    LoadedFlows(b, s, puzzles);
  }

  /** Under an attempt that is past its first move lies a move by the line it is on. */
  lemma UnderIsItsLine<P>(b: Board<P>, s: State, key: Key, p: Progress, line: Puzzle)
    requires OnLine(s, key, p) && Honest(b, s.notes.log, key, p) && p.puzzle in s.corpus && p.puzzle != ""
    ensures Under(s.notes.log, key.user, p, line) <==> p.step == 0 || line == s.corpus[p.puzzle]
  {
    var log := s.notes.log;
    if p.step > 0 {
      var k :| 0 <= k < |log| && Rung(b, log[k], key, p.puzzle, p.started, p.step - 2)
            && Climbed(b, log[..k], key, p.puzzle, p.started, p.step - 2);
      hide Climbed;
      assert Below(log[k], key.user, p);
    }
  }

  lemma HeldIsStraight<P>(b: Board<P>, s: State, r: nat, line: Puzzle)
    requires Known(b, s) && Straight(s) && r in s.requests && ReadOf(s.requests[r].stage).Some?
    ensures var p := ReadOf(s.requests[r].stage).value;
      p.puzzle in s.corpus ==>
        && p.puzzle != "" && p.step >= 0
        && (Under(s.notes.log, s.requests[r].key.user, p, line) <==> p.step == 0 || line == s.corpus[p.puzzle])
  {
    hide Booked, Climbed, Present, Runs, Behind, OneLine, EventsDrawn, Under, OnLine;
    var p := ReadOf(s.requests[r].stage).value;
    assert OnLine(s, s.requests[r].key, p) && Honest(b, s.notes.log, s.requests[r].key, p);
    NamelessIsNowhere(s);
    if p.puzzle in s.corpus { UnderIsItsLine(b, s, s.requests[r].key, p, line); }
  }

  lemma StoredIsStraight<P>(b: Board<P>, s: State, key: Key, line: Puzzle)
    requires Known(b, s) && Straight(s) && key in s.redis
    ensures var p := s.redis[key];
      p.puzzle in s.corpus ==>
        && p.puzzle != "" && p.step >= 0
        && (Under(s.notes.log, key.user, p, line) <==> p.step == 0 || line == s.corpus[p.puzzle])
  {
    hide Booked, Climbed, Present, Runs, Behind, OneLine, EventsDrawn, Under, OnLine;
    var p := s.redis[key];
    assert OnLine(s, key, p) && Honest(b, s.notes.log, key, p);
    NamelessIsNowhere(s);
    if p.puzzle in s.corpus { UnderIsItsLine(b, s, key, p, line); }
  }

  /** A puzzle under way was there before the reload, or is none. */
  lemma WasThere<P>(b: Board<P>, s: State, puzzles: map<string, Puzzle>, p: Progress)
    requires Known(b, s) && Loadable(puzzles) && Here(s, p)
    ensures var s' := DoLoad(s, puzzles);
      && (p.puzzle in s'.corpus <==> p.puzzle in s.corpus)
      && (p.puzzle in s.corpus ==>
            && p.puzzle in s.db.counters && s'.notes.log == s.notes.log
            && s'.corpus[p.puzzle] == if p.puzzle in puzzles then puzzles[p.puzzle] else s.corpus[p.puzzle])
  {
    hide Inv, Runs, Behind;
    NamelessIsNowhere(s);
  }

  lemma LoadedStoredExactly<P>(b: Board<P>, s: State, puzzles: map<string, Puzzle>, key: Key)
    requires Known(b, s) && Straight(s) && Loadable(puzzles) && key in s.redis
    ensures StoredFlows(b, DoLoad(s, puzzles), key) <==> StoredRests(b, s, puzzles, key)
  {
    var s', p := DoLoad(s, puzzles), s.redis[key];
    hide Inv, Loaded, Runs, Behind, Straight, Loadable;
    assert Here(s, p);
    WasThere(b, s, puzzles, p);
    hide Present, DoLoad, Under, MayMove;
    LoadKeepsRedis(s, puzzles);
    if p.puzzle in s.corpus {
      StoredIsStraight(b, s, key, s'.corpus[p.puzzle]);
      LoadingFreesNone(b, s, puzzles, key, p, s'.corpus[p.puzzle]);
    }
  }

  lemma LoadKeepsRedis(s: State, puzzles: map<string, Puzzle>)
    ensures DoLoad(s, puzzles).redis == s.redis && DoLoad(s, puzzles).requests == s.requests
    ensures DoLoad(s, puzzles).notes.log == s.notes.log
  {
  }

  lemma LoadedRequestExactly<P>(b: Board<P>, s: State, puzzles: map<string, Puzzle>, r: nat)
    requires Known(b, s) && Straight(s) && Loadable(puzzles) && r in s.requests
    ensures RequestFlows(b, DoLoad(s, puzzles), s.requests[r]) <==> RequestRests(b, s, puzzles, s.requests[r])
  {
    hide Known, Straight, Loadable, DoLoad, GradingFlows, LookingFlows, Onward, Live, MayMove, Rewrites;
    if s.requests[r].stage.Grading? {
      LoadedGradingExactly(b, s, puzzles, r);
    } else if s.requests[r].stage.Looking? && s.requests[r].stage.move.Some? {
      LoadedLookingExactly(b, s, puzzles, r);
    }
  }

  /** What is held of a puzzle under way, before and after the reload. */
  lemma HeldOver<P>(b: Board<P>, s: State, puzzles: map<string, Puzzle>, r: nat)
    requires Known(b, s) && Straight(s) && Loadable(puzzles) && r in s.requests
    requires s.requests[r].stage.Grading? || s.requests[r].stage.Looking?
    ensures var s' := DoLoad(s, puzzles);
      var Request(key, stage) := s.requests[r];
      var read := stage.read;
      && (read.puzzle in s'.corpus <==> read.puzzle in s.corpus)
      && (read.puzzle in s.corpus ==>
            var line := s'.corpus[read.puzzle];
            && line == (if read.puzzle in puzzles then puzzles[read.puzzle] else s.corpus[read.puzzle])
            && Under(s.notes.log, key.user, read, s.corpus[read.puzzle])
            && (Under(s.notes.log, key.user, read, line) <==> read.step <= 0 || line == s.corpus[read.puzzle])
            && (Free(s'.db, key, read) <==> Free(s.db, key, read))
            && (MayMove(b, s'.db, key, read.(step := read.step + 2), line)
                <==> MayMove(b, s.db, key, read.(step := read.step + 2), line)))
  {
    var s' := DoLoad(s, puzzles);
    var Request(key, stage) := s.requests[r];
    var read := stage.read;
    hide Inv, Loaded, Runs, Behind, Loadable, Straight, Under, MayMove, Free;
    assert ReadOf(stage) == Some(read) && Here(s, read);
    WasThere(b, s, puzzles, read);
    hide Present, DoLoad;
    if read.puzzle in s.corpus {
      HeldIsStraight(b, s, r, s'.corpus[read.puzzle]);
      HeldIsStraight(b, s, r, s.corpus[read.puzzle]);
      LoadingFreesNone(b, s, puzzles, key, read, s'.corpus[read.puzzle]);
      LoadingFreesNone(b, s, puzzles, key, read.(step := read.step + 2), s'.corpus[read.puzzle]);
    }
  }

  lemma LoadedGradingExactly<P>(b: Board<P>, s: State, puzzles: map<string, Puzzle>, r: nat)
    requires Known(b, s) && Straight(s) && Loadable(puzzles) && r in s.requests && s.requests[r].stage.Grading?
    ensures RequestFlows(b, DoLoad(s, puzzles), s.requests[r]) <==> RequestRests(b, s, puzzles, s.requests[r])
  {
    hide Known, Loadable, DoLoad, Under, MayMove, Free, Onward, OnLine, OneLine, EventsDrawn;
    LoadKeepsRedis(s, puzzles);
    HeldOver(b, s, puzzles, r);
    GradingFound(b, s, r);
    assert LooksNow(s, s.requests[r].stage);
  }

  lemma LoadedLookingExactly<P>(b: Board<P>, s: State, puzzles: map<string, Puzzle>, r: nat)
    requires Known(b, s) && Straight(s) && Loadable(puzzles) && r in s.requests
    requires s.requests[r].stage.Looking? && s.requests[r].stage.move.Some?
    ensures RequestFlows(b, DoLoad(s, puzzles), s.requests[r]) <==> RequestRests(b, s, puzzles, s.requests[r])
  {
    hide Known, Straight, Loadable, DoLoad, Under, MayMove, Free, Onward;
    LoadKeepsRedis(s, puzzles);
    HeldOver(b, s, puzzles, r);
  }

  lemma GradingFound<P>(b: Board<P>, s: State, r: nat)
    requires Known(b, s) && r in s.requests && s.requests[r].stage.Grading?
    ensures s.requests[r].stage.line.Some? <==> s.requests[r].stage.read.puzzle in s.corpus
  {
    hide Inv, Runs, Behind;
    NamelessIsNowhere(s);
    if s.requests[r].stage.line.Some? { HeldIsHere(s, r); }
  }

  lemma LoadedFlows<P>(b: Board<P>, s: State, puzzles: map<string, Puzzle>)
    requires Known(b, s) && Straight(s) && Loadable(puzzles)
    ensures Flows(b, DoLoad(s, puzzles)) <==> RewrittenRest(b, s, puzzles)
  {
    hide Known, Loadable, StoredFlows, RequestFlows, StoredRests, RequestRests, DoLoad;
    LoadKeepsRedis(s, puzzles);
    StraightIsSeamless(s);
    hide Seamless, Straight;
    forall key | key in s.redis ensures StoredFlows(b, DoLoad(s, puzzles), key) <==> StoredRests(b, s, puzzles, key) {
      LoadedStoredExactly(b, s, puzzles, key);
    }
    forall r | r in s.requests
      ensures RequestFlows(b, DoLoad(s, puzzles), s.requests[r]) <==> RequestRests(b, s, puzzles, s.requests[r])
    {
      LoadedRequestExactly(b, s, puzzles, r);
    }
  }

  lemma StraightIsSeamless(s: State)
    requires Straight(s)
    ensures Seamless(s.notes.log)
  {
    hide OnLine, LooksNow, EventsDrawn;
    var log := s.notes.log;
    forall k, j | 0 <= k < |log| && Judges(log[k]) && 0 <= j < |log| && Below(log[j], log[k].key.user, At(log[k]))
      ensures log[j].line == log[k].line
    {
    }
  }
}
