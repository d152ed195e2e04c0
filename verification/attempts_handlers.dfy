/** The handlers of internal/httpapi/ranked.go and internal/httpapi/streak.go between their atomic steps,
    over the progress store and the attempt table as objects.

    Each method is proved against the steps of module Attempts it is made of. Its ghost parameters are the
    states of the protocol it is called in, whatever happened in between: `s` when it reads Redis, `u` when
    it looks the puzzle up, `t` at its first write and `v` at the one after a recorded or dropped attempt.
    `r` names the request. `corpus` is the one at u, `meanwhile` the content of Redis at t and `later` the
    one at v, and `others` is what everybody else did to the tables in between; `up` says whether Postgres
    answers the record, `bestUp` whether it answers the best score. */
module AttemptsHandlers {
  import opened Options
  import opened Puzzle
  import opened Attempts

  datatype Response = NoRun | Gone | Stepped | Conflict | Unrecorded | Unsaved | Won | Lost
                    | Shown | NoneLeft

  /** Request r was read at s and looked up at u, and waits at t for its first write. */
  predicate Asked(s: State, u: State, t: State, r: nat, key: Key, uci: string) {
    && r !in s.requests
    && (r in u.requests <==> key in s.redis) && (r in t.requests <==> key in s.redis)
    && (key in s.redis ==> && u.requests[r] == DoReadMove(s, r, key, uci).requests[r]
                           && t.requests[r] == DoLook(u, r).requests[r])
  }

  /** What the request is at v is what its first write left of it; the tables are what others made of them. */
  predicate GoesOn(graded: State, v: State, r: nat, others: Db -> Db) {
    r in graded.requests ==> r in v.requests && v.requests[r] == graded.requests[r] && v.db == others(graded.db)
  }

  /** The steps after a recorded result. */
  function Finish(v: State, r: nat, bestUp: bool): State {
    DoClear(DoAdvance(DoSaveBest(v, r, bestUp), r), r)
  }

  /** All the writes of a move: the first at t, the rest at v if it left any. */
  function Moved<P>(b: Board<P>, t: State, v: State, r: nat, up: bool, bestUp: bool): State {
    var graded := DoGrade(b, t, r, up);
    if r in graded.requests then Finish(v, r, bestUp) else graded
  }

  /** What grading noted. */
  function Noted(t: State, graded: State): Option<Event> {
    if |graded.notes.log| > |t.notes.log| then Some(graded.notes.log[|t.notes.log|]) else None
  }

  /** The answer says what was noted. */
  ghost predicate Answers(s: State, u: State, t: State, graded: State, key: Key, response: Response) {
    && (response == NoRun <==> key !in s.redis)
    && (response == Gone <==> key in s.redis && s.redis[key].puzzle !in u.corpus)
    && (response == Stepped <==> Noted(t, graded).Some? && Noted(t, graded).value.Accepted?)
    && (response == Lost || response == Unsaved
        <==> Noted(t, graded).Some? && Noted(t, graded).value.Settled? && !Noted(t, graded).value.solved)
    && (response == Won ==> Noted(t, graded).Some? && Noted(t, graded).value.Settled? && Noted(t, graded).value.solved)
    && (response == Unrecorded ==> graded.db == t.db && graded.redis == t.redis && Noted(t, graded).None?)
    && response != Shown && response != NoneLeft
  }

  // ---- What the steps come to -----------------------------------------------------------------------

  lemma AskedHolds(s: State, u: State, t: State, r: nat, key: Key, uci: string)
    requires Asked(s, u, t, r, key, uci)
    ensures key in s.redis ==>
      r in t.requests && t.requests[r] == Request(key, Grading(s.redis[key], uci, Found(u.corpus, s.redis[key].puzzle)))
    ensures key !in s.redis ==> r !in t.requests
  {
  }

  lemma GradedGone<P>(b: Board<P>, t: State, r: nat, key: Key, p: Progress, uci: string, up: bool)
    requires r in t.requests && t.requests[r] == Request(key, Grading(p, uci, None))
    ensures var graded := DoGrade(b, t, r, up);
      && r !in graded.requests && graded.db == t.db && graded.notes == t.notes
      && graded.redis == Swapped(t.redis, key, p, None)
  {
  }

  function Swapped(redis: Redis, key: Key, before: Progress, after: Option<Progress>): Redis {
    match Replaced(redis, key, Some(before), after)
    case None => redis
    case Some(next) => next
  }

  lemma GradedOnward<P>(b: Board<P>, t: State, r: nat, key: Key, p: Progress, line: Puzzle, uci: string, up: bool)
    requires r in t.requests && t.requests[r] == Request(key, Grading(p, uci, Some(line)))
    requires var v := Graded(b, line, p.step, uci); v.correct && !v.finished
    ensures var graded := DoGrade(b, t, r, up);
      var next := Some(p.(step := p.step + 2));
      && r !in graded.requests && graded.db == t.db
      && graded.redis == Swapped(t.redis, key, p, next)
      && (Noted(t, graded).Some? <==> Replaced(t.redis, key, Some(p), next).Some?)
      && (Noted(t, graded).Some? ==> Noted(t, graded).value.Accepted?)
  {
    hide Graded;
  }

  lemma GradedEnds<P>(b: Board<P>, t: State, r: nat, key: Key, p: Progress, line: Puzzle, uci: string, up: bool)
    requires r in t.requests && t.requests[r] == Request(key, Grading(p, uci, Some(line)))
    requires var v := Graded(b, line, p.step, uci); !(v.correct && !v.finished)
    ensures var graded := DoGrade(b, t, r, up);
      var correct := Graded(b, line, p.step, uci).correct;
      var recorded := Recorded(t.db, AttemptId(key.user, p.puzzle, p.started), Attempt(key.mode, correct));
      && graded.redis == t.redis
      && (if up && recorded.Some?
          then && r in graded.requests && graded.requests[r] == Request(key, Recording(key, p, correct))
               && graded.db == recorded.value
               && Noted(t, graded).Some? && Noted(t, graded).value.Settled? && Noted(t, graded).value.solved == correct
          else r !in graded.requests && graded.db == t.db && Noted(t, graded).None?)
  {
    hide Graded, Recorded;
  }

  lemma ClearedOf(v: State, r: nat, key: Key, p: Progress, bestUp: bool)
    requires r in v.requests && v.requests[r] == Request(key, Clearing(p))
    ensures var end := Finish(v, r, bestUp);
      r !in end.requests && end.db == v.db && end.redis == Swapped(v.redis, key, p, None)
  {
  }

  lemma AdvancedOf(v: State, r: nat, key: Key, p: Progress, bestUp: bool)
    requires r in v.requests && v.requests[r] == Request(key, Advancing(p))
    ensures var end := Finish(v, r, bestUp);
      var next := Some(p.(puzzle := "", step := 0, count := p.count + 1));
      r !in end.requests && end.db == v.db && end.redis == Swapped(v.redis, key, p, next)
  {
  }

  lemma SavedOf(v: State, r: nat, key: Key, p: Progress, bestUp: bool)
    requires r in v.requests && v.requests[r] == Request(key, Saving(p))
    ensures var end := Finish(v, r, bestUp);
      var saved := if bestUp then BestSaved(v.db, key.user, p.count) else None;
      && r !in end.requests
      && end.db == (if saved.Some? then saved.value else v.db)
      && end.redis == if saved.Some? then Swapped(v.redis, key, p, None) else v.redis
  {
    hide BestSaved;
  }

  lemma NothingAsked<P>(b: Board<P>, t: State, r: nat, up: bool)
    requires r !in t.requests
    ensures DoGrade(b, t, r, up) == t && Noted(t, t).None?
  {
  }

  lemma NothingNoted(t: State, graded: State)
    requires graded.notes == t.notes
    ensures Noted(t, graded).None?
  {
  }

  // ---- The outcomes of a move -----------------------------------------------------------------------

  lemma NoRunOutcome<P>(b: Board<P>, s: State, u: State, t: State, v: State, r: nat, key: Key, uci: string, up: bool,
                        bestUp: bool)
    requires Asked(s, u, t, r, key, uci) && key !in s.redis
    ensures Moved(b, t, v, r, up, bestUp) == t && r !in t.requests
    ensures Answers(s, u, t, DoGrade(b, t, r, up), key, NoRun)
  {
    hide Graded, DoGrade, Noted, Finish;
    AskedHolds(s, u, t, r, key, uci);
    NothingAsked(b, t, r, up);
  }

  lemma GoneOutcome<P>(b: Board<P>, s: State, u: State, t: State, v: State, r: nat, key: Key, uci: string, up: bool,
                       bestUp: bool)
    requires Asked(s, u, t, r, key, uci) && key in s.redis && s.redis[key].puzzle !in u.corpus
    ensures var end := Moved(b, t, v, r, up, bestUp);
      end.redis == Swapped(t.redis, key, s.redis[key], None) && end.db == t.db && r !in end.requests
    ensures Answers(s, u, t, DoGrade(b, t, r, up), key, Gone)
  {
    hide Graded, DoGrade, Asked, Noted, Finish, Swapped;
    AskedHolds(s, u, t, r, key, uci);
    GradedGone(b, t, r, key, s.redis[key], uci, up);
    NothingNoted(t, DoGrade(b, t, r, up));
  }

  lemma OnwardOutcome<P>(b: Board<P>, s: State, u: State, t: State, v: State, r: nat, key: Key, uci: string,
                         up: bool, bestUp: bool)
    requires Asked(s, u, t, r, key, uci) && key in s.redis && s.redis[key].puzzle in u.corpus
    requires var g := Graded(b, u.corpus[s.redis[key].puzzle], s.redis[key].step, uci); g.correct && !g.finished
    ensures var p := s.redis[key];
      var next := Some(p.(step := p.step + 2));
      var end := Moved(b, t, v, r, up, bestUp);
      && end.redis == Swapped(t.redis, key, p, next) && end.db == t.db && r !in end.requests
      && Answers(s, u, t, DoGrade(b, t, r, up), key,
                 if Replaced(t.redis, key, Some(p), next).Some? then Stepped else Conflict)
  {
    hide Graded, DoGrade, Asked, Noted, Finish, Swapped, Replaced;
    AskedHolds(s, u, t, r, key, uci);
    GradedOnward(b, t, r, key, s.redis[key], u.corpus[s.redis[key].puzzle], uci, up);
  }

  /** The request's puzzle was found and its move ended the attempt. */
  predicate Ends<P>(b: Board<P>, s: State, u: State, t: State, r: nat, key: Key, uci: string) {
    && Asked(s, u, t, r, key, uci) && key in s.redis && s.redis[key].puzzle in u.corpus
    && var g := Graded(b, u.corpus[s.redis[key].puzzle], s.redis[key].step, uci); !(g.correct && !g.finished)
  }

  function Result<P>(b: Board<P>, s: State, u: State, t: State, key: Key, uci: string): Option<Db>
    requires key in s.redis && s.redis[key].puzzle in u.corpus
  {
    var p := s.redis[key];
    Recorded(t.db, AttemptId(key.user, p.puzzle, p.started),
             Attempt(key.mode, Graded(b, u.corpus[p.puzzle], p.step, uci).correct))
  }

  lemma UnrecordedOutcome<P>(b: Board<P>, s: State, u: State, t: State, v: State, r: nat, key: Key, uci: string,
                             up: bool, bestUp: bool)
    requires Ends(b, s, u, t, r, key, uci) && (up ==> Result(b, s, u, t, key, uci).None?)
    ensures var end := Moved(b, t, v, r, up, bestUp);
      end.redis == t.redis && end.db == t.db && r !in end.requests
    ensures Answers(s, u, t, DoGrade(b, t, r, up), key, Unrecorded)
  {
    hide Graded, DoGrade, Asked, Noted, Finish, Recorded;
    AskedHolds(s, u, t, r, key, uci);
    GradedEnds(b, t, r, key, s.redis[key], u.corpus[s.redis[key].puzzle], uci, up);
  }

  lemma RecordedOutcome<P>(b: Board<P>, s: State, u: State, t: State, v: State, r: nat, key: Key, uci: string,
                           bestUp: bool, others: Db -> Db)
    requires Ends(b, s, u, t, r, key, uci) && Result(b, s, u, t, key, uci).Some?
    requires GoesOn(DoGrade(b, t, r, true), v, r, others)
    ensures var p := s.redis[key];
      var correct := Graded(b, u.corpus[p.puzzle], p.step, uci).correct;
      && Moved(b, t, v, r, true, bestUp) == Finish(v, r, bestUp)
      && r in v.requests && v.requests[r] == Request(key, Recording(key, p, correct))
      && v.db == others(Result(b, s, u, t, key, uci).value)
      && (correct ==> && Answers(s, u, t, DoGrade(b, t, r, true), key, Won)
                      && Answers(s, u, t, DoGrade(b, t, r, true), key, Conflict))
      && (!correct ==> && Answers(s, u, t, DoGrade(b, t, r, true), key, Lost)
                       && Answers(s, u, t, DoGrade(b, t, r, true), key, Unsaved))
  {
    hide Graded, DoGrade, Asked, Noted, Finish, Recorded, Recording;
    AskedHolds(s, u, t, r, key, uci);
    GradedEnds(b, t, r, key, s.redis[key], u.corpus[s.redis[key].puzzle], uci, true);
  }

  // ---- The next puzzle ------------------------------------------------------------------------------

  /** Where a request for the next puzzle stands once it has read Redis at s and, if there was an attempt,
      looked its puzzle up at u. None is an attempt that is shown again. */
  function Begun(s: State, u: State, r: nat, key: Key): Option<Stage> {
    if key !in s.redis then Some(Drawing(None))
    else
      var looked := DoLook(u, r);
      if r in looked.requests then Some(looked.requests[r].stage) else None
  }

  /** The states it goes through: read at s, looked up at u, a vanished puzzle dropped at t, drawn at v. */
  predicate Nexting(s: State, u: State, t: State, v: State, r: nat, key: Key) {
    && r !in s.requests
    && (key in s.redis ==> r in u.requests && u.requests[r] == DoReadNext(s, r, key).requests[r])
    && match Begun(s, u, r, key)
       case None => true
       case Some(stage) =>
         if stage.Dropping? then
           && r in t.requests && t.requests[r] == Request(key, stage)
           && (r in DoDropGone(t, r).requests ==>
                 r in v.requests && v.requests[r] == DoDropGone(t, r).requests[r])
         else r in v.requests && v.requests[r] == Request(key, stage)
  }

  /** A puzzle drawn at v at a new time. */
  predicate Drawable(v: State, user: string, drawn: Option<string>, now: int) {
    drawn.Some? ==> drawn.value in v.corpus && (user, now) !in v.notes.draws
  }

  /** What the steps leave in Redis, and the answer. */
  function Nexted(s: State, u: State, t: State, v: State, r: nat, key: Key, drawn: Option<string>, now: int): (Redis, Response) {
    match Begun(s, u, r, key)
    case None => (u.redis, Shown)
    case Some(stage) =>
      if stage.Dropping? && r !in DoDropGone(t, r).requests then (DoDropGone(t, r).redis, Conflict)
      else if drawn.None? then (v.redis, NoneLeft)
      else
        var end := DoDraw(v, r, drawn.value, now);
        (end.redis, if (key.user, now) in end.notes.draws then Shown else Conflict)
  }

  lemma BegunOf(s: State, u: State, t: State, v: State, r: nat, key: Key)
    requires Nexting(s, u, t, v, r, key)
    ensures Begun(s, u, r, key)
         == if key !in s.redis then Some(Drawing(None))
            else if s.redis[key].puzzle in u.corpus && (key.mode == Ranked || s.redis[key].puzzle != "") then None
            else if key.mode == Ranked then Some(Dropping(s.redis[key]))
            else Some(Drawing(Some(s.redis[key])))
  {
  }

  lemma DropGoneOf(t: State, r: nat, key: Key, p: Progress)
    requires r in t.requests && t.requests[r] == Request(key, Dropping(p))
    ensures var dropped := DoDropGone(t, r);
      && dropped.redis == Swapped(t.redis, key, p, None)
      && (r in dropped.requests <==> Replaced(t.redis, key, Some(p), None).Some?)
      && (r in dropped.requests ==> dropped.requests[r] == Request(key, Drawing(None)))
  {
  }

  lemma DrawingOf(v: State, r: nat, key: Key, before: Option<Progress>, puzzle: string, now: int)
    requires r in v.requests && v.requests[r] == Request(key, Drawing(before))
    requires Drawable(v, key.user, Some(puzzle), now)
    ensures var end := DoDraw(v, r, puzzle, now);
      var next := Progress(puzzle, 0, if before.Some? then before.value.count else 0, now);
      match Replaced(v.redis, key, before, Some(next))
      case None => end.redis == v.redis && (key.user, now) !in end.notes.draws
      case Some(redis) => end.redis == redis && (key.user, now) in end.notes.draws
  {
  }

  lemma RankedClears(key: Key, p: Progress, correct: bool)
    requires key.mode == Ranked
    ensures Recording(key, p, correct) == Clearing(p)
  {
  }

  lemma StreakFollows(key: Key, p: Progress, correct: bool)
    requires key.mode == Streak
    ensures Recording(key, p, correct) == if correct then Advancing(p) else Saving(p)
  {
  }

  class Api {
    const progress: ProgressStore
    const table: AttemptTable

    constructor (progress: ProgressStore, table: AttemptTable)
      ensures this.progress == progress && this.table == table
    {
      this.progress, this.table := progress, table;
    }

    method HandleRankedMove<P>(b: Board<P>, corpus: map<string, Puzzle>, user: string, uci: string,
                               meanwhile: Redis, later: Redis, others: Db -> Db, up: bool,
                               ghost s: State, ghost u: State, ghost t: State, ghost v: State, ghost r: nat)
      returns (response: Response)
      requires progress.redis == s.redis && corpus == u.corpus && meanwhile == t.redis && later == v.redis
      requires table.View() == t.db && Asked(s, u, t, r, Key(Ranked, user), uci) && GoesOn(DoGrade(b, t, r, up), v, r, others)
      modifies progress, table
      ensures var end := Moved(b, t, v, r, up, true);
        && progress.redis == end.redis && table.View() == end.db && r !in end.requests
        && Answers(s, u, t, DoGrade(b, t, r, up), Key(Ranked, user), response)
    {
      hide Graded, Recorded, BestSaved, Replaced, DoGrade, Finish, Asked, GoesOn, Noted, Answers, Moved, Recording,
        Facing, Matches, Mates;
      var key := Key(Ranked, user);
      var state := Value(progress.redis, key);
      progress.redis := meanwhile;
      if state.None? {
        NoRunOutcome(b, s, u, t, v, r, key, uci, up, true);
        return NoRun;
      }
      var p := state.value;
      if p.puzzle !in corpus {
        GoneOutcome(b, s, u, t, v, r, key, uci, up, true);
        var _ := progress.Replace(key, state, None);
        return Gone;
      }
      var verdict := Check(b, corpus[p.puzzle], p.step, uci);
      if verdict.correct && !verdict.finished {
        OnwardOutcome(b, s, u, t, v, r, key, uci, up, true);
        var ok := progress.Replace(key, state, Some(Progress(p.puzzle, p.step + 2, p.count, p.started)));
        return if ok then Stepped else Conflict;
      }
      if !up {
        UnrecordedOutcome(b, s, u, t, v, r, key, uci, up, true);
        return Unrecorded;
      }
      var ok := table.Record(AttemptId(user, p.puzzle, p.started), Ranked, verdict.correct);
      if !ok {
        UnrecordedOutcome(b, s, u, t, v, r, key, uci, up, true);
        return Unrecorded;
      }
      RecordedOutcome(b, s, u, t, v, r, key, uci, true, others);
      RankedClears(key, p, verdict.correct);
      ClearedOf(v, r, key, p, true);
      progress.redis := later;
      var db := others(table.View());
      table.attempts, table.accounts, table.counters := db.attempts, db.accounts, db.counters;
      var _ := progress.Replace(key, state, None);
      return if verdict.correct then Won else Lost;
    }

    method HandleStreakMove<P>(b: Board<P>, corpus: map<string, Puzzle>, user: string, uci: string,
                               meanwhile: Redis, later: Redis, others: Db -> Db, up: bool, bestUp: bool,
                               ghost s: State, ghost u: State, ghost t: State, ghost v: State, ghost r: nat)
      returns (response: Response)
      requires progress.redis == s.redis && corpus == u.corpus && meanwhile == t.redis && later == v.redis
      requires table.View() == t.db && Asked(s, u, t, r, Key(Streak, user), uci) && GoesOn(DoGrade(b, t, r, up), v, r, others)
      modifies progress, table
      ensures var end := Moved(b, t, v, r, up, bestUp);
        && progress.redis == end.redis && table.View() == end.db && r !in end.requests
        && Answers(s, u, t, DoGrade(b, t, r, up), Key(Streak, user), response)
    {
      hide Graded, Recorded, BestSaved, Replaced, DoGrade, Finish, Asked, GoesOn, Noted, Answers, Moved, Recording,
        Facing, Matches, Mates;
      var key := Key(Streak, user);
      var before := Value(progress.redis, key);
      progress.redis := meanwhile;
      if before.None? {
        NoRunOutcome(b, s, u, t, v, r, key, uci, up, bestUp);
        return NoRun;
      }
      var state := before.value;
      if state.puzzle !in corpus {
        GoneOutcome(b, s, u, t, v, r, key, uci, up, bestUp);
        var _ := progress.Replace(key, before, None);
        return Gone;
      }
      var verdict := Check(b, corpus[state.puzzle], state.step, uci);
      if verdict.correct && !verdict.finished {
        OnwardOutcome(b, s, u, t, v, r, key, uci, up, bestUp);
        state := state.(step := state.step + 2);
        var ok := progress.Replace(key, before, Some(state));
        return if ok then Stepped else Conflict;
      }
      if !up {
        UnrecordedOutcome(b, s, u, t, v, r, key, uci, up, bestUp);
        return Unrecorded;
      }
      var ok := table.Record(AttemptId(user, state.puzzle, state.started), Streak, verdict.correct);
      if !ok {
        UnrecordedOutcome(b, s, u, t, v, r, key, uci, up, bestUp);
        return Unrecorded;
      }
      RecordedOutcome(b, s, u, t, v, r, key, uci, bestUp, others);
      response := EndStreak(key, state, verdict.correct, later, others, bestUp, v, r);
    }

    /** What follows a recorded result of a run. */
    method EndStreak(key: Key, before: Progress, correct: bool, later: Redis, others: Db -> Db, bestUp: bool,
                     ghost v: State, ghost r: nat)
      returns (response: Response)
      requires key.mode == Streak && later == v.redis && v.db == others(table.View())
      requires r in v.requests && v.requests[r] == Request(key, Recording(key, before, correct))
      modifies progress, table
      ensures var end := Finish(v, r, bestUp);
        progress.redis == end.redis && table.View() == end.db && r !in end.requests
      ensures response in if correct then {Won, Conflict} else {Lost, Unsaved}
    {
      hide Recorded, BestSaved, Replaced, Finish, Recording;
      StreakFollows(key, before, correct);
      progress.redis := later;
      var db := others(table.View());
      table.attempts, table.accounts, table.counters := db.attempts, db.accounts, db.counters;
      var state := before;
      if !correct {
        SavedOf(v, r, key, before, bestUp);
        if !bestUp { return Unsaved; }
        var best := table.SaveBest(key.user, state.count);
        if best.None? { return Unsaved; }
        var _ := progress.Replace(key, Some(before), None);
        return Lost;
      }
      AdvancedOf(v, r, key, before, bestUp);
      state := state.(count := state.count + 1);
      state := state.(step := 0);
      state := state.(puzzle := "");
      var ok := progress.Replace(key, Some(before), Some(state));
      return if ok then Won else Conflict;
    }

    method HandleRankedNext(user: string, corpus: map<string, Puzzle>, looked: Redis, meanwhile: Redis, later: Redis,
                            drawn: Option<string>, now: int,
                            ghost s: State, ghost u: State, ghost t: State, ghost v: State, ghost r: nat)
      returns (response: Response)
      requires progress.redis == s.redis && corpus == u.corpus
      requires looked == u.redis && meanwhile == t.redis && later == v.redis
      requires Nexting(s, u, t, v, r, Key(Ranked, user)) && Drawable(v, user, drawn, now)
      modifies progress
      ensures (progress.redis, response) == Nexted(s, u, t, v, r, Key(Ranked, user), drawn, now)
    {
      hide DoDraw, DoDropGone, DoLook, Begun, Replaced;
      var key := Key(Ranked, user);
      BegunOf(s, u, t, v, r, key);
      var state := Value(progress.redis, key);
      if state.Some? {
        progress.redis := looked;
        if state.value.puzzle in corpus { return Shown; }
        progress.redis := meanwhile;
        DropGoneOf(t, r, key, state.value);
        var dropped := progress.Replace(key, state, None);
        if !dropped { return Conflict; }
      }
      progress.redis := later;
      if drawn.None? { return NoneLeft; }
      DrawingOf(v, r, key, None, drawn.value, now);
      var ok := progress.Replace(key, None, Some(Progress(drawn.value, 0, 0, now)));
      return if ok then Shown else Conflict;
    }

    method HandleStreakStart(user: string, corpus: map<string, Puzzle>, looked: Redis, later: Redis,
                             drawn: Option<string>, now: int,
                             ghost s: State, ghost u: State, ghost v: State, ghost r: nat)
      returns (response: Response)
      requires progress.redis == s.redis && corpus == u.corpus && looked == u.redis && later == v.redis
      requires Nexting(s, u, v, v, r, Key(Streak, user)) && Drawable(v, user, drawn, now)
      modifies progress
      ensures (progress.redis, response) == Nexted(s, u, v, v, r, Key(Streak, user), drawn, now)
    {
      hide DoDraw, DoDropGone, DoLook, Begun, Replaced;
      var key := Key(Streak, user);
      BegunOf(s, u, v, v, r, key);
      var before := Value(progress.redis, key);
      progress.redis := looked;
      if before.Some? && before.value.puzzle != "" {
        if before.value.puzzle in corpus { return Shown; }
      }
      progress.redis := later;
      response := NextStreakPuzzle(key, before, drawn, now, v, r);
    }

    method NextStreakPuzzle(key: Key, before: Option<Progress>, drawn: Option<string>, now: int,
                            ghost v: State, ghost r: nat)
      returns (response: Response)
      requires progress.redis == v.redis && Drawable(v, key.user, drawn, now)
      requires r in v.requests && v.requests[r] == Request(key, Drawing(before))
      modifies progress
      ensures drawn.None? ==> progress.redis == v.redis && response == NoneLeft
      ensures drawn.Some? ==>
        var end := DoDraw(v, r, drawn.value, now);
        progress.redis == end.redis && response == if (key.user, now) in end.notes.draws then Shown else Conflict
    {
      hide DoDraw, Replaced;
      var state := if before.Some? then before.value else Progress("", 0, 0, 0);
      if drawn.None? { return NoneLeft; }
      DrawingOf(v, r, key, before, drawn.value, now);
      state := state.(puzzle := drawn.value);
      state := state.(step := 0);
      state := state.(started := now);
      var ok := progress.Replace(key, before, Some(state));
      return if ok then Shown else Conflict;
    }
  }
}
