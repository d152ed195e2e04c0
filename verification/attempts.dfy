/** The server-held puzzle attempt: ranked puzzles and streak runs.

    Progress lives in Redis under one key per user and mode and is replaced by a whole-value
    compare-and-set (internal/store/puzzleprogress.go); the result is one idempotent insert in
    Postgres (internal/store/puzzleranked.go, internal/store/puzzlestreak.go); the two handlers
    (internal/httpapi/ranked.go, internal/httpapi/streak.go) are step systems over both, and any
    number of requests of one user may be in flight. Every sequence of actions is a run: an action
    whose guard does not hold changes nothing. The corpus is what the loader (internal/store/puzzles.go)
    made of it so far. */
module Attempts {
  import opened Options
  import opened Puzzle

  datatype Mode = Ranked | Streak

  datatype Key = Key(mode: Mode, user: string)

  /** InProgress and StreakState. A ranked attempt has no count; it stays 0. */
  datatype Progress = Progress(puzzle: string, step: int, count: nat, started: int)

  type Redis = map<Key, Progress>

  function Value(redis: Redis, key: Key): Option<Progress> {
    if key in redis then Some(redis[key]) else None
  }

  /** replaceProgress: nothing on a mismatch, else the key set or deleted. */
  function Replaced(redis: Redis, key: Key, before: Option<Progress>, after: Option<Progress>): Option<Redis> {
    if Value(redis, key) != before then None
    else match after
      case None => Some(redis - {key})
      case Some(p) => Some(redis[key := p])
  }

  class ProgressStore {
    var redis: Redis

    constructor ()
      ensures redis == map[]
    {
      redis := map[];
    }

    /** The Lua script, one step on the server. */
    method Replace(key: Key, before: Option<Progress>, after: Option<Progress>) returns (ok: bool)
      modifies this
      ensures ok <==> Replaced(old(redis), key, before, after).Some?
      ensures ok ==> Value(redis, key) == after
      ensures !ok ==> redis == old(redis)
      ensures forall k | k != key :: Value(redis, k) == Value(old(redis), k)
      ensures ok ==> redis == Replaced(old(redis), key, before, after).value
    {
      var current := if key in redis then Some(redis[key]) else None;
      if current != before { return false; }
      match after {
        case None => redis := redis - {key};
        case Some(p) => redis := redis[key := p];
      }
      return true;
    }
  }

  // ---- Postgres -----------------------------------------------------------------------------

  /** attemptID hashes these three; distinct triples are taken to have distinct ids. */
  datatype AttemptId = AttemptId(user: string, puzzle: string, started: int)

  datatype Attempt = Attempt(mode: Mode, solved: bool)

  datatype Account = Account(puzzlesSolved: nat, bestStreak: nat)

  datatype Counters = Counters(plays: nat, rankedPlays: nat, solved: nat)

  datatype Db = Db(
    attempts: map<AttemptId, Attempt>,
    accounts: map<string, Account>,
    counters: map<string, Counters>)

  /** RecordRanked and RecordStreakAttempt as one transaction each. None when it is refused: the
      attempt id is taken, or a ranked account is gone. */
  function Recorded(db: Db, id: AttemptId, row: Attempt): Option<Db> {
    if id in db.attempts || id.user !in db.accounts || id.puzzle !in db.counters then None
    else
      var a, c := db.accounts[id.user], db.counters[id.puzzle];
      var one := if row.solved then 1 else 0;
      var ranked := row.mode == Ranked;
      Some(Db(
        db.attempts[id := row],
        if ranked then db.accounts[id.user := a.(puzzlesSolved := a.puzzlesSolved + one)] else db.accounts,
        db.counters[id.puzzle := Counters(
          c.plays + 1, if ranked then c.rankedPlays + 1 else c.rankedPlays, c.solved + one)]))
  }

  /** SaveBestStreak: GREATEST, in one statement. */
  function BestSaved(db: Db, user: string, run: nat): Option<Db> {
    if user !in db.accounts then None
    else
      var a := db.accounts[user];
      Some(db.(accounts := db.accounts[user :=
        a.(bestStreak := if run > a.bestStreak then run else a.bestStreak)]))
  }

  class AttemptTable {
    var attempts: map<AttemptId, Attempt>
    var accounts: map<string, Account>
    var counters: map<string, Counters>

    constructor (accounts: map<string, Account>, counters: map<string, Counters>)
      ensures View() == Db(map[], accounts, counters)
    {
      this.attempts, this.accounts, this.counters := map[], accounts, counters;
    }

    function View(): Db
      reads this
    {
      Db(attempts, accounts, counters)
    }

    /** The transaction rolls back when the insert affects no row. */
    method Record(id: AttemptId, mode: Mode, solved: bool) returns (ok: bool)
      modifies this
      ensures ok <==> Recorded(old(View()), id, Attempt(mode, solved)).Some?
      ensures View() == if ok then Recorded(old(View()), id, Attempt(mode, solved)).value else old(View())
    {
      if id.user !in accounts || id.puzzle !in counters { return false; }
      var a, c := accounts[id.user], counters[id.puzzle];
      if id in attempts { return false; }
      attempts := attempts[id := Attempt(mode, solved)];
      if mode == Ranked {
        accounts := accounts[id.user := a.(puzzlesSolved := a.puzzlesSolved + if solved then 1 else 0)];
        c := c.(rankedPlays := c.rankedPlays + 1);
      }
      counters := counters[id.puzzle := c.(plays := c.plays + 1, solved := c.solved + if solved then 1 else 0)];
      return true;
    }

    method SaveBest(user: string, run: nat) returns (best: Option<nat>)
      modifies this
      ensures match BestSaved(old(View()), user, run)
        case None => best == None && View() == old(View())
        case Some(db) => View() == db && best == Some(db.accounts[user].bestStreak)
                         && best.value >= run && best.value >= old(accounts)[user].bestStreak
    {
      if user !in accounts { return None; }
      var a := accounts[user];
      if run > a.bestStreak {
        a := a.(bestStreak := run);
      }
      accounts := accounts[user := a];
      return Some(a.bestStreak);
    }
  }

  // ---- Requests in flight ---------------------------------------------------------------------

  /** `read` is what Get returned. Looking is before the puzzle is looked up, for a move or, without one,
      for the next puzzle; `line` is what was found. Grading is before the one write a move makes first;
      the others are what is left of a request afterwards. */
  datatype Stage =
    | Looking(read: Progress, move: Option<string>)
    | Grading(read: Progress, uci: string, line: Option<Puzzle>)
    | Saving(read: Progress)
    | Clearing(read: Progress)
    | Advancing(read: Progress)
    | Dropping(read: Progress)
    | Drawing(before: Option<Progress>)

  datatype Request = Request(key: Key, stage: Stage)

  /** What happened, in order; no step reads it. `line` is what the move was graded against; `run`
      numbers the streak runs of a key. */
  datatype Event =
    | Accepted(key: Key, puzzle: string, line: Puzzle, started: int, step: int, uci: string)
    | Settled(key: Key, run: nat, puzzle: string, line: Puzzle, started: int, step: int, uci: string, solved: bool)
    | Grew(key: Key, run: nat, count: nat)

  /** Which run, and which puzzle, a start time was drawn for. */
  datatype Draw = Draw(key: Key, run: nat, puzzle: string)

  /** `lines` is everything that was ever loaded. */
  datatype Notes = Notes(draws: map<(string, int), Draw>, runs: map<Key, nat>, lines: set<Puzzle>, log: seq<Event>)

  datatype State = State(
    redis: Redis,
    db: Db,
    corpus: map<string, Puzzle>,
    requests: map<nat, Request>,
    notes: Notes)

  datatype Action =
    | ReadMove(r: nat, key: Key, uci: string)
    | Look(r: nat)
    | Grade(r: nat, up: bool)
    | SaveBest(r: nat, up: bool)
    | Clear(r: nat)
    | Advance(r: nat)
    | ReadNext(r: nat, key: Key)
    | DropGone(r: nat)
    | DrawNext(r: nat, puzzle: string, now: int)
    | Abandon(r: nat)
    | Expire(key: Key)
    | Load(puzzles: map<string, Puzzle>)

  function RunOf(s: State, key: Key): nat {
    if key in s.notes.runs then s.notes.runs[key] else 0
  }

  function DrawOf(s: State, user: string, started: int): Draw {
    if (user, started) in s.notes.draws then s.notes.draws[(user, started)]
    else Draw(Key(Ranked, ""), 0, "")
  }

  function Logged(s: State, e: Event): State {
    s.(notes := s.notes.(log := s.notes.log + [e]))
  }

  function Without(s: State, r: nat): State {
    s.(requests := s.requests - {r})
  }

  function Onto(s: State, r: nat, key: Key, stage: Stage): State {
    s.(requests := s.requests[r := Request(key, stage)])
  }

  function DoReadMove(s: State, r: nat, key: Key, uci: string): State {
    if r in s.requests || key !in s.redis then s
    else Onto(s, r, key, Looking(s.redis[key], Some(uci)))
  }

  /** ByID. */
  function Found(corpus: map<string, Puzzle>, puzzle: string): Option<Puzzle> {
    if puzzle in corpus then Some(corpus[puzzle]) else None
  }

  /** An attempt whose puzzle exists is shown again; otherwise a puzzle is drawn, for a streak over the
      run's own state. A run between two puzzles has none to look up. */
  function DoLook(s: State, r: nat): State {
    if r !in s.requests || !s.requests[r].stage.Looking? then s
    else
      var Request(key, Looking(read, move)) := s.requests[r];
      if move.Some? then Onto(s, r, key, Grading(read, move.value, Found(s.corpus, read.puzzle)))
      else if read.puzzle in s.corpus && (key.mode == Ranked || read.puzzle != "") then Without(s, r)
      else if key.mode == Ranked then Onto(s, r, key, Dropping(read))
      else Onto(s, r, key, Drawing(Some(read)))
  }

  /** The stage after a recorded result. */
  function Recording(key: Key, read: Progress, correct: bool): Stage {
    if key.mode == Ranked then Clearing(read)
    else if correct then Advancing(read)
    else Saving(read)
  }

  /** The compare-and-set that forgets an attempt. */
  function Forgotten(s: State, r: nat, key: Key, read: Progress): State {
    match Replaced(s.redis, key, Some(read), None)
    case None => Without(s, r)
    case Some(redis) => Without(s, r).(redis := redis)
  }

  function SteppedOn(s: State, r: nat, key: Key, read: Progress, line: Puzzle, uci: string): State {
    match Replaced(s.redis, key, Some(read), Some(read.(step := read.step + 2)))
    case None => Without(s, r)
    case Some(redis) =>
      Logged(Without(s, r).(redis := redis), Accepted(key, read.puzzle, line, read.started, read.step, uci))
  }

  function Ended(s: State, r: nat, key: Key, read: Progress, line: Puzzle, uci: string, correct: bool, up: bool): State {
    var id := AttemptId(key.user, read.puzzle, read.started);
    match (if up then Recorded(s.db, id, Attempt(key.mode, correct)) else None)
    case None => Without(s, r)
    case Some(db) =>
      Logged(Onto(s, r, key, Recording(key, read, correct)).(db := db),
             Settled(key, DrawOf(s, key.user, read.started).run, read.puzzle, line, read.started,
                     read.step, uci, correct))
  }

  /** A puzzle that was not found drops the attempt; a correct move that does not finish moves the step
      on; anything else ends the attempt and is recorded. */
  function DoGrade<P>(b: Board<P>, s: State, r: nat, up: bool): State {
    if r !in s.requests || !s.requests[r].stage.Grading? then s
    else
      var Request(key, Grading(read, uci, found)) := s.requests[r];
      match found
      case None => Forgotten(s, r, key, read)
      case Some(line) =>
        var v := Graded(b, line, read.step, uci);
        if v.correct && !v.finished then SteppedOn(s, r, key, read, line, uci)
        else Ended(s, r, key, read, line, uci, v.correct, up)
  }

  function DoSaveBest(s: State, r: nat, up: bool): State {
    if r !in s.requests || !s.requests[r].stage.Saving? then s
    else
      var Request(key, Saving(read)) := s.requests[r];
      match (if up then BestSaved(s.db, key.user, read.count) else None)
      case None => Without(s, r)
      case Some(db) => Onto(s, r, key, Clearing(read)).(db := db)
  }

  function DoClear(s: State, r: nat): State {
    if r !in s.requests || !s.requests[r].stage.Clearing? then s
    else
      var Request(key, Clearing(read)) := s.requests[r];
      Forgotten(s, r, key, read)
  }

  function DoAdvance(s: State, r: nat): State {
    if r !in s.requests || !s.requests[r].stage.Advancing? then s
    else
      var Request(key, Advancing(read)) := s.requests[r];
      var next := read.(puzzle := "", step := 0, count := read.count + 1);
      match Replaced(s.redis, key, Some(read), Some(next))
      case None => Without(s, r)
      case Some(redis) =>
        Logged(Without(s, r).(redis := redis), Grew(key, RunOf(s, key), next.count))
  }

  /** Get in handleRankedNext and handleStreakStart. */
  function DoReadNext(s: State, r: nat, key: Key): State {
    if r in s.requests then s
    else match Value(s.redis, key)
      case None => Onto(s, r, key, Drawing(None))
      case Some(read) => Onto(s, r, key, Looking(read, None))
  }

  function DoDropGone(s: State, r: nat): State {
    if r !in s.requests || !s.requests[r].stage.Dropping? then s
    else
      var Request(key, Dropping(read)) := s.requests[r];
      match Replaced(s.redis, key, Some(read), None)
      case None => Without(s, r)
      case Some(redis) => Onto(s, r, key, Drawing(None)).(redis := redis)
  }

  /** Any puzzle of the corpus, at a time this user has not drawn at before. */
  function DoDraw(s: State, r: nat, puzzle: string, now: int): State {
    if r !in s.requests || !s.requests[r].stage.Drawing? || puzzle !in s.corpus
       || (s.requests[r].key.user, now) in s.notes.draws then s
    else
      var Request(key, Drawing(before)) := s.requests[r];
      var next := Progress(puzzle, 0, if before.Some? then before.value.count else 0, now);
      match Replaced(s.redis, key, before, Some(next))
      case None => Without(s, r)
      case Some(redis) =>
        var run := if before.None? then RunOf(s, key) + 1 else RunOf(s, key);
        Without(s, r).(redis := redis, notes := s.notes.(
          runs := s.notes.runs[key := run],
          draws := s.notes.draws[(key.user, now) := Draw(key, run, puzzle)]))
  }

  /** A puzzle needs an id, a blunder and a solution. */
  predicate Loadable(puzzles: map<string, Puzzle>) {
    forall id | id in puzzles :: id != "" && puzzles[id].id == id && |puzzles[id].moves| >= 2
  }

  /** The loader inserts puzzles and overwrites those it already has; it takes none away, and counters stay. */
  function DoLoad(s: State, puzzles: map<string, Puzzle>): State {
    if !Loadable(puzzles) then s
    else s.(
      corpus := s.corpus + puzzles,
      db := s.db.(counters := (map id | id in puzzles :: Counters(0, 0, 0)) + s.db.counters),
      notes := s.notes.(lines := s.notes.lines + puzzles.Values))
  }

  function Next<P>(b: Board<P>, s: State, a: Action): State {
    match a
    case ReadMove(r, key, uci) => DoReadMove(s, r, key, uci)
    case Look(r) => DoLook(s, r)
    case Grade(r, up) => DoGrade(b, s, r, up)
    case SaveBest(r, up) => DoSaveBest(s, r, up)
    case Clear(r) => DoClear(s, r)
    case Advance(r) => DoAdvance(s, r)
    case ReadNext(r, key) => DoReadNext(s, r, key)
    case DropGone(r) => DoDropGone(s, r)
    case DrawNext(r, puzzle, now) => DoDraw(s, r, puzzle, now)
    case Abandon(r) => Without(s, r)
    case Expire(key) => s.(redis := s.redis - {key})
    case Load(puzzles) => DoLoad(s, puzzles)
  }

  /** Before the first load. */
  function Init(accounts: map<string, Account>): State {
    State(map[], Db(map[], accounts, map[]), map[], map[], Notes(map[], map[], {}, []))
  }

  function Exec<P>(b: Board<P>, s: State, run: seq<Action>): State {
    if run == [] then s
    else Next(b, Exec(b, s, run[..|run| - 1]), run[|run| - 1])
  }
}
