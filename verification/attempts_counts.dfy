/** The counters on accounts and puzzles are the attempts recorded, in every run. */
module AttemptsCounts {
  import opened Options
  import opened Puzzle
  import opened Attempts

  function SolvedBy(db: Db, user: string): set<AttemptId> {
    set id | id in db.attempts && id.user == user && db.attempts[id] == Attempt(Ranked, true)
  }

  function PlaysOf(db: Db, puzzle: string): set<AttemptId> {
    set id | id in db.attempts && id.puzzle == puzzle
  }

  function RankedOf(db: Db, puzzle: string): set<AttemptId> {
    set id | id in db.attempts && id.puzzle == puzzle && db.attempts[id].mode == Ranked
  }

  function SolvedOf(db: Db, puzzle: string): set<AttemptId> {
    set id | id in db.attempts && id.puzzle == puzzle && db.attempts[id].solved
  }

  ghost predicate UserAdds(db: Db, start: map<string, Account>, user: string) {
    user in db.accounts ==>
      && user in start
      && db.accounts[user].puzzlesSolved == start[user].puzzlesSolved + |SolvedBy(db, user)|
      && db.accounts[user].bestStreak >= start[user].bestStreak
  }

  ghost predicate PuzzleAdds(db: Db, puzzle: string) {
    if puzzle in db.counters then
      && db.counters[puzzle].plays == |PlaysOf(db, puzzle)|
      && db.counters[puzzle].rankedPlays == |RankedOf(db, puzzle)|
      && db.counters[puzzle].solved == |SolvedOf(db, puzzle)|
    else PlaysOf(db, puzzle) == {}
  }

  /** One for every attempt that counts towards them, on top of what an account started at. */
  ghost predicate Adds(db: Db, accounts: map<string, Account>) {
    (forall user :: UserAdds(db, accounts, user)) && (forall puzzle :: PuzzleAdds(db, puzzle))
  }

  lemma OneMore(s: set<AttemptId>, t: set<AttemptId>, id: AttemptId, counts: bool)
    requires id !in s && t == if counts then s + {id} else s
    ensures |t| == |s| + if counts then 1 else 0
  {
  }

  lemma UserGains(db: Db, after: Db, id: AttemptId, row: Attempt, user: string)
    requires id !in db.attempts && after.attempts == db.attempts[id := row]
    ensures |SolvedBy(after, user)|
         == |SolvedBy(db, user)| + if id.user == user && row == Attempt(Ranked, true) then 1 else 0
  {
    OneMore(SolvedBy(db, user), SolvedBy(after, user), id, id.user == user && row == Attempt(Ranked, true));
  }

  lemma PlaysGain(db: Db, after: Db, id: AttemptId, row: Attempt, puzzle: string)
    requires id !in db.attempts && after.attempts == db.attempts[id := row]
    ensures |PlaysOf(after, puzzle)| == |PlaysOf(db, puzzle)| + if id.puzzle == puzzle then 1 else 0
  {
    OneMore(PlaysOf(db, puzzle), PlaysOf(after, puzzle), id, id.puzzle == puzzle);
  }

  lemma RankedGain(db: Db, after: Db, id: AttemptId, row: Attempt, puzzle: string)
    requires id !in db.attempts && after.attempts == db.attempts[id := row]
    ensures |RankedOf(after, puzzle)|
         == |RankedOf(db, puzzle)| + if id.puzzle == puzzle && row.mode == Ranked then 1 else 0
  {
    OneMore(RankedOf(db, puzzle), RankedOf(after, puzzle), id, id.puzzle == puzzle && row.mode == Ranked);
  }

  lemma SolvedGain(db: Db, after: Db, id: AttemptId, row: Attempt, puzzle: string)
    requires id !in db.attempts && after.attempts == db.attempts[id := row]
    ensures |SolvedOf(after, puzzle)| == |SolvedOf(db, puzzle)| + if id.puzzle == puzzle && row.solved then 1 else 0
  {
    OneMore(SolvedOf(db, puzzle), SolvedOf(after, puzzle), id, id.puzzle == puzzle && row.solved);
  }

  lemma RecordedAdds(db: Db, accounts: map<string, Account>, id: AttemptId, row: Attempt)
    requires Adds(db, accounts) && Recorded(db, id, row).Some?
    ensures Adds(Recorded(db, id, row).value, accounts)
  {
    hide Adds, SolvedBy, PlaysOf, RankedOf, SolvedOf;
    var after := Recorded(db, id, row).value;
    forall user ensures UserAdds(after, accounts, user) {
      AddsAt(db, accounts, user, id.puzzle);
      UserGains(db, after, id, row, user);
    }
    forall puzzle ensures PuzzleAdds(after, puzzle) {
      AddsAt(db, accounts, id.user, puzzle);
      PlaysGain(db, after, id, row, puzzle);
      RankedGain(db, after, id, row, puzzle);
      SolvedGain(db, after, id, row, puzzle);
    }
    AllAdd(after, accounts);
  }

  lemma AddsAt(db: Db, accounts: map<string, Account>, user: string, puzzle: string)
    requires Adds(db, accounts)
    ensures UserAdds(db, accounts, user) && PuzzleAdds(db, puzzle)
  {
    hide UserAdds, PuzzleAdds;
  }

  lemma AllAdd(db: Db, accounts: map<string, Account>)
    requires (forall user :: UserAdds(db, accounts, user)) && (forall puzzle :: PuzzleAdds(db, puzzle))
    ensures Adds(db, accounts)
  {
    hide UserAdds, PuzzleAdds;
  }

  lemma BestSavedAdds(db: Db, accounts: map<string, Account>, user: string, run: nat)
    requires Adds(db, accounts) && BestSaved(db, user, run).Some?
    ensures Adds(BestSaved(db, user, run).value, accounts)
  {
    hide Adds;
    var after := BestSaved(db, user, run).value;
    forall u ensures UserAdds(after, accounts, u) {
      AddsAt(db, accounts, u, "");
      assert SolvedBy(after, u) == SolvedBy(db, u);
    }
    forall puzzle ensures PuzzleAdds(after, puzzle) {
      AddsAt(db, accounts, user, puzzle);
      assert PlaysOf(after, puzzle) == PlaysOf(db, puzzle);
      assert RankedOf(after, puzzle) == RankedOf(db, puzzle);
      assert SolvedOf(after, puzzle) == SolvedOf(db, puzzle);
    }
    AllAdd(after, accounts);
  }

  /** The loader's new rows. */
  predicate MoreCounters(db: Db, after: Db) {
    && after == db.(counters := after.counters)
    && (forall id | id in db.counters :: id in after.counters && after.counters[id] == db.counters[id])
    && (forall id | id in after.counters && id !in db.counters :: after.counters[id] == Counters(0, 0, 0))
  }

  lemma MoreCountersAdd(db: Db, accounts: map<string, Account>, after: Db)
    requires Adds(db, accounts) && MoreCounters(db, after)
    ensures Adds(after, accounts)
  {
    hide Adds;
    forall user ensures UserAdds(after, accounts, user) {
      AddsAt(db, accounts, user, "");
      assert SolvedBy(after, user) == SolvedBy(db, user);
    }
    forall puzzle ensures PuzzleAdds(after, puzzle) {
      AddsAt(db, accounts, "", puzzle);
      assert PlaysOf(after, puzzle) == PlaysOf(db, puzzle);
      assert RankedOf(after, puzzle) == RankedOf(db, puzzle) <= PlaysOf(db, puzzle);
      assert SolvedOf(after, puzzle) == SolvedOf(db, puzzle) <= PlaysOf(db, puzzle);
    }
    AllAdd(after, accounts);
  }

  /** Only three transactions touch the tables. */
  lemma DbSteps<P>(b: Board<P>, s: State, a: Action)
    ensures var db := Next(b, s, a).db;
      || db == s.db
      || (exists id, row :: Recorded(s.db, id, row) == Some(db))
      || (exists user, run :: BestSaved(s.db, user, run) == Some(db))
      || MoreCounters(s.db, db)
  {
    hide Graded, Recorded, BestSaved, Replaced;
    match a
    case Grade(r, up) => GradeDb(b, s, r, up);
    case _ =>
  }

  lemma GradeDb<P>(b: Board<P>, s: State, r: nat, up: bool)
    ensures var db := DoGrade(b, s, r, up).db;
      db == s.db || exists id, row :: Recorded(s.db, id, row) == Some(db)
  {
    hide Graded, Recorded, Replaced;
  }

  /** In every run: puzzles_solved is the account's solved ranked attempts, a puzzle's plays, ranked
      plays and solves are its attempts, and no best streak falls. */
  lemma {:induction false} CountersAreAttempts<P>(b: Board<P>, accounts: map<string, Account>, run: seq<Action>)
    ensures Adds(Exec(b, Init(accounts), run).db, accounts)
  {
    hide Adds, Next, Recorded, BestSaved, MoreCounters;
    if run == [] {
      NothingRecordedYet(accounts);
    } else {
      var before := Exec(b, Init(accounts), run[..|run| - 1]);
      CountersAreAttempts(b, accounts, run[..|run| - 1]);
      DbSteps(b, before, run[|run| - 1]);
      var db := Next(b, before, run[|run| - 1]).db;
      if id, row :| Recorded(before.db, id, row) == Some(db) {
        RecordedAdds(before.db, accounts, id, row);
      } else if user, best :| BestSaved(before.db, user, best) == Some(db) {
        BestSavedAdds(before.db, accounts, user, best);
      } else if MoreCounters(before.db, db) {
        MoreCountersAdd(before.db, accounts, db);
      }
    }
  }

  lemma NothingRecordedYet(accounts: map<string, Account>)
    ensures Adds(Init(accounts).db, accounts)
  {
    var db := Init(accounts).db;
    assert forall user :: SolvedBy(db, user) == {};
    assert forall puzzle :: PlaysOf(db, puzzle) == {};
  }
}
