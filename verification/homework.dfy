/** Classroom homework (internal/store/classroomwork.go): the rules for setting an assignment, and the
    one query that counts who has done it, against what it is meant to count. */
module Homework {
  import opened Options

  datatype Role = Coach | Student

  datatype Assignment = Assignment(id: string, theme: string, minRating: int, maxRating: int, target: int, at: int)

  /** A row of the attempts table; its puzzle exists, by the foreign key. */
  datatype Attempt = Attempt(user: string, puzzle: string, solved: bool, at: int)

  datatype Puzzle = Puzzle(themes: seq<string>, rating: real)

  datatype Tables = Tables(members: set<string>, attempts: set<Attempt>, puzzles: map<string, Puzzle>)

  // ---- What is meant --------------------------------------------------------------------------------

  /** The theme asked for, if any, and a rating in the window, either end of which 0 leaves open. */
  ghost predicate Fits(a: Assignment, p: Puzzle) {
    && (a.theme != "" ==> a.theme in p.themes)
    && (a.minRating != 0 ==> a.minRating as real <= p.rating)
    && (a.maxRating != 0 ==> p.rating <= a.maxRating as real)
  }

  /** The distinct matching puzzles a member solved since the assignment was set. */
  ghost function Credit(a: Assignment, t: Tables, user: string): set<string> {
    set x | x in t.attempts && x.user == user && x.solved && x.at >= a.at
            && x.puzzle in t.puzzles && Fits(a, t.puzzles[x.puzzle]) :: x.puzzle
  }

  ghost function Finished(a: Assignment, t: Tables): set<string> {
    set u | u in t.members && |Credit(a, t, u)| >= a.target
  }

  // ---- The query ------------------------------------------------------------------------------------

  /** A row of the joins for one assignment: the attempt and the puzzle may be NULL. */
  datatype Joined = Joined(user: string, attempt: Option<Attempt>, puzzle: Option<string>)

  /** The join condition on the puzzle. */
  predicate AsksFor(a: Assignment, p: Puzzle) {
    && (a.theme == "" || a.theme in p.themes)
    && (a.minRating == 0 || p.rating >= a.minRating as real)
    && (a.maxRating == 0 || p.rating <= a.maxRating as real)
  }

  predicate OnAttempt(a: Assignment, user: string, x: Attempt) {
    x.user == user && x.solved && x.at >= a.at
  }

  /** members LEFT JOIN attempts. */
  function WithAttempts(a: Assignment, t: Tables): set<(string, Option<Attempt>)> {
    (set u, x | u in t.members && x in t.attempts && OnAttempt(a, u, x) :: (u, Some(x)))
    + (set u | u in t.members && !(exists x | x in t.attempts :: OnAttempt(a, u, x)) :: (u, None))
  }

  /** LEFT JOIN puzzles, on the primary key and what the assignment asks for. */
  function WithPuzzle(a: Assignment, t: Tables, r: (string, Option<Attempt>)): Joined {
    Joined(r.0, r.1,
      if r.1.Some? && r.1.value.puzzle in t.puzzles && AsksFor(a, t.puzzles[r.1.value.puzzle])
      then Some(r.1.value.puzzle) else None)
  }

  function AllJoined(a: Assignment, t: Tables): set<Joined> {
    set r | r in WithAttempts(a, t) :: WithPuzzle(a, t, r)
  }

  /** WHERE p.id IS NOT NULL OR t.puzzle_id IS NULL */
  function Kept(a: Assignment, t: Tables): set<Joined> {
    set j | j in AllJoined(a, t) && (j.puzzle.Some? || j.attempt.None?)
  }

  function Groups(kept: set<Joined>): set<string> {
    set j | j in kept :: j.user
  }

  function DistinctPuzzles(kept: set<Joined>, user: string): set<string> {
    set j | j in kept && j.user == user && j.attempt.Some? :: j.attempt.value.puzzle
  }

  /** GROUP BY member, count(DISTINCT t.puzzle_id): NULLs are not counted. */
  function Progress(a: Assignment, t: Tables): map<string, nat> {
    map u | u in Groups(Kept(a, t)) :: |DistinctPuzzles(Kept(a, t), u)|
  }

  /** coalesce(max(CASE WHEN pr.user_id = $2 THEN pr.solved END), 0) */
  function Done(a: Assignment, t: Tables, caller: string): nat {
    var pr := Progress(a, t);
    if caller in pr then pr[caller] else 0
  }

  /** count(*) FILTER (WHERE pr.solved >= w.target) */
  function Class(a: Assignment, t: Tables): nat {
    |set u | u in Progress(a, t) && Progress(a, t)[u] >= a.target|
  }

  // ---- The query means it ---------------------------------------------------------------------------

  /** The members whose every solved attempt since then fails the assignment: the WHERE clause drops
      them from the grouping altogether. */
  ghost function Dropped(a: Assignment, t: Tables): set<string> {
    set u | u in t.members && Credit(a, t, u) == {} && exists x | x in t.attempts :: OnAttempt(a, u, x)
  }

  lemma KeptRows(a: Assignment, t: Tables, j: Joined)
    ensures j in Kept(a, t) <==>
      && j.user in t.members
      && if j.attempt.None? then
           j.puzzle.None? && !(exists x | x in t.attempts :: OnAttempt(a, j.user, x))
         else
           var x := j.attempt.value;
           && x in t.attempts && OnAttempt(a, j.user, x)
           && x.puzzle in t.puzzles && AsksFor(a, t.puzzles[x.puzzle]) && j.puzzle == Some(x.puzzle)
  {
    if j.user in t.members {
      if j.attempt.None? {
        if !(exists x | x in t.attempts :: OnAttempt(a, j.user, x)) {
          assert (j.user, None) in WithAttempts(a, t);
          assert WithPuzzle(a, t, (j.user, None)) in AllJoined(a, t);
        }
      } else if j.attempt.value in t.attempts && OnAttempt(a, j.user, j.attempt.value) {
        assert (j.user, j.attempt) in WithAttempts(a, t);
        assert WithPuzzle(a, t, (j.user, j.attempt)) in AllJoined(a, t);
      }
    }
  }

  lemma CountedIsCredit(a: Assignment, t: Tables, user: string)
    requires user in t.members
    ensures DistinctPuzzles(Kept(a, t), user) == Credit(a, t, user)
  {
    var counted := DistinctPuzzles(Kept(a, t), user);
    forall p | p in counted ensures p in Credit(a, t, user) {
      var j :| j in Kept(a, t) && j.user == user && j.attempt.Some? && j.attempt.value.puzzle == p;
      KeptRows(a, t, j);
    }
    forall p | p in Credit(a, t, user) ensures p in counted {
      var x :| x in t.attempts && OnAttempt(a, user, x) && x.puzzle == p
               && x.puzzle in t.puzzles && AsksFor(a, t.puzzles[x.puzzle]);
      KeptRows(a, t, Joined(user, Some(x), Some(p)));
    }
  }

  /** Everybody is grouped but the members the WHERE clause drops. */
  lemma GroupedUnlessDropped(a: Assignment, t: Tables, user: string)
    ensures user in Progress(a, t) <==> user in t.members && user !in Dropped(a, t)
  {
    if user in t.members {
      CountedIsCredit(a, t, user);
      KeptRows(a, t, Joined(user, None, None));
      if Credit(a, t, user) != {} {
        var p :| p in DistinctPuzzles(Kept(a, t), user);
      }
      if user in Progress(a, t) {
        var j :| j in Kept(a, t) && j.user == user;
        KeptRows(a, t, j);
        if j.attempt.Some? { assert j.attempt.value.puzzle in Credit(a, t, user); }
      }
    } else {
      forall j | j in Kept(a, t) ensures j.user != user { KeptRows(a, t, j); }
    }
  }

  /** Done is the number of distinct matching puzzles the caller solved since. */
  lemma DoneIsCredit(a: Assignment, t: Tables, caller: string)
    requires caller in t.members
    ensures Done(a, t, caller) == |Credit(a, t, caller)|
  {
    GroupedUnlessDropped(a, t, caller);
    CountedIsCredit(a, t, caller);
  }

  ghost function InClass(a: Assignment, t: Tables): set<string> {
    set u | u in Progress(a, t) && Progress(a, t)[u] >= a.target
  }

  lemma InClassIs(a: Assignment, t: Tables)
    ensures Class(a, t) == |InClass(a, t)|
    ensures InClass(a, t) == if a.target >= 1 then Finished(a, t) else t.members - Dropped(a, t)
    ensures a.target < 1 ==> Finished(a, t) == t.members
  {
    forall u ensures u in InClass(a, t) <==>
      u in t.members && u !in Dropped(a, t) && |Credit(a, t, u)| >= a.target
    {
      GroupedUnlessDropped(a, t, u);
      if u in t.members { CountedIsCredit(a, t, u); }
    }
    hide Progress, Credit;
  }

  /** Class is the number of members who reached the target, exactly when the target is at least one
      or nobody is dropped. */
  lemma ClassIsFinished(a: Assignment, t: Tables)
    ensures Class(a, t) == |Finished(a, t)| <==> a.target >= 1 || Dropped(a, t) == {}
  {
    InClassIs(a, t);
    hide Progress, Credit, Class, Finished, InClass;
    assert Dropped(a, t) <= t.members by { DroppedAreMembers(a, t); }
    CardinalityOfRest(t.members, Dropped(a, t));
  }

  const NONE_ASKED := Assignment("h", "fork", 0, 0, 0, 0)
  const ONE_PIN := Tables({"u"}, {Attempt("u", "p", true, 1)}, map["p" := Puzzle(["pin"], 1500.0)])

  /** With a target of zero, a member who only solved something else is not counted. */
  lemma ZeroTargetMiscounts()
    ensures Class(NONE_ASKED, ONE_PIN) != |Finished(NONE_ASKED, ONE_PIN)|
  {
    var x := Attempt("u", "p", true, 1);
    assert x in ONE_PIN.attempts && OnAttempt(NONE_ASKED, "u", x);
    assert Credit(NONE_ASKED, ONE_PIN, "u") == {};
    assert "u" in Dropped(NONE_ASKED, ONE_PIN);
    ClassIsFinished(NONE_ASKED, ONE_PIN);
  }

  lemma DroppedAreMembers(a: Assignment, t: Tables)
    ensures Dropped(a, t) <= t.members
  {
  }

  lemma CardinalityOfRest(all: set<string>, some: set<string>)
    requires some <= all
    ensures |all - some| == |all| <==> some == {}
  {
    assert all == (all - some) + some;
  }

  // ---- Setting an assignment ------------------------------------------------------------------------

  const MAX_ASSIGNMENTS := 20

  datatype Error = NotAMember | NotCoach | BadAssignment | TooMany

  class Classroom {
    var roles: map<string, Role>
    var assignments: seq<Assignment>

    constructor (coach: string)
      ensures Valid() && roles == map[coach := Coach] && assignments == []
    {
      roles, assignments := map[coach := Coach], [];
    }

    ghost predicate Valid()
      reads this
    {
      && |assignments| <= 20
      && (forall a | a in assignments :: 1 <= a.target <= 100 && Upright(a))
    }

    /** SetAssignment; `trim` is strings.TrimSpace. */
    method SetAssignment(user: string, id: string, theme: string, minRating: int, maxRating: int, target: int,
                         at: int, trim: string -> string) returns (error: Option<Error>)
      requires Valid()
      modifies `assignments
      ensures Valid()
      ensures error == Refusal(old(roles), |old(assignments)|, user, target)
      ensures error.Some? ==> assignments == old(assignments)
      ensures error.None? ==>
        var (lo, hi) := InOrder(minRating, maxRating);
        assignments == old(assignments) + [Assignment(id, trim(theme), lo, hi, target, at)]
    {
      if user !in roles { return Some(NotAMember); }
      if roles[user] != Coach { return Some(NotCoach); }
      if target < 1 || target > 100 { return Some(BadAssignment); }
      var lo, hi := minRating, maxRating;
      if lo > 0 && hi > 0 && lo > hi {
        lo, hi := hi, lo;
      }
      if |assignments| >= MAX_ASSIGNMENTS { return Some(TooMany); }
      assignments := assignments + [Assignment(id, trim(theme), lo, hi, target, at)];
      return None;
    }

    /** Assignments: the caller's own count and the room's, newest first. */
    method Assignments(caller: string, t: Tables) returns (out: Option<seq<(Assignment, nat, nat)>>)
      requires Valid() && t.members == roles.Keys
      ensures out.None? <==> caller !in roles
      ensures out.Some? ==>
        |out.value| == |assignments| && forall k | 0 <= k < |assignments| ::
          var a := assignments[|assignments| - 1 - k];
          out.value[k] == (a, |Credit(a, t, caller)|, |Finished(a, t)|)
    {
      hide Done, Class, Credit, Finished;
      if caller !in roles { return None; }
      var rows: seq<(Assignment, nat, nat)> := [];
      for k := 0 to |assignments|
        invariant |rows| == k
        invariant forall j | 0 <= j < k ::
          var a := assignments[|assignments| - 1 - j];
          rows[j] == (a, |Credit(a, t, caller)|, |Finished(a, t)|)
      {
        var a := assignments[|assignments| - 1 - k];
        assert a in assignments;
        DoneIsCredit(a, t, caller);
        ClassIsFinished(a, t);
        rows := rows + [(a, Done(a, t, caller), Class(a, t))];
      }
      return Some(rows);
    }
  }

  function Refusal(roles: map<string, Role>, open: nat, user: string, target: int): Option<Error> {
    if user !in roles then Some(NotAMember)
    else if roles[user] != Coach then Some(NotCoach)
    else if target < 1 || target > 100 then Some(BadAssignment)
    else if open >= 20 then Some(TooMany)
    else None
  }

  function InOrder(lo: int, hi: int): (int, int) {
    if lo > 0 && hi > 0 && lo > hi then (hi, lo) else (lo, hi)
  }

  /** The rating window is not the wrong way round. */
  predicate Upright(a: Assignment) {
    !(a.minRating > 0 && a.maxRating > 0 && a.minRating > a.maxRating)
  }
}
