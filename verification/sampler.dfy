/** Drawing puzzles without replacement (internal/store/puzzleselect.go, Select and drawCell). */
module Sampler {
  import opened Corpus

  // ---- Drawing a cell -----------------------------------------------------------------------------

  /** The draws below i's share of the pool. */
  function Below(pool: seq<Cell>, i: nat): nat
    requires i <= |pool|
  {
    SumCells(pool[..i])
  }

  /** The draw r falls into cell i. */
  predicate Falls(pool: seq<Cell>, r: nat, i: nat) {
    i < |pool| && Below(pool, i) <= r < Below(pool, i) + pool[i].n
  }

  lemma {:induction false} BelowGrows(pool: seq<Cell>, i: nat, j: nat)
    requires i <= j <= |pool|
    ensures Below(pool, i) <= Below(pool, j)
    ensures i < j ==> Below(pool, i) + pool[i].n <= Below(pool, j)
  {
    if i < j {
      assert pool[..j][..j - 1] == pool[..j - 1];
      BelowGrows(pool, i, j - 1);
    }
  }

  lemma {:induction false} EveryDrawFalls(pool: seq<Cell>, r: nat) returns (i: nat)
    requires r < SumCells(pool)
    ensures Falls(pool, r, i)
  {
    var last := |pool| - 1;
    if r >= SumCells(pool[..last]) {
      return last;
    }
    i := EveryDrawFalls(pool[..last], r);
    assert pool[..last][..i] == pool[..i];
  }

  lemma {:induction false} Interval(lo: nat, n: nat, s: set<nat>)
    requires forall r :: r in s <==> lo <= r < lo + n
    ensures |s| == n
  {
    if n == 0 {
      assert s == {};
    } else {
      Interval(lo, n - 1, s - {lo + n - 1});
    }
  }

  /** Exactly n of the equally likely draws pick a cell of n, and every draw picks one cell, which is
      not empty. */
  lemma DrawIsProportional(pool: seq<Cell>, i: nat)
    requires i < |pool|
    ensures |set r: nat | r < SumCells(pool) && Falls(pool, r, i)| == pool[i].n
    ensures forall r: nat, j: nat | Falls(pool, r, i) && Falls(pool, r, j) :: i == j
    ensures forall r: nat | Falls(pool, r, i) :: pool[i].n > 0 && r < SumCells(pool)
  {
    assert pool[..|pool|] == pool;
    BelowGrows(pool, i, |pool|);
    Interval(Below(pool, i), pool[i].n, set r: nat | r < SumCells(pool) && Falls(pool, r, i));
    forall r: nat, j: nat | Falls(pool, r, i) && Falls(pool, r, j) ensures i == j {
      if i < j { BelowGrows(pool, i, j); } else { BelowGrows(pool, j, i); }
    }
  }

  function Emptied(pool: seq<Cell>, i: nat): seq<Cell>
    requires i < |pool|
  {
    pool[i := pool[i].(n := 0)]
  }

  lemma {:induction false} EmptiedSum(pool: seq<Cell>, i: nat)
    requires i < |pool|
    ensures SumCells(Emptied(pool, i)) == SumCells(pool) - pool[i].n
  {
    var last := |pool| - 1;
    if i < last {
      assert Emptied(pool, i)[..last] == Emptied(pool[..last], i);
      EmptiedSum(pool[..last], i);
    } else {
      assert Emptied(pool, i)[..last] == pool[..last];
    }
  }

  /** drawCell with the random number r: the cell r falls into, taken out of the pool. The fallback
      after the loop is never reached, because total is the pool's sum. */
  method DrawCell(cells: array<Cell>, total: nat, r: nat) returns (c: Cell, ghost i: nat)
    requires r < total == SumCells(cells[..])
    modifies cells
    ensures Falls(old(cells[..]), r, i) && c == old(cells[..])[i] && c.n > 0
    ensures cells[..] == Emptied(old(cells[..]), i)
    ensures SumCells(cells[..]) == total - c.n
  {
    ghost var pool := cells[..];
    assert pool[..cells.Length] == pool;
    var rest: int := r;
    for k := 0 to cells.Length
      invariant cells[..] == pool && 0 <= rest == r - Below(pool, k)
    {
      assert pool[..k + 1][..k] == pool[..k];
      if rest < cells[k].n {
        c, i := cells[k], k;
        cells[k] := cells[k].(n := 0);
        EmptiedSum(pool, k);
        return;
      }
      rest := rest - cells[k].n;
    }
    assert false;
  }

  // ---- Selecting ----------------------------------------------------------------------------------

  const SCAN_SPARE := 2
  const MAX_SCANS := 12

  function ScanLimit(want: int): nat {
    (if want < 1 then 1 else want) + SCAN_SPARE
  }

  const MIN_INT32 := -0x8000_0000

  /** The key column holds 32-bit integers. */
  ghost predicate Keyed(rows: seq<Row>) {
    forall r | r in rows :: r.key >= -0x8000_0000
  }

  /** A puzzle of the cell that the scan's rechecks let through. */
  predicate Fits(f: Filter, q: Square, r: Row) {
    SquareOf(r) == q && Rechecked(f, r)
  }

  /** The rows one cell gives: as many as the limit, or all that fit. */
  ghost predicate Scanned(rows: seq<Row>, f: Filter, q: Square, limit: nat, got: seq<Row>) {
    && |got| <= limit && DistinctIds(got)
    && (forall r | r in got :: r in rows && Fits(f, q, r))
    && (|got| < limit ==> forall r | r in rows && Fits(f, q, r) :: r in got)
  }

  /** Whole when it is small, else from a random cursor, wrapping round to below it. */
  method ScanFrom(t: PuzzleTable, f: Filter, c: Cell, limit: nat, cursor: int) returns (got: seq<Row>)
    requires DistinctIds(t.rows) && Keyed(t.rows)
    ensures Scanned(t.rows, f, c.square, limit, got)
  {
    if c.n <= limit {
      got := t.Scan(f, c.square, MIN_INT32, true, limit);
      return;
    }
    got := t.Scan(f, c.square, cursor, true, limit);
    if |got| < limit {
      var more := t.Scan(f, c.square, cursor, false, limit - |got|);
      SplitAtCursor(t.rows, f, c.square, cursor, got, more);
      got := got + more;
    }
  }

  lemma SplitAtCursor(rows: seq<Row>, f: Filter, q: Square, cursor: int, above: seq<Row>, below: seq<Row>)
    requires DistinctIds(rows) && DistinctIds(above) && DistinctIds(below)
    requires forall r | r in above :: r in rows && Hit(f, q, cursor, true, r)
    requires forall r | r in below :: r in rows && Hit(f, q, cursor, false, r)
    ensures DistinctIds(above + below)
  {
    var all := above + below;
    forall i, j | 0 <= i < j < |all| ensures all[i].id != all[j].id {
      if i < |above| <= j {
        assert all[i] in above && all[j] in below;
        SameIdSameRow(rows, all[i], all[j]);
      }
    }
  }

  lemma SameIdSameRow(rows: seq<Row>, r: Row, s: Row)
    requires DistinctIds(rows) && r in rows && s in rows
    ensures r.id == s.id ==> r == s
  {
  }

  ghost function Ids(rows: seq<Row>): set<string> {
    set r | r in rows :: r.id
  }

  /** The puzzles a filter matches. */
  ghost function Matching(rows: seq<Row>, f: Filter): set<string> {
    set r | r in rows && Matches(f, r) :: r.id
  }

  lemma {:induction false} DistinctCount(rows: seq<Row>)
    requires DistinctIds(rows)
    ensures |Ids(rows)| == |rows|
  {
    if rows == [] {
      assert Ids(rows) == {};
    } else {
      var last := |rows| - 1;
      DistinctCount(rows[..last]);
      assert rows == rows[..last] + [rows[last]];
      assert Ids(rows) == Ids(rows[..last]) + {rows[last].id};
    }
  }

  /** Whatever is drawn: no puzzle twice, none already seen, none that does not match. */
  ghost predicate Sane(rows: seq<Row>, f: Filter, seen: set<string>, out: seq<Row>) {
    && DistinctIds(out)
    && (forall r | r in out :: r in rows && Matches(f, r) && r.id !in seen)
  }

  /** The loop over the rows of one scan. */
  method Take(rows: seq<Row>, out: seq<Row>, n: nat, picked: set<string>, seen: set<string>)
    returns (out': seq<Row>, picked': set<string>)
    requires picked == Ids(out) && |out| <= n && DistinctIds(out)
    ensures picked' == Ids(out') && out <= out' && |out'| <= n && DistinctIds(out')
    ensures forall r | r in out' :: r in out || (r in rows && r.id !in seen)
    ensures |out'| < n ==> forall r | r in rows :: r.id in seen || r.id in Ids(out')
  {
    out', picked' := out, picked;
    for i := 0 to |rows|
      invariant picked' == Ids(out') && out <= out' && |out'| <= n && DistinctIds(out')
      invariant forall r | r in out' :: r in out || (r in rows && r.id !in seen)
      invariant forall r | r in rows[..i] :: r.id in seen || r.id in Ids(out')
    {
      if |out'| >= n { break; }
      assert rows[..i + 1] == rows[..i] + [rows[i]];
      if rows[i].id !in picked' && rows[i].id !in seen {
        assert forall r | r in out' :: r.id in Ids(out');
        picked' := picked' + {rows[i].id};
        out' := out' + [rows[i]];
      }
    }
  }

  /** The squares the cell query gives. */
  ghost function Covered(summary: Summary, f: Filter, tag: string): set<Square> {
    set k | k in summary && k.0 == tag && Answers(summary, f, tag, k.1) :: k.1
  }

  ghost function Squares(cells: seq<Cell>): set<Square> {
    set c | c in cells :: c.square
  }

  /** The pool holds the cells, some of them taken out; in the first round exactly the visited ones. */
  ghost predicate Pooled(cells: seq<Cell>, pool: seq<Cell>, visited: set<Square>, first: bool) {
    && |pool| == |cells|
    && (forall i | 0 <= i < |cells| ::
          || pool[i] == cells[i]
          || (pool[i] == cells[i].(n := 0) && cells[i].square in visited))
    && (first ==> forall i | 0 <= i < |cells| :: cells[i].square in visited ==> pool[i].n == 0)
    && (!first ==> Squares(cells) <= visited)
  }

  lemma {:induction false} NothingLeft(pool: seq<Cell>)
    requires SumCells(pool) == 0
    ensures forall c | c in pool :: c.n == 0
  {
    if pool != [] {
      NothingLeft(pool[..|pool| - 1]);
      assert pool == pool[..|pool| - 1] + [pool[|pool| - 1]];
    }
  }

  lemma DrawStaysPooled(cells: seq<Cell>, pool: seq<Cell>, visited: set<Square>, first: bool, i: nat)
    requires Pooled(cells, pool, visited, first) && DistinctSquares(cells) && i < |pool| && pool[i].n > 0
    ensures Pooled(cells, Emptied(pool, i), visited + {cells[i].square}, first)
    ensures pool[i] == cells[i] && (first ==> cells[i].square !in visited)
  {
  }

  /** The puzzles of a cell that a scan can give, and those of them already seen. */
  ghost function Fitting(rows: seq<Row>, f: Filter, q: Square): set<string> {
    set r | r in rows && Fits(f, q, r) :: r.id
  }

  /** No scan of this many rows of the cell can miss what is wanted: the cell is no larger, or hardly any of
      it was seen. */
  ghost predicate Yields(rows: seq<Row>, f: Filter, seen: set<string>, q: Square, limit: nat) {
    |Fitting(rows, f, q)| <= limit || |Fitting(rows, f, q) * seen| <= 2
  }

  /** The cell has nothing unseen left to give. */
  ghost predicate Drained(rows: seq<Row>, f: Filter, seen: set<string>, q: Square, out: seq<Row>) {
    Fitting(rows, f, q) - seen <= Ids(out)
  }

  /** Whatever was seen: each visited cell is drained that is no larger than its last scan could be long, or
      of which at most two were seen. */
  ghost predicate AllDrained(rows: seq<Row>, f: Filter, seen: set<string>, visited: set<Square>, out: seq<Row>, n: nat)
    requires |out| < n
  {
    forall q | q in visited && Yields(rows, f, seen, q, n - |out| + 2) :: Drained(rows, f, seen, q, out)
  }

  lemma StillDrained(rows: seq<Row>, f: Filter, seen: set<string>, visited: set<Square>, out: seq<Row>, out': seq<Row>,
                     n: nat)
    requires out <= out' && |out'| < n && AllDrained(rows, f, seen, visited, out, n)
    ensures AllDrained(rows, f, seen, visited, out', n)
  {
    assert Ids(out) <= Ids(out');
    forall q | q in visited && Yields(rows, f, seen, q, n - |out'| + 2) ensures Drained(rows, f, seen, q, out') {
      YieldsMore(rows, f, seen, q, n - |out'| + 2, n - |out| + 2);
    }
  }

  lemma GotIsFitting(rows: seq<Row>, f: Filter, q: Square, limit: nat, got: seq<Row>)
    requires Scanned(rows, f, q, limit, got)
    ensures Ids(got) <= Fitting(rows, f, q) && |Ids(got)| == |got|
    ensures |got| < limit ==> Ids(got) == Fitting(rows, f, q)
  {
    DistinctCount(got);
  }

  /** A cell not visited before fills the request or is drained: a full scan is two longer than what is still
      wanted, and every row of it is new or was seen. */
  lemma ScanDrains(rows: seq<Row>, f: Filter, seen: set<string>, visited: set<Square>, q: Square, out: seq<Row>,
                   got: seq<Row>, out': seq<Row>, n: nat)
    requires DistinctIds(rows) && Sane(rows, f, seen, out) && DistinctIds(out') && out <= out' && |out'| < n
    requires forall r | r in out :: SquareOf(r) in visited
    requires q !in visited && Yields(rows, f, seen, q, n - |out| + 2)
    requires Scanned(rows, f, q, ScanLimit(n - |out|), got)
    requires forall r | r in got :: r.id in seen || r.id in Ids(out')
    ensures Drained(rows, f, seen, q, out')
  {
    var limit, fitting := ScanLimit(n - |out|), Fitting(rows, f, q);
    GotIsFitting(rows, f, q, limit, got);
    assert Ids(got) - seen <= Ids(out');
    Subset(Ids(got), fitting);
    if |got| == limit && Ids(got) != fitting {
      OthersAreElsewhere(rows, f, seen, visited, q, out, got);
      Unseen(Ids(got), fitting, seen);
      TooMany(out, out', Ids(got) - seen, n);
    }
  }

  lemma Unseen(got: set<string>, fitting: set<string>, seen: set<string>)
    requires got <= fitting && |fitting * seen| <= 2
    ensures |got - seen| >= |got| - 2
  {
    Subset(got * seen, fitting * seen);
    assert got == (got - seen) + (got * seen);
  }

  lemma OthersAreElsewhere(rows: seq<Row>, f: Filter, seen: set<string>, visited: set<Square>, q: Square,
                           out: seq<Row>, got: seq<Row>)
    requires DistinctIds(rows) && Sane(rows, f, seen, out) && q !in visited
    requires forall r | r in out :: SquareOf(r) in visited
    requires forall r | r in got :: r in rows && Fits(f, q, r)
    ensures Ids(out) !! Ids(got)
  {
    forall r, s | r in out && s in got ensures r.id != s.id {
      SameIdSameRow(rows, r, s);
    }
  }

  lemma TooMany(out: seq<Row>, out': seq<Row>, news: set<string>, n: nat)
    requires DistinctIds(out') && out <= out' && Ids(out) !! news && news <= Ids(out')
    requires |news| >= n - |out|
    ensures |out'| >= n
  {
    assert DistinctIds(out);
    DistinctCount(out);
    DistinctCount(out');
    assert Ids(out) <= Ids(out');
    Subset(Ids(out) + news, Ids(out'));
  }

  lemma Subset<T>(a: set<T>, b: set<T>)
    requires a <= b
    ensures |a| <= |b|
    ensures |a| == |b| ==> a == b
  {
    assert b == a + (b - a);
  }

  /** One turn of the loop: scan the cell drawn and keep what is new. */
  method ScanAndTake(t: PuzzleTable, f: Filter, c: Cell, n: nat, seen: set<string>, out: seq<Row>,
                     picked: set<string>, cursor: int, ghost visited: set<Square>)
    returns (out': seq<Row>, picked': set<string>)
    requires DistinctIds(t.rows) && Keyed(t.rows) && Covers(f, c.square)
    requires Sane(t.rows, f, seen, out) && picked == Ids(out) && |out| < n
    requires forall r | r in out :: SquareOf(r) in visited
    requires AllDrained(t.rows, f, seen, visited, out, n)
    ensures Sane(t.rows, f, seen, out') && picked' == Ids(out') && |out'| <= n
    ensures forall r | r in out' :: SquareOf(r) in visited + {c.square}
    ensures |out'| < n ==> AllDrained(t.rows, f, seen, visited + {c.square}, out', n)
  {
    hide Rechecked, Covers, SquareOf, AllDrained, ScanLimit;
    var limit := ScanLimit(n - |out|);
    var got := ScanFrom(t, f, c, limit, cursor);
    forall r | r in got ensures Matches(f, r) {
      MatchesIsChecked(f, r);
    }
    out', picked' := Take(got, out, n, picked, seen);
    if |out'| < n {
      OneMoreDrained(t.rows, f, seen, visited, c.square, out, got, out', n);
    }
  }

  lemma OneMoreDrained(rows: seq<Row>, f: Filter, seen: set<string>, visited: set<Square>, q: Square, out: seq<Row>,
                       got: seq<Row>, out': seq<Row>, n: nat)
    requires DistinctIds(rows) && Sane(rows, f, seen, out) && DistinctIds(out') && out <= out' && |out'| < n
    requires forall r | r in out :: SquareOf(r) in visited
    requires AllDrained(rows, f, seen, visited, out, n)
    requires Scanned(rows, f, q, ScanLimit(n - |out|), got)
    requires forall r | r in got :: r.id in seen || r.id in Ids(out')
    ensures AllDrained(rows, f, seen, visited + {q}, out', n)
  {
    hide Drained, Sane, Scanned, SquareOf, ScanLimit;
    StillDrained(rows, f, seen, visited, out, out', n);
    if q !in visited && Yields(rows, f, seen, q, n - |out'| + 2) {
      ScanDrains(rows, f, seen, visited, q, out, got, out', n);
    }
  }

  /** All the matching puzzles not seen are found once every cell is drained. */
  lemma AllFound(rows: seq<Row>, summary: Summary, f: Filter, tag: string, seen: set<string>, out: seq<Row>)
    requires InSync(summary, rows) && IsRarest(summary, Tags(f), tag) && |f.openings| <= 1
    requires f.minRating >= 0 || forall r | r in rows :: r.rating >= 0.0
    requires forall q | Answers(summary, f, tag, q) :: Drained(rows, f, seen, q, out)
    ensures Matching(rows, f) - seen <= Ids(out)
  {
    forall r | r in rows && Matches(f, r) && r.id !in seen ensures r.id in Ids(out) {
      MatchingCellAnswers(summary, rows, f, tag, r);
      assert r.id in Fitting(rows, f, SquareOf(r));
    }
  }

  lemma FoundIsMatching(rows: seq<Row>, f: Filter, seen: set<string>, out: seq<Row>)
    requires Sane(rows, f, seen, out)
    ensures Ids(out) <= Matching(rows, f) - seen && |out| == |Ids(out)| <= |Matching(rows, f) - seen|
  {
    DistinctCount(out);
    Subset(Ids(out), Matching(rows, f) - seen);
  }

  lemma YieldsMore(rows: seq<Row>, f: Filter, seen: set<string>, q: Square, limit: nat, more: nat)
    requires Yields(rows, f, seen, q, limit) && limit <= more
    ensures Yields(rows, f, seen, q, more)
  {
  }

  /** With at most two of the matching puzzles seen every cell the filter covers yields. */
  lemma FewSeenYields(rows: seq<Row>, f: Filter, seen: set<string>)
    requires |Matching(rows, f) * seen| <= 2
    ensures forall q | Covers(f, q) :: Yields(rows, f, seen, q, 3)
  {
    forall q | Covers(f, q) ensures Yields(rows, f, seen, q, 3) {
      forall r | r in rows && Fits(f, q, r) ensures r.id in Matching(rows, f) {
        MatchesIsChecked(f, r);
      }
      Subset(Fitting(rows, f, q) * seen, Matching(rows, f) * seen);
    }
  }

  /** What Select promises of its result when the summary can be relied on and every cell is one that
      yields. */
  ghost predicate Exact(t: PuzzleTable, f: Filter, n: nat, seen: set<string>, out: seq<Row>)
    reads t
  {
    && InSync(t.summary, t.rows) && |f.openings| <= 1
    && (f.minRating >= 0 || forall r | r in t.rows :: r.rating >= 0.0)
    && (forall tag | IsRarest(t.summary, Tags(f), tag) :: |Covered(t.summary, f, tag)| <= 12)
    && (forall q | Covers(f, q) :: Yields(t.rows, f, seen, q, 3))
    ==> |out| == if n < |Matching(t.rows, f) - seen| then n else |Matching(t.rows, f) - seen|
  }

  lemma IsExact(t: PuzzleTable, f: Filter, n: nat, seen: set<string>, out: seq<Row>, cells: seq<Cell>,
                tag: string, visited: set<Square>, first: bool)
    requires IsRarest(t.summary, Tags(f), tag)
    requires forall c | c in cells :: Answers(t.summary, f, tag, c.square)
    requires forall q | Answers(t.summary, f, tag, q) :: q in Squares(cells)
    requires Sane(t.rows, f, seen, out) && |out| <= n
    requires |out| < n ==> AllDrained(t.rows, f, seen, visited, out, n)
    requires visited <= Squares(cells)
    requires |out| < n ==> if first then cells == [] || |visited| == 12 else Squares(cells) <= visited
    ensures Exact(t, f, n, seen, out)
  {
    assert forall c | c in cells :: Covers(f, c.square);
    hide Answers, InSync, IsRarest, Sane, Drained, Matching, Fitting, Covers, Yields;
    if && |f.openings| <= 1 && InSync(t.summary, t.rows)
       && (f.minRating >= 0 || forall r | r in t.rows :: r.rating >= 0.0)
       && |Covered(t.summary, f, tag)| <= 12
       && (forall q | Covers(f, q) :: Yields(t.rows, f, seen, q, 3)) {
      FoundIsMatching(t.rows, f, seen, out);
      if |out| < n {
        assert Squares(cells) <= visited by {
          assert Squares(cells) <= Covered(t.summary, f, tag) by { SquaresAreCovered(t.summary, f, tag, cells); }
          Subset(Squares(cells), Covered(t.summary, f, tag));
          Subset(visited, Squares(cells));
        }
        forall q | q in visited ensures Drained(t.rows, f, seen, q, out) {
          assert Yields(t.rows, f, seen, q, 3);
          YieldsMore(t.rows, f, seen, q, 3, n - |out| + 2);
        }
        AllFound(t.rows, t.summary, f, tag, seen, out);
        Subset(Matching(t.rows, f) - seen, Ids(out));
      }
    }
  }

  lemma SquaresAreCovered(summary: Summary, f: Filter, tag: string, cells: seq<Cell>)
    requires forall c | c in cells :: Answers(summary, f, tag, c.square)
    ensures Squares(cells) <= Covered(summary, f, tag)
  {
    forall q | q in Squares(cells) ensures q in Covered(summary, f, tag) {
      assert (tag, q) in summary;
    }
  }

  /** slices.Clone. */
  method Clone(cells: seq<Cell>) returns (pool: array<Cell>)
    ensures fresh(pool) && pool[..] == cells
  {
    pool := new Cell[|cells|](i requires 0 <= i < |cells| => cells[i]);
  }

  lemma AllTakenOut(cells: seq<Cell>, pool: seq<Cell>, visited: set<Square>, first: bool)
    requires Pooled(cells, pool, visited, first) && SumCells(pool) == 0
    requires forall c | c in cells :: c.n > 0
    ensures Squares(cells) <= visited && Pooled(cells, cells, visited, false)
  {
    NothingLeft(pool);
    forall c | c in cells ensures c.square in visited {
      var i :| 0 <= i < |cells| && cells[i] == c;
      assert pool[i] in pool;
    }
  }

  /** Put every cell back when none is left, and draw one. */
  method NextCell(cells: seq<Cell>, total: nat, pool: array<Cell>, left: nat,
                  ghost visited: set<Square>, ghost first: bool)
    returns (pool': array<Cell>, left': nat, c: Cell, ghost first': bool)
    requires Pooled(cells, pool[..], visited, first) && left == SumCells(pool[..])
    requires total == SumCells(cells) > 0 && DistinctSquares(cells) && forall c | c in cells :: c.n > 0
    modifies pool
    ensures pool' == pool || fresh(pool')
    ensures c in cells && left' == SumCells(pool'[..])
    ensures Pooled(cells, pool'[..], visited + {c.square}, first')
    ensures if first' then first && c.square !in visited else Squares(cells) <= visited
  {
    hide Pooled, SumCells, Falls, Emptied, Squares;
    pool', left', first' := pool, left, first;
    if left == 0 {
      AllTakenOut(cells, pool[..], visited, first);
      pool' := Clone(cells);
      left', first' := total, false;
    }
    var r: nat :| r < left';
    ghost var before := pool'[..];
    ghost var i;
    c, i := DrawCell(pool', left', r);
    left' := left' - c.n;
    SamePool(cells, before, visited, first', i);
  }

  lemma SamePool(cells: seq<Cell>, pool: seq<Cell>, visited: set<Square>, first: bool, i: nat)
    requires Pooled(cells, pool, visited, first) && DistinctSquares(cells) && i < |pool| && pool[i].n > 0
    ensures Pooled(cells, Emptied(pool, i), visited + {pool[i].square}, first) && pool[i] in cells
    ensures if first then pool[i].square !in visited else Squares(cells) <= visited
  {
    DrawStaysPooled(cells, pool, visited, first, i);
  }

  lemma NoCells(cells: seq<Cell>)
    requires SumCells(cells) == 0 && forall c | c in cells :: c.n > 0
    ensures cells == []
  {
    forall c | c in cells ensures c.n == 0 {
      NothingLeft(cells);
    }
  }

  /** The loop over scans. */
  method Gather(t: PuzzleTable, f: Filter, n: nat, seen: set<string>, cells: seq<Cell>, total: nat)
    returns (out: seq<Row>, ghost visited: set<Square>, ghost first: bool)
    requires DistinctIds(t.rows) && Keyed(t.rows)
    requires total == SumCells(cells) > 0 && DistinctSquares(cells)
    requires forall c | c in cells :: c.n > 0 && Covers(f, c.square)
    ensures Sane(t.rows, f, seen, out) && |out| <= n && visited <= Squares(cells)
    ensures |out| < n ==> AllDrained(t.rows, f, seen, visited, out, n)
    ensures |out| < n ==> if first then |visited| == 12 else Squares(cells) <= visited
  {
    out, visited, first := [], {}, true;
    assert Sane(t.rows, f, seen, out) && Pooled(cells, cells, visited, first);
    assert n > 0 ==> AllDrained(t.rows, f, seen, visited, out, n);
    assert forall c | c in cells :: c.square in Squares(cells);
    hide Matches, Rechecked, Covers, Sane, AllDrained, Pooled, SumCells, Squares, DistinctSquares;
    var pool := Clone(cells);
    var left := total;
    var picked: set<string> := {};
    var scans := 0;
    while |out| < n && scans < MAX_SCANS
      invariant fresh(pool) && Pooled(cells, pool[..], visited, first) && left == SumCells(pool[..])
      invariant Sane(t.rows, f, seen, out) && picked == Ids(out) && |out| <= n
      invariant forall r | r in out :: SquareOf(r) in visited
      invariant |out| < n ==> AllDrained(t.rows, f, seen, visited, out, n)
      invariant 0 <= scans <= MAX_SCANS && (first ==> |visited| == scans) && visited <= Squares(cells)
      invariant !first ==> Squares(cells) <= visited
      decreases MAX_SCANS - scans
    {
      var c;
      pool, left, c, first := NextCell(cells, total, pool, left, visited, first);
      var cursor: int := *;
      out, picked := ScanAndTake(t, f, c, n, seen, out, picked, cursor, visited);
      visited := visited + {c.square};
      scans := scans + 1;
    }
  }

  /** Up to n puzzles. Whatever the draws and the cursors, none twice, none seen, none that does not match; and
      exactly as many as there are unseen, when the summary is in sync, at most one opening is asked for, the
      filter covers at most twelve cells, and each has at most three fitting puzzles or at most two seen ones. */
  method Select(t: PuzzleTable, f: Filter, n: int, seen: set<string>) returns (out: seq<Row>)
    requires DistinctIds(t.rows) && Keyed(t.rows)
    ensures Sane(t.rows, f, seen, out) && |out| <= if n < 0 then 0 else n
    ensures n >= 0 ==> Exact(t, f, n, seen, out)
  {
    out := [];
    if n <= 0 { return; }
    var cells, total, tag := t.Cells(f);
    assert forall c | c in cells :: c.n > 0 && Covers(f, c.square);
    ghost var visited: set<Square>, first := {}, true;
    assert Sane(t.rows, f, seen, out) && AllDrained(t.rows, f, seen, visited, out, n);
    hide IsRarest, Tags, Answers, Covers, Exact, Sane, AllDrained;
    if total == 0 {
      NoCells(cells);
    } else {
      out, visited, first := Gather(t, f, n, seen, cells, total);
    }
    IsExact(t, f, n, seen, out, cells, tag, visited, first);
  }
}
