/** The puzzle corpus and the summary its sampler draws from: RefreshCells of
    internal/store/puzzles.go, and the filters, cell scans and cell query of
    internal/store/puzzleselect.go. */
module Corpus {

  /** A row of the puzzles table. `key` is the sample_key, an order that looks random. */
  datatype Row = Row(id: string, rating: real, phase: string, plies: int, themes: seq<string>,
                     openings: seq<string>, popularity: int, key: int)

  /** One square of the filter grid; the band is a column generated from the rating. */
  datatype Square = Square(band: int, phase: string, plies: int)

  function SquareOf(r: Row): Square {
    Square((r.rating / 100.0).Floor, r.phase, r.plies)
  }

  datatype Filter = Filter(minRating: int, maxRating: int, phases: seq<string>, minPlies: int, maxPlies: int,
                           themes: seq<string>, openings: seq<string>, minPopularity: int)

  const OPENING_PREFIX := "op:"

  function Tags(f: Filter): seq<string> {
    f.themes + seq(|f.openings|, i requires 0 <= i < |f.openings| => OPENING_PREFIX + f.openings[i])
  }

  /** What the filter asks for. Zero leaves a bound open, and no phase, theme or opening leaves them open. */
  ghost predicate Matches(f: Filter, r: Row) {
    && (f.minRating != 0 ==> r.rating >= f.minRating as real)
    && (f.maxRating != 0 ==> r.rating <= f.maxRating as real)
    && (f.minPlies != 0 ==> r.plies >= f.minPlies)
    && (f.maxPlies != 0 ==> r.plies <= f.maxPlies)
    && (f.phases != [] ==> r.phase in f.phases)
    && (forall t | t in f.themes :: t in r.themes)
    && (f.openings != [] ==> exists o | o in r.openings :: o in f.openings)
    && r.popularity >= f.minPopularity
  }

  /** The predicates of the two queries together ask for what the filter does. */
  lemma MatchesIsChecked(f: Filter, r: Row)
    ensures Matches(f, r) <==> Rechecked(f, r) && Covers(f, SquareOf(r))
  {
  }

  /** The predicates of a cell scan. */
  predicate Rechecked(f: Filter, r: Row) {
    && (f.minRating == 0 || r.rating >= f.minRating as real)
    && (f.maxRating == 0 || r.rating <= f.maxRating as real)
    && (forall t | t in f.themes :: t in r.themes)
    && (f.openings == [] || exists o | o in f.openings :: o in r.openings)
    && r.popularity >= f.minPopularity
  }

  /** The predicates both on a cell and on its puzzles. */
  predicate Covers(f: Filter, q: Square) {
    && (f.phases == [] || q.phase in f.phases)
    && (f.minPlies == 0 || q.plies >= f.minPlies)
    && (f.maxPlies == 0 || q.plies <= f.maxPlies)
  }

  /** Integer division as Postgres does it, towards zero. */
  function Hundreds(x: int): int {
    if x >= 0 then x / 100 else -(-x / 100)
  }

  predicate InBand(f: Filter, q: Square) {
    && (f.minRating == 0 || q.band >= Hundreds(f.minRating))
    && (f.maxRating == 0 || q.band <= Hundreds(f.maxRating))
  }

  /** The cell query drops the band of a matching puzzle exactly when a negative lower bound, which the division
      rounds up to a hundred, is above its rating then. */
  lemma BandIsWideEnough(f: Filter, r: Row)
    requires Rechecked(f, r)
    ensures InBand(f, SquareOf(r)) <==> f.minRating >= 0 || r.rating >= -(100 * (-f.minRating / 100)) as real
  {
    var band := (r.rating / 100.0).Floor;
    assert band as real <= r.rating / 100.0 < (band + 1) as real;
    assert band as real * 100.0 <= r.rating < (band + 1) as real * 100.0;
    if f.minRating > 0 {
      assert f.minRating < (band + 1) * 100;
    }
    if f.maxRating != 0 {
      assert band * 100 <= f.maxRating;
    }
    if f.minRating < 0 {
      var k := -f.minRating / 100;
      assert band >= -k <==> r.rating >= -(100 * k) as real;
    }
  }

  /** Nor does it keep a band that no bound admits a rating of. */
  lemma BandIsNoWider(f: Filter, q: Square)
    requires InBand(f, q)
    ensures f.minRating > 0 ==> f.minRating < 100 * (q.band + 1)
    ensures f.maxRating > 0 ==> 100 * q.band <= f.maxRating
  {
  }

  // ---- The summary --------------------------------------------------------------------------------

  type Summary = map<(string, Square), nat>

  /** The three INSERTs of a refresh. */
  datatype Kind = Whole | Themed | Opened

  /** The tags one INSERT counts a puzzle under. */
  function Entries(kind: Kind, r: Row): seq<string> {
    match kind
    case Whole => [""]
    case Themed => r.themes
    case Opened => seq(|r.openings|, i requires 0 <= i < |r.openings| => OPENING_PREFIX + r.openings[i])
  }

  /** count(*) of one group. */
  function Tally(kind: Kind, rows: seq<Row>, tag: string, q: Square): nat {
    if rows == [] then 0
    else
      var r := rows[|rows| - 1];
      Tally(kind, rows[..|rows| - 1], tag, q) + if SquareOf(r) == q then multiset(Entries(kind, r))[tag] else 0
  }

  function Total(rows: seq<Row>, tag: string, q: Square): nat {
    Tally(Whole, rows, tag, q) + Tally(Themed, rows, tag, q) + Tally(Opened, rows, tag, q)
  }

  /** One INSERT: a row for every group that is not empty. */
  ghost predicate Grouped(g: Summary, kind: Kind, rows: seq<Row>) {
    && (forall k | k in g :: g[k] == Tally(kind, rows, k.0, k.1) > 0)
    && (forall tag, q | Tally(kind, rows, tag, q) > 0 :: (tag, q) in g)
  }

  /** A count for every tag of every cell that has any, and no others. */
  ghost predicate InSync(summary: Summary, rows: seq<Row>) {
    && (forall k | k in summary :: summary[k] == Total(rows, k.0, k.1) > 0)
    && (forall tag, q | Total(rows, tag, q) > 0 :: (tag, q) in summary)
  }

  /** No tag of a cell comes out of two of the INSERTs, which the primary key refuses. */
  ghost predicate NoClash(rows: seq<Row>) {
    forall tag, q, k1, k2 | Tally(k1, rows, tag, q) > 0 && Tally(k2, rows, tag, q) > 0 :: k1 == k2
  }

  lemma {:induction false} CarriedIsTallied(kind: Kind, rows: seq<Row>, i: nat, tag: string)
    requires i < |rows| && tag in Entries(kind, rows[i])
    ensures Tally(kind, rows, tag, SquareOf(rows[i])) > 0
  {
    if i < |rows| - 1 {
      CarriedIsTallied(kind, rows[..|rows| - 1], i, tag);
    } else {
      assert tag in multiset(Entries(kind, rows[i]));
    }
  }

  lemma {:induction false} TalliedIsCarried(kind: Kind, rows: seq<Row>, tag: string, q: Square)
    requires Tally(kind, rows, tag, q) > 0
    ensures exists i :: 0 <= i < |rows| && SquareOf(rows[i]) == q && tag in Entries(kind, rows[i])
  {
    var last := |rows| - 1;
    if SquareOf(rows[last]) == q && tag in Entries(kind, rows[last]) {
      assert SquareOf(rows[last]) == q;
    } else {
      assert tag !in Entries(kind, rows[last]) ==> multiset(Entries(kind, rows[last]))[tag] == 0;
      TalliedIsCarried(kind, rows[..last], tag, q);
      var i :| 0 <= i < last && SquareOf(rows[..last][i]) == q && tag in Entries(kind, rows[..last][i]);
      assert SquareOf(rows[i]) == q && tag in Entries(kind, rows[i]);
    }
  }

  /** What Lichess themes are like. */
  ghost predicate PlainThemes(rows: seq<Row>) {
    forall r | r in rows :: Plain(r)
  }

  ghost predicate Plain(r: Row) {
    forall t | t in r.themes :: t != "" && ':' !in t
  }

  /** The prefix cannot collide with a theme that has no colon. */
  lemma PlainThemesNeverClash(rows: seq<Row>)
    requires PlainThemes(rows)
    ensures NoClash(rows)
  {
    forall tag, q, k1, k2 | Tally(k1, rows, tag, q) > 0 && Tally(k2, rows, tag, q) > 0 ensures k1 == k2 {
      TalliedIsCarried(k1, rows, tag, q);
      TalliedIsCarried(k2, rows, tag, q);
      var i :| 0 <= i < |rows| && SquareOf(rows[i]) == q && tag in Entries(k1, rows[i]);
      var j :| 0 <= j < |rows| && SquareOf(rows[j]) == q && tag in Entries(k2, rows[j]);
      assert rows[i] in rows && rows[j] in rows;
      EntriesTellKind(k1, rows[i], tag);
      EntriesTellKind(k2, rows[j], tag);
    }
  }

  lemma EntriesTellKind(kind: Kind, r: Row, tag: string)
    requires tag in Entries(kind, r) && Plain(r)
    ensures kind == if tag == "" then Whole else if ':' in tag then Opened else Themed
  {
    if kind == Opened {
      var i :| 0 <= i < |r.openings| && tag == OPENING_PREFIX + r.openings[i];
      assert tag[2] == ':';
    }
  }

  /** The count with some entries of one more puzzle. */
  ghost function Partly(kind: Kind, before: seq<Row>, r: Row, entries: seq<string>, tag: string, q: Square): nat {
    Tally(kind, before, tag, q) + if SquareOf(r) == q then multiset(entries)[tag] else 0
  }

  ghost predicate PartlyGrouped(g: Summary, kind: Kind, before: seq<Row>, r: Row, entries: seq<string>) {
    && (forall k | k in g :: g[k] == Partly(kind, before, r, entries, k.0, k.1) > 0)
    && (forall tag, q | Partly(kind, before, r, entries, tag, q) > 0 :: (tag, q) in g)
  }

  lemma NoEntryYet(g: Summary, kind: Kind, before: seq<Row>, r: Row)
    requires Grouped(g, kind, before)
    ensures PartlyGrouped(g, kind, before, r, [])
  {
    hide Tally;
  }

  lemma OneMoreEntry(g: Summary, kind: Kind, before: seq<Row>, r: Row, entries: seq<string>, tag: string)
    requires PartlyGrouped(g, kind, before, r, entries)
    ensures var k := (tag, SquareOf(r));
      PartlyGrouped(g[k := if k in g then g[k] + 1 else 1], kind, before, r, entries + [tag])
  {
    hide Tally, SquareOf;
    assert multiset(entries + [tag]) == multiset(entries) + multiset{tag};
  }

  lemma WholePuzzle(g: Summary, kind: Kind, before: seq<Row>, r: Row)
    requires PartlyGrouped(g, kind, before, r, Entries(kind, r))
    ensures Grouped(g, kind, before + [r])
  {
    forall tag, q ensures Partly(kind, before, r, Entries(kind, r), tag, q) == Tally(kind, before + [r], tag, q) {
      assert (before + [r])[..|before|] == before;
    }
    hide Partly, Tally;
  }

  method Unnest(kind: Kind, g: Summary, ghost before: seq<Row>, r: Row) returns (h: Summary)
    requires Grouped(g, kind, before)
    ensures Grouped(h, kind, before + [r])
  {
    hide PartlyGrouped, Grouped, Tally, Entries, SquareOf;
    var entries := Entries(kind, r);
    NoEntryYet(g, kind, before, r);
    h := g;
    assert entries[..0] == [];
    for j := 0 to |entries|
      invariant PartlyGrouped(h, kind, before, r, entries[..j])
    {
      OneMoreEntry(h, kind, before, r, entries[..j], entries[j]);
      assert entries[..j + 1] == entries[..j] + [entries[j]];
      var k := (entries[j], SquareOf(r));
      h := h[k := if k in h then h[k] + 1 else 1];
    }
    assert entries[..|entries|] == entries;
    WholePuzzle(h, kind, before, r);
  }

  /** One grouped INSERT ... SELECT. */
  method Group(kind: Kind, rows: seq<Row>) returns (g: Summary)
    ensures Grouped(g, kind, rows)
  {
    g := map[];
    assert Grouped(g, kind, rows[..0]);
    hide Grouped, Tally;
    for i := 0 to |rows|
      invariant Grouped(g, kind, rows[..i])
    {
      g := Unnest(kind, g, rows[..i], rows[i]);
      assert rows[..i + 1] == rows[..i] + [rows[i]];
    }
    assert rows[..|rows|] == rows;
  }

  // ---- Queries ------------------------------------------------------------------------------------

  datatype Cell = Cell(square: Square, n: nat)

  function SumCells(cells: seq<Cell>): nat {
    if cells == [] then 0 else SumCells(cells[..|cells| - 1]) + cells[|cells| - 1].n
  }

  /** sum(n) of a tag. */
  function TagSum(summary: Summary, tag: string): nat {
    |set k, i | k in summary && k.0 == tag && 0 <= i < summary[k] :: (k, i)|
  }

  /** A cell adds its count to the sum of its own tag and to no other. */
  lemma TagSumAdds(summary: Summary, tag: string, q: Square, n: nat, other: string)
    requires (tag, q) !in summary
    ensures TagSum(map[], other) == 0
    ensures TagSum(summary[(tag, q) := n], other) == TagSum(summary, other) + if other == tag then n else 0
  {
    hide Units, TagSum;
    var more: Summary, one: Summary, none: Summary := summary[(tag, q) := n], map[(tag, q) := n], map[];
    var before, added := Units(summary, other), Units(one, other);
    UnitsOfOne((tag, q), n, other);
    forall u ensures u !in Units(none, other) {
      UnitIn(none, other, u);
    }
    assert Units(none, other) == {};
    forall u ensures u in Units(more, other) <==> u in before || u in added {
      UnitIn(more, other, u);
      UnitIn(summary, other, u);
      UnitIn(one, other, u);
    }
    forall u | u in before ensures u !in added {
      UnitIn(summary, other, u);
      UnitIn(one, other, u);
    }
    assert Units(more, other) == before + added && before !! added;
  }

  /** One puzzle of a cell: the cell and a number below its count. */
  type Unit = ((string, Square), int)

  ghost function Units(summary: Summary, tag: string): (s: set<Unit>)
    ensures |s| == TagSum(summary, tag)
  {
    set k, i | k in summary && k.0 == tag && 0 <= i < summary[k] :: (k, i)
  }

  lemma UnitIn(summary: Summary, tag: string, u: Unit)
    ensures u in Units(summary, tag) <==> u.0 in summary && u.0.0 == tag && 0 <= u.1 < summary[u.0]
  {
  }

  lemma {:induction false} UnitsOfOne(k: (string, Square), n: nat, tag: string)
    ensures |Units(map[k := n], tag)| == if k.0 == tag then n else 0
  {
    hide Units;
    var s := Units(map[k := n], tag);
    forall u ensures u in s <==> u.0 == k && k.0 == tag && 0 <= u.1 < n {
      UnitIn(map[k := n], tag, u);
    }
    if k.0 == tag && n > 0 {
      UnitsOfOne(k, n - 1, tag);
      forall u ensures u in Units(map[k := n - 1], tag) <==> u.0 == k && 0 <= u.1 < n - 1 {
        UnitIn(map[k := n - 1], tag, u);
      }
      assert s == Units(map[k := n - 1], tag) + {(k, n - 1)};
    } else {
      assert s == {};
    }
  }

  predicate Present(summary: Summary, tag: string) {
    exists k | k in summary :: k.0 == tag
  }

  /** The tag cells are weighted by: the asked-for one with the fewest puzzles, else the empty one.
      Ties go either way. */
  predicate IsRarest(summary: Summary, tags: seq<string>, tag: string) {
    if exists t | t in tags :: Present(summary, t) then
      && tag in tags && Present(summary, tag)
      && (forall t | t in tags && Present(summary, t) :: TagSum(summary, tag) <= TagSum(summary, t))
    else tag == ""
  }

  lemma RarestMeans(summary: Summary, f: Filter, tag: string)
    requires IsRarest(summary, Tags(f), tag)
    ensures tag == "" || tag in f.themes || (exists o | o in f.openings :: tag == "op:" + o)
    ensures forall t | t in f.themes && Present(summary, t) :: TagSum(summary, tag) <= TagSum(summary, t)
    ensures forall o | o in f.openings && Present(summary, "op:" + o) ::
      TagSum(summary, tag) <= TagSum(summary, "op:" + o)
  {
    hide TagSum, Present;
    assert forall i | 0 <= i < |f.openings| :: Tags(f)[|f.themes| + i] == "op:" + f.openings[i];
    forall o | o in f.openings ensures "op:" + o in Tags(f) {
      var i :| 0 <= i < |f.openings| && f.openings[i] == o;
      assert Tags(f)[|f.themes| + i] == "op:" + o;
    }
  }

  lemma {:induction false} RarestExists(summary: Summary, tags: seq<string>) returns (tag: string)
    ensures IsRarest(summary, tags, tag)
  {
    if tags == [] {
      return "";
    }
    var last := tags[|tags| - 1];
    assert tags == tags[..|tags| - 1] + [last];
    tag := RarestExists(summary, tags[..|tags| - 1]);
    if Present(summary, last)
       && !((exists t | t in tags[..|tags| - 1] :: Present(summary, t)) && TagSum(summary, tag) <= TagSum(summary, last)) {
      tag := last;
    }
  }

  /** The sum of a cell that can answer. */
  predicate Answers(summary: Summary, f: Filter, tag: string, q: Square) {
    (tag, q) in summary && summary[(tag, q)] > 0 && InBand(f, q) && Covers(f, q)
  }

  ghost predicate DistinctSquares(cells: seq<Cell>) {
    forall i, j | 0 <= i < j < |cells| :: cells[i].square != cells[j].square
  }

  /** Every matching puzzle is in a cell that can answer, if the summary is in sync, at most one
      opening is asked for, and no negative bound meets a negative rating. */
  lemma MatchingCellAnswers(summary: Summary, rows: seq<Row>, f: Filter, tag: string, r: Row)
    requires InSync(summary, rows) && r in rows && Matches(f, r)
    requires IsRarest(summary, Tags(f), tag) && |f.openings| <= 1
    requires f.minRating >= 0 || r.rating >= 0.0
    ensures Answers(summary, f, tag, SquareOf(r))
  {
    BandIsWideEnough(f, r);
    var i :| 0 <= i < |rows| && rows[i] == r;
    if tag == "" && tag !in Tags(f) {
      CarriedIsTallied(Whole, rows, i, tag);
    } else if tag in f.themes {
      CarriedIsTallied(Themed, rows, i, tag);
    } else {
      var j :| 0 <= j < |f.openings| && tag == OPENING_PREFIX + f.openings[j];
      var k :| 0 <= k < |r.openings| && r.openings[k] == f.openings[0];
      assert Entries(Opened, r)[k] == tag;
      CarriedIsTallied(Opened, rows, i, tag);
    }
  }

  ghost predicate DistinctIds(rows: seq<Row>) {
    forall i, j | 0 <= i < j < |rows| :: rows[i].id != rows[j].id
  }

  /** The index keeps the rows of a cell in the order of their keys. */
  ghost predicate Ordered(rows: seq<Row>) {
    forall i, j | 0 <= i < j < |rows| :: rows[i].key <= rows[j].key
  }

  predicate Hit(f: Filter, q: Square, cursor: int, up: bool, r: Row) {
    SquareOf(r) == q && Rechecked(f, r) && if up then r.key >= cursor else r.key < cursor
  }

  class PuzzleTable {
    var rows: seq<Row>
    var summary: Summary

    constructor (rows: seq<Row>)
      ensures this.rows == rows && summary == map[]
    {
      this.rows, summary := rows, map[];
    }

    /** RefreshCells, one transaction: it rolls back when the primary key refuses a row. */
    method RefreshCells() returns (ok: bool)
      modifies `summary
      ensures ok <==> NoClash(rows)
      ensures ok ==> InSync(summary, rows)
      ensures !ok ==> summary == old(summary)
    {
      var whole := Group(Whole, rows);
      var themed := Group(Themed, rows);
      var lines := Group(Opened, rows);
      if whole.Keys * themed.Keys != {} || (whole.Keys + themed.Keys) * lines.Keys != {} {
        ClashFound(whole, themed, lines, rows);
        return false;
      }
      MergedIsInSync(whole, themed, lines, rows);
      summary := whole + themed + lines;
      return true;
    }

    /** The cells a filter covers. */
    method Cells(f: Filter) returns (out: seq<Cell>, total: nat, ghost tag: string)
      ensures IsRarest(summary, Tags(f), tag)
      ensures tag == "" || tag in f.themes || (exists o | o in f.openings :: tag == "op:" + o)
      ensures forall t | t in f.themes && Present(summary, t) :: TagSum(summary, tag) <= TagSum(summary, t)
      ensures forall o | o in f.openings && Present(summary, "op:" + o) ::
        TagSum(summary, tag) <= TagSum(summary, "op:" + o)
      ensures forall c | c in out :: Answers(summary, f, tag, c.square) && c.n == summary[(tag, c.square)]
      ensures forall q | Answers(summary, f, tag, q) :: exists c :: c in out && c.square == q
      ensures DistinctSquares(out) && total == SumCells(out)
    {
      hide IsRarest, Tags, TagSum, Present, InBand, Covers;
      ghost var some := RarestExists(summary, Tags(f));
      var rarest: string :| IsRarest(summary, Tags(f), rarest);
      tag := rarest;
      RarestMeans(summary, f, tag);
      var keys := set k | k in summary && k.0 == rarest && InBand(f, k.1) && Covers(f, k.1);
      out, total := [], 0;
      while keys != {}
        invariant forall k | k in keys :: k in summary && k.0 == rarest && InBand(f, k.1) && Covers(f, k.1)
        invariant forall c | c in out ::
          Answers(summary, f, rarest, c.square) && c.n == summary[(rarest, c.square)] && (rarest, c.square) !in keys
        invariant forall q | Answers(summary, f, rarest, q) ::
          (rarest, q) in keys || exists c :: c in out && c.square == q
        invariant DistinctSquares(out) && total == SumCells(out)
        decreases |keys|
      {
        var k :| k in keys;
        keys := keys - {k};
        var c := Cell(k.1, summary[k]);
        if c.n != 0 {
          assert (out + [c])[..|out|] == out;
          total := total + c.n;
          out := out + [c];
        }
      }
    }

    /** One cell scan: the first `limit` hits in the order of the keys, upwards or downwards. */
    method Scan(f: Filter, q: Square, cursor: int, up: bool, limit: nat) returns (out: seq<Row>)
      requires DistinctIds(rows)
      ensures |out| <= limit && DistinctIds(out)
      ensures forall r | r in out :: r in rows && Hit(f, q, cursor, up, r)
      ensures |out| < limit ==> forall r | r in rows && Hit(f, q, cursor, up, r) :: r in out
      ensures Ordered(rows) ==> forall r, o | r in rows && Hit(f, q, cursor, up, r) && r !in out && o in out ::
        if up then o.key <= r.key else o.key >= r.key
    {
      var order := InOrder(rows, up);
      InOrderHasAll(rows, up);
      out := [];
      var i := 0;
      while i < |order| && |out| < limit
        invariant i <= |order| && |out| <= limit && DistinctIds(out)
        invariant forall r | r in out :: r in order[..i] && Hit(f, q, cursor, up, r)
        invariant forall r | r in order[..i] && Hit(f, q, cursor, up, r) :: r in out
      {
        assert order[..i + 1] == order[..i] + [order[i]];
        assert forall r | r in order[..i] :: r.id != order[i].id;
        if Hit(f, q, cursor, up, order[i]) { out := out + [order[i]]; }
        i := i + 1;
      }
      assert i == |order| ==> order[..i] == order;
      RestComesLater(rows, f, q, cursor, up, i, out);
    }
  }

  lemma RestComesLater(rows: seq<Row>, f: Filter, q: Square, cursor: int, up: bool, i: nat, out: seq<Row>)
    requires DistinctIds(rows) && i <= |rows|
    requires forall r | r in out :: r in InOrder(rows, up)[..i]
    requires forall r | r in InOrder(rows, up)[..i] && Hit(f, q, cursor, up, r) :: r in out
    ensures Ordered(rows) ==> forall r, o | r in rows && Hit(f, q, cursor, up, r) && r !in out && o in out ::
      if up then o.key <= r.key else o.key >= r.key
  {
    hide Hit, InOrder;
    var order := InOrder(rows, up);
    InOrderHasAll(rows, up);
    if Ordered(rows) {
      OrderIsSorted(rows, up);
      forall r, o | r in rows && Hit(f, q, cursor, up, r) && r !in out && o in out
        ensures if up then o.key <= r.key else o.key >= r.key
      {
        LaterThan(order, i, r, o, up);
      }
    }
  }

  ghost predicate Sorted(order: seq<Row>, up: bool) {
    forall i, j | 0 <= i < j < |order| :: if up then order[i].key <= order[j].key else order[i].key >= order[j].key
  }

  lemma OrderIsSorted(rows: seq<Row>, up: bool)
    requires Ordered(rows)
    ensures Sorted(InOrder(rows, up), up)
  {
  }

  lemma LaterThan(order: seq<Row>, i: nat, r: Row, o: Row, up: bool)
    requires Sorted(order, up) && i <= |order| && r in order && r !in order[..i] && o in order[..i]
    ensures if up then o.key <= r.key else o.key >= r.key
  {
    assert forall j | 0 <= j < i :: order[j] in order[..i];
    var j :| 0 <= j < |order| && order[j] == r;
    var k :| 0 <= k < i && order[k] == o;
  }

  /** ORDER BY sample_key, or DESC. */
  function InOrder(rows: seq<Row>, up: bool): seq<Row> {
    if up then rows else seq(|rows|, i requires 0 <= i < |rows| => rows[|rows| - 1 - i])
  }

  lemma InOrderHasAll(rows: seq<Row>, up: bool)
    requires DistinctIds(rows)
    ensures DistinctIds(InOrder(rows, up))
    ensures forall r :: r in rows <==> r in InOrder(rows, up)
    ensures Ordered(rows) ==> forall i, j | 0 <= i < j < |rows| ::
      if up then InOrder(rows, up)[i].key <= InOrder(rows, up)[j].key
      else InOrder(rows, up)[i].key >= InOrder(rows, up)[j].key
  {
    var order := InOrder(rows, up);
    forall r | r in rows ensures r in order {
      var i :| 0 <= i < |rows| && rows[i] == r;
      assert order[if up then i else |rows| - 1 - i] == r;
    }
  }

  lemma ClashFound(whole: Summary, themed: Summary, lines: Summary, rows: seq<Row>)
    requires Grouped(whole, Whole, rows) && Grouped(themed, Themed, rows) && Grouped(lines, Opened, rows)
    requires whole.Keys * themed.Keys != {} || (whole.Keys + themed.Keys) * lines.Keys != {}
    ensures !NoClash(rows)
  {
    if whole.Keys * themed.Keys != {} {
      var k :| k in whole.Keys * themed.Keys;
      assert Tally(Whole, rows, k.0, k.1) > 0 && Tally(Themed, rows, k.0, k.1) > 0;
    } else {
      var k :| k in (whole.Keys + themed.Keys) * lines.Keys;
      assert Tally(Opened, rows, k.0, k.1) > 0;
      assert Tally(Whole, rows, k.0, k.1) > 0 || Tally(Themed, rows, k.0, k.1) > 0;
    }
  }

  lemma MergedIsInSync(whole: Summary, themed: Summary, lines: Summary, rows: seq<Row>)
    requires Grouped(whole, Whole, rows) && Grouped(themed, Themed, rows) && Grouped(lines, Opened, rows)
    requires whole.Keys * themed.Keys == {} && (whole.Keys + themed.Keys) * lines.Keys == {}
    ensures NoClash(rows) && InSync(whole + themed + lines, rows)
  {
    forall tag, q, k1, k2 | Tally(k1, rows, tag, q) > 0 && Tally(k2, rows, tag, q) > 0 ensures k1 == k2 {
      var k := (tag, q);
      assert k in whole.Keys <==> Tally(Whole, rows, tag, q) > 0;
      assert k in themed.Keys <==> Tally(Themed, rows, tag, q) > 0;
      assert k in lines.Keys <==> Tally(Opened, rows, tag, q) > 0;
      assert k !in whole.Keys * themed.Keys && k !in (whole.Keys + themed.Keys) * lines.Keys;
    }
    var all := whole + themed + lines;
    forall k | k in all ensures all[k] == Total(rows, k.0, k.1) > 0 {
      assert k in whole.Keys || k in themed.Keys || k in lines.Keys;
      assert k in whole <==> Tally(Whole, rows, k.0, k.1) > 0;
      assert k in themed <==> Tally(Themed, rows, k.0, k.1) > 0;
      assert k in lines <==> Tally(Opened, rows, k.0, k.1) > 0;
    }
  }
}
