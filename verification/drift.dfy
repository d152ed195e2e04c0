/** A ranked attempt moves a puzzle's rating (internal/store/puzzleranked.go) but not the summary,
    which only an import refreshes. */
module Drift {
  import opened Corpus

  function Rerated(rows: seq<Row>, i: nat, rating: real): seq<Row>
    requires i < |rows|
  {
    rows[i := rows[i].(rating := rating)]
  }

  lemma {:induction false} TallyMoves(kind: Kind, rows: seq<Row>, i: nat, rating: real, tag: string, q: Square)
    requires i < |rows|
    ensures var n := multiset(Entries(kind, rows[i]))[tag];
      Tally(kind, Rerated(rows, i, rating), tag, q)
      == Tally(kind, rows, tag, q) - (if SquareOf(rows[i]) == q then n else 0)
         + (if SquareOf(rows[i].(rating := rating)) == q then n else 0)
  {
    var last := |rows| - 1;
    var moved := Rerated(rows, i, rating);
    assert Entries(kind, rows[i].(rating := rating)) == Entries(kind, rows[i]);
    if i < last {
      assert moved[..last] == Rerated(rows[..last], i, rating);
      TallyMoves(kind, rows[..last], i, rating, tag, q);
    } else {
      assert moved[..last] == rows[..last];
    }
  }

  /** A summary in sync stays so exactly when the new rating is in the old band. */
  lemma SyncSurvives(summary: Summary, rows: seq<Row>, i: nat, rating: real)
    requires InSync(summary, rows) && i < |rows|
    ensures InSync(summary, Rerated(rows, i, rating))
        <==> SquareOf(rows[i].(rating := rating)) == SquareOf(rows[i])
  {
    var moved := Rerated(rows, i, rating);
    var q := SquareOf(rows[i]);
    forall tag, p ensures
      Total(moved, tag, p) - Total(rows, tag, p)
      == Entered(rows[i], tag) * ((if SquareOf(moved[i]) == p then 1 else 0) - (if q == p then 1 else 0))
    {
      TallyMoves(Whole, rows, i, rating, tag, p);
      TallyMoves(Themed, rows, i, rating, tag, p);
      TallyMoves(Opened, rows, i, rating, tag, p);
    }
    CarriedIsTallied(Whole, rows, i, "");
    assert ("", q) in summary && summary[("", q)] == Total(rows, "", q);
    assert Entered(rows[i], "") >= 1;
    hide Tally;
  }

  ghost function Entered(r: Row, tag: string): nat {
    multiset(Entries(Whole, r))[tag] + multiset(Entries(Themed, r))[tag] + multiset(Entries(Opened, r))[tag]
  }

  const LONE := Row("p", 1590.0, "endgame", 3, [], [], 90, 0)
  const FROM_1600 := Filter(1600, 0, [], 0, 0, [], [], -100)

  /** A puzzle solved past the edge of its band matches a filter of which no cell answers, so no
      draw of Select can return it. */
  lemma DriftHidesAPuzzle(summary: Summary, tag: string, q: Square)
    requires InSync(summary, [LONE]) && IsRarest(summary, Tags(FROM_1600), tag)
    ensures Matches(FROM_1600, Rerated([LONE], 0, 1605.0)[0])
    ensures !Answers(summary, FROM_1600, tag, q)
  {
    assert Tags(FROM_1600) == [];
    assert (1590.0 / 100.0).Floor == 15;
    if Answers(summary, FROM_1600, tag, q) {
      assert (tag, q) in summary && Total([LONE], tag, q) > 0;
      var kind: Kind :| Tally(kind, [LONE], tag, q) > 0;
      TalliedIsCarried(kind, [LONE], tag, q);
      assert false;
    }
  }
}
