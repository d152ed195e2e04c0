/** The whole board as text: eight ranks joined by slashes, then the side to move. */
module BoardText {
  import opened Options
  import opened Fen

  // ---- Splitting and joining ----------------------------------------------------------------------

  function Join(rows: seq<string>): string {
    if rows == [] then ""
    else if |rows| == 1 then rows[0]
    else rows[0] + "/" + Join(rows[1..])
  }

  /** Where the first slash is, or the length. */
  function UntilSlash(s: string): (n: nat)
    ensures n <= |s| && (forall i | 0 <= i < n :: s[i] != '/') && (n < |s| ==> s[n] == '/')
  {
    if s == "" || s[0] == '/' then 0 else 1 + UntilSlash(s[1..])
  }

  function Split(s: string): seq<string>
    decreases |s|
  {
    var n := UntilSlash(s);
    if n == |s| then [s] else [s[..n]] + Split(s[n + 1..])
  }

  lemma {:induction false} SplitJoined(rows: seq<string>)
    requires rows != [] && forall r | r in rows :: '/' !in r
    ensures Split(Join(rows)) == rows
  {
    assert rows[0] in rows;
    if |rows| > 1 {
      SplitJoined(rows[1..]);
      SplitAtSlash(rows[0], Join(rows[1..]));
    } else {
      FirstSlash(rows[0], |rows[0]|);
      assert rows == [rows[0]];
    }
  }

  lemma SplitAtSlash(row: string, rest: string)
    requires '/' !in row
    ensures Split(row + "/" + rest) == [row] + Split(rest)
  {
    var s := row + "/" + rest;
    assert forall i | 0 <= i < |row| :: s[i] == row[i];
    assert s[|row|] == '/' && s[..|row|] == row && s[|row| + 1..] == rest;
    FirstSlash(s, |row|);
  }

  lemma FirstSlash(s: string, k: nat)
    requires k <= |s| && (forall i | 0 <= i < k :: s[i] != '/') && (k < |s| ==> s[k] == '/')
    ensures UntilSlash(s) == k
  {
    var n := UntilSlash(s);
    assert !(n < k) && !(k < n);
  }

  /** What the \\s of a regular expression matches. */
  predicate IsSpace(ch: char) {
    || '\U{0009}' <= ch <= '\U{000D}' || ch == ' ' || ch == '\U{00A0}' || ch == '\U{1680}'
    || '\U{2000}' <= ch <= '\U{200A}' || ch == '\U{2028}' || ch == '\U{2029}' || ch == '\U{202F}'
    || ch == '\U{205F}' || ch == '\U{3000}' || ch == '\U{FEFF}'
  }

  function UntilSpace(s: string): (n: nat)
    ensures n <= |s| && (forall i | 0 <= i < n :: !IsSpace(s[i])) && (n < |s| ==> IsSpace(s[n]))
  {
    if s == "" || IsSpace(s[0]) then 0 else 1 + UntilSpace(s[1..])
  }

  /** The words between the spaces of the trimmed text. */
  function Words(s: string): seq<string>
    decreases |s|
  {
    if s == "" then []
    else if IsSpace(s[0]) then Words(s[1..])
    else
      var n := UntilSpace(s);
      [s[..n]] + Words(s[n..])
  }

  /** trim, then split at the spaces: an empty text is one empty field. */
  function Fields(s: string): (r: seq<string>)
    ensures r != []
  {
    if Words(s) == [] then [""] else Words(s)
  }

  lemma WordThenSpace(word: string, rest: string)
    requires word != "" && forall i | 0 <= i < |word| :: !IsSpace(word[i])
    requires rest != "" && IsSpace(rest[0])
    ensures Words(word + rest) == [word] + Words(rest[1..])
  {
    var s := word + rest;
    var n := UntilSpace(s);
    assert (forall i | 0 <= i < |word| :: s[i] == word[i]) && s[|word|] == rest[0];
    assert n == |word|;
    assert s[..n] == word && s[n..] == rest;
  }

  // ---- Positions ----------------------------------------------------------------------------------

  type Rows = seq<seq<Cell>>

  /** Rank 8 is the first row. */
  function At(rows: Rows, q: Square): Cell {
    if 1 <= q.rank <= 8 && 8 - q.rank < |rows| && q.file < |rows[8 - q.rank]| then rows[8 - q.rank][q.file] else None
  }

  function Placed(rows: Rows): Position {
    map f, r | 0 <= f < 8 && 1 <= r <= 8 && At(rows, Square(f, r)).Some? :: Square(f, r) := At(rows, Square(f, r)).value
  }

  function RankCells(p: Position, rank: nat): (r: seq<Cell>)
    ensures |r| == 8
  {
    seq(8, f requires 0 <= f < 8 => if Square(f, rank) in p then Some(p[Square(f, rank)]) else None)
  }

  function Ranks(p: Position): (r: Rows)
    ensures |r| == 8
  {
    seq(8, i requires 0 <= i < 8 => RankCells(p, 8 - i))
  }

  /** Nothing but squares of the board. */
  predicate OnBoard(p: Position) {
    forall q | q in p :: q.file < 8 && 1 <= q.rank <= 8
  }

  lemma PlacedRanks(p: Position)
    requires OnBoard(p)
    ensures Placed(Ranks(p)) == p
  {
    var again := Placed(Ranks(p));
    forall q | q in p ensures q in again && again[q] == p[q] {
      assert At(Ranks(p), q) == Some(p[q]);
      assert Square(q.file, q.rank) == q;
    }
    forall q | q in again ensures q in p {
      assert At(Ranks(p), q).Some?;
    }
  }

  function TurnText(t: Turn): string { if t == White then "w" else "b" }

  function RankTexts(p: Position): (r: seq<string>)
    ensures |r| == 8
  {
    seq(8, i requires 0 <= i < 8 => RowText(Ranks(p)[i]))
  }

  function ToText(p: Position, t: Turn): string {
    Join(RankTexts(p)) + " " + TurnText(t) + " - - 0 1"
  }

  /** Every row has eight cells. */
  function ReadAll(rows: seq<string>): Option<Rows> {
    if rows == [] then Some([])
    else
      match ReadAll(rows[..|rows| - 1])
      case None => None
      case Some(cells) =>
        match Read(rows[|rows| - 1])
        case None => None
        case Some(row) => if |row| != 8 then None else Some(cells + [row])
  }

  function TurnOf(fields: seq<string>): Turn {
    if |fields| > 1 && fields[1] == "b" then Black else White
  }

  function FromText(s: string): Option<(Position, Turn)> {
    var rows := Split(Fields(s)[0]);
    if |rows| != 8 then None
    else
      match ReadAll(rows)
      case None => None
      case Some(cells) => Some((Placed(cells), TurnOf(Fields(s))))
  }

  // ---- The code -----------------------------------------------------------------------------------

  method ToFEN(p: Position, t: Turn) returns (s: string)
    ensures s == ToText(p, t)
  {
    var rows: seq<string> := [];
    var rank := 8;
    while rank >= 1
      invariant 0 <= rank <= 8 && |rows| == 8 - rank
      invariant rows == RankTexts(p)[..8 - rank]
    {
      var row, gap := "", 0;
      ghost var cells := RankCells(p, rank);
      for file := 0 to 8
        invariant (row, gap) == Walked(cells[..file])
      {
        assert cells[..file + 1] == cells[..file] + [cells[file]];
        if Square(file, rank) !in p {
          WalkedNone(cells[..file]);
          gap := gap + 1;
        } else {
          WalkedPiece(cells[..file], cells[file].value);
          assert RowText(cells[..file]) == row + Gap(gap) && (gap == 0 ==> row + Gap(gap) == row);
          if gap != 0 {
            row := row + [Digit(gap)];
            gap := 0;
          }
          row := row + [Letter(p[Square(file, rank)])];
        }
      }
      assert cells[..8] == cells;
      if gap != 0 { row := row + [Digit(gap)]; }
      assert row == RankTexts(p)[8 - rank];
      rows := rows + [row];
      rank := rank - 1;
    }
    assert RankTexts(p)[..8] == RankTexts(p);
    return Join(rows) + " " + TurnText(t) + " - - 0 1";
  }

  /** The characters of one rank, onto the squares of the board. */
  method ReadRank(text: string, rank: nat, before: Position, ghost rows: Rows) returns (ok: bool, position: Position)
    requires 1 <= rank <= 8 && |rows| == 8 - rank && before == Placed(rows)
    ensures ok <==> Read(text).Some? && |Read(text).value| == 8
    ensures ok ==> position == Placed(rows + [Read(text).value])
  {
    position := before;
    var file := 0;
    ghost var cells: seq<Cell> := [];
    NothingPlaced(rows);
    for i := 0 to |text|
      invariant Read(text[..i]) == Some(cells) && file == |cells|
      invariant position == Placed(rows + [cells])
    {
      var ch := text[i];
      assert text[..i + 1] == text[..i] + [ch];
      ReadOn(text[..i], ch);
      if IsDigit(ch) {
        EmptyPlaced(rows, cells, Number(ch));
        cells := cells + Empty(Number(ch));
        file := file + Number(ch);
        continue;
      }
      var piece := PieceOf(ch);
      if piece.None? || file > 7 {
        StaysUnread(text, i + 1);
        return false, position;
      }
      PiecePlaced(rows, cells, rank, piece.value);
      position := position[Square(file, rank) := piece.value];
      cells := cells + [piece];
      file := file + 1;
    }
    assert text[..|text|] == text;
    return file == 8, position;
  }

  lemma {:induction false} StaysUnread(text: string, i: nat)
    requires i <= |text| && Read(text[..i]).None?
    ensures Read(text).None?
    decreases |text| - i
  {
    if i < |text| {
      assert text[..i + 1] == text[..i] + [text[i]];
      ReadOn(text[..i], text[i]);
      StaysUnread(text, i + 1);
    } else {
      assert text[..i] == text;
    }
  }

  lemma NothingPlaced(rows: Rows)
    ensures Placed(rows + [[]]) == Placed(rows)
  {
    forall q ensures At(rows + [[]], q) == At(rows, q) {
    }
  }

  lemma EmptyPlaced(rows: Rows, cells: seq<Cell>, n: nat)
    ensures Placed(rows + [cells + Empty(n)]) == Placed(rows + [cells])
  {
    forall q ensures At(rows + [cells + Empty(n)], q) == At(rows + [cells], q) {
    }
  }

  lemma PiecePlaced(rows: Rows, cells: seq<Cell>, rank: nat, p: Piece)
    requires 1 <= rank <= 8 && |rows| == 8 - rank && |cells| < 8
    ensures Placed(rows + [cells + [Some(p)]]) == Placed(rows + [cells])[Square(|cells|, rank) := p]
  {
    forall q ensures At(rows + [cells + [Some(p)]], q)
                  == if q == Square(|cells|, rank) then Some(p) else At(rows + [cells], q) {
    }
  }

  method FromFEN(s: string) returns (r: Option<(Position, Turn)>)
    ensures r == FromText(s)
    ensures r.Some? ==> (r.value.1 == Black <==> |Fields(s)| > 1 && Fields(s)[1] == "b")
  {
    assert Placed([]) == map[];
    hide Fields, Split, Placed;
    var fields := Fields(s);
    var ranks := Split(fields[0]);
    if |ranks| != 8 { return None; }
    var position: Position := map[];
    ghost var rows: Rows := [];
    for i := 0 to 8
      invariant ReadAll(ranks[..i]) == Some(rows) && |rows| == i && position == Placed(rows)
    {
      assert ranks[..i + 1] == ranks[..i] + [ranks[i]];
      var ok;
      ok, position := ReadRank(ranks[i], 8 - i, position, rows);
      if !ok {
        assert ReadAll(ranks[..i + 1]).None?;
        StaysUnreadable(ranks, i + 1);
        return None;
      }
      rows := rows + [Read(ranks[i]).value];
    }
    assert ranks[..8] == ranks;
    return Some((position, TurnOf(fields)));
  }

  lemma {:induction false} StaysUnreadable(ranks: seq<string>, i: nat)
    requires i <= |ranks| && ReadAll(ranks[..i]).None?
    ensures ReadAll(ranks).None?
    decreases |ranks| - i
  {
    if i < |ranks| {
      assert ranks[..i + 1][..i] == ranks[..i];
      StaysUnreadable(ranks, i + 1);
    } else {
      assert ranks[..i] == ranks;
    }
  }

  // ---- Round trips --------------------------------------------------------------------------------

  /** The characters of a written row. */
  predicate RowChar(ch: char) { IsDigit(ch) || PieceOf(ch).Some? }

  lemma {:induction false} RowChars(cells: seq<Cell>)
    ensures forall i | 0 <= i < |Walked(cells).0| :: RowChar(Walked(cells).0[i])
  {
    if cells != [] {
      RowChars(cells[..|cells| - 1]);
      if cells[|cells| - 1].Some? { LetterIsRead(cells[|cells| - 1].value); }
    }
  }

  lemma RowCharsAreNoBreaks(ch: char)
    requires RowChar(ch)
    ensures ch != '/' && !IsSpace(ch)
  {
  }

  lemma {:induction false} ReadAllWritten(rows: Rows, texts: seq<string>)
    requires |texts| == |rows| && forall i | 0 <= i < |rows| :: |rows[i]| == 8 && texts[i] == RowText(rows[i])
    ensures ReadAll(texts) == Some(rows)
  {
    hide RowText, Read;
    if rows != [] {
      var last := |rows| - 1;
      ReadAllWritten(rows[..last], texts[..last]);
      RowRoundTrip(rows[last]);
      assert rows == rows[..last] + [rows[last]];
    }
  }

  lemma {:induction false} JoinChars(rows: seq<string>)
    requires rows != [] && forall r, i | r in rows && 0 <= i < |r| :: RowChar(r[i])
    ensures forall i | 0 <= i < |Join(rows)| :: Join(rows)[i] == '/' || RowChar(Join(rows)[i])
    ensures |rows| > 1 ==> Join(rows) != ""
  {
    if |rows| > 1 { JoinChars(rows[1..]); } else { assert rows[0] in rows; }
  }

  lemma RankTextChars(p: Position)
    ensures forall r, i | r in RankTexts(p) && 0 <= i < |r| :: RowChar(r[i])
  {
    forall r, i | r in RankTexts(p) && 0 <= i < |r| ensures RowChar(r[i]) {
      var k :| 0 <= k < 8 && r == RowText(Ranks(p)[k]);
      RowChars(Ranks(p)[k]);
      WalkedHasNoAdjacentDigits(Ranks(p)[k]);
    }
  }

  lemma PlacementIsOneWord(p: Position)
    ensures var s := Join(RankTexts(p)); s != "" && forall i | 0 <= i < |s| :: !IsSpace(s[i])
  {
    var s := Join(RankTexts(p));
    RankTextChars(p);
    JoinChars(RankTexts(p));
    hide RankTexts, Join, RowChar;
    forall i | 0 <= i < |s| ensures !IsSpace(s[i]) {
      if s[i] != '/' { RowCharsAreNoBreaks(s[i]); }
    }
  }

  lemma WrittenFields(p: Position, t: Turn)
    ensures var f := Fields(ToText(p, t));
      |f| > 1 && f[0] == Join(RankTexts(p)) && f[1] == TurnText(t)
  {
    PlacementIsOneWord(p);
    hide RankTexts, Words, Join;
    var after := " " + TurnText(t) + " - - 0 1";
    assert ToText(p, t) == Join(RankTexts(p)) + after;
    WordThenSpace(Join(RankTexts(p)), after);
    assert after[1..] == TurnText(t) + " - - 0 1";
    WordThenSpace(TurnText(t), " - - 0 1");
  }

  lemma WrittenRanks(p: Position, t: Turn)
    ensures Split(Fields(ToText(p, t))[0]) == RankTexts(p)
  {
    WrittenFields(p, t);
    RankTextChars(p);
    hide RankTexts, Join, Fields, ToText, RowChar;
    forall r | r in RankTexts(p) ensures '/' !in r {
      forall i | 0 <= i < |r| ensures r[i] != '/' { RowCharsAreNoBreaks(r[i]); }
    }
    SplitJoined(RankTexts(p));
  }

  /** Every assignment of pieces to squares and either side to move comes back. */
  lemma RoundTrip(p: Position, t: Turn)
    requires OnBoard(p)
    ensures FromText(ToText(p, t)) == Some((p, t))
  {
    hide RankTexts, Fields, ToText, Split, Ranks, Placed, RowText, ReadAll, OnBoard, Join;
    WrittenFields(p, t);
    WrittenRanks(p, t);
    RanksAreRead(p);
    PlacedRanks(p);
  }

  lemma RanksAreRead(p: Position)
    ensures ReadAll(RankTexts(p)) == Some(Ranks(p))
  {
    hide ReadAll, RowText;
    ReadAllWritten(Ranks(p), RankTexts(p));
  }

  /** Two boards written alike are alike. */
  lemma Injective(p: Position, t: Turn, q: Position, u: Turn)
    requires OnBoard(p) && OnBoard(q) && ToText(p, t) == ToText(q, u)
    ensures p == q && t == u
  {
    RoundTrip(p, t);
    RoundTrip(q, u);
  }

  /** No rank is written with two digits side by side. */
  lemma NoDigitsSideBySide(p: Position, t: Turn)
    requires OnBoard(p)
    ensures forall r | r in Split(Fields(ToText(p, t))[0]) :: NoAdjacentDigits(r)
  {
    WrittenRanks(p, t);
    forall r | r in RankTexts(p) ensures NoAdjacentDigits(r) {
      var k :| 0 <= k < 8 && r == RowText(Ranks(p)[k]);
      RowIsTidy(Ranks(p)[k]);
    }
  }

  lemma {:induction false} RanksOfPlaced(rows: Rows)
    requires |rows| == 8 && forall r | r in rows :: |r| == 8
    ensures Ranks(Placed(rows)) == rows
  {
    forall i | 0 <= i < 8 ensures RankCells(Placed(rows), 8 - i) == rows[i] {
      assert rows[i] in rows;
      forall f | 0 <= f < 8 ensures RankCells(Placed(rows), 8 - i)[f] == rows[i][f] {
        assert At(rows, Square(f, 8 - i)) == rows[i][f];
      }
    }
  }

  lemma {:induction false} ReadAllRows(texts: seq<string>)
    requires ReadAll(texts).Some?
    ensures var rows := ReadAll(texts).value;
      |rows| == |texts| && forall i | 0 <= i < |rows| :: |rows[i]| == 8 && Read(texts[i]) == Some(rows[i])
  {
    if texts != [] { ReadAllRows(texts[..|texts| - 1]); }
  }

  /** Writing what was read is a normal form: it reads as the same board, and it is the placement
      that was given exactly when no rank of that had two digits side by side. */
  lemma NormalForm(s: string)
    requires FromText(s).Some?
    ensures var (p, t) := FromText(s).value;
      && OnBoard(p)
      && FromText(ToText(p, t)) == FromText(s)
      && (RankTexts(p) == Split(Fields(s)[0]) <==> forall r | r in Split(Fields(s)[0]) :: NoAdjacentDigits(r))
  {
    var (p, t) := FromText(s).value;
    var texts := Split(Fields(s)[0]);
    var rows := ReadAll(texts).value;
    ReadAllRows(texts);
    assert forall r | r in rows :: |r| == 8;
    RanksOfPlaced(rows);
    RoundTrip(p, t);
    hide FromText, ToText, Fields, Split, ReadAll, Placed, Read;
    forall i | 0 <= i < 8 ensures RankTexts(p)[i] == texts[i] <==> NoAdjacentDigits(texts[i]) {
      RewrittenIffTidy(texts[i]);
    }
    if RankTexts(p) == texts {
      forall r | r in texts ensures NoAdjacentDigits(r) {
        var i :| 0 <= i < |texts| && texts[i] == r;
      }
    }
  }
}
