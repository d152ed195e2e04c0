/** The coach's board as text and back (web/src/features/classrooms/CoachBoard.jsx, toFEN and
    fromFEN): the piece placement and active colour of the PGN Standard, section 16.1. */
module Fen {
  import opened Options

  datatype Kind = King | Queen | Rook | Bishop | Knight | Pawn

  datatype Piece = Piece(white: bool, kind: Kind)

  /** Files count from 0, ranks from 1. */
  datatype Square = Square(file: nat, rank: nat)

  type Position = map<Square, Piece>

  datatype Turn = White | Black

  type Cell = Option<Piece>

  function Upper(kind: Kind): char {
    match kind
    case King => 'K'
    case Queen => 'Q'
    case Rook => 'R'
    case Bishop => 'B'
    case Knight => 'N'
    case Pawn => 'P'
  }

  function Lower(kind: Kind): char {
    match kind
    case King => 'k'
    case Queen => 'q'
    case Rook => 'r'
    case Bishop => 'b'
    case Knight => 'n'
    case Pawn => 'p'
  }

  function Letter(p: Piece): char { if p.white then Upper(p.kind) else Lower(p.kind) }

  /** The piece a character stands for. */
  function PieceOf(ch: char): Option<Piece> {
    match ch
    case 'K' => Some(Piece(true, King))
    case 'Q' => Some(Piece(true, Queen))
    case 'R' => Some(Piece(true, Rook))
    case 'B' => Some(Piece(true, Bishop))
    case 'N' => Some(Piece(true, Knight))
    case 'P' => Some(Piece(true, Pawn))
    case 'k' => Some(Piece(false, King))
    case 'q' => Some(Piece(false, Queen))
    case 'r' => Some(Piece(false, Rook))
    case 'b' => Some(Piece(false, Bishop))
    case 'n' => Some(Piece(false, Knight))
    case 'p' => Some(Piece(false, Pawn))
    case _ => None
  }

  predicate IsDigit(ch: char) { '1' <= ch <= '8' }

  function Number(ch: char): nat
    requires IsDigit(ch)
  {
    (ch - '0') as nat
  }

  function Digit(n: nat): char
    requires 1 <= n <= 8
  {
    '0' + n as char
  }

  // ---- One rank -----------------------------------------------------------------------------------

  /** What the loop over the files has written, and the gap it still holds. */
  function Walked(cells: seq<Cell>): (r: (string, nat))
    ensures r.1 <= |cells|
  {
    if cells == [] then ("", 0)
    else
      var (row, gap) := Walked(cells[..|cells| - 1]);
      match cells[|cells| - 1]
      case None => (row, gap + 1)
      case Some(p) => (row + Gap(gap) + [Letter(p)], 0)
  }

  /** A gap of more than eight is never written. */
  function Gap(n: nat): string {
    if 1 <= n <= 8 then [Digit(n)] else ""
  }

  function RowText(cells: seq<Cell>): string {
    Walked(cells).0 + Gap(Walked(cells).1)
  }

  function Empty(n: nat): (r: seq<Cell>)
    ensures |r| == n && forall i | 0 <= i < n :: r[i] == None
  {
    seq(n, i => None)
  }

  /** The cells a row's characters stand for; None at a character it does not know or a ninth piece. */
  function Read(row: string): Option<seq<Cell>> {
    if row == "" then Some([])
    else
      match Read(row[..|row| - 1])
      case None => None
      case Some(cells) =>
        var ch := row[|row| - 1];
        if IsDigit(ch) then Some(cells + Empty(Number(ch)))
        else if PieceOf(ch).None? || |cells| > 7 then None
        else Some(cells + [PieceOf(ch)])
  }

  lemma ReadOn(row: string, ch: char)
    ensures Read(row + [ch]) ==
      match Read(row)
      case None => None
      case Some(cells) =>
        if IsDigit(ch) then Some(cells + Empty(Number(ch)))
        else if PieceOf(ch).None? || |cells| > 7 then None
        else Some(cells + [PieceOf(ch)])
  {
    assert (row + [ch])[..|row|] == row;
  }

  lemma LetterIsRead(p: Piece)
    ensures PieceOf(Letter(p)) == Some(p) && !IsDigit(Letter(p))
  {
  }

  lemma PieceIsWritten(ch: char)
    requires PieceOf(ch).Some?
    ensures Letter(PieceOf(ch).value) == ch
  {
  }

  /** Reading what was written so far gives the cells before the gap, which are all the rest. */
  lemma {:induction false} WalkedIsRead(cells: seq<Cell>)
    requires |cells| <= 8
    ensures var (row, gap) := Walked(cells);
      && Read(row) == Some(cells[..|cells| - gap])
      && cells[|cells| - gap..] == Empty(gap)
  {
    if cells != [] {
      var before := cells[..|cells| - 1];
      WalkedIsRead(before);
      var (row, gap) := Walked(before);
      match cells[|cells| - 1]
      case None =>
        assert cells[..|cells| - (gap + 1)] == before[..|before| - gap];
        assert cells[|cells| - (gap + 1)..] == before[|before| - gap..] + [None];
      case Some(p) =>
        GapIsRead(row, before, gap);
        ReadOn(row + Gap(gap), Letter(p));
        LetterIsRead(p);
        assert cells == before + [Some(p)] && cells[..|cells| - 0] == cells;
    }
  }

  lemma GapIsRead(row: string, cells: seq<Cell>, gap: nat)
    requires gap <= |cells| <= 8 && Read(row) == Some(cells[..|cells| - gap]) && cells[|cells| - gap..] == Empty(gap)
    ensures Read(row + Gap(gap)) == Some(cells)
  {
    assert cells == cells[..|cells| - gap] + cells[|cells| - gap..];
    if gap == 0 {
      assert row + Gap(gap) == row && cells[..|cells| - gap] == cells;
    } else {
      ReadOn(row, Digit(gap));
      assert Number(Digit(gap)) == gap;
    }
  }

  /** A rank survives being written and read. */
  lemma RowRoundTrip(cells: seq<Cell>)
    requires |cells| <= 8
    ensures Read(RowText(cells)) == Some(cells)
  {
    WalkedIsRead(cells);
    GapIsRead(Walked(cells).0, cells, Walked(cells).1);
  }

  ghost predicate NoAdjacentDigits(row: string) {
    forall i | 0 <= i < |row| - 1 :: !(IsDigit(row[i]) && IsDigit(row[i + 1]))
  }

  lemma {:induction false} WalkedHasNoAdjacentDigits(cells: seq<Cell>)
    ensures NoAdjacentDigits(Walked(cells).0)
    ensures var row := Walked(cells).0; row != "" ==> !IsDigit(row[|row| - 1])
  {
    if cells != [] {
      WalkedHasNoAdjacentDigits(cells[..|cells| - 1]);
      if cells[|cells| - 1].Some? {
        LetterIsRead(cells[|cells| - 1].value);
      }
    }
  }

  /** A row that reads and has no adjacent digits is what its cells are written as. */
  lemma {:induction false} TidyRowIsRewritten(row: string)
    requires Read(row).Some? && |Read(row).value| <= 8 && NoAdjacentDigits(row)
    ensures var cells := Read(row).value;
      if row != "" && IsDigit(row[|row| - 1])
      then Walked(cells) == (row[..|row| - 1], Number(row[|row| - 1]))
      else Walked(cells) == (row, 0)
    ensures RowText(Read(row).value) == row
  {
    if row != "" {
      var last := |row| - 1;
      var cells := Read(row[..last]).value;
      TidyRowIsRewritten(row[..last]);
      assert row == row[..last] + [row[last]];
      ReadOn(row[..last], row[last]);
      hide Walked, Letter, PieceOf, Read;
      if IsDigit(row[last]) {
        assert last > 0 ==> !IsDigit(row[last - 1]);
        WalkedGap(cells, Number(row[last]));
        assert Gap(Number(row[last])) == [row[last]];
      } else {
        PieceIsWritten(row[last]);
        WalkedPiece(cells, PieceOf(row[last]).value);
      }
    }
  }

  lemma {:induction false} WalkedGap(cells: seq<Cell>, n: nat)
    ensures Walked(cells + Empty(n)) == (Walked(cells).0, Walked(cells).1 + n)
  {
    hide Gap, Letter;
    if n == 0 {
      assert cells + Empty(0) == cells;
    } else {
      WalkedGap(cells, n - 1);
      var more := cells + Empty(n);
      assert more[..|more| - 1] == cells + Empty(n - 1) && more[|more| - 1] == None;
    }
  }

  lemma WalkedNone(cells: seq<Cell>)
    ensures Walked(cells + [None]) == (Walked(cells).0, Walked(cells).1 + 1)
  {
    assert (cells + [None])[..|cells|] == cells;
  }

  lemma WalkedPiece(cells: seq<Cell>, p: Piece)
    ensures Walked(cells + [Some(p)]) == (RowText(cells) + [Letter(p)], 0)
  {
    assert (cells + [Some(p)])[..|cells|] == cells;
  }

  /** Writing a rank again changes nothing exactly when it had no adjacent digits. */
  lemma RewrittenIffTidy(row: string)
    requires Read(row).Some? && |Read(row).value| == 8
    ensures RowText(Read(row).value) == row <==> NoAdjacentDigits(row)
  {
    RowIsTidy(Read(row).value);
    if NoAdjacentDigits(row) { TidyRowIsRewritten(row); }
  }

  lemma RowIsTidy(cells: seq<Cell>)
    ensures NoAdjacentDigits(RowText(cells))
  {
    WalkedHasNoAdjacentDigits(cells);
  }
}
