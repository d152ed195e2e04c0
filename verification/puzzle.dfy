/** Grading one move of a puzzle (internal/puzzle/explain.go, Check and positionAfter).

    Chess is a parameter: a board type with a start position per FEN, the legal moves by their UCI
    text, and the mate test; `fold` is the case folding strings.EqualFold compares by. */
module Puzzle {
  import opened Options

  datatype Board<!P> = Board(
    start: string -> Option<P>,
    play: (P, string) -> Option<P>,
    mate: P -> bool,
    fold: string -> string)

  datatype Puzzle = Puzzle(id: string, fen: string, moves: seq<string>) {
    /** Everything after the opponent's blunder. */
    function Solution(): seq<string> {
      if |moves| < 2 then [] else moves[1..]
    }
  }

  function PlayAll<P>(b: Board<P>, pos: P, moves: seq<string>): Option<P> {
    if moves == [] then Some(pos)
    else
      match PlayAll(b, pos, moves[..|moves| - 1])
      case None => None
      case Some(p) => b.play(p, moves[|moves| - 1])
  }

  /** What the solver faces after the blunder and the first `step` plies of the solution. */
  function Facing<P>(b: Board<P>, p: Puzzle, step: int): Option<P> {
    if step < 0 || step >= |p.moves| then None
    else
      match b.start(p.fen)
      case None => None
      case Some(pos) => PlayAll(b, pos, p.moves[..step + 1])
  }

  lemma {:induction false} StuckStaysStuck<P>(b: Board<P>, pos: P, moves: seq<string>, k: nat)
    requires k <= |moves| && PlayAll(b, pos, moves[..k]).None?
    ensures PlayAll(b, pos, moves).None?
    decreases |moves|
  {
    if k == |moves| {
      assert moves[..k] == moves;
    } else {
      assert moves[..|moves| - 1][..k] == moves[..k];
      StuckStaysStuck(b, pos, moves[..|moves| - 1], k);
    }
  }

  /** The positions of a puzzle one after the other: its start, after the blunder, and after each of the first
      `step` plies of the solution. */
  ghost predicate Through<P>(b: Board<P>, p: Puzzle, step: int, ps: seq<P>) {
    && 0 <= step < |p.moves| && |ps| == step + 2
    && b.start(p.fen) == Some(ps[0]) && b.play(ps[0], p.moves[0]) == Some(ps[1])
    && forall i | 1 <= i <= step :: b.play(ps[i], p.moves[i]) == Some(ps[i + 1])
  }

  /** The position faced is the last of them, and there is one as soon as they can all be reached. */
  lemma FacingIsLast<P>(b: Board<P>, p: Puzzle, step: int)
    ensures Facing(b, p, step).Some? <==> exists ps :: Through(b, p, step, ps)
    ensures forall ps | Through(b, p, step, ps) :: Facing(b, p, step) == Some(ps[step + 1])
  {
    if 0 <= step < |p.moves| && b.start(p.fen).Some? {
      var pos := b.start(p.fen).value;
      var moves := p.moves[..step + 1];
      if Facing(b, p, step).Some? {
        var ps := Played(b, pos, moves);
        assert Through(b, p, step, ps);
      }
      forall ps | Through(b, p, step, ps) ensures Facing(b, p, step) == Some(ps[step + 1]) {
        PlayedIsLast(b, pos, moves, ps);
      }
    }
  }

  lemma {:induction false} Played<P>(b: Board<P>, pos: P, moves: seq<string>) returns (ps: seq<P>)
    requires PlayAll(b, pos, moves).Some?
    ensures |ps| == |moves| + 1 && ps[0] == pos
    ensures forall i | 0 <= i < |moves| :: b.play(ps[i], moves[i]) == Some(ps[i + 1])
  {
    if moves == [] {
      ps := [pos];
    } else {
      ps := Played(b, pos, moves[..|moves| - 1]);
      PlayedIsLast(b, pos, moves[..|moves| - 1], ps);
      ps := ps + [PlayAll(b, pos, moves).value];
    }
  }

  lemma {:induction false} PlayedIsLast<P>(b: Board<P>, pos: P, moves: seq<string>, ps: seq<P>)
    requires |ps| == |moves| + 1 && ps[0] == pos
    requires forall i | 0 <= i < |moves| :: b.play(ps[i], moves[i]) == Some(ps[i + 1])
    ensures PlayAll(b, pos, moves) == Some(ps[|moves|])
  {
    if moves != [] {
      PlayedIsLast(b, pos, moves[..|moves| - 1], ps[..|moves|]);
    }
  }

  method PositionAfter<P>(b: Board<P>, p: Puzzle, step: int) returns (r: Option<P>)
    ensures r == Facing(b, p, step)
    ensures r.Some? <==> exists ps :: Through(b, p, step, ps)
    ensures forall ps | Through(b, p, step, ps) :: r == Some(ps[step + 1])
  {
    FacingIsLast(b, p, step);
    hide Through;
    if step < 0 || step >= |p.moves| { return None; }
    var start := b.start(p.fen);
    if start.None? { return None; }
    var pos := start.value;
    assert p.moves[..0] == [];
    for i := 0 to step + 1
      invariant PlayAll(b, start.value, p.moves[..i]) == Some(pos)
    {
      var next := b.play(pos, p.moves[i]);
      assert p.moves[..i + 1][..i] == p.moves[..i];
      if next.None? {
        assert p.moves[..step + 1][..i + 1] == p.moves[..i + 1];
        StuckStaysStuck(b, start.value, p.moves[..step + 1], i + 1);
        return None;
      }
      pos := next.value;
    }
    return Some(pos);
  }

  datatype Verdict = Verdict(correct: bool, finished: bool)

  function Graded<P>(b: Board<P>, p: Puzzle, step: int, uci: string): Verdict {
    var solution := p.Solution();
    if step < 0 || step >= |solution| then Verdict(false, false)
    else
      match Facing(b, p, step)
      case None => Verdict(false, false)
      case Some(pos) =>
        match b.play(pos, uci)
        case None => Verdict(false, false)
        case Some(after) =>
          if b.fold(uci) != b.fold(solution[step]) && !b.mate(after) then Verdict(false, false)
          else Verdict(true, step == |solution| - 1 || b.mate(after))
  }

  /** The move is the solution's at this step. */
  predicate Matches<P>(b: Board<P>, p: Puzzle, step: int, uci: string) {
    0 <= step < |p.Solution()| && b.fold(uci) == b.fold(p.Solution()[step])
  }

  predicate Mates<P>(b: Board<P>, p: Puzzle, step: int, uci: string) {
    match Facing(b, p, step)
    case None => false
    case Some(pos) => b.play(pos, uci).Some? && b.mate(b.play(pos, uci).value)
  }

  /** An accepted move is legal in the position and is the solution's or mates; it finishes the
      puzzle exactly when it is the last ply or mates; and if it does not finish, the reply and the
      next step are inside the solution. */
  lemma GradedMeans<P>(b: Board<P>, p: Puzzle, step: int, uci: string)
    ensures var v := Graded(b, p, step, uci);
      && (v.correct <==> 0 <= step < |p.Solution()| && Facing(b, p, step).Some?
                         && b.play(Facing(b, p, step).value, uci).Some?
                         && (Matches(b, p, step, uci) || Mates(b, p, step, uci)))
      && (v.finished <==> v.correct && (step == |p.Solution()| - 1 || Mates(b, p, step, uci)))
      && (v.correct && !v.finished ==> Matches(b, p, step, uci) && step + 1 < |p.Solution()|)
  {
  }

  /** Grading said of the positions and the puzzle's own moves, the first of which is the blunder: the ply
      answered is move step + 1, and the last is the last of the moves. */
  lemma GradedThrough<P>(b: Board<P>, p: Puzzle, step: int, uci: string)
    ensures Graded(b, p, step, uci).correct ==> exists ps :: Through(b, p, step, ps)
    ensures forall ps | Through(b, p, step, ps) ::
      var v, after := Graded(b, p, step, uci), b.play(ps[step + 1], uci);
      && (v.correct <==> step + 1 < |p.moves| && after.Some?
                         && (b.fold(uci) == b.fold(p.moves[step + 1]) || b.mate(after.value)))
      && (v.finished <==> v.correct && (step + 2 == |p.moves| || b.mate(after.value)))
  {
    FacingIsLast(b, p, step);
    hide Facing;
  }

  method Check<P>(b: Board<P>, p: Puzzle, step: int, uci: string) returns (v: Verdict)
    ensures v == Graded(b, p, step, uci)
    ensures v.correct <==> && 0 <= step < |p.Solution()| && Facing(b, p, step).Some?
                           && b.play(Facing(b, p, step).value, uci).Some?
                           && (Matches(b, p, step, uci) || Mates(b, p, step, uci))
    ensures v.finished <==> v.correct && (step == |p.Solution()| - 1 || Mates(b, p, step, uci))
    ensures v.correct && !v.finished ==> Matches(b, p, step, uci) && step + 1 < |p.Solution()|
    ensures v.correct ==> exists ps :: Through(b, p, step, ps)
    ensures forall ps | Through(b, p, step, ps) ::
      var after := b.play(ps[step + 1], uci);
      && (v.correct <==> step + 1 < |p.moves| && after.Some?
                         && (b.fold(uci) == b.fold(p.moves[step + 1]) || b.mate(after.value)))
      && (v.finished <==> v.correct && (step + 2 == |p.moves| || b.mate(after.value)))
  {
    GradedMeans(b, p, step, uci);
    GradedThrough(b, p, step, uci);
    hide Through, Facing;
    var solution := p.Solution();
    if step < 0 || step >= |solution| { return Verdict(false, false); }
    var pos := PositionAfter(b, p, step);
    if pos.None? { return Verdict(false, false); }
    var after := b.play(pos.value, uci);
    if after.None? { return Verdict(false, false); }
    if b.fold(uci) != b.fold(solution[step]) && !b.mate(after.value) { return Verdict(false, false); }
    return Verdict(true, step == |solution| - 1 || b.mate(after.value));
  }
}
