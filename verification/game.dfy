/** The chess game record (internal/game/game.go).

    The rules of chess are a parameter: `Rules` carries the string clean-up, the legality test and
    the outcome test, and nothing is assumed about them except that the start position is not over
    and that an outcome names a result. Positions are move lists, because the source always replays
    the list from the start. */
module Game {
  import opened Options

  type Uci = string

  datatype Color = White | Black {
    function Other(): Color { if White? then Black else White }
  }

  datatype Status = Ongoing | Finished

  /** "", "1-0", "0-1" and "1/2-1/2". */
  datatype Result = NoResult | WhiteWins | BlackWins | Draw

  datatype Ending = Ending(result: Result, termination: string)

  const RESIGNATION := "resignation"

  datatype Rules = Rules(
    clean: string -> Uci,
    legal: (seq<Uci>, Uci) -> bool,
    outcome: seq<Uci> -> Option<Ending>)

  ghost predicate Sound(r: Rules) {
    && r.outcome([]) == None
    && forall moves :: r.outcome(moves).Some? ==> r.outcome(moves).value.result != NoResult
  }

  /** The value stored in Redis: every field of Game but UpdatedAt. */
  datatype GameRec = GameRec(
    id: string,
    moves: seq<Uci>,
    ply: int,
    revision: nat,
    player: Color,
    userId: string,
    level: int,
    rated: bool,
    friend: bool,
    opponentId: string,
    status: Status,
    result: Result,
    termination: string,
    createdAt: int)
  {
    function EngineColor(): Color { player.Other() }

    function Turn(): Color { TurnAt(|moves|) }

    /** The seat a caller may move, None when they are only watching. */
    function ColorFor(user: string): Option<Color> {
      if friend then
        if user == "" then None
        else if user == userId then Some(player)
        else if user == opponentId then Some(EngineColor())
        else None
      else if userId != "" && user != userId then None
      else Some(player)
    }

    predicate Over() { status == Finished }
  }

  function TurnAt(ply: int): Color {
    if ply % 2 == 0 then White else Black
  }

  function New(id: string, player: Color, level: int, rated: bool, createdAt: int): GameRec {
    GameRec(id, [], 0, 0, player, "", level, rated, false, "", Ongoing, NoResult, "", createdAt)
  }

  predicate Replays(r: Rules, moves: seq<Uci>) {
    forall i | 0 <= i < |moves| :: r.legal(moves[..i], moves[i])
  }

  datatype MoveError = ErrFinished | ErrNotYourTurn | ErrReplay | ErrIllegalMove

  datatype Changed = Ok(g: GameRec) | Err(error: MoveError)

  /** What a move that was accepted leaves behind. */
  function Extended(r: Rules, g: GameRec, m: Uci): GameRec {
    var moves := g.moves + [m];
    var longer := g.(moves := moves, ply := |moves|);
    match r.outcome(moves)
    case None => longer
    case Some(e) => longer.(status := Finished, result := e.result, termination := e.termination)
  }

  function Moved(r: Rules, g: GameRec, color: Color, uci: string): Changed {
    if g.Over() then Err(ErrFinished)
    else if g.Turn() != color then Err(ErrNotYourTurn)
    else if !Replays(r, g.moves) then Err(ErrReplay)
    else if !r.legal(g.moves, r.clean(uci)) then Err(ErrIllegalMove)
    else Ok(Extended(r, g, r.clean(uci)))
  }

  function Resigned(g: GameRec, color: Color): Changed {
    if g.Over() then Err(ErrFinished)
    else Ok(g.(status := Finished, termination := RESIGNATION,
               result := if color == White then BlackWins else WhiteWins))
  }

  /** The stored record never drifts from the rules: it replays, its ply is its length, the game
      was not already over at any shorter prefix, and the status says what the rules say unless
      somebody resigned. */
  ghost predicate WellFormed(r: Rules, g: GameRec) {
    && g.ply == |g.moves|
    && Replays(r, g.moves)
    && (forall i | 0 <= i < |g.moves| :: r.outcome(g.moves[..i]).None?)
    && (g.status == Ongoing ==>
          r.outcome(g.moves).None? && g.result == NoResult && g.termination == "")
    && (g.status == Finished ==>
          || r.outcome(g.moves) == Some(Ending(g.result, g.termination))
          || (r.outcome(g.moves).None? && g.termination == RESIGNATION
              && g.result in {WhiteWins, BlackWins}))
  }

  /** A move is accepted exactly on the mover's turn in a live game for a legal move, and it keeps
      the record well formed. */
  lemma MoveKeepsWellFormed(r: Rules, g: GameRec, color: Color, uci: string)
    requires WellFormed(r, g)
    ensures Moved(r, g, color, uci).Ok?
       <==> && g.status == Ongoing && color == (if g.ply % 2 == 0 then White else Black)
            && r.legal(g.moves, r.clean(uci))
    ensures Moved(r, g, color, uci).Ok? ==> WellFormed(r, Moved(r, g, color, uci).g)
  {
    var m := Moved(r, g, color, uci);
    if m.Ok? {
      var moves := g.moves + [r.clean(uci)];
      assert m.g.moves == moves;
      assert moves[..|g.moves|] == g.moves;
      forall i | 0 <= i < |moves|
        ensures r.legal(moves[..i], moves[i]) && r.outcome(moves[..i]).None?
      {
        if i < |g.moves| {
          assert moves[..i] == g.moves[..i];
        }
      }
    }
  }

  lemma ResignKeepsWellFormed(r: Rules, g: GameRec, color: Color)
    requires WellFormed(r, g)
    ensures Resigned(g, color).Ok? <==> g.status == Ongoing
    ensures Resigned(g, color).Ok? ==> WellFormed(r, Resigned(g, color).g)
  {
  }

  /** The Game object the handlers and the worker change in place. */
  class Game {
    var id: string
    var moves: seq<Uci>
    var ply: int
    var revision: nat
    var player: Color
    var userId: string
    var level: int
    var rated: bool
    var friend: bool
    var opponentId: string
    var status: Status
    var result: Result
    var termination: string
    var createdAt: int

    constructor (g: GameRec)
      ensures Snapshot() == g
    {
      id, moves, ply, revision, player := g.id, g.moves, g.ply, g.revision, g.player;
      userId, level, rated, friend, opponentId := g.userId, g.level, g.rated, g.friend, g.opponentId;
      status, result, termination, createdAt := g.status, g.result, g.termination, g.createdAt;
    }

    function Snapshot(): GameRec
      reads this
    {
      GameRec(id, moves, ply, revision, player, userId, level, rated, friend, opponentId,
              status, result, termination, createdAt)
    }

    /** Replays the whole list from the start position, as every call does. */
    method Replay(r: Rules) returns (ok: bool)
      ensures ok <==> Replays(r, moves)
    {
      var played: seq<Uci> := [];
      for i := 0 to |moves|
        invariant played == moves[..i]
        invariant forall k | 0 <= k < i :: r.legal(moves[..k], moves[k])
      {
        if !r.legal(played, moves[i]) {
          assert !r.legal(moves[..i], moves[i]);
          return false;
        }
        played := played + [moves[i]];
      }
      return true;
    }

    method ApplyMove(r: Rules, color: Color, uci: string) returns (err: Option<MoveError>)
      modifies this
      ensures match Moved(r, old(Snapshot()), color, uci)
              case Ok(g) => err == None && Snapshot() == g
              case Err(e) => err == Some(e) && Snapshot() == old(Snapshot())
    {
      if status == Finished { return Some(ErrFinished); }
      if Snapshot().Turn() != color { return Some(ErrNotYourTurn); }
      var replayed := Replay(r);
      if !replayed { return Some(ErrReplay); }
      var m := r.clean(uci);
      if !r.legal(moves, m) { return Some(ErrIllegalMove); }
      moves := moves + [m];
      ply := |moves|;
      match r.outcome(moves) {
        case None =>
        case Some(e) =>
          status := Finished;
          result := e.result;
          termination := e.termination;
      }
      return None;
    }

    method Resign(color: Color) returns (err: Option<MoveError>)
      modifies this
      ensures match Resigned(old(Snapshot()), color)
              case Ok(g) => err == None && Snapshot() == g
              case Err(e) => err == Some(e) && Snapshot() == old(Snapshot())
    {
      if status == Finished { return Some(ErrFinished); }
      status := Finished;
      termination := RESIGNATION;
      if color == White { result := BlackWins; } else { result := WhiteWins; }
      return None;
    }
  }
}
