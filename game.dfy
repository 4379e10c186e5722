/**
 * The game: the board arena, the pieces, the two turn queues, and the
 * execution of one move per turn.
 */
module Games {
  import opened Wrappers
  import opened Board
  import opened Generation

  /** The players a decider's answer names, in its order: entry i is player order[i]. */
  function PlayersAt(players: seq<Player>, order: seq<int>): (r: seq<Player>)
    requires forall i | 0 <= i < |order| :: 0 <= order[i] < |players|
    ensures |r| == |order|
    ensures forall i | 0 <= i < |order| :: r[i] == players[order[i]]
  {
    seq(|order|, i requires 0 <= i < |order| => players[order[i]])
  }

  /** The pieces of `s` owned by `owner`, in their order in `s`. */
  function OwnedBy(s: seq<Piece>, owner: int): seq<Piece> {
    if s == [] then []
    else OwnedBy(s[..|s| - 1], owner) + (if s[|s| - 1].owner == owner then [s[|s| - 1]] else [])
  }

  /** Filtering by owner keeps exactly the pieces of that owner, and never adds any. */
  lemma {:induction false} OwnedByMembers(s: seq<Piece>, owner: int, x: Piece)
    ensures x in OwnedBy(s, owner) <==> x in s && x.owner == owner
    ensures |OwnedBy(s, owner)| <= |s|
  {
    if s != [] {
      OwnedByMembers(s[..|s| - 1], owner, x);
      assert s == s[..|s| - 1] + [s[|s| - 1]];
    }
  }

  /** The board once the moving piece has left its start cell. */
  function Vacate(nodes: map<Coord, Node>, m: Move): map<Coord, Node>
    requires m.start in nodes
  {
    nodes[m.start := nodes[m.start].(piece := null)]
  }

  /** The piece the move lands on, read after the start cell is emptied. */
  function Victim(nodes: map<Coord, Node>, m: Move): Piece?
    requires m.start in nodes && m.end in nodes
  {
    Vacate(nodes, m)[m.end].piece
  }

  /** The move lands on a King. */
  predicate TakesKing(nodes: map<Coord, Node>, m: Move)
    requires m.start in nodes && m.end in nodes
  {
    var v := Victim(nodes, m);
    v != null && v.kind == King
  }

  /**
   * The board after make_move: the start cell is emptied, and unless the
   * move lands on a King the moving piece occupies the end cell.
   */
  function AfterMove(nodes: map<Coord, Node>, m: Move): map<Coord, Node>
    requires m.start in nodes && m.end in nodes
  {
    var vacated := Vacate(nodes, m);
    if TakesKing(nodes, m) then vacated else vacated[m.end := vacated[m.end].(piece := m.piece)]
  }

  /**
   * A move changes occupancy only: the same cells with the same links, only
   * the start and end cells touched.  The start cell ends up empty unless it
   * is also the end cell; the end cell holds the mover, or on a King capture
   * still holds the King.
   */
  lemma AfterMoveChangesOnlyOccupancy(nodes: map<Coord, Node>, m: Move)
    requires m.start in nodes && m.end in nodes
    ensures var after := AfterMove(nodes, m);
      && after.Keys == nodes.Keys
      && (forall k | k in nodes :: after[k].id == nodes[k].id && after[k].owner == nodes[k].owner
                                   && after[k].neighbors == nodes[k].neighbors)
      && (forall k | k in nodes && k != m.start && k != m.end :: after[k] == nodes[k])
      && (m.start != m.end ==> after[m.start].piece == null)
      && after[m.end].piece == (if TakesKing(nodes, m) then nodes[m.end].piece else m.piece)
  {
  }

  /** A game in progress: the board, the pieces, the players and the two turn queues. */
  class Game {
    var nodes: map<Coord, Node>
    var pieces: seq<Piece>
    var players: seq<Player>
    const nPlayers: nat
    /** Upcoming movers, front first. */
    var moveList: seq<Player>
    /** Upcoming deciders of the next round's order, front first. */
    var moveDecisionList: seq<Player>
    var killedPieces: seq<Piece>
    var gameOver: bool
    var winner: Option<Player>

    /**
     * The queues always hold at least one round: between n and 2n - 1
     * movers and between n and 2n deciders, all of them players.
     */
    ghost predicate Valid()
      reads this
    {
      && nPlayers == |players| >= 1
      && nPlayers <= |moveList| <= 2 * nPlayers - 1
      && nPlayers <= |moveDecisionList| <= 2 * nPlayers
      && (forall i | 0 <= i < |moveList| :: moveList[i] in players)
      && (forall i | 0 <= i < |moveDecisionList| :: moveDecisionList[i] in players)
    }

    /** A new game on the board generator `g` builds; both queues start as the player list. */
    constructor (g: TwoChessGenerator)
      requires Buildable(g)
      ensures Valid()
      ensures IsBoard(g, nodes)
      ensures players == [Player(0), Player(1)] && nPlayers == 2
      ensures |pieces| == 2 && fresh(pieces[0]) && fresh(pieces[1])
      ensures forall i | 0 <= i < 2 :: pieces[i].kind == King && pieces[i].owner == i && pieces[i].position == Coord(i, 4, 0)
      ensures forall k | k in nodes ::
        nodes[k].piece == if k == Coord(0, 4, 0) then pieces[0] else if k == Coord(1, 4, 0) then pieces[1] else null
      ensures moveList == players && moveDecisionList == players
      ensures killedPieces == [] && !gameOver && winner == None
    {
      var generated := Generate(g);
      var (n, p, pl) := generated.value;
      nodes, pieces, players := n, p, pl;
      moveList, moveDecisionList := pl, pl;
      nPlayers := |pl|;
      killedPieces := [];
      gameOver, winner := false, None;
    }

    /**
     * Applies `move`: empties the start cell and moves the piece to the end
     * cell.  Landing on a King ends the game and leaves the King on the end
     * cell; any other occupant is recorded as killed and replaced by the
     * mover.  Whether the end cell is a legal destination is not checked.
     */
    method MakeMove(move: Move) returns (kingTaken: bool)
      requires move.start in nodes && move.end in nodes
      requires move.piece.position == move.start && nodes[move.start].piece == move.piece
      modifies this`nodes, this`killedPieces, move.piece
      ensures move.piece.position == move.end
      ensures kingTaken == TakesKing(old(nodes), move)
      ensures nodes == AfterMove(old(nodes), move)
      ensures var victim := Victim(old(nodes), move);
        killedPieces == old(killedPieces) + (if !kingTaken && victim != null then [victim] else [])
    {
      var p := move.piece;
      nodes := nodes[move.start := nodes[move.start].(piece := null)];
      p.position := move.end;
      var victim := nodes[move.end].piece;
      if victim != null && victim.kind == King {
        return true;
      }
      if victim != null {
        killedPieces := killedPieces + [victim];
      }
      nodes := nodes[move.end := nodes[move.end].(piece := p)];
      return false;
    }

    /**
     * Plays one turn.  Each queue is topped up when it holds n entries or
     * fewer: the deciders with the player list, the movers with the order
     * the front decider answers (`order`, n player indices).  The front mover
     * then plays `move`, its answer; a King capture ends the game with that
     * mover as the winner.
     */
    method PlayNextMove(order: seq<int>, move: Move) returns (decider: Option<Player>, mover: Player)
      requires Valid()
      requires |moveList| <= nPlayers ==> |order| == nPlayers && forall i | 0 <= i < |order| :: 0 <= order[i] < nPlayers
      requires move.start in nodes && move.end in nodes
      requires move.piece.position == move.start && nodes[move.start].piece == move.piece
      modifies this, move.piece
      ensures Valid()
      ensures players == old(players) && pieces == old(pieces)
      ensures var decisions := if old(|moveDecisionList|) <= nPlayers then old(moveDecisionList) + players else old(moveDecisionList);
        var refill := old(|moveList|) <= nPlayers;
        var queue := if refill then old(moveList) + PlayersAt(players, order) else old(moveList);
        && decider == (if refill then Some(decisions[0]) else None)
        && moveDecisionList == (if refill then decisions[1..] else decisions)
        && mover == queue[0]
        && moveList == queue[1..]
      ensures |moveList| == if old(|moveList|) <= nPlayers then old(|moveList|) + nPlayers - 1 else old(|moveList|) - 1
      ensures move.piece.position == move.end
      ensures nodes == AfterMove(old(nodes), move)
      ensures var victim := Victim(old(nodes), move);
        killedPieces == old(killedPieces) + (if !gameOver && victim != null then [victim] else [])
      ensures gameOver == TakesKing(old(nodes), move)
      ensures winner == if gameOver then Some(mover) else old(winner)
    {
      if |moveDecisionList| <= nPlayers {
        moveDecisionList := moveDecisionList + players;
      }
      decider := None;
      if |moveList| <= nPlayers {
        decider := Some(moveDecisionList[0]);
        moveDecisionList := moveDecisionList[1..];
        var newMoves := PlayersAt(players, order);
        moveList := moveList + newMoves;
      }
      mover := moveList[0];
      moveList := moveList[1..];
      gameOver := MakeMove(move);
      if gameOver {
        winner := Some(mover);
      }
    }

    /** The pieces of player `owner`, in the game's order; all pieces when no player is given. */
    method GetPieces(owner: Option<int>) returns (r: seq<Piece>)
      ensures owner.None? ==> r == pieces
      ensures owner.Some? ==> r == OwnedBy(pieces, owner.value)
    {
      if owner.None? {
        return pieces;
      }
      r := [];
      for i := 0 to |pieces|
        invariant r == OwnedBy(pieces[..i], owner.value)
      {
        assert pieces[..i + 1][..i] == pieces[..i];
        if pieces[i].owner == owner.value {
          r := r + [pieces[i]];
        }
      }
      assert pieces[..|pieces|] == pieces;
    }
  }
}
