/**
 * Cells, directions, pieces and moves of the n-chess engine.
 *
 * The board is an arena: a map from coordinate triples (player, column, row)
 * to node records.  A node's neighbour lists hold coordinates, one list per
 * compass direction, so the cyclic neighbour graph needs no object links.
 */
module Board {
  import opened Wrappers

  /** A compass direction, numbered in the order e, ne, n, nw, w, sw, s, se. */
  type Dir = d: int | 0 <= d < 8

  const E: Dir := 0
  const NE: Dir := 1
  const N: Dir := 2
  const NW: Dir := 3
  const W: Dir := 4
  const SW: Dir := 5
  const S: Dir := 6
  const SE: Dir := 7

  /**
   * The direction pointing the other way: half a turn round the compass.
   * Turning another half turn gives `d` back, and no direction is its own
   * opposite.
   */
  function Opposite(d: Dir): (r: Dir)
    ensures r != d && (r + 4) % 8 == d
  {
    (d + 4) % 8
  }

  /** Identity of a node: the owning player, a column and a row of that player's grid. */
  datatype Coord = Coord(player: int, col: int, row: int)

  /** A player of the game (the console player of the source). */
  datatype Player = Player(id: int)

  datatype Kind = King | Pawn

  /** A piece on the board: its owner and kind never change, its position does. */
  class Piece {
    const kind: Kind
    const owner: int
    var position: Coord

    constructor (kind: Kind, owner: int, position: Coord)
      ensures this.kind == kind && this.owner == owner && this.position == position
    {
      this.kind := kind;
      this.owner := owner;
      this.position := position;
    }

    /**
     * The destinations this piece can reach in one move.  A King takes every
     * neighbour in every direction, as its owner sees them, without looking
     * at who occupies them; a Pawn's rule is not implemented.
     */
    method GetPossibleMoves(nodes: map<Coord, Node>) returns (r: Result<seq<Coord>>)
      requires position in nodes && nodes[position].WellFormed()
      ensures kind == Pawn ==> r == Err(NotImplemented)
      ensures kind == King ==> r == Ok(KingMoves(nodes[position], owner))
    {
      if kind == Pawn {
        return Err(NotImplemented);
      }
      var at := nodes[position];
      var moves := [];
      for d := 0 to 8
        invariant moves == DirectionLists(at, owner, d)
      {
        moves := moves + GetNextNodes(at, owner, d);
      }
      return Ok(moves);
    }
  }

  /** A board cell: its coordinate, its owner, eight neighbour lists and its occupant. */
  datatype Node = Node(id: Coord, owner: int, neighbors: seq<seq<Coord>>, piece: Piece?)
  {
    predicate WellFormed() {
      |neighbors| == 8
    }
  }

  /** A fresh cell: owned by `owner`, unoccupied, with all eight neighbour lists empty. */
  function NewNode(owner: int, id: Coord): (n: Node)
    ensures n.WellFormed() && n.id == id && n.owner == owner && n.piece == null
    ensures forall d: Dir :: n.neighbors[d] == []
  {
    Node(id, owner, [[], [], [], [], [], [], [], []], null)
  }

  /**
   * The neighbours of `n` in direction `d` as seen by a piece of player
   * `mover`: on an own cell the list stored under `d`, on a foreign cell
   * the list stored under the opposite direction.
   */
  function GetNextNodes(n: Node, mover: int, d: Dir): (r: seq<Coord>)
    requires n.WellFormed()
    ensures mover == n.owner ==> r == n.neighbors[d]
    ensures mover != n.owner ==> r == n.neighbors[Opposite(d)]
  {
    if mover == n.owner then n.neighbors[d] else n.neighbors[Opposite(d)]
  }

  /** Direction relativity: a foreigner's view of `d` is the owner's view of the opposite direction. */
  lemma RelativeLookup(n: Node, mover: int, d: Dir)
    requires n.WellFormed()
    ensures mover == n.owner ==> GetNextNodes(n, mover, d) == n.neighbors[d]
    ensures mover != n.owner ==> GetNextNodes(n, mover, d) == GetNextNodes(n, n.owner, Opposite(d))
    ensures mover != n.owner ==> GetNextNodes(n, mover, Opposite(d)) == n.neighbors[d]
  {
  }

  /** The neighbour lists of the first `k` directions, seen by `who`, concatenated in direction order. */
  function DirectionLists(at: Node, who: int, k: nat): seq<Coord>
    requires at.WellFormed() && k <= 8
  {
    if k == 0 then [] else DirectionLists(at, who, k - 1) + GetNextNodes(at, who, k - 1)
  }

  /** The destinations of a King of player `who` standing on `at`. */
  function KingMoves(at: Node, who: int): seq<Coord>
    requires at.WellFormed()
  {
    DirectionLists(at, who, 8)
  }

  /** Sum of the lengths of the first `k` direction lists seen by `who`. */
  function ListLengths(at: Node, who: int, k: nat): nat
    requires at.WellFormed() && k <= 8
  {
    if k == 0 then 0 else ListLengths(at, who, k - 1) + |GetNextNodes(at, who, k - 1)|
  }

  lemma {:induction false} DirectionListsLength(at: Node, who: int, k: nat)
    requires at.WellFormed() && k <= 8
    ensures |DirectionLists(at, who, k)| == ListLengths(at, who, k)
  {
    if k > 0 {
      DirectionListsLength(at, who, k - 1);
    }
  }

  lemma {:induction false} DirectionListsMembers(at: Node, who: int, k: nat, x: Coord)
    requires at.WellFormed() && k <= 8
    ensures x in DirectionLists(at, who, k) <==> exists d: Dir :: d < k && x in GetNextNodes(at, who, d)
  {
    if k > 0 {
      DirectionListsMembers(at, who, k - 1, x);
    }
  }

  /**
   * A King's destinations: exactly the cells listed in some direction as its
   * owner sees them (occupied or not), and as many entries as those lists hold.
   */
  lemma KingMovesSpec(at: Node, who: int, x: Coord)
    requires at.WellFormed()
    ensures |KingMoves(at, who)| == ListLengths(at, who, 8)
    ensures x in KingMoves(at, who) <==> exists d: Dir :: x in GetNextNodes(at, who, d)
  {
    DirectionListsLength(at, who, 8);
    DirectionListsMembers(at, who, 8, x);
  }

  /**
   * On any cell, a King reaches the same set of cells whoever owns it: the
   * foreign view only renames each direction to its opposite.
   */
  lemma KingMovesOwnerIndependent(at: Node, who: int, x: Coord)
    requires at.WellFormed()
    ensures x in KingMoves(at, who) <==> x in KingMoves(at, at.owner)
  {
    KingMovesSpec(at, who, x);
    KingMovesSpec(at, at.owner, x);
    if who != at.owner {
      if x in KingMoves(at, who) {
        var d: Dir :| x in GetNextNodes(at, who, d);
        assert x in GetNextNodes(at, at.owner, Opposite(d));
      }
      if x in KingMoves(at, at.owner) {
        var d: Dir :| x in GetNextNodes(at, at.owner, d);
        assert x in GetNextNodes(at, who, Opposite(d));
      }
    }
  }

  /** A move: which piece, from which cell, to which cell. */
  datatype Move = Move(piece: Piece, start: Coord, end: Coord)
}
