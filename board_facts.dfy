/**
 * Properties of the board the two-player generator builds: what the seam
 * looks like cell by cell, which links are mutual, and how a piece crossing
 * the seam sees its directions.
 */
module GeneratedBoard {
  import opened Board
  import opened Generation

  /** Gluing touches nothing below the top row: there the board keeps the grid's own links. */
  lemma BelowTopRowUnglued(g: TwoChessGenerator, k: Coord, d: Dir)
    requires k.row != g.rows - 1
    ensures BoardLink(g, k, d) == HalfLink(g, k, d)
  {
  }

  /**
   * The top row of player p's grid, written out: column j faces column 7 - j
   * of the other player, the `ne` diagonal goes to column 6 - j, and the `nw`
   * lists fan out to two entries at column 4, in the order the two glue calls
   * appended them.  Every other direction keeps the grid's
   * own link.
   */
  lemma TopRowLinks(g: TwoChessGenerator, k: Coord, d: Dir)
    requires Buildable(g) && (InHalf(g, 0, k) || InHalf(g, 1, k)) && k.row == g.rows - 1
    ensures var q, j, top := 1 - k.player, k.col, g.rows - 1;
      BoardLink(g, k, d) ==
        if d == N then [Coord(q, 7 - j, top)]
        else if d == NE then (if j <= 6 then [Coord(q, 6 - j, top)] else [])
        else if d == NW then
          var facing := if 4 <= j then [Coord(q, 8 - j, top)] else [];
          var beside := if 2 <= j <= 4 then [Coord(q, 9 - j, top)] else [];
          if k.player == 0 then facing + beside else beside + facing
        else HalfLink(g, k, d)
  {
    var q, j, top := 1 - k.player, k.col, g.rows - 1;
    assert g.cols / 2 == 4;
    assert HalfLink(g, k, N) == [] && HalfLink(g, k, NE) == [] && HalfLink(g, k, NW) == [];
    if k.player == 0 {
      assert SeamLinks(g, 1, 0, k, d) == SeamLink2(g, 1, 0, k, d, 4);
      assert SeamLinks(g, 0, 1, k, d) == SeamLink1(g, 0, 1, k, d, 4);
    } else {
      assert SeamLinks(g, 0, 1, k, d) == SeamLink2(g, 0, 1, k, d, 4);
      assert SeamLinks(g, 1, 0, k, d) == SeamLink1(g, 1, 0, k, d, 4);
    }
  }

  /** After generation every top-row cell has exactly one `n` neighbour, across the seam, and it points back. */
  lemma SeamNorthMutual(g: TwoChessGenerator, k: Coord)
    requires Buildable(g) && (InHalf(g, 0, k) || InHalf(g, 1, k)) && k.row == g.rows - 1
    ensures var t := Coord(1 - k.player, 7 - k.col, g.rows - 1);
      && (InHalf(g, 0, t) || InHalf(g, 1, t))
      && BoardLink(g, k, N) == [t]
      && BoardLink(g, t, N) == [k]
  {
    var t := Coord(1 - k.player, 7 - k.col, g.rows - 1);
    TopRowLinks(g, k, N);
    TopRowLinks(g, t, N);
  }

  /** Seam links in direction `ne` are mutual: the far cell lists this one under `ne` as well. */
  lemma SeamNorthEastMutual(g: TwoChessGenerator, k: Coord, t: Coord)
    requires Buildable(g) && (InHalf(g, 0, k) || InHalf(g, 1, k))
    requires t in BoardLink(g, k, NE) && t.player != k.player
    ensures k in BoardLink(g, t, NE)
  {
    if k.row == g.rows - 1 {
      TopRowLinks(g, k, NE);
      TopRowLinks(g, t, NE);
    } else {
      BelowTopRowUnglued(g, k, NE);
    }
  }

  /**
   * Inside one player's grid every link of the standard four-row board is
   * matched by a link back along the opposite direction.
   */
  lemma GridLinksMutual(g: TwoChessGenerator, k: Coord, t: Coord, d: Dir)
    requires g == Standard && (InHalf(g, 0, k) || InHalf(g, 1, k))
    requires t in BoardLink(g, k, d) && t.player == k.player
    ensures k in BoardLink(g, t, Opposite(d))
  {
    assert t in HalfLink(g, k, d) by {
      if k.row == g.rows - 1 {
        TopRowLinks(g, k, d);
      }
    }
    HalfLinksMutual(g, k, t, d);
  }

  /** The seam fan: cell 4 of each top row has two `nw` neighbours. */
  lemma SeamFan(g: TwoChessGenerator)
    requires Buildable(g)
    ensures var top := g.rows - 1;
      && BoardLink(g, Coord(0, 4, top), NW) == [Coord(1, 4, top), Coord(1, 5, top)]
      && BoardLink(g, Coord(1, 4, top), NW) == [Coord(0, 5, top), Coord(0, 4, top)]
  {
    TopRowLinks(g, Coord(0, 4, g.rows - 1), NW);
    TopRowLinks(g, Coord(1, 4, g.rows - 1), NW);
  }

  /**
   * Seam links in direction `nw` are not all mutual: cell (1, 4) of the top
   * row lists (0, 5) under `nw`, but (0, 5) does not list (1, 4) in any of
   * its neighbour lists.
   */
  lemma SeamNorthWestNotMutual(g: TwoChessGenerator)
    requires Buildable(g)
    ensures var top := g.rows - 1;
      && Coord(0, 5, top) in BoardLink(g, Coord(1, 4, top), NW)
      && forall d: Dir :: Coord(1, 4, top) !in BoardLink(g, Coord(0, 5, top), d)
  {
    var top := g.rows - 1;
    TopRowLinks(g, Coord(1, 4, top), NW);
    forall d: Dir ensures Coord(1, 4, top) !in BoardLink(g, Coord(0, 5, top), d) {
      TopRowLinks(g, Coord(0, 5, top), d);
    }
  }

  /** Every cell of the generated board has a neighbour: along its row at least. */
  lemma NoIsolatedCell(g: TwoChessGenerator, k: Coord)
    requires Buildable(g) && (InHalf(g, 0, k) || InHalf(g, 1, k))
    ensures BoardLink(g, k, E) != [] || BoardLink(g, k, W) != []
  {
  }

  /**
   * Direction relativity across the seam: a piece of player p that steps
   * `n` off its top row lands on the other player's cell, and from there its
   * own `s` leads straight back.
   */
  lemma SeamRoundTrip(g: TwoChessGenerator, nodes: map<Coord, Node>, k: Coord)
    requires Buildable(g) && IsBoard(g, nodes) && k in nodes && k.row == g.rows - 1
    ensures var t := Coord(1 - k.player, 7 - k.col, g.rows - 1);
      && t in nodes
      && GetNextNodes(nodes[k], k.player, N) == [t]
      && GetNextNodes(nodes[t], k.player, S) == [k]
  {
    SeamNorthMutual(g, k);
  }
}
