/**
 * The two-player board generator: one 4 x 8 grid per player, intra-grid
 * compass links, the seams that glue the far rows of the two grids, and the
 * merge of both grids into one arena.
 */
module Generation {
  import opened Wrappers
  import opened Board

  /** Board dimensions of the generator: rows and columns of each player's grid. */
  datatype TwoChessGenerator = TwoChessGenerator(rows: nat, cols: nat)

  /** The generator as the engine builds it by default. */
  const Standard := TwoChessGenerator(4, 8)

  /** `k` is a cell of player `p`'s grid. */
  predicate InHalf(g: TwoChessGenerator, p: int, k: Coord) {
    k.player == p && 0 <= k.col < g.cols && 0 <= k.row < g.rows
  }

  /**
   * The link a fresh grid stores in direction `d` of cell `k`.  The `ne`
   * link is bounded by the literal row 3, not by the grid's top row.
   */
  function HalfLink(g: TwoChessGenerator, k: Coord, d: Dir): seq<Coord> {
    var p, c, r := k.player, k.col, k.row;
    match d
    case 0 => if c < g.cols - 1 then [Coord(p, c + 1, r)] else []
    case 1 => if c < g.cols - 1 && r < 3 then [Coord(p, c + 1, r + 1)] else []
    case 2 => if r < g.rows - 1 then [Coord(p, c, r + 1)] else []
    case 3 => if c > 0 && r < g.rows - 1 then [Coord(p, c - 1, r + 1)] else []
    case 4 => if c > 0 then [Coord(p, c - 1, r)] else []
    case 5 => if c > 0 && r > 0 then [Coord(p, c - 1, r - 1)] else []
    case 6 => if r > 0 then [Coord(p, c, r - 1)] else []
    case 7 => if c < g.cols - 1 && r > 0 then [Coord(p, c + 1, r - 1)] else []
  }

  /** Column and row steps of each direction: the compass read off the grid. */
  function ColStep(d: Dir): int {
    [1, 1, 0, -1, -1, -1, 0, 1][d]
  }

  function RowStep(d: Dir): int {
    [0, 1, 1, 1, 0, -1, -1, -1][d]
  }

  function Step(k: Coord, d: Dir): Coord {
    Coord(k.player, k.col + ColStep(d), k.row + RowStep(d))
  }

  /** `m` is player `p`'s freshly linked grid. */
  ghost predicate IsHalfBoard(g: TwoChessGenerator, p: int, m: map<Coord, Node>) {
    && (forall k :: k in m <==> InHalf(g, p, k))
    && forall k | k in m ::
         && m[k].id == k && m[k].owner == p && m[k].WellFormed()
         && forall d: Dir :: m[k].neighbors[d] == HalfLink(g, k, d)
  }

  /** Dimensions the generator accepts: 8 columns and at least 4 rows. */
  predicate Buildable(g: TwoChessGenerator) {
    g.cols == 8 && g.rows >= 4
  }

  /** Which exception generate_halfboard raises for dimensions it cannot build. */
  function HalfboardFailure(g: TwoChessGenerator): Failure {
    if g.cols >= 2 && 1 <= g.rows < 4 then KeyError
    else if g.cols != 8 then NotImplemented
    else KeyError
  }

  /** A grid of fresh, unlinked nodes for every cell of player `p`'s grid. */
  method NewGrid(g: TwoChessGenerator, p: int) returns (nodes: map<Coord, Node>)
    ensures forall k :: k in nodes <==> InHalf(g, p, k)
    ensures forall k | k in nodes :: nodes[k] == NewNode(p, k)
  {
    nodes := map[];
    for r := 0 to g.rows
      invariant forall k :: k in nodes <==> InHalf(g, p, k) && k.row < r
      invariant forall k | k in nodes :: nodes[k] == NewNode(p, k)
    {
      for c := 0 to g.cols
        invariant forall k :: k in nodes <==> InHalf(g, p, k) && (k.row < r || (k.row == r && k.col < c))
        invariant forall k | k in nodes :: nodes[k] == NewNode(p, k)
      {
        nodes := nodes[Coord(p, c, r) := NewNode(p, Coord(p, c, r))];
      }
    }
  }

  /**
   * The neighbour lists of cell `k` once its links are wired, starting from
   * the empty lists `nb`.  The `ne` target is looked up in `nodes` and a
   * missing target raises KeyError.
   */
  method LinkCell(g: TwoChessGenerator, nodes: map<Coord, Node>, k: Coord, nb: seq<seq<Coord>>) returns (r: Result<seq<seq<Coord>>>)
    requires forall j :: j in nodes <==> InHalf(g, k.player, j)
    requires InHalf(g, k.player, k)
    requires |nb| == 8 && forall d: Dir :: nb[d] == []
    ensures r.Err? <==> k.col < g.cols - 1 && k.row < 3 && Coord(k.player, k.col + 1, k.row + 1) !in nodes
    ensures r.Err? ==> r.error == KeyError
    ensures r.Ok? ==> |r.value| == 8 && forall d: Dir :: r.value[d] == HalfLink(g, k, d)
  {
    var p, c, row := k.player, k.col, k.row;
    var links := nb;
    if c < g.cols - 1 {
      links := links[E := [Coord(p, c + 1, row)]];
      if row > 0 {
        links := links[SE := [Coord(p, c + 1, row - 1)]];
      }
      if row < 3 {
        if Coord(p, c + 1, row + 1) !in nodes {
          return Err(KeyError);
        }
        links := links[NE := [Coord(p, c + 1, row + 1)]];
      }
    }
    if c > 0 {
      links := links[W := [Coord(p, c - 1, row)]];
      if row > 0 {
        links := links[SW := [Coord(p, c - 1, row - 1)]];
      }
      if row < g.rows - 1 {
        links := links[NW := [Coord(p, c - 1, row + 1)]];
      }
    }
    if row > 0 {
      links := links[S := [Coord(p, c, row - 1)]];
    }
    if row < g.rows - 1 {
      links := links[N := [Coord(p, c, row + 1)]];
    }
    return Ok(links);
  }

  /** Player `p`'s grid with the cells before (c, r), column by column, wired and the others still fresh. */
  ghost predicate GridState(g: TwoChessGenerator, p: int, nodes: map<Coord, Node>, c: int, r: int) {
    && (forall k :: k in nodes <==> InHalf(g, p, k))
    && forall k | k in nodes ::
         && nodes[k].id == k && nodes[k].owner == p && nodes[k].piece == null && nodes[k].WellFormed()
         && forall d: Dir :: nodes[k].neighbors[d] == if k.col < c || (k.col == c && k.row < r) then HalfLink(g, k, d) else []
  }

  lemma GridStart(g: TwoChessGenerator, p: int, nodes: map<Coord, Node>)
    requires forall k :: k in nodes <==> InHalf(g, p, k)
    requires forall k | k in nodes :: nodes[k] == NewNode(p, k)
    ensures GridState(g, p, nodes, 0, 0)
  {
  }

  /** Wiring cell (c, r) with its grid links moves the frontier one cell on. */
  lemma GridStep(g: TwoChessGenerator, p: int, nodes: map<Coord, Node>, c: int, r: int, links: seq<seq<Coord>>)
    requires GridState(g, p, nodes, c, r) && 0 <= c < g.cols && 0 <= r < g.rows
    requires |links| == 8 && forall d: Dir :: links[d] == HalfLink(g, Coord(p, c, r), d)
    ensures var k := Coord(p, c, r); k in nodes && GridState(g, p, nodes[k := nodes[k].(neighbors := links)], c, r + 1)
  {
    var k := Coord(p, c, r);
    assert InHalf(g, p, k);
    var next := nodes[k := nodes[k].(neighbors := links)];
    forall j | j in next
      ensures forall d: Dir :: next[j].neighbors[d] == if j.col < c || (j.col == c && j.row < r + 1) then HalfLink(g, j, d) else []
    {
      if j == k {
      } else {
        assert next[j] == nodes[j];
      }
    }
  }

  /** A column fully wired is the same state as the next column not yet started. */
  lemma GridNextColumn(g: TwoChessGenerator, p: int, nodes: map<Coord, Node>, c: int)
    requires GridState(g, p, nodes, c, g.rows)
    ensures GridState(g, p, nodes, c + 1, 0)
  {
    forall k | k in nodes ensures k.row < g.rows {
      assert InHalf(g, p, k);
    }
  }

  /** Once every column is wired the grid is a fresh half-board. */
  lemma GridDone(g: TwoChessGenerator, p: int, nodes: map<Coord, Node>)
    requires GridState(g, p, nodes, g.cols, 0)
    ensures IsHalfBoard(g, p, nodes)
    ensures forall k | k in nodes :: nodes[k].piece == null
  {
    forall k | k in nodes ensures k.col < g.cols {
      assert InHalf(g, p, k);
    }
  }

  /**
   * The second loop of generate_halfboard: wires every cell of the fresh grid,
   * column by column.  The hard-coded `ne` bound makes it raise KeyError
   * exactly when the grid has at least 2 columns and 1 to 3 rows.
   */
  method LinkGrid(g: TwoChessGenerator, p: int, grid: map<Coord, Node>) returns (r: Result<map<Coord, Node>>)
    requires forall k :: k in grid <==> InHalf(g, p, k)
    requires forall k | k in grid :: grid[k] == NewNode(p, k)
    ensures r.Err? <==> g.cols >= 2 && 1 <= g.rows < 4
    ensures r.Err? ==> r.error == KeyError
    ensures r.Ok? ==> IsHalfBoard(g, p, r.value) && forall k | k in r.value :: r.value[k].piece == null
  {
    var nodes := grid;
    GridStart(g, p, nodes);
    for c := 0 to g.cols
      invariant GridState(g, p, nodes, c, 0)
      invariant 0 < c && 2 <= g.cols ==> g.rows == 0 || 4 <= g.rows
    {
      for r := 0 to g.rows
        invariant GridState(g, p, nodes, c, r)
        invariant c < g.cols - 1 && 0 < r && r - 1 < 3 ==> r < g.rows
      {
        var k := Coord(p, c, r);
        var linked := LinkCell(g, nodes, k, nodes[k].neighbors);
        if linked.Err? {
          assert !InHalf(g, p, Coord(p, c + 1, r + 1));
          return Err(KeyError);
        }
        GridStep(g, p, nodes, c, r, linked.value);
        nodes := nodes[k := nodes[k].(neighbors := linked.value)];
      }
      GridNextColumn(g, p, nodes, c);
    }
    GridDone(g, p, nodes);
    return Ok(nodes);
  }

  /**
   * Builds player `p`'s grid: one node per cell, the compass links inside the
   * grid, and the player's King on column 4 of row 0.  It fails unless the
   * grid is 8 columns wide and, because of the hard-coded `ne` bound, at
   * least 4 rows high.
   */
  method GenerateHalfboard(g: TwoChessGenerator, p: int) returns (r: Result<(map<Coord, Node>, seq<Piece>, Player)>)
    ensures r.Ok? <==> Buildable(g)
    ensures r.Err? ==> r.error == HalfboardFailure(g)
    ensures r.Ok? ==> |r.value.1| == 1 && fresh(r.value.1[0])
    ensures r.Ok? ==>
      var (nodes, pieces, player) := r.value;
      && player == Player(p)
      && |pieces| == 1 && pieces[0].kind == King && pieces[0].owner == p
      && pieces[0].position == Coord(p, 4, 0)
      && IsHalfBoard(g, p, nodes)
      && forall k | k in nodes :: nodes[k].piece == if k == Coord(p, 4, 0) then pieces[0] else null
  {
    var grid := NewGrid(g, p);
    var linked := LinkGrid(g, p, grid);
    if linked.Err? {
      return Err(linked.error);
    }
    var nodes := linked.value;
    if g.cols != 8 {
      return Err(NotImplemented);
    }
    var home := Coord(p, 4, 0);
    if home !in nodes {
      return Err(KeyError);
    }
    var king := new Piece(King, p, home);
    PlaceKing(g, p, nodes, king);
    nodes := nodes[home := nodes[home].(piece := king)];
    return Ok((nodes, [king], Player(p)));
  }

  /** Setting the King on (p, 4, 0) keeps the grid and leaves every other cell empty. */
  lemma PlaceKing(g: TwoChessGenerator, p: int, nodes: map<Coord, Node>, king: Piece)
    requires IsHalfBoard(g, p, nodes) && Coord(p, 4, 0) in nodes
    requires forall k | k in nodes :: nodes[k].piece == null
    ensures var home := Coord(p, 4, 0); var placed := nodes[home := nodes[home].(piece := king)];
      && IsHalfBoard(g, p, placed)
      && forall k | k in placed :: placed[k].piece == if k == home then king else null
  {
  }

  /** Links of a fresh grid hold at most one cell. */
  lemma HalfLinkAtMostOne(g: TwoChessGenerator, k: Coord, d: Dir)
    ensures |HalfLink(g, k, d)| <= 1
  {
  }

  /**
   * On the standard four-row grid a cell links in direction `d` exactly to
   * the cell one compass step away, when that cell is on the grid.  On taller
   * grids this still holds for every direction but `ne`.
   */
  lemma HalfLinkIsCompassStep(g: TwoChessGenerator, k: Coord, d: Dir)
    requires InHalf(g, k.player, k) && g.rows >= 4
    requires d != NE || g.rows == 4
    ensures HalfLink(g, k, d) == if InHalf(g, k.player, Step(k, d)) then [Step(k, d)] else []
  {
  }

  /** On the four-row grid every link is matched by one back along the opposite direction. */
  lemma HalfLinksMutual(g: TwoChessGenerator, k: Coord, t: Coord, d: Dir)
    requires g.rows == 4 && InHalf(g, k.player, k) && t in HalfLink(g, k, d)
    ensures InHalf(g, k.player, t) && k in HalfLink(g, t, Opposite(d))
  {
    HalfLinkIsCompassStep(g, k, d);
    HalfLinkIsCompassStep(g, t, Opposite(d));
  }

  /**
   * The hard-coded `ne` bound: on a five-row grid cell (p, 0, 3) has no `ne`
   * link although (p, 1, 4) is on the grid and links back to it by `sw`.
   */
  lemma TallGridMissesNorthEast(p: int)
    ensures var g := TwoChessGenerator(5, 8);
      && InHalf(g, p, Coord(p, 1, 4))
      && HalfLink(g, Coord(p, 0, 3), NE) == []
      && HalfLink(g, Coord(p, 1, 4), SW) == [Coord(p, 0, 3)]
  {
  }

  /* ---------------------------------------------------------------------
   * Seams.  glue_halfboards runs an offset c over 0 .. cols/2 - 1 and links
   * cell 4 + c of board1's top row to cell 3 - c of board2's top row, with
   * diagonal links to the neighbouring offsets.  Each (cell, direction) pair
   * receives at most one entry per call, so the entries a call appends can
   * be described cell by cell.
   * --------------------------------------------------------------------- */

  /** What offset `c` appends to list `d` of board1's cell h + c. */
  function SeamEntry1(g: TwoChessGenerator, p2: int, c: int, d: Dir): seq<Coord> {
    var h, top := g.cols / 2, g.rows - 1;
    if d == N then [Coord(p2, h - c - 1, top)]
    else if d == NW then [Coord(p2, h - c, top)]
    else if d == NE && c < h - 1 then [Coord(p2, h - c - 2, top)]
    else []
  }

  /** What offset `c` appends to list `d` of board2's cell h - c - 1. */
  function SeamEntryFacing(g: TwoChessGenerator, p1: int, c: int, d: Dir): seq<Coord> {
    var h, top := g.cols / 2, g.rows - 1;
    if d == N then [Coord(p1, c + h, top)]
    else if d == NE then [Coord(p1, c + h - 1, top)]
    else []
  }

  /** What offset `c` appends to list `d` of board2's cell h - c. */
  function SeamEntryBeside(g: TwoChessGenerator, p1: int, c: int, d: Dir): seq<Coord> {
    var h, top := g.cols / 2, g.rows - 1;
    if d == NW && c < h - 1 then [Coord(p1, c + h + 1, top)] else []
  }

  /** Everything offsets 0 .. done - 1 append to list `d` of board1's cell `k`. */
  function SeamLink1(g: TwoChessGenerator, p1: int, p2: int, k: Coord, d: Dir, done: int): seq<Coord> {
    var h, top := g.cols / 2, g.rows - 1;
    if k.player == p1 && k.row == top && 0 <= k.col - h < done then SeamEntry1(g, p2, k.col - h, d) else []
  }

  /** Everything offsets 0 .. done - 1 append to list `d` of board2's cell `k`. */
  function SeamLink2(g: TwoChessGenerator, p1: int, p2: int, k: Coord, d: Dir, done: int): seq<Coord> {
    var h, top := g.cols / 2, g.rows - 1;
    if k.player != p2 || k.row != top then []
    else
      (if 0 <= h - 1 - k.col < done then SeamEntryFacing(g, p1, h - 1 - k.col, d) else [])
      + (if 0 <= h - k.col < done then SeamEntryBeside(g, p1, h - k.col, d) else [])
  }

  /** Node `after` is node `before` with SeamLink1's entries appended to its lists. */
  predicate NodeExtended1(g: TwoChessGenerator, p1: int, p2: int, k: Coord, before: Node, after: Node, done: int) {
    && after.id == before.id && after.owner == before.owner && after.piece == before.piece
    && before.WellFormed() && after.WellFormed()
    && forall d: Dir :: after.neighbors[d] == before.neighbors[d] + SeamLink1(g, p1, p2, k, d, done)
  }

  /** Node `after` is node `before` with SeamLink2's entries appended to its lists. */
  predicate NodeExtended2(g: TwoChessGenerator, p1: int, p2: int, k: Coord, before: Node, after: Node, done: int) {
    && after.id == before.id && after.owner == before.owner && after.piece == before.piece
    && before.WellFormed() && after.WellFormed()
    && forall d: Dir :: after.neighbors[d] == before.neighbors[d] + SeamLink2(g, p1, p2, k, d, done)
  }

  /** Board1 after the first `done` offsets: only appended lists, the same cells. */
  predicate Extended1(g: TwoChessGenerator, p1: int, p2: int, before: map<Coord, Node>, after: map<Coord, Node>, done: int) {
    && after.Keys == before.Keys
    && forall k | k in before :: NodeExtended1(g, p1, p2, k, before[k], after[k], done)
  }

  /** Board2 after the first `done` offsets: only appended lists, the same cells. */
  predicate Extended2(g: TwoChessGenerator, p1: int, p2: int, before: map<Coord, Node>, after: map<Coord, Node>, done: int) {
    && after.Keys == before.Keys
    && forall k | k in before :: NodeExtended2(g, p1, p2, k, before[k], after[k], done)
  }

  /** Every cell of player `p`'s top row is a key of `m`. */
  ghost predicate HasTopRow(g: TwoChessGenerator, p: int, m: map<Coord, Node>) {
    forall k: Coord :: k.player == p && k.row == g.rows - 1 && 0 <= k.col < g.cols ==> k in m
  }

  /** Board1's cell h + c after offset `c`: `n` and `nw` gain one entry each, `ne` one except at the outermost offset. */
  function SeamCell1(g: TwoChessGenerator, p2: int, n: Node, c: int): (r: Node)
    requires n.WellFormed()
    ensures r.id == n.id && r.owner == n.owner && r.piece == n.piece && r.WellFormed()
    ensures forall d: Dir :: r.neighbors[d] == n.neighbors[d] + SeamEntry1(g, p2, c, d)
  {
    n.(neighbors := seq(8, d requires 0 <= d < 8 => n.neighbors[d] + SeamEntry1(g, p2, c, d)))
  }

  /** Board2's cell h - c - 1 after offset `c`: `n` and `ne` gain one entry each. */
  function SeamCellFacing(g: TwoChessGenerator, p1: int, n: Node, c: int): (r: Node)
    requires n.WellFormed()
    ensures r.id == n.id && r.owner == n.owner && r.piece == n.piece && r.WellFormed()
    ensures forall d: Dir :: r.neighbors[d] == n.neighbors[d] + SeamEntryFacing(g, p1, c, d)
  {
    n.(neighbors := seq(8, d requires 0 <= d < 8 => n.neighbors[d] + SeamEntryFacing(g, p1, c, d)))
  }

  /** Board2's cell h - c after offset `c`: `nw` gains one entry, except at the outermost offset. */
  function SeamCellBeside(g: TwoChessGenerator, p1: int, n: Node, c: int): (r: Node)
    requires n.WellFormed()
    ensures r.id == n.id && r.owner == n.owner && r.piece == n.piece && r.WellFormed()
    ensures forall d: Dir :: r.neighbors[d] == n.neighbors[d] + SeamEntryBeside(g, p1, c, d)
  {
    n.(neighbors := seq(8, d requires 0 <= d < 8 => n.neighbors[d] + SeamEntryBeside(g, p1, c, d)))
  }

  /** Board1 after offset `c`: only cell h + c of the top row changes. */
  function SeamStep1(g: TwoChessGenerator, p1: int, p2: int, m: map<Coord, Node>, c: nat): map<Coord, Node>
    requires c < g.cols / 2 && HasTopRow(g, p1, m)
    requires forall k | k in m :: m[k].WellFormed()
  {
    var a := Coord(p1, c + g.cols / 2, g.rows - 1);
    m[a := SeamCell1(g, p2, m[a], c)]
  }

  /** Board2 after offset `c`: only cells h - c - 1 and h - c of the top row change. */
  function SeamStep2(g: TwoChessGenerator, p1: int, p2: int, m: map<Coord, Node>, c: nat): map<Coord, Node>
    requires c < g.cols / 2 && HasTopRow(g, p2, m)
    requires forall k | k in m :: m[k].WellFormed()
  {
    var h, top := g.cols / 2, g.rows - 1;
    var b, b' := Coord(p2, h - c - 1, top), Coord(p2, h - c, top);
    var m1 := m[b := SeamCellFacing(g, p1, m[b], c)];
    m1[b' := SeamCellBeside(g, p1, m1[b'], c)]
  }

  /** Offset `c` adds to SeamLink1 only on board1's cell h + c. */
  lemma SeamLink1Step(g: TwoChessGenerator, p1: int, p2: int, k: Coord, d: Dir, c: nat)
    requires c < g.cols / 2
    ensures SeamLink1(g, p1, p2, k, d, c + 1) == SeamLink1(g, p1, p2, k, d, c)
      + (if k == Coord(p1, c + g.cols / 2, g.rows - 1) then SeamEntry1(g, p2, c, d) else [])
  {
  }

  /** Offset `c` adds to SeamLink2 only on the two board2 cells it touches. */
  lemma SeamLink2Step(g: TwoChessGenerator, p1: int, p2: int, k: Coord, d: Dir, c: nat)
    requires c < g.cols / 2
    ensures var h, top := g.cols / 2, g.rows - 1;
      SeamLink2(g, p1, p2, k, d, c + 1) == SeamLink2(g, p1, p2, k, d, c)
        + (if k == Coord(p2, h - c - 1, top) then SeamEntryFacing(g, p1, c, d)
           else if k == Coord(p2, h - c, top) then SeamEntryBeside(g, p1, c, d) else [])
  {
    var h, top := g.cols / 2, g.rows - 1;
    if k.player == p2 && k.row == top && k.col == h - c - 1 {
      assert SeamEntryBeside(g, p1, h - k.col, d) == [] || h - k.col >= c + 1;
    }
  }

  /** One board1 cell after offset `c`: the entries of offsets 0 .. c are on its lists. */
  lemma SeamStep1Node(g: TwoChessGenerator, p1: int, p2: int, before: Node, m: map<Coord, Node>, c: nat, k: Coord)
    requires c < g.cols / 2 && HasTopRow(g, p1, m)
    requires forall j | j in m :: m[j].WellFormed()
    requires k in m && NodeExtended1(g, p1, p2, k, before, m[k], c)
    ensures NodeExtended1(g, p1, p2, k, before, SeamStep1(g, p1, p2, m, c)[k], c + 1)
  {
    var next := SeamStep1(g, p1, p2, m, c);
    forall d: Dir ensures next[k].neighbors[d] == before.neighbors[d] + SeamLink1(g, p1, p2, k, d, c + 1) {
      SeamLink1Step(g, p1, p2, k, d, c);
    }
  }

  /** One board2 cell after offset `c`: the entries of offsets 0 .. c are on its lists. */
  lemma SeamStep2Node(g: TwoChessGenerator, p1: int, p2: int, before: Node, m: map<Coord, Node>, c: nat, k: Coord)
    requires c < g.cols / 2 && HasTopRow(g, p2, m)
    requires forall j | j in m :: m[j].WellFormed()
    requires k in m && NodeExtended2(g, p1, p2, k, before, m[k], c)
    ensures NodeExtended2(g, p1, p2, k, before, SeamStep2(g, p1, p2, m, c)[k], c + 1)
  {
    var next := SeamStep2(g, p1, p2, m, c);
    forall d: Dir ensures next[k].neighbors[d] == before.neighbors[d] + SeamLink2(g, p1, p2, k, d, c + 1) {
      SeamLink2Step(g, p1, p2, k, d, c);
    }
  }

  lemma SeamStep1Extends(g: TwoChessGenerator, p1: int, p2: int, before: map<Coord, Node>, m: map<Coord, Node>, c: nat)
    requires c < g.cols / 2 && HasTopRow(g, p1, before)
    requires Extended1(g, p1, p2, before, m, c)
    ensures HasTopRow(g, p1, m) && forall k | k in m :: m[k].WellFormed()
    ensures Extended1(g, p1, p2, before, SeamStep1(g, p1, p2, m, c), c + 1)
  {
    forall k | k in m ensures m[k].WellFormed() {
      assert NodeExtended1(g, p1, p2, k, before[k], m[k], c);
    }
    forall k | k in before
      ensures NodeExtended1(g, p1, p2, k, before[k], SeamStep1(g, p1, p2, m, c)[k], c + 1)
    {
      SeamStep1Node(g, p1, p2, before[k], m, c, k);
    }
  }

  lemma SeamStep2Extends(g: TwoChessGenerator, p1: int, p2: int, before: map<Coord, Node>, m: map<Coord, Node>, c: nat)
    requires c < g.cols / 2 && HasTopRow(g, p2, before)
    requires Extended2(g, p1, p2, before, m, c)
    ensures HasTopRow(g, p2, m) && forall k | k in m :: m[k].WellFormed()
    ensures Extended2(g, p1, p2, before, SeamStep2(g, p1, p2, m, c), c + 1)
  {
    forall k | k in m ensures m[k].WellFormed() {
      assert NodeExtended2(g, p1, p2, k, before[k], m[k], c);
    }
    forall k | k in before
      ensures NodeExtended2(g, p1, p2, k, before[k], SeamStep2(g, p1, p2, m, c)[k], c + 1)
    {
      SeamStep2Node(g, p1, p2, before[k], m, c, k);
    }
  }

  /**
   * Glues the right half of board1's top row to the left half of board2's
   * top row, in reverse column order, appending to the neighbour lists of
   * both.  Nothing but the top rows' lists changes, and no existing entry.
   */
  method GlueHalfboards(g: TwoChessGenerator, board1: map<Coord, Node>, p1: int, board2: map<Coord, Node>, p2: int)
    returns (glued1: map<Coord, Node>, glued2: map<Coord, Node>)
    requires HasTopRow(g, p1, board1) && HasTopRow(g, p2, board2)
    requires forall k | k in board1 :: board1[k].WellFormed()
    requires forall k | k in board2 :: board2[k].WellFormed()
    ensures Extended1(g, p1, p2, board1, glued1, g.cols / 2)
    ensures Extended2(g, p1, p2, board2, glued2, g.cols / 2)
  {
    glued1, glued2 := board1, board2;
    for c := 0 to g.cols / 2
      invariant Extended1(g, p1, p2, board1, glued1, c)
      invariant Extended2(g, p1, p2, board2, glued2, c)
    {
      SeamStep1Extends(g, p1, p2, board1, glued1, c);
      SeamStep2Extends(g, p1, p2, board2, glued2, c);
      glued1 := SeamStep1(g, p1, p2, glued1, c);
      glued2 := SeamStep2(g, p1, p2, glued2, c);
    }
  }

  /**
   * Merges two dictionaries into a fresh one: every entry of `dict1`, then
   * every entry of `dict2`, so that `dict2` wins on a shared key.
   */
  method JoinDicts<K, V>(dict1: map<K, V>, dict2: map<K, V>) returns (r: map<K, V>)
    ensures r.Keys == dict1.Keys + dict2.Keys
    ensures forall k | k in r :: r[k] == if k in dict2 then dict2[k] else dict1[k]
  {
    r := map[];
    var todo := dict1.Keys;
    while todo != {}
      invariant todo <= dict1.Keys
      invariant r.Keys == dict1.Keys - todo
      invariant forall k | k in r :: r[k] == dict1[k]
      decreases todo
    {
      var k :| k in todo;
      r := r[k := dict1[k]];
      todo := todo - {k};
    }
    todo := dict2.Keys;
    while todo != {}
      invariant todo <= dict2.Keys
      invariant r.Keys == dict1.Keys + (dict2.Keys - todo)
      invariant forall k | k in r :: r[k] == if k in dict2 && k !in todo then dict2[k] else dict1[k]
      decreases todo
    {
      var k :| k in todo;
      r := r[k := dict2[k]];
      todo := todo - {k};
    }
  }

  /** Everything glue_halfboards(board of p1, p1, board of p2, p2) appends to cell `k`'s list `d`, on whichever board `k` lies. */
  function SeamLinks(g: TwoChessGenerator, p1: int, p2: int, k: Coord, d: Dir): seq<Coord> {
    SeamLink1(g, p1, p2, k, d, g.cols / 2) + SeamLink2(g, p1, p2, k, d, g.cols / 2)
  }

  /** List `d` of cell `k` on the generated board: the grid link, then what each of the two glue calls appended. */
  function BoardLink(g: TwoChessGenerator, k: Coord, d: Dir): seq<Coord> {
    HalfLink(g, k, d) + SeamLinks(g, 0, 1, k, d) + SeamLinks(g, 1, 0, k, d)
  }

  /** `nodes` is the glued two-player board of generator `g`. */
  ghost predicate IsBoard(g: TwoChessGenerator, nodes: map<Coord, Node>) {
    && (forall k :: k in nodes <==> InHalf(g, 0, k) || InHalf(g, 1, k))
    && forall k | k in nodes ::
         && nodes[k].id == k && nodes[k].owner == k.player && nodes[k].WellFormed()
         && forall d: Dir :: nodes[k].neighbors[d] == BoardLink(g, k, d)
  }

  /** One cell of player 0 after both glue calls carries its BoardLink lists. */
  lemma GluedCell0(g: TwoChessGenerator, k: Coord, grid: Node, mid: Node, end: Node)
    requires k.player == 0 && grid.WellFormed() && forall d: Dir :: grid.neighbors[d] == HalfLink(g, k, d)
    requires NodeExtended1(g, 0, 1, k, grid, mid, g.cols / 2)
    requires NodeExtended2(g, 1, 0, k, mid, end, g.cols / 2)
    ensures end.id == grid.id && end.owner == grid.owner && end.piece == grid.piece && end.WellFormed()
    ensures forall d: Dir :: end.neighbors[d] == BoardLink(g, k, d)
  {
    forall d: Dir ensures end.neighbors[d] == BoardLink(g, k, d) {
      var own, other := SeamLink1(g, 0, 1, k, d, g.cols / 2), SeamLink2(g, 1, 0, k, d, g.cols / 2);
      assert SeamLink2(g, 0, 1, k, d, g.cols / 2) == [] && SeamLink1(g, 1, 0, k, d, g.cols / 2) == [];
      assert SeamLinks(g, 0, 1, k, d) == own + [] == own;
      assert SeamLinks(g, 1, 0, k, d) == [] + other == other;
    }
  }

  /** One cell of player 1 after both glue calls carries its BoardLink lists. */
  lemma GluedCell1(g: TwoChessGenerator, k: Coord, grid: Node, mid: Node, end: Node)
    requires k.player == 1 && grid.WellFormed() && forall d: Dir :: grid.neighbors[d] == HalfLink(g, k, d)
    requires NodeExtended2(g, 0, 1, k, grid, mid, g.cols / 2)
    requires NodeExtended1(g, 1, 0, k, mid, end, g.cols / 2)
    ensures end.id == grid.id && end.owner == grid.owner && end.piece == grid.piece && end.WellFormed()
    ensures forall d: Dir :: end.neighbors[d] == BoardLink(g, k, d)
  {
    forall d: Dir ensures end.neighbors[d] == BoardLink(g, k, d) {
      var own, other := SeamLink2(g, 0, 1, k, d, g.cols / 2), SeamLink1(g, 1, 0, k, d, g.cols / 2);
      assert SeamLink1(g, 0, 1, k, d, g.cols / 2) == [] && SeamLink2(g, 1, 0, k, d, g.cols / 2) == [];
      assert SeamLinks(g, 0, 1, k, d) == [] + own == own;
      assert SeamLinks(g, 1, 0, k, d) == other + [] == other;
    }
  }

  /** A fresh half-board has its whole top row and well-formed nodes, as gluing needs. */
  lemma HalfBoardGluable(g: TwoChessGenerator, p: int, m: map<Coord, Node>)
    requires IsHalfBoard(g, p, m) && g.rows >= 1
    ensures HasTopRow(g, p, m) && forall k | k in m :: m[k].WellFormed()
  {
    forall k: Coord | k.player == p && k.row == g.rows - 1 && 0 <= k.col < g.cols ensures k in m {
      assert InHalf(g, p, k);
    }
  }

  /** Boards glued once can be glued again from the other side. */
  lemma ExtendedGluable(g: TwoChessGenerator, p1: int, p2: int, before1: map<Coord, Node>, after1: map<Coord, Node>,
                        before2: map<Coord, Node>, after2: map<Coord, Node>)
    requires HasTopRow(g, p1, before1) && HasTopRow(g, p2, before2)
    requires Extended1(g, p1, p2, before1, after1, g.cols / 2) && Extended2(g, p1, p2, before2, after2, g.cols / 2)
    ensures HasTopRow(g, p1, after1) && forall k | k in after1 :: after1[k].WellFormed()
    ensures HasTopRow(g, p2, after2) && forall k | k in after2 :: after2[k].WellFormed()
  {
    forall k | k in after1 ensures after1[k].WellFormed() {
      assert NodeExtended1(g, p1, p2, k, before1[k], after1[k], g.cols / 2);
    }
    forall k | k in after2 ensures after2[k].WellFormed() {
      assert NodeExtended2(g, p1, p2, k, before2[k], after2[k], g.cols / 2);
    }
  }

  /** Each grid's King stays the only occupant it had. */
  lemma KingsPlaced(fresh0: map<Coord, Node>, fresh1: map<Coord, Node>, nodes: map<Coord, Node>, king0: Piece, king1: Piece)
    requires forall k | k in fresh0 :: fresh0[k].piece == if k == Coord(0, 4, 0) then king0 else null
    requires forall k | k in fresh1 :: fresh1[k].piece == if k == Coord(1, 4, 0) then king1 else null
    requires forall k | k in nodes :: k.player in {0, 1} && k in (if k.player == 0 then fresh0 else fresh1)
    requires forall k | k in nodes :: nodes[k].piece == if k.player == 0 then fresh0[k].piece else fresh1[k].piece
    ensures forall k | k in nodes ::
      nodes[k].piece == if k == Coord(0, 4, 0) then king0 else if k == Coord(1, 4, 0) then king1 else null
  {
  }

  /** Gluing both ways and joining the grids yields the board BoardLink describes; occupants stay put. */
  lemma GluedTwiceIsBoard(g: TwoChessGenerator, fresh0: map<Coord, Node>, fresh1: map<Coord, Node>,
                          mid0: map<Coord, Node>, mid1: map<Coord, Node>,
                          end0: map<Coord, Node>, end1: map<Coord, Node>, nodes: map<Coord, Node>)
    requires IsHalfBoard(g, 0, fresh0) && IsHalfBoard(g, 1, fresh1)
    requires Extended1(g, 0, 1, fresh0, mid0, g.cols / 2) && Extended2(g, 0, 1, fresh1, mid1, g.cols / 2)
    requires Extended1(g, 1, 0, mid1, end1, g.cols / 2) && Extended2(g, 1, 0, mid0, end0, g.cols / 2)
    requires nodes.Keys == end0.Keys + end1.Keys
    requires forall k | k in nodes :: nodes[k] == if k in end1 then end1[k] else end0[k]
    ensures IsBoard(g, nodes)
    ensures forall k | k in nodes :: nodes[k].piece == if k.player == 0 then fresh0[k].piece else fresh1[k].piece
  {
    forall k | k in nodes
      ensures nodes[k].id == k && nodes[k].owner == k.player && nodes[k].WellFormed()
      ensures forall d: Dir :: nodes[k].neighbors[d] == BoardLink(g, k, d)
      ensures nodes[k].piece == if k.player == 0 then fresh0[k].piece else fresh1[k].piece
    {
      if k.player == 0 {
        assert NodeExtended1(g, 0, 1, k, fresh0[k], mid0[k], g.cols / 2);
        GluedCell0(g, k, fresh0[k], mid0[k], end0[k]);
      } else {
        assert NodeExtended2(g, 0, 1, k, fresh1[k], mid1[k], g.cols / 2);
        GluedCell1(g, k, fresh1[k], mid1[k], end1[k]);
      }
    }
  }

  /** The gluing and merging steps of generate: both grids glued from each side, then joined into one dictionary. */
  method GlueAndJoin(g: TwoChessGenerator, fresh0: map<Coord, Node>, fresh1: map<Coord, Node>) returns (nodes: map<Coord, Node>)
    requires g.rows >= 1 && IsHalfBoard(g, 0, fresh0) && IsHalfBoard(g, 1, fresh1)
    ensures IsBoard(g, nodes)
    ensures forall k | k in nodes :: k.player in {0, 1} && k in (if k.player == 0 then fresh0 else fresh1)
    ensures forall k | k in nodes :: nodes[k].piece == if k.player == 0 then fresh0[k].piece else fresh1[k].piece
  {
    HalfBoardGluable(g, 0, fresh0);
    HalfBoardGluable(g, 1, fresh1);
    var mid0, mid1 := GlueHalfboards(g, fresh0, 0, fresh1, 1);
    ExtendedGluable(g, 0, 1, fresh0, mid0, fresh1, mid1);
    var end1, end0 := GlueHalfboards(g, mid1, 1, mid0, 0);
    nodes := JoinDicts(end0, end1);
    GluedTwiceIsBoard(g, fresh0, fresh1, mid0, mid1, end0, end1, nodes);
  }

  /**
   * Builds the two-player board: both grids, the seam glued from player 0's
   * side and then from player 1's side, and the union of the two grids.
   * Pieces come back as [king of player 0, king of player 1].
   */
  method Generate(g: TwoChessGenerator) returns (r: Result<(map<Coord, Node>, seq<Piece>, seq<Player>)>)
    ensures r.Ok? <==> Buildable(g)
    ensures r.Err? ==> r.error == HalfboardFailure(g)
    ensures r.Ok? ==> |r.value.1| == 2 && fresh(r.value.1[0]) && fresh(r.value.1[1])
    ensures r.Ok? ==>
      var (nodes, pieces, players) := r.value;
      && players == [Player(0), Player(1)]
      && |pieces| == 2
      && pieces[0].kind == King && pieces[0].owner == 0 && pieces[0].position == Coord(0, 4, 0)
      && pieces[1].kind == King && pieces[1].owner == 1 && pieces[1].position == Coord(1, 4, 0)
      && IsBoard(g, nodes)
      && forall k | k in nodes ::
           nodes[k].piece == if k == Coord(0, 4, 0) then pieces[0] else if k == Coord(1, 4, 0) then pieces[1] else null
  {
    var half0 := GenerateHalfboard(g, 0);
    if half0.Err? {
      return Err(half0.error);
    }
    var (fresh0, pieces0, player0) := half0.value;
    var king0 := pieces0[0];
    // Player 1's grid has the same dimensions, so it cannot fail once player 0's succeeded.
    var half1 := GenerateHalfboard(g, 1);
    var (fresh1, pieces1, player1) := half1.value;
    var nodes := GlueAndJoin(g, fresh0, fresh1);
    KingsPlaced(fresh0, fresh1, nodes, king0, pieces1[0]);
    return Ok((nodes, pieces0 + pieces1, [player0, player1]));
  }
}
