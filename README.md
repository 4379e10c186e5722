# n-chess engine core in Dafny

This project models the engine of `threechess.py`: a chess variant whose board
is one 4 × 8 grid per player, glued along the players' far rows. It covers:

- **The board graph.** `TwoChessGenerator` builds each player's grid of
  nodes, keyed by `(player, column, row)`, and links every cell to its compass
  neighbours. It then glues the two top rows to each other in reverse column
  order, with a fan of diagonal links, and merges both grids into one
  dictionary.
- **Direction-relative lookup.** `Node.get_next_nodes` returns a stored
  neighbour list. On a cell the mover owns, it uses the asked direction. On a
  foreign cell, it uses the opposite direction (the code intends this; see the
  first bullet below).
- **King moves.** `King.get_possible_moves` concatenates the neighbour lists
  over all eight directions.
- **The game state machine.** `Game` keeps two FIFO queues: the turn order
  (`move_list`) and the players who decide the next round's order
  (`move_decision_list`). Each queue is topped up lazily. `make_move` moves a
  piece, records any captured piece, and reports a King capture, which ends
  the game.

## How the model is laid out

- `wrappers.dfy` (`Wrappers`): `Option`, `Result`, and the two exceptions the
  model represents (`KeyError`, `NotImplementedError`). The core's
  AssertionError and TypeError paths are excluded by preconditions or by the
  numbered directions (see below).
- `board.dfy` (`Board`): directions are numbered 0..7 in the order of
  `all_directions` (e, ne, n, nw, w, sw, s, se). Cells are records in an arena
  `map<Coord, Node>`, and each neighbour list is a `seq<Coord>`. A `Piece` is a
  class: its kind and owner are constant, and `make_move` updates its position
  in place.
- `generator.dfy` (`Generation`): the grid builder and the seam gluing, each as a
  method with loops. `JoinDicts` is here too. Each method is proved against a
  closed-form description. `HalfLink` gives the links of a fresh grid. `SeamLink1`
  and `SeamLink2` give what one glue call appends. `BoardLink` gives the links of
  the finished board.
- `board_facts.dfy` (`GeneratedBoard`): lemmas about the finished board.
- `game.dfy` (`Games`): the `Game` class, with the queues as `seq` fields, and
  the pure description of a move's effect.

Behaviour of the code worth knowing:

- `get_next_nodes` computes the opposite direction as `(direction+4)%8` on a
  direction *name* (`threechess.py:18`). In Python that raises on any foreign
  cell. The model numbers the directions, so the opposite is index + 4 mod 8.
- The King's move list does not filter by occupancy: the code returns every
  neighbour, occupied or not.
- Each grid gets a single King on column 4 of row 0. The code has no other
  army, no move history and no alive flags, so neither does the model.
- Only two players are glued. Gluing is done once from each side.
- A captured piece is appended to `killed_pieces`; it is not marked dead.
  A captured King stays on the end cell, while the capturing piece's
  `position` also points at that cell.
- The `ne` link of a fresh grid is bounded by the literal row `3`, not by the
  top row (`threechess.py:219`). With the default 4 rows this is the top row.
  With fewer rows the lookup raises `KeyError`. With more rows, every row from
  3 to rows - 2 gets no `ne` link, although its `sw` partner exists; with 6
  rows those are rows 3 and 4 (`TallGridMissesNorthEast` shows row 3 of a
  5-row grid).
- The seam's `nw` links are not mutual (`SeamNorthWestNotMutual`). Cell 4 of
  each top row lists two `nw` neighbours (`SeamFan`). The `n` links and the
  `ne` links across the seam are mutual.

## Model

| member | source | states |
|---|---|---|
| `Board.Opposite` | threechess.py:18 | the opposite of a direction is never the direction itself, and turning half a turn again gives the direction back (e/w, ne/sw, n/s, nw/se) |
| `Board.NewNode` | threechess.py:6-12 | a new node has the given owner and coordinate, no occupant and eight empty neighbour lists |
| `Board.GetNextNodes` | threechess.py:14-18 | a mover on its own cell gets the list stored under the asked direction; on a foreign cell it gets the list stored under the opposite direction |
| `Board.RelativeLookup` | threechess.py:14-18 | a mover on its own cell gets the list stored under the asked direction; a foreign mover gets the owner's list for the opposite direction, so asking a foreign cell for the opposite direction gives the stored list |
| `Board.Piece.constructor` | threechess.py:34-36 | a new piece has the given owner and position, and the kind of the subclass that created it |
| `Board.Piece.GetPossibleMoves` | threechess.py:40-52 | a Pawn's move query raises NotImplementedError; a King's returns the concatenation, in direction order, of its cell's neighbour lists as its owner sees them |
| `Board.DirectionListsLength` | threechess.py:40-44 | the concatenated list is as long as the sum of the lengths of the direction lists |
| `Board.DirectionListsMembers` | threechess.py:40-44 | a cell is in the concatenation of the first k direction lists iff it is in one of them |
| `Board.KingMovesSpec` | threechess.py:40-44 | a King's destinations are exactly the cells listed in some direction, occupied or not, with as many entries as those lists hold together |
| `Board.KingMovesOwnerIndependent` | threechess.py:14-18 | whoever owns the King, it reaches the same set of cells from a given cell, because the foreign view only swaps opposite directions |
| `Generation.NewGrid` | threechess.py:207-212 | the first loop creates one fresh node per cell of the rows × cols grid and no other key |
| `Generation.LinkGrid` | threechess.py:213-231 | the wiring loop raises KeyError exactly when the grid has at least 2 columns and 1 to 3 rows; otherwise every cell carries its `HalfLink` lists, with ids, owners and empty cells unchanged |
| `Generation.LinkCell` | threechess.py:215-231 | wiring one cell gives exactly the grid links of `HalfLink`; it raises KeyError exactly when the hard-coded `ne` target is off the grid |
| `Generation.GenerateHalfboard` | threechess.py:206-240 | succeeds iff the grid has 8 columns and at least 4 rows, otherwise raises KeyError or NotImplementedError as the code does; on success every cell of the grid is a node owned by the player with the `HalfLink` lists, one new King of the player sits on (p, 4, 0) and points back to it, and every other cell is empty |
| `Generation.PlaceKing` | threechess.py:235-237 | setting the King on (p, 4, 0) keeps the grid's links and leaves that cell the only occupied one |
| `Generation.HalfLinkAtMostOne` | threechess.py:213-231 | a fresh grid stores at most one neighbour per direction |
| `Generation.HalfLinkIsCompassStep` | threechess.py:213-231 | a fresh grid links cell k in direction d exactly to the cell one compass step away, when that cell is on the grid (for `ne` only with 4 rows) |
| `Generation.HalfLinksMutual` | threechess.py:213-231 | on a 4-row grid every link is matched by a link back in the opposite direction (e/w, n/s, ne/sw, nw/se) |
| `Generation.TallGridMissesNorthEast` | threechess.py:219-220 | with 5 rows, cell (p, 0, 3) has no `ne` link although (p, 1, 4) is on the grid and links back to it by `sw` |
| `Generation.SeamStep1Extends` | threechess.py:248-254 | one more offset c of the glue loop keeps board1's cells and extends their lists from `SeamLink1(c)` to `SeamLink1(c + 1)`: only cell 4 + c of the top row gains entries (`n`, `nw` and, except at the last offset, `ne`) |
| `Generation.SeamStep2Extends` | threechess.py:248-255 | one more offset c keeps board2's cells and extends their lists from `SeamLink2(c)` to `SeamLink2(c + 1)`: only top-row cells 3 - c (`n`, `ne`) and 4 - c (`nw`, except at the last offset) gain entries |
| `Generation.GlueHalfboards` | threechess.py:242-255 | gluing keeps every key, id, owner and occupant of both boards and only appends, to top-row lists, the entries `SeamLink1`/`SeamLink2` describe; no existing entry changes |
| `Generation.JoinDicts` | threechess.py:193-199 | the merged dictionary has the keys of both, and each value is from dict2 when the key is in dict2, otherwise from dict1 |
| `Generation.GlueAndJoin` | threechess.py:260-262 | gluing both grids from each side and joining them gives the board `BoardLink` describes, every key from the grid of its player, with that grid's occupant |
| `Generation.GluedTwiceIsBoard` | threechess.py:257-262 | two grids glued from both sides and joined form the board `BoardLink` describes, with every occupant unchanged |
| `Generation.Generate` | threechess.py:257-266 | fails exactly as a grid fails; otherwise returns both grids' 2 × rows × 8 cells (64 for the standard 4 rows) with the `BoardLink` lists, the pieces [King of 0, King of 1], both new objects, on (0,4,0) and (1,4,0), and the players [0, 1] |
| `GeneratedBoard.BelowTopRowUnglued` | threechess.py:248-255 | below the top row the finished board keeps exactly the fresh grid's links |
| `GeneratedBoard.TopRowLinks` | threechess.py:248-261 | top-row column j of either player: `n` is exactly the other player's column 7 - j, `ne` is column 6 - j (none at column 7), `nw` is column 8 - j and/or 9 - j in glue order, and the other directions keep the grid links |
| `GeneratedBoard.SeamNorthMutual` | threechess.py:249-250 | after generation every top-row cell has exactly one `n` neighbour, (q, 7 - j, top), and that cell's only `n` neighbour is the first one |
| `GeneratedBoard.SeamNorthEastMutual` | threechess.py:252-254 | a cross-seam `ne` link is always matched by an `ne` link back |
| `GeneratedBoard.GridLinksMutual` | threechess.py:213-231 | on the standard board every link between cells of one player is matched by one back in the opposite direction |
| `GeneratedBoard.SeamFan` | threechess.py:251-255 | cell 4 of each top row has two `nw` neighbours across the seam, in the order the two glue calls appended them |
| `GeneratedBoard.SeamNorthWestNotMutual` | threechess.py:251-255 | top-row cell (1, 4) lists (0, 5) under `nw`, but (0, 5) does not list (1, 4) in any direction |
| `GeneratedBoard.NoIsolatedCell` | threechess.py:215-223 | every cell of the board has an `e` or a `w` neighbour |
| `GeneratedBoard.SeamRoundTrip` | threechess.py:14-18 | a piece stepping `n` off its top row reaches the facing cell of the other player, and from there its own `s` (the foreign cell's `n`) leads back |
| `Games.PlayersAt` | threechess.py:145 | the decider's answer becomes the list of players it names, in its order |
| `Games.OwnedByMembers` | threechess.py:180-184 | filtering the pieces by owner keeps exactly that owner's pieces and never adds one |
| `Games.Game.GetPieces` | threechess.py:177-184 | without a player, all pieces; with one, the pieces it owns in the game's order |
| `Games.AfterMoveChangesOnlyOccupancy` | threechess.py:166-175 | a move keeps every cell and every neighbour list and touches only the start and end cells; the start cell is left empty unless it is the end cell, and the end cell holds the mover, or the King it landed on |
| `Games.Game.constructor` | threechess.py:129-136 | a new game holds the generated board, the two Kings (new objects) and the players [0, 1]; both queues start as the player list, with no kills, no game over and no winner |
| `Games.Game.MakeMove` | threechess.py:162-175 | requires the piece to stand on the start cell and the start cell to hold the piece; afterwards the piece's position is the end cell and the board is `AfterMove`; it returns whether a King was landed on, and otherwise appends a displaced occupant to the killed pieces |
| `Games.Game.PlayNextMove` | threechess.py:138-155 | each queue is topped up only when it holds n or fewer entries (deciders with the player list, movers with the front decider's order); exactly the front mover moves; the turn queue goes from n..2n-1 entries to n..2n-1 entries; game over and the winner are set exactly when the move lands on a King |

## Left out

- `ConsolePlayer` (`threechess.py:77-126`) is not part of this model: it is interactive console input and output.
- The `print` calls, `Node.print_full`, the `__str__` methods and the script at the end of `threechess.py` are output only and are not modelled.
- `Player.get_move_list` and `Player.get_move` are callbacks into player code. Their answers are parameters of `PlayNextMove`: `order`, and `move`.
- Games.Game.PlayNextMove: requires the decider's answer, when one is asked for, to hold exactly n indices, each in 0..n-1. Python would also accept negative indices, counting from the end of the player list. An answer of another length raises AssertionError at `threechess.py:147`, after the decision queue was topped up and its front decider popped; that error path is not modelled. The method also requires the move to be current: its piece stands on the start cell and the start cell holds it. A stale move fails `make_move`'s asserts (`threechess.py:166-167`) after both queues have already changed; that error path is not modelled either. The deciders in the repository return an ordering of the n players, which meets both requirements.
- `Game.play_game` is not modelled: it loops until the game ends, and nothing bounds the number of turns.
- `gui.py` (floating-point drawing) and `aiplayer.py` (random choices) are not part of this model.
- Pawn movement is not implemented in the source. `GetPossibleMoves` returns the NotImplementedError case for a Pawn.
- Games.Game.constructor: requires a buildable generator (8 columns, at least 4 rows). For other dimensions the source's constructor raises from the generator, and an exception escaping a constructor is not modelled.
- Games.Game.MakeMove: requires the move's start and end cells to be on the board. A Python `Move` could name a node outside the game's dictionary; the arena model cannot represent that.
- Generation.GlueHalfboards: takes its two boards as separate values and returns them glued. Gluing a dictionary to itself, where both sides alias one object, is not modelled.
- Games.Game.GetPieces: returns a value. In Python, the call without a player returns the game's own list object, which the caller could then mutate.
