/**
 * The grid the reducer works on: positions, cells and the row-major 2-D map
 * `CellData[][]`, indexed `[y][x]`, with the single-cell updates the reducer
 * performs on it.
 */
module Cells {

  /** A grid coordinate, the source's `[x, y]` pair. */
  datatype Position = Position(x: int, y: int)

  /** Current lighting of a cell. */
  datatype Visibility = Clear | Dim | Dark

  /** A terrain symbol; `'#'` is the wall. */
  type TileType = string

  const WALL: TileType := "#"

  /** A cell's occupant: the number `0` for nothing, otherwise a string tag ("Player" or an item kind). */
  datatype CellContent = Empty | Tag(name: string)

  const PLAYER: CellContent := Tag("Player")

  datatype CellData = CellData(tile: TileType, content: CellContent, visibility: Visibility, revealed: bool)

  /** Rows indexed by `y`, each a row of cells indexed by `x`. */
  type Grid = seq<seq<CellData>>

  /** `g` has `height` rows of `width` cells. */
  predicate WellFormed(g: Grid, width: int, height: int) {
    |g| == height && forall y :: 0 <= y < |g| ==> |g[y]| == width
  }

  predicate InBounds(p: Position, width: int, height: int) {
    0 <= p.x < width && 0 <= p.y < height
  }

  /** `g[p.y][p.x]` exists. */
  predicate InRange(g: Grid, p: Position) {
    0 <= p.y < |g| && 0 <= p.x < |g[p.y]|
  }

  /** `a` and `b` have the same rows, each of the same length. */
  predicate SameShape(a: Grid, b: Grid) {
    |a| == |b| && forall y :: 0 <= y < |a| ==> |a[y]| == |b[y]|
  }

  /** `currentMap[p.y][p.x] = cell`: the grid with exactly that cell replaced. */
  function SetCell(g: Grid, p: Position, cell: CellData): (r: Grid)
    requires InRange(g, p)
    ensures SameShape(g, r)
    ensures r[p.y][p.x] == cell
    ensures forall y, x :: 0 <= y < |g| && 0 <= x < |g[y]| && (y != p.y || x != p.x) ==> r[y][x] == g[y][x]
  {
    g[p.y := g[p.y][p.x := cell]]
  }

  /** `currentMap[p.y][p.x].content = c`: only that cell's content changes. */
  function SetContent(g: Grid, p: Position, c: CellContent): (r: Grid)
    requires InRange(g, p)
    ensures SameShape(g, r)
    ensures r[p.y][p.x].content == c
    ensures forall y, x :: 0 <= y < |g| && 0 <= x < |g[y]| ==>
      r[y][x].tile == g[y][x].tile && r[y][x].visibility == g[y][x].visibility && r[y][x].revealed == g[y][x].revealed
    ensures forall y, x :: 0 <= y < |g| && 0 <= x < |g[y]| && (y != p.y || x != p.x) ==> r[y][x] == g[y][x]
  {
    SetCell(g, p, g[p.y][p.x].(content := c))
  }

  /**
   * The content move of an accepted step: the old cell is emptied (set to 0),
   * then the new cell holds "Player"; tiles, lighting and every other cell stay.
   */
  function MoveContent(g: Grid, from: Position, to: Position): (r: Grid)
    requires InRange(g, from) && InRange(g, to)
    ensures SameShape(g, r)
    ensures r[to.y][to.x].content == PLAYER
    ensures from != to ==> r[from.y][from.x].content == Empty
    ensures forall y, x :: 0 <= y < |g| && 0 <= x < |g[y]| ==>
      r[y][x].tile == g[y][x].tile && r[y][x].visibility == g[y][x].visibility && r[y][x].revealed == g[y][x].revealed
    ensures forall y, x :: 0 <= y < |g| && 0 <= x < |g[y]| && Position(x, y) != from && Position(x, y) != to ==>
      r[y][x] == g[y][x]
  {
    SetContent(SetContent(g, from, Empty), to, PLAYER)
  }

  /** The player is at `p` and in no other cell of `g`. */
  ghost predicate SolePlayerAt(g: Grid, p: Position) {
    && InRange(g, p)
    && forall y, x :: 0 <= y < |g| && 0 <= x < |g[y]| ==> (g[y][x].content == PLAYER <==> Position(x, y) == p)
  }

  /** `a` and `b` agree on everything but lighting: shape, tiles and contents. */
  ghost predicate SameLayout(a: Grid, b: Grid) {
    && SameShape(a, b)
    && forall y, x :: 0 <= y < |a| && 0 <= x < |a[y]| ==> a[y][x].tile == b[y][x].tile && a[y][x].content == b[y][x].content
  }

  /** Moving the content of the sole player cell leaves exactly one player cell, at the destination. */
  lemma MoveContentKeepsSolePlayer(g: Grid, from: Position, to: Position)
    requires SolePlayerAt(g, from) && InRange(g, to)
    ensures SolePlayerAt(MoveContent(g, from, to), to)
  {
  }

  /** A grid with the same layout has its player in the same, single place. */
  lemma SameLayoutKeepsSolePlayer(a: Grid, b: Grid, p: Position)
    requires SolePlayerAt(a, p) && SameLayout(a, b)
    ensures SolePlayerAt(b, p)
  {
  }
}
