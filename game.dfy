/**
 * The game-state reducer of src/reducers/game.ts.
 *
 * `GameState` and the functions `AfterMove`, `AfterUpdateCell`, `AfterHover`
 * and `Transition` are the reducer as a function from the previous state to
 * the next one. `GameStore` is the reducer as the source runs it: an object
 * whose fields the handlers write one by one, each handler proved to produce
 * exactly the state the function describes.
 *
 * Two collaborators are not part of this model and are passed in as
 * functions: `updateVisibility(position, map)` (src/utils/updateVisibility)
 * and `getTileName(tile)`, standing for `getTile(tile)?.nameInSentence`
 * (src/constants/tiles).
 */
module Game {
  import opened Optional
  import opened Cells
  import Items

  datatype MoveDirection = Left | Right | Up | Down

  datatype UpdateCellPayload = UpdateCellPayload(cellData: CellData, position: Position)

  datatype HoverCellPayload = HoverCellPayload(tileType: TileType, visibility: Visibility, revealed: bool, content: CellContent)

  /** `GameAction`; its constructors are the action creators of `gameActions`. */
  datatype GameAction =
    | MovePlayer(direction: MoveDirection)
    | SetCurrentMap(currentMap: Grid)
    | InitPlayerSpawn(playerSpawn: Position)
    | UpdateCell(update: UpdateCellPayload)
    | InitVisibility
    | HoverCell(hover: HoverCellPayload)
    | HoverAwayFromCell

  /** The part of `GameState` that the reducer reads or writes. */
  datatype GameState = GameState(
    currentMap: Option<Grid>,
    moveDirection: MoveDirection,
    playerPosition: Position,
    playerPreviousPosition: Position,
    shouldPlayerAnimate: bool,
    interactionText: string)

  const INITIAL_STATE: GameState :=
    GameState(None, Right, Position(0, 0), Position(0, 0), false, "You enter the dungeon.")

  /**
   * How a dispatch ends: with its result `state`, or by throwing the
   * `TypeError` raised on reading `.tile` of the missing cell `at`. The
   * functions below end with `Outcome<GameState>`; the handlers of
   * `GameStore` change the store in place and end with `Outcome<()>`.
   */
  datatype Outcome<+S> = Next(state: S) | Threw(at: Position)

  // ---------------------------------------------------------------- movement

  /** The cell one step away in direction `d`: exactly one coordinate moves, by one. */
  function Neighbour(p: Position, d: MoveDirection): (q: Position)
    ensures (q.x - p.x) * (q.x - p.x) + (q.y - p.y) * (q.y - p.y) == 1
    ensures d in {Left, Right} ==> q.y == p.y
    ensures d in {Up, Down} ==> q.x == p.x
    ensures d == Left ==> q.x < p.x
    ensures d == Right ==> q.x > p.x
    ensures d == Up ==> q.y < p.y
    ensures d == Down ==> q.y > p.y
  {
    match d
    case Left => Position(p.x - 1, p.y)
    case Right => Position(p.x + 1, p.y)
    case Up => Position(p.x, p.y - 1)
    case Down => Position(p.x, p.y + 1)
  }

  /** `[nextTileX, nextTileY]`: the cell whose tile a move reads before deciding. */
  function Probe(p: Position, d: MoveDirection, width: int, height: int): (q: Position)
    ensures q == p || q == Neighbour(p, d)
    ensures LeavesEdge(p, d, width, height) ==> q == Neighbour(p, d)
  {
    match d
    case Left => Position(if p.x > 0 then p.x - 1 else p.x, p.y)
    case Right => Position(if p.x < width then p.x + 1 else p.x, p.y)
    case Up => Position(p.x, if p.y > 0 then p.y - 1 else p.y)
    case Down => Position(p.x, if p.y < height - 1 then p.y + 1 else p.y)
  }

  /** The edge guard each direction tests before it moves. */
  predicate LeavesEdge(p: Position, d: MoveDirection, width: int, height: int)
    ensures InBounds(p, width, height) ==>
      (LeavesEdge(p, d, width, height) <==> InBounds(Neighbour(p, d), width, height))
  {
    match d
    case Left => p.x > 0
    case Right => p.x < width - 1
    case Up => p.y > 0
    case Down => p.y < height - 1
  }

  /** The decision of a move; `ReadsOutside(at)` is the read of a missing cell, which the dispatch turns into `Threw(at)`. */
  datatype Verdict = Refused | Accepted(target: Position) | ReadsOutside(at: Position)

  /**
   * How a move from `p` in direction `d` ends: the tile at the probed cell is
   * read first (outside the map that read throws); the move is accepted when
   * the edge guard holds and that tile is not a wall.
   */
  function Decide(g: Grid, p: Position, d: MoveDirection, width: int, height: int): (v: Verdict)
    requires WellFormed(g, width, height) && InBounds(p, width, height)
    ensures v.ReadsOutside? <==> d == Right && p.x == width - 1
    ensures v.ReadsOutside? ==> v.at == Position(width, p.y)
    ensures v.Accepted? ==> v.target == Neighbour(p, d) && InBounds(v.target, width, height)
    ensures v.Accepted? ==> g[v.target.y][v.target.x].tile != WALL
    ensures var n := Neighbour(p, d);
      (!(d == Right && p.x == width - 1) && InBounds(n, width, height) && g[n.y][n.x].tile != WALL) ==> v == Accepted(n)
  {
    var q := Probe(p, d, width, height);
    if !InRange(g, q) then ReadsOutside(q)
    else if LeavesEdge(p, d, width, height) && g[q.y][q.x].tile != WALL then Accepted(q)
    else Refused
  }

  /** What a move needs of the state when there is a map: the map is `width` by `height` and the player is on it. */
  predicate MoveReady(s: GameState, width: int, height: int) {
    s.currentMap.Some? ==> WellFormed(s.currentMap.value, width, height) && InBounds(s.playerPosition, width, height)
  }

  /** `reduceMovePlayer`. */
  function AfterMove(s: GameState, d: MoveDirection, updateVisibility: (Position, Grid) -> Grid, width: int, height: int): (r: Outcome<GameState>)
    requires MoveReady(s, width, height)
    ensures s.currentMap.None? ==> r == Next(s)
    ensures r.Next? ==> r.state.interactionText == s.interactionText && r.state.currentMap.Some? == s.currentMap.Some?
    ensures r.Next? && s.currentMap.Some? ==>
      && r.state.moveDirection == d
      && (r.state.shouldPlayerAnimate <==> r.state.playerPosition != s.playerPosition)
      && (r.state.playerPosition == s.playerPosition ==> r.state == s.(moveDirection := d, shouldPlayerAnimate := false))
  {
    match s.currentMap
    case None => Next(s)
    case Some(g) =>
      match Decide(g, s.playerPosition, d, width, height)
      case ReadsOutside(q) => Threw(q)
      case Refused => Next(s.(moveDirection := d, shouldPlayerAnimate := false))
      case Accepted(q) =>
        Next(s.(currentMap := Some(updateVisibility(q, MoveContent(g, s.playerPosition, q))),
                playerPreviousPosition := s.playerPosition,
                playerPosition := q,
                shouldPlayerAnimate := true,
                moveDirection := d))
  }

  // ------------------------------------------------------------- cell update

  /** What an update needs of the state when there is a map: the cell to replace exists. */
  predicate UpdateReady(s: GameState, u: UpdateCellPayload) {
    s.currentMap.Some? ==> InRange(s.currentMap.value, u.position)
  }

  /** `reduceUpdateCell`. */
  function AfterUpdateCell(s: GameState, u: UpdateCellPayload): (r: GameState)
    requires UpdateReady(s, u)
    ensures r.(currentMap := s.currentMap) == s
    ensures r.currentMap.Some? == s.currentMap.Some?
    ensures s.currentMap.Some? ==> SameShape(s.currentMap.value, r.currentMap.value)
  {
    match s.currentMap
    case None => s
    case Some(g) => s.(currentMap := Some(SetCell(g, u.position, u.cellData)))
  }

  // --------------------------------------------------------------- narration

  const SELF_TEXT := "This is you."

  /** The verb of the narration for each lighting (the source's spelling). */
  function VerbFor(v: Visibility): (verb: string)
    ensures verb == "see" <==> v == Clear
    ensures verb == "get a glimpse of" <==> v == Dim
    ensures verb == "remember seing" <==> v == Dark
  {
    match v
    case Clear => "see"
    case Dim => "get a glimpse of"
    case Dark => "remember seing"
  }

  /** A template literal's rendering of a possibly `undefined` string. */
  function Interpolated(o: Option<string>): (r: string)
    ensures o.Some? ==> r == o.value
    ensures r == "undefined" <==> o.None? || o.value == "undefined"
  {
    match o
    case Some(s) => s
    case None => "undefined"
  }

  /** `getItem(name)?.nameInSentence`. */
  function ItemName(name: string): (r: Option<string>)
    ensures r.Some? <==> Items.IsItemType(name)
    ensures r.Some? ==> exists i :: Items.IsFirstMatch(Items.ITEMS, name, i) && r.value == Items.ITEMS[i].nameInSentence
  {
    match Items.GetItem(name)
    case Some(item) => Some(item.nameInSentence)
    case None => None
  }

  /** The object of the sentence: the item's phrase when the cell holds something, else the tile's. */
  function ObjectPhrase(content: CellContent, tileType: TileType, getTileName: TileType -> Option<string>): (r: string)
    ensures content.Tag? && Items.IsItemType(content.name) ==>
      exists i :: 0 <= i < |Items.ITEMS| && Items.ITEMS[i].itemType == content.name && r == Items.ITEMS[i].nameInSentence
    ensures content.Tag? && !Items.IsItemType(content.name) ==> r == "undefined"
    ensures content == Empty ==> r == Interpolated(getTileName(tileType))
  {
    match content
    case Tag(name) => Interpolated(ItemName(name))
    case Empty => Interpolated(getTileName(tileType))
  }

  /**
   * The sentence for a hovered cell, by rules taken in order: the player's own
   * cell; no text for a cell never revealed; otherwise "You <verb> <object>.".
   */
  function Narrate(h: HoverCellPayload, getTileName: TileType -> Option<string>): (r: Option<string>)
    ensures r.None? <==> h.content != PLAYER && !h.revealed
    ensures h.content == PLAYER ==> r == Some("This is you.")
    ensures r.Some? && h.content != PLAYER ==>
      |r.value| > 6 && r.value[..4] == "You " && r.value[|r.value| - 1] == '.'
  {
    if h.content == PLAYER then Some(SELF_TEXT)
    else if !h.revealed then None
    else Some("You " + VerbFor(h.visibility) + " " + ObjectPhrase(h.content, h.tileType, getTileName) + ".")
  }

  /** `reduceHoverCell`: the text changes only when there is a sentence. */
  function AfterHover(s: GameState, h: HoverCellPayload, getTileName: TileType -> Option<string>): (r: GameState)
    ensures r.(interactionText := s.interactionText) == s
    ensures r.interactionText != s.interactionText ==> Narrate(h, getTileName) == Some(r.interactionText)
    ensures Narrate(h, getTileName).Some? ==> r.interactionText == Narrate(h, getTileName).value
    ensures Narrate(h, getTileName).None? ==> r == s
  {
    match Narrate(h, getTileName)
    case None => s
    case Some(text) => s.(interactionText := text)
  }

  // -------------------------------------------------------------- dispatcher

  predicate Admissible(s: GameState, a: GameAction, width: int, height: int) {
    match a
    case MovePlayer(_) => MoveReady(s, width, height)
    case UpdateCell(u) => UpdateReady(s, u)
    case _ => true
  }

  /** `game`: one dispatch of `a` on `s`. */
  function Transition(s: GameState, a: GameAction, updateVisibility: (Position, Grid) -> Grid,
                      getTileName: TileType -> Option<string>, width: int, height: int): (r: Outcome<GameState>)
    requires Admissible(s, a, width, height)
    ensures r.Threw? ==> a.MovePlayer?
    ensures r.Next? && r.state.currentMap != s.currentMap ==>
      a.MovePlayer? || a.SetCurrentMap? || a.UpdateCell? || a.InitVisibility?
    ensures r.Next? && r.state.interactionText != s.interactionText ==> a.HoverCell? || a.HoverAwayFromCell?
    ensures r.Next? && r.state.playerPosition != s.playerPosition ==> a.MovePlayer? || a.InitPlayerSpawn?
  {
    match a
    case MovePlayer(d) => AfterMove(s, d, updateVisibility, width, height)
    case SetCurrentMap(m) => Next(s.(currentMap := Some(m)))
    case InitPlayerSpawn(p) => Next(s.(playerPosition := p, playerPreviousPosition := p))
    case UpdateCell(u) => Next(AfterUpdateCell(s, u))
    case InitVisibility =>
      Next(if s.currentMap.Some? then s.(currentMap := Some(updateVisibility(s.playerPosition, s.currentMap.value))) else s)
    case HoverCell(h) => Next(AfterHover(s, h, getTileName))
    case HoverAwayFromCell => Next(s.(interactionText := ""))
  }

  // ------------------------------------------------------------------- store

  /** The reducer's state, updated in place by its handlers. */
  class GameStore {
    const gridWidth: int
    const gridHeight: int
    var currentMap: Option<Grid>
    var moveDirection: MoveDirection
    var playerPosition: Position
    var playerPreviousPosition: Position
    var shouldPlayerAnimate: bool
    var interactionText: string

    function State(): GameState
      reads this
    {
      GameState(currentMap, moveDirection, playerPosition, playerPreviousPosition, shouldPlayerAnimate, interactionText)
    }

    /** `INITIAL_STATE`, on a grid of `gridWidth` by `gridHeight` cells. */
    constructor (gridWidth: int, gridHeight: int)
      ensures this.gridWidth == gridWidth && this.gridHeight == gridHeight
      ensures State() == INITIAL_STATE
    {
      this.gridWidth := gridWidth;
      this.gridHeight := gridHeight;
      currentMap := None;
      moveDirection := Right;
      playerPosition := Position(0, 0);
      playerPreviousPosition := Position(0, 0);
      shouldPlayerAnimate := false;
      interactionText := "You enter the dungeon.";
    }

    /** `moveToNewPosition`: carry the player to `position`, relight the map, then record the step. */
    method MoveToNewPosition(position: Position, direction: MoveDirection, updateVisibility: (Position, Grid) -> Grid)
      requires currentMap.Some? && InRange(currentMap.value, playerPosition) && InRange(currentMap.value, position)
      modifies this
      ensures State() == old(State()).(
        currentMap := Some(updateVisibility(position, MoveContent(old(currentMap.value), old(playerPosition), position))),
        playerPreviousPosition := old(playerPosition),
        playerPosition := position,
        shouldPlayerAnimate := true,
        moveDirection := direction)
    {
      currentMap := Some(SetContent(currentMap.value, playerPosition, Empty));
      currentMap := Some(SetContent(currentMap.value, position, PLAYER));
      currentMap := Some(updateVisibility(position, currentMap.value));
      playerPreviousPosition := playerPosition;
      playerPosition := position;
      shouldPlayerAnimate := true;
      moveDirection := direction;
    }

    /** `moveAndStayAtSamePosition`: turn to face `direction` without stepping. */
    method MoveAndStayAtSamePosition(direction: MoveDirection)
      modifies this`moveDirection, this`shouldPlayerAnimate
      ensures State() == old(State()).(moveDirection := direction, shouldPlayerAnimate := false)
    {
      moveDirection := direction;
      shouldPlayerAnimate := false;
    }

    /** `reduceMovePlayer`. */
    method ReduceMovePlayer(direction: MoveDirection, updateVisibility: (Position, Grid) -> Grid) returns (outcome: Outcome<()>)
      requires MoveReady(State(), gridWidth, gridHeight)
      modifies this
      ensures match AfterMove(old(State()), direction, updateVisibility, gridWidth, gridHeight)
              case Next(s) => outcome == Next(()) && State() == s
              case Threw(q) => outcome == Threw(q) && State() == old(State())
    {
      if currentMap.None? {
        return Next(());
      }
      var grid := currentMap.value;
      var nextTileX: int, nextTileY: int, leavesEdge: bool;
      match direction {
        case Left =>
          nextTileX := if playerPosition.x > 0 then playerPosition.x - 1 else playerPosition.x;
          nextTileY := playerPosition.y;
          leavesEdge := playerPosition.x > 0;
        case Right =>
          nextTileX := if playerPosition.x < gridWidth then playerPosition.x + 1 else playerPosition.x;
          nextTileY := playerPosition.y;
          leavesEdge := playerPosition.x < gridWidth - 1;
        case Up =>
          nextTileX := playerPosition.x;
          nextTileY := if playerPosition.y > 0 then playerPosition.y - 1 else playerPosition.y;
          leavesEdge := playerPosition.y > 0;
        case Down =>
          nextTileX := playerPosition.x;
          nextTileY := if playerPosition.y < gridHeight - 1 then playerPosition.y + 1 else playerPosition.y;
          leavesEdge := playerPosition.y < gridHeight - 1;
      }
      var next := Position(nextTileX, nextTileY);
      if !InRange(grid, next) {
        // the row holds no such cell: reading `.tile` of `undefined` throws
        return Threw(next);
      }
      var nextTile := grid[nextTileY][nextTileX].tile;
      if leavesEdge && nextTile != WALL {
        MoveToNewPosition(next, direction, updateVisibility);
      } else {
        MoveAndStayAtSamePosition(direction);
      }
      return Next(());
    }

    /** `reduceUpdateCell`: replace one cell of the map, if there is a map. */
    method ReduceUpdateCell(u: UpdateCellPayload)
      requires UpdateReady(State(), u)
      modifies this`currentMap
      ensures State() == AfterUpdateCell(old(State()), u)
    {
      if currentMap.Some? {
        currentMap := Some(SetCell(currentMap.value, u.position, u.cellData));
      }
    }

    /** `reduceHoverCell`: the verb is chosen by successive reassignments, the last that applies winning. */
    method ReduceHoverCell(h: HoverCellPayload, getTileName: TileType -> Option<string>)
      modifies this`interactionText
      ensures State() == AfterHover(old(State()), h, getTileName)
    {
      if h.content == PLAYER {
        interactionText := SELF_TEXT;
        return;
      }
      if !h.revealed {
        return;
      }
      var verb := "see";
      if h.visibility == Dark && h.revealed {
        verb := "remember seing";
      }
      if h.visibility == Dim && h.revealed {
        verb := "remember seing";
      }
      if h.visibility == Dim {
        verb := "get a glimpse of";
      }
      var phrase: string;
      if h.content != Empty {
        phrase := Interpolated(ItemName(h.content.name));
      } else {
        phrase := Interpolated(getTileName(h.tileType));
      }
      interactionText := "You " + verb + " " + phrase + ".";
    }

    /** `game`: route the action to its handler. */
    method Dispatch(a: GameAction, updateVisibility: (Position, Grid) -> Grid, getTileName: TileType -> Option<string>)
      returns (outcome: Outcome<()>)
      requires Admissible(State(), a, gridWidth, gridHeight)
      modifies this
      ensures match Transition(old(State()), a, updateVisibility, getTileName, gridWidth, gridHeight)
              case Next(s) => outcome == Next(()) && State() == s
              case Threw(q) => outcome == Threw(q) && State() == old(State())
    {
      outcome := Next(());
      match a
      case MovePlayer(d) =>
        outcome := ReduceMovePlayer(d, updateVisibility);
      case SetCurrentMap(m) =>
        currentMap := Some(m);
      case InitPlayerSpawn(p) =>
        playerPosition := p;
        playerPreviousPosition := p;
      case UpdateCell(u) =>
        ReduceUpdateCell(u);
      case InitVisibility =>
        if currentMap.Some? {
          currentMap := Some(updateVisibility(playerPosition, currentMap.value));
        }
      case HoverCell(h) =>
        ReduceHoverCell(h, getTileName);
      case HoverAwayFromCell =>
        interactionText := "";
    }
  }
}
