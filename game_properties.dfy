/**
 * What the reducer of src/reducers/game.ts promises, stated against the
 * independent descriptions in `Cells` and `Game`: the neighbouring cell,
 * the single player cell, the narration rules and the item table.
 */
module GameProperties {
  import opened Optional
  import opened Cells
  import opened Game
  import Items

  /** The map is `width` by `height`, the player stands on it, alone, and not on a wall. */
  ghost predicate Consistent(s: GameState, width: int, height: int) {
    s.currentMap.Some? ==>
      && WellFormed(s.currentMap.value, width, height)
      && InBounds(s.playerPosition, width, height)
      && SolePlayerAt(s.currentMap.value, s.playerPosition)
      && s.currentMap.value[s.playerPosition.y][s.playerPosition.x].tile != WALL
  }

  /** The visibility pass touches lighting only: on a `width` by `height` map it keeps shape, tiles and contents. */
  ghost predicate KeepsLayout(updateVisibility: (Position, Grid) -> Grid, width: int, height: int) {
    forall q: Position, g: Grid :: WellFormed(g, width, height) ==> SameLayout(g, updateVisibility(q, g))
  }

  // ---------------------------------------------------------------- movement

  /** Without a map a move changes nothing. */
  lemma MoveWithoutMapIsNoOp(s: GameState, d: MoveDirection, updateVisibility: (Position, Grid) -> Grid, width: int, height: int)
    requires s.currentMap.None?
    ensures AfterMove(s, d, updateVisibility, width, height) == Next(s)
  {
  }

  /**
   * Moving right from the last column reads the cell one past the row, and
   * the dispatch throws with the state untouched; no other move throws.
   */
  lemma RightEdgeThrows(s: GameState, d: MoveDirection, updateVisibility: (Position, Grid) -> Grid, width: int, height: int)
    requires MoveReady(s, width, height) && s.currentMap.Some?
    ensures AfterMove(s, d, updateVisibility, width, height).Threw?
        <==> d == Right && s.playerPosition.x == width - 1
    ensures d == Right && s.playerPosition.x == width - 1 ==>
      AfterMove(s, d, updateVisibility, width, height) == Threw(Position(width, s.playerPosition.y))
  {
  }

  /**
   * Away from the right-edge case, a move is refused exactly when the
   * neighbouring cell is off the map or a wall; a refused move only turns
   * the player and stops the animation.
   */
  lemma RefusedMove(s: GameState, d: MoveDirection, updateVisibility: (Position, Grid) -> Grid, width: int, height: int)
    requires MoveReady(s, width, height) && s.currentMap.Some?
    requires !(d == Right && s.playerPosition.x == width - 1)
    ensures var q := Neighbour(s.playerPosition, d);
      AfterMove(s, d, updateVisibility, width, height) == Next(s.(moveDirection := d, shouldPlayerAnimate := false))
      <==> !InBounds(q, width, height) || s.currentMap.value[q.y][q.x].tile == WALL
  {
  }

  /**
   * A move onto a neighbouring cell that is on the map and not a wall steps
   * there: the player's cell content moves, the map is relit from the new
   * position, the old position becomes the previous one, and the player
   * faces `d` and animates.
   */
  lemma AcceptedMove(s: GameState, d: MoveDirection, updateVisibility: (Position, Grid) -> Grid, width: int, height: int)
    requires MoveReady(s, width, height) && s.currentMap.Some?
    requires !(d == Right && s.playerPosition.x == width - 1)
    requires var q := Neighbour(s.playerPosition, d);
      InBounds(q, width, height) && s.currentMap.value[q.y][q.x].tile != WALL
    ensures var p, q := s.playerPosition, Neighbour(s.playerPosition, d);
      AfterMove(s, d, updateVisibility, width, height) == Next(s.(
        currentMap := Some(updateVisibility(q, MoveContent(s.currentMap.value, p, q))),
        playerPreviousPosition := p,
        playerPosition := q,
        shouldPlayerAnimate := true,
        moveDirection := d))
  {
  }

  /** Whatever the outcome, the player ends where it was or on the neighbouring cell in direction `d`. */
  lemma MoveIsOneStep(s: GameState, d: MoveDirection, updateVisibility: (Position, Grid) -> Grid, width: int, height: int)
    requires MoveReady(s, width, height)
    requires AfterMove(s, d, updateVisibility, width, height).Next?
    ensures var s' := AfterMove(s, d, updateVisibility, width, height).state;
      s'.playerPosition == s.playerPosition || s'.playerPosition == Neighbour(s.playerPosition, d)
    ensures var s' := AfterMove(s, d, updateVisibility, width, height).state;
      s'.playerPosition != s.playerPosition ==>
        s'.playerPreviousPosition == s.playerPosition && s'.shouldPlayerAnimate && s'.moveDirection == d
  {
  }

  /** With a visibility pass that keeps the layout, every move keeps the player alone on a non-wall cell. */
  lemma MoveKeepsConsistent(s: GameState, d: MoveDirection, updateVisibility: (Position, Grid) -> Grid, width: int, height: int)
    requires Consistent(s, width, height) && KeepsLayout(updateVisibility, width, height)
    ensures MoveReady(s, width, height)
    ensures AfterMove(s, d, updateVisibility, width, height).Next? ==>
      Consistent(AfterMove(s, d, updateVisibility, width, height).state, width, height)
  {
    if s.currentMap.Some? {
      var g, p := s.currentMap.value, s.playerPosition;
      match Decide(g, p, d, width, height)
      case Accepted(q) =>
        var moved := MoveContent(g, p, q);
        MoveContentKeepsSolePlayer(g, p, q);
        SameLayoutKeepsSolePlayer(moved, updateVisibility(q, moved), q);
      case Refused =>
      case ReadsOutside(_) =>
    }
  }

  // ------------------------------------------------------------- cell update

  /** An update replaces the one addressed cell and nothing else; without a map it changes nothing. */
  lemma UpdateCellTouchesOneCell(s: GameState, u: UpdateCellPayload)
    requires UpdateReady(s, u)
    ensures s.currentMap.None? ==> AfterUpdateCell(s, u) == s
    ensures s.currentMap.Some? ==>
      var g, r := s.currentMap.value, AfterUpdateCell(s, u);
      && r.(currentMap := s.currentMap) == s
      && r.currentMap.Some?
      && SameShape(g, r.currentMap.value)
      && r.currentMap.value[u.position.y][u.position.x] == u.cellData
      && forall y, x :: 0 <= y < |g| && 0 <= x < |g[y]| && Position(x, y) != u.position ==>
           r.currentMap.value[y][x] == g[y][x]
  {
  }

  /**
   * On a map with a single player cell at `p`, an update keeps that so exactly
   * when it writes "Player" into `p` and into no other cell.
   */
  lemma UpdateCellSolePlayer(g: Grid, p: Position, at: Position, cell: CellData)
    requires SolePlayerAt(g, p) && InRange(g, at)
    ensures SolePlayerAt(SetCell(g, at, cell), p) <==> (cell.content == PLAYER <==> at == p)
  {
  }

  // --------------------------------------------------------------- narration

  /** Hovering the player's own cell says "This is you.", whatever its lighting or revealed flag. */
  lemma HoverOwnCell(s: GameState, h: HoverCellPayload, getTileName: TileType -> Option<string>)
    requires h.content == PLAYER
    ensures AfterHover(s, h, getTileName) == s.(interactionText := "This is you.")
  {
  }

  /** Hovering any other cell that was never revealed leaves the state, text included, as it was. */
  lemma HoverUnrevealed(s: GameState, h: HoverCellPayload, getTileName: TileType -> Option<string>)
    requires h.content != PLAYER && !h.revealed
    ensures AfterHover(s, h, getTileName) == s
  {
  }

  /**
   * A revealed cell other than the player's is described as "You <verb>
   * <object>.", the verb being "get a glimpse of" when dim, "remember seing"
   * when dark and "see" when clear; only the text changes.
   */
  lemma HoverRevealed(s: GameState, h: HoverCellPayload, getTileName: TileType -> Option<string>)
    requires h.content != PLAYER && h.revealed
    ensures var text, o := AfterHover(s, h, getTileName).interactionText, ObjectPhrase(h.content, h.tileType, getTileName);
      && (h.visibility == Dim ==> text == "You get a glimpse of " + o + ".")
      && (h.visibility == Dark ==> text == "You remember seing " + o + ".")
      && (h.visibility == Clear ==> text == "You see " + o + ".")
    ensures AfterHover(s, h, getTileName).(interactionText := s.interactionText) == s
  {
    var o, verb := ObjectPhrase(h.content, h.tileType, getTileName), VerbFor(h.visibility);
    var text := "You " + verb + " " + o + ".";
    assert Narrate(h, getTileName) == Some(text);
    assert AfterHover(s, h, getTileName) == s.(interactionText := text);
    VerbSentence(h.visibility, o);
  }

  /**
   * The object of the sentence is the table phrase of an item kind, the
   * tile's phrase for an empty cell, and "undefined" when the lookup finds
   * nothing.
   */
  lemma ObjectPhraseRules(content: CellContent, tileType: TileType, getTileName: TileType -> Option<string>)
    ensures content.Tag? && Items.IsItemType(content.name) ==>
      ObjectPhrase(content, tileType, getTileName) == Items.GetItem(content.name).value.nameInSentence
    ensures content.Tag? && !Items.IsItemType(content.name) ==> ObjectPhrase(content, tileType, getTileName) == "undefined"
    ensures content == Empty && getTileName(tileType).Some? ==> ObjectPhrase(content, tileType, getTileName) == getTileName(tileType).value
    ensures content == Empty && getTileName(tileType).None? ==> ObjectPhrase(content, tileType, getTileName) == "undefined"
  {
  }

  /** "You " + verb + " " + o + "." spelled out for each lighting. */
  lemma VerbSentence(v: Visibility, o: string)
    ensures v == Dim ==> "You " + VerbFor(v) + " " + o + "." == "You get a glimpse of " + o + "."
    ensures v == Dark ==> "You " + VerbFor(v) + " " + o + "." == "You remember seing " + o + "."
    ensures v == Clear ==> "You " + VerbFor(v) + " " + o + "." == "You see " + o + "."
  {
    match v
    case Dim => assert "You " + "get a glimpse of" + " " == "You get a glimpse of ";
    case Dark => assert "You " + "remember seing" + " " == "You remember seing ";
    case Clear => assert "You " + "see" + " " == "You see ";
  }

  /** The three verbs have different lengths, so the sentence tells the lighting of a cell apart. */
  lemma NarrationTellsLightingApart(h: HoverCellPayload, v: Visibility, getTileName: TileType -> Option<string>)
    requires h.content != PLAYER && h.revealed
    ensures Narrate(h, getTileName) == Narrate(h.(visibility := v), getTileName) <==> h.visibility == v
  {
  }

  // -------------------------------------------------------------- dispatcher

  /** The only dispatch that throws is a right move from the last column of a map. */
  lemma OnlyRightEdgeThrows(s: GameState, a: GameAction, updateVisibility: (Position, Grid) -> Grid,
                            getTileName: TileType -> Option<string>, width: int, height: int)
    requires Admissible(s, a, width, height)
    ensures Transition(s, a, updateVisibility, getTileName, width, height).Threw?
        <==> a == MovePlayer(Right) && s.currentMap.Some? && s.playerPosition.x == width - 1
  {
  }

  /** Setting the map or the spawn, hovering and hovering away change only what they name. */
  lemma OtherActions(s: GameState, m: Grid, spawn: Position, h: HoverCellPayload, updateVisibility: (Position, Grid) -> Grid,
                     getTileName: TileType -> Option<string>, width: int, height: int)
    ensures Transition(s, SetCurrentMap(m), updateVisibility, getTileName, width, height) == Next(s.(currentMap := Some(m)))
    ensures Transition(s, InitPlayerSpawn(spawn), updateVisibility, getTileName, width, height)
         == Next(s.(playerPosition := spawn, playerPreviousPosition := spawn))
    ensures Transition(s, HoverAwayFromCell, updateVisibility, getTileName, width, height) == Next(s.(interactionText := ""))
    ensures Transition(s, HoverCell(h), updateVisibility, getTileName, width, height).state.(interactionText := s.interactionText) == s
    ensures s.currentMap.None? ==> Transition(s, InitVisibility, updateVisibility, getTileName, width, height) == Next(s)
    ensures s.currentMap.Some? ==>
      Transition(s, InitVisibility, updateVisibility, getTileName, width, height)
      == Next(s.(currentMap := Some(updateVisibility(s.playerPosition, s.currentMap.value))))
  {
  }

  /**
   * Moving, relighting, hovering and hovering away keep the player alone on a
   * non-wall cell; so does an update that writes "Player" into the player's
   * cell and into no other, and does not turn the player's cell into a '#'
   * tile.
   */
  lemma TransitionKeepsConsistent(s: GameState, a: GameAction, updateVisibility: (Position, Grid) -> Grid,
                                  getTileName: TileType -> Option<string>, width: int, height: int)
    requires Consistent(s, width, height) && KeepsLayout(updateVisibility, width, height)
    requires !a.SetCurrentMap? && !a.InitPlayerSpawn?
    requires a.UpdateCell? ==> (a.update.cellData.content == PLAYER <==> a.update.position == s.playerPosition)
    requires a.UpdateCell? ==> a.update.cellData.tile != WALL || a.update.position != s.playerPosition
    requires a.UpdateCell? && s.currentMap.Some? ==> InRange(s.currentMap.value, a.update.position)
    ensures Admissible(s, a, width, height)
    ensures Transition(s, a, updateVisibility, getTileName, width, height).Next? ==>
      Consistent(Transition(s, a, updateVisibility, getTileName, width, height).state, width, height)
  {
    match a
    case MovePlayer(d) =>
      MoveKeepsConsistent(s, d, updateVisibility, width, height);
    case UpdateCell(u) =>
      if s.currentMap.Some? {
        UpdateCellSolePlayer(s.currentMap.value, s.playerPosition, u.position, u.cellData);
      }
    case InitVisibility =>
      if s.currentMap.Some? {
        var g := s.currentMap.value;
        SameLayoutKeepsSolePlayer(g, updateVisibility(s.playerPosition, g), s.playerPosition);
      }
    case HoverCell(_) =>
    case HoverAwayFromCell =>
  }
}
