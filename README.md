# Game-state reducer of move-roguelike, in Dafny

This project models the core of the move-roguelike dungeon game: the game-state reducer in
`src/reducers/game.ts` and the item table in `src/constants/items.ts` that it uses.

The reducer is a deterministic state machine over a `GameState`. The state holds:

- a grid of cells that may be absent (`currentMap`);
- the player's position and previous position;
- the direction the player faces;
- a flag asking the view to animate the player;
- the interaction text shown to the player.

Seven actions drive the reducer: move the player, set the map, set the spawn, update one cell,
recompute visibility, hover a cell (which builds a narration sentence) and hover away.

Files:

- `optional.dfy`: `Option`, which stands for the source's `undefined` and `null`.
- `items.dfy` (module `Items`): the five item kinds, the `ITEMS` table with the phrase for each,
  and `getItem`, a first-match lookup.
- `cells.dfy` (module `Cells`): positions, cells and the grid, indexed `[y][x]`.
  - It also holds the three single-cell writes the reducer performs: replace a cell, set a cell's
    content, and move the player's content.
  - "Player alone at p" is the predicate `SolePlayerAt`.
- `game.dfy` (module `Game`): the actions, `GameState`, `INITIAL_STATE`, and the reducer written
  twice.
  - As functions from state to state: `AfterMove`, `AfterUpdateCell`, `AfterHover` and the
    dispatcher `Transition`. The move decision is `Decide` and the narration is `Narrate`.
  - As a class: `GameStore` holds the fields, and its handlers write them one by one, as the
    source writes its draft. Each handler is proved to produce exactly the state the matching
    function gives.
- `game_properties.dfy` (module `GameProperties`): the promises of the reducer, stated against
  independent descriptions. These are:
  - `Neighbour`, the cell one step away;
  - `SolePlayerAt`, the single player cell;
  - the narration rules;
  - the item table.

Three collaborators are passed in, because their code is not part of this model:

- `updateVisibility(position, map)` is a function parameter. Nothing is assumed about it, except
  in the lemmas that say so through `KeepsLayout`.
- `getTile(tile)?.nameInSentence` is the parameter `getTileName`.
- The configuration constants `GRID_WIDTH` and `GRID_HEIGHT` are the `GameStore` constructor's
  arguments. They are the `width` and `height` parameters of the functions.

The model follows the code as written, including these behaviours:

- **Right edge.** A right move computes its probe column with `< GRID_WIDTH`, so from the last
  column it reads the cell one past the row. Reading `.tile` of `undefined` throws, so that
  dispatch ends in `Threw` (the thrown `TypeError`) and the state is left unchanged. The edge is not treated
  as a wall.
- **Dark verb.** The verb for a dark cell is spelled "remember seing".
- **Dim verb.** For a dim cell "get a glimpse of" wins, because the last assignment to the verb
  is the one that counts.
- **Failed lookup.** When an item lookup or a tile lookup finds nothing, the sentence contains
  the word "undefined". It is not dropped.
- **Refused move.** A refused move still turns the player to face the requested direction.

## Model

| member | source | states |
|---|---|---|
| Items.FindIndex | src/constants/items.ts:48-50 | the index found is the first entry whose type matches; none is found exactly when no entry matches |
| Items.GetItem | src/constants/items.ts:48-50 | the entry returned is in `ITEMS`, carries the requested type and is the first such entry; an entry is found exactly for the five item kinds |
| Items.ItemsTableShape | src/constants/items.ts:15-46 | `ITEMS` has five entries, one per `ItemType` member in order, with pairwise distinct types |
| Items.GetItemDefinedForItemTypes | src/constants/items.ts:4-50 | every item kind is found, and found at the entry that carries it |
| Items.DistinctTypesOccurOnce | src/constants/items.ts:15-46 | in a table with pairwise distinct types, each entry's type occurs exactly once |
| Items.EachItemTypeOnce | src/constants/items.ts:4-46 | each of the five `ItemType` members occurs exactly once in `ITEMS` |
| Items.PhraseTable | src/constants/items.ts:15-46 | Sword is 'a sword', Ruby 'a ruby', Key 'a key', Coins 'small coins' and ManyCoins 'a lot of coins' |
| Cells.SetCell | src/reducers/game.ts:200 | the grid keeps its shape, the addressed cell becomes the new data, and every other cell is unchanged |
| Cells.SetContent | src/reducers/game.ts:126-129 | only the addressed cell's content changes; tiles, lighting and revealed flags of all cells stay |
| Cells.MoveContent | src/reducers/game.ts:124-129 | the destination holds "Player", the old cell is emptied (0), and every other cell and every tile and lighting field is unchanged |
| Cells.SameLayoutKeepsSolePlayer | src/reducers/game.ts:132 | a relit map that keeps shape, tiles and contents keeps its single player cell where it was |
| Cells.MoveContentKeepsSolePlayer | src/reducers/game.ts:126-129 | if the old cell is the only player cell, then after the content move the destination is the only one |
| Game.Neighbour | src/reducers/game.ts:144-193 | the cell one step in the direction: one coordinate changes, by one, with the sign of the direction |
| Game.Decide | src/reducers/game.ts:144-193 | the tile read falls off the map exactly on a right move from the last column, at column `GRID_WIDTH`; an accepted move goes to the neighbouring cell, which is on the map and not '#'; conversely, apart from the right-edge case, a move onto an on-map, non-'#' neighbour is accepted |
| Game.Probe | src/reducers/game.ts:146-186 | the cell whose tile is read (`nextTileX`, `nextTileY`) is the player's own cell or the neighbour in the direction, and the neighbour whenever the edge guard holds |
| Game.LeavesEdge | src/reducers/game.ts:151-189 | for a player on the map, the edge guard of each direction (`x > 0`, `x < GRID_WIDTH - 1`, `y > 0`, `y < GRID_HEIGHT - 1`) holds exactly when the neighbouring cell is on the map |
| Game.AfterMove | src/reducers/game.ts:114-194 | `reduceMovePlayer` as a function: without a map nothing changes. Otherwise the text is kept and the player faces the direction. It animates exactly when it changed cell, and when it stays only the facing and the animation flag change |
| Game.AfterUpdateCell | src/reducers/game.ts:196-202 | `reduceUpdateCell` as a function: only the map may change, it stays present or absent, and it keeps its shape |
| Game.VerbFor | src/reducers/game.ts:216-228 | the verb table the reassignment chain produces: "see" exactly for clear, "get a glimpse of" exactly for dim, "remember seing" exactly for dark |
| Game.Interpolated | src/reducers/game.ts:238 | a template literal renders a present string as itself and an absent one as "undefined" |
| Game.ItemName | src/reducers/game.ts:233 | `getItem(content)?.nameInSentence` is present exactly for the five item kinds, and is then the phrase of the first `ITEMS` entry of that kind |
| Game.ObjectPhrase | src/reducers/game.ts:230-236 | an item kind gives its table phrase, any other tag gives "undefined", and an empty cell (0) gives the rendered tile phrase |
| Game.Narrate | src/reducers/game.ts:204-239 | there is no sentence exactly for an unrevealed non-player cell; the player's cell gives "This is you."; any other sentence starts with "You " and ends with "." |
| Game.AfterHover | src/reducers/game.ts:204-240 | `reduceHoverCell` as a function: only the text may change; when there is a narration sentence the text becomes it, and when there is none the state is unchanged |
| Game.Transition | src/reducers/game.ts:242-263 | `game` as a function: only a move can throw. Only moving, setting the map, updating a cell and relighting change the map; only hovering and hovering away change the text; only moving and setting the spawn move the player |
| Game.GameStore.constructor | src/reducers/game.ts:96-110 | the state is the constant `INITIAL_STATE`: no map, facing Right, at [0, 0], not animating, "You enter the dungeon." |
| Game.GameStore.MoveToNewPosition | src/reducers/game.ts:123-140 | the content moves, the map is relit from the new position, the previous position is the old one, animation is on and the facing is the requested direction |
| Game.GameStore.MoveAndStayAtSamePosition | src/reducers/game.ts:142 | only the facing (now the requested direction) and the animation flag (now false) change |
| Game.GameStore.ReduceMovePlayer | src/reducers/game.ts:114-194 | the new state is `AfterMove` of the old one; when the probed cell is missing it reports the throw and changes nothing |
| Game.GameStore.ReduceUpdateCell | src/reducers/game.ts:196-202 | only the map changes, to `AfterUpdateCell` of the old state |
| Game.GameStore.ReduceHoverCell | src/reducers/game.ts:204-240 | only the interaction text changes; the verb chosen by successive reassignment agrees with the narration rules of `AfterHover` |
| Game.GameStore.Dispatch | src/reducers/game.ts:242-263 | the new state is `Transition` of the old state and the action; a throw leaves the state as it was |
| GameProperties.MoveWithoutMapIsNoOp | src/reducers/game.ts:119-121 | without a map a move returns the state unchanged |
| GameProperties.RightEdgeThrows | src/reducers/game.ts:156-163 | a move throws exactly when it goes right from column `GRID_WIDTH - 1`, at the missing cell [GRID_WIDTH, y] |
| GameProperties.RefusedMove | src/reducers/game.ts:142-192 | apart from the right-edge case, a move is refused exactly when the neighbouring cell is off the map or a '#' tile; a refused move changes only the facing and the animation flag |
| GameProperties.AcceptedMove | src/reducers/game.ts:123-190 | a move onto a neighbouring non-'#' cell that is on the map steps there, moves the content, relights the map, records the previous position, animates and faces the direction |
| GameProperties.MoveIsOneStep | src/reducers/game.ts:144-193 | after any move the player is where it was or on the neighbouring cell; if it moved, the previous position is the old one, it animates and faces the direction |
| GameProperties.MoveKeepsConsistent | src/reducers/game.ts:123-138 | if the visibility pass keeps tiles and contents, a move keeps the player alone, on the map and not on a wall |
| GameProperties.UpdateCellTouchesOneCell | src/reducers/game.ts:196-202 | an update replaces exactly the cell at [position[1]][position[0]] and nothing else; without a map it does nothing |
| GameProperties.UpdateCellSolePlayer | src/reducers/game.ts:200 | an update keeps the single player cell exactly when it writes "Player" into the player's cell and into no other |
| GameProperties.HoverOwnCell | src/reducers/game.ts:207-210 | hovering a "Player" cell sets the text "This is you.", whatever its lighting or revealed flag |
| GameProperties.HoverUnrevealed | src/reducers/game.ts:212-214 | hovering any other unrevealed cell leaves the state unchanged, text included |
| GameProperties.HoverRevealed | src/reducers/game.ts:216-239 | a revealed non-player cell reads "You get a glimpse of X." when dim, "You remember seing X." when dark and "You see X." otherwise; only the text changes |
| GameProperties.ObjectPhraseRules | src/reducers/game.ts:230-238 | X is the item's table phrase when the cell holds an item kind, the tile's phrase when it holds 0, and "undefined" when either lookup finds nothing |
| GameProperties.NarrationTellsLightingApart | src/reducers/game.ts:216-238 | two revealed cells that differ only in lighting get the same sentence exactly when their lighting is the same |
| GameProperties.OnlyRightEdgeThrows | src/reducers/game.ts:242-263 | the only dispatch that throws is a right move from the last column of a map |
| GameProperties.OtherActions | src/reducers/game.ts:246-261 | setting the map replaces it, and setting the spawn sets both positions. Hovering away clears the text, and hovering changes only the text. Recomputing visibility relights the map from the player's position, or does nothing without a map |
| GameProperties.TransitionKeepsConsistent | src/reducers/game.ts:242-263 | moving, relighting, hovering and hovering away keep the player alone on a non-wall cell, given a layout-keeping visibility pass. So does an update that puts "Player" in the player's cell and in no other, and does not turn the player's cell into a '#' tile |

## Left out

- `updateVisibility` (src/utils/updateVisibility) is not part of this model. It is a function parameter with no stated behaviour, so two promises of the visibility pass are not modelled: a revealed flag never reverts, and relighting twice gives the same map. Where a lemma needs the pass to keep tiles and contents, it says so in its requirement `KeepsLayout`.
- `getTile` (src/constants/tiles) is not part of this model. The phrase it gives is the parameter `getTileName`, which returns `None` when the lookup fails.
- `GRID_WIDTH`, `GRID_HEIGHT` and `INITIAL_MAX_HP` (src/constants/config) are not part of this model. The grid dimensions are constructor arguments.
- `characterName`, `hp`, `maxHp`, `gold`, `equipedItems`, `inventory` and `eventLogs` are not modelled. No handler reads or writes them after initialisation.
- `spritePosition` and `imageSrc` of `ITEMS` are not modelled. They are rendering data.
- Game.GameStore.ReduceMovePlayer requires a map of `GRID_HEIGHT` rows of `GRID_WIDTH` cells with the player on it. A ragged map or an off-map player is a caller error that the model does not describe.
- Game.GameStore.ReduceUpdateCell, Game.AfterUpdateCell, Game.Transition (through `Admissible`) and GameProperties.UpdateCellTouchesOneCell require the addressed cell of an update to exist. With a missing row the source throws. With a column past the row's end, JavaScript grows the row. Neither case is modelled.
- Mutating a draft versus returning a fresh object is not distinguished. A handler that throws is modelled as the state left unchanged, which is how the draft is discarded.
- Unrecognised action tags are not modelled: `GameAction` is a closed datatype.
- `SetCurrentMap` and `InitPlayerSpawn` are not checked by the source. They can break the "one player cell at the player position" invariant, so `TransitionKeepsConsistent` leaves them out.
- The two `MapGenerator/Toolbar.tsx` files are not modelled. They are React display glue with no game logic.
