# EXC_ArrangeStateIcons: grid placement and paged state icons

EXC_ArrangeStateIcons is an RPG Maker MZ plugin. It replaces an actor's single
cycling status-icon sprite on the battle status window with a grid of
`RowMax × ColumnMax` icon slots. When the actor has more status icons than slots,
the grid pages through them.

This project models the plugin's two pieces of logic:

- **Grid placement** (`Window_BattleStatus.prototype.placeStateIcon`), module
  `GridPlacement` in `grid_placement.dfy`. The two nested loops become a method
  that appends one `Slot` record per iteration. Each record holds the slot's
  linear index (the number of slots created before it), its column count
  `xCount` and row count `yCount` from the anchor, and its absolute position.
  The method is proved equal to a closed form `SlotAt`. The lemmas show that:
  - the slots' cells cover the `colMax × rowMax` grid exactly once for both
    fill directions;
  - slots sit at distinct positions whenever an icon plus its padding has a
    non-zero size;
  - neighbouring slots of one loop group are one icon step apart.
- **Paged icon renderer** (`Sprite_StateIconChild`), module `StateIconPaging`
  in `state_icon_paging.dfy`. It is a class whose fields are the ones the sprite
  updates in place: `index`, `pageIndex`, `animationIndex`, `icon` and
  `opacity`. `UpdateIcon` takes the actor's current icon list as a sequence. Its
  contract is stated against the functions `TargetIndex`, `PageCount` and
  `NextPage`. The lemmas about those functions show that a fixed list is paged
  round in cycles of `ceil(N / maxIcons)` updates, and that within one cycle
  every icon position is shown by exactly one (slot, update) pair.

The layout parameters are an explicit `Layout` value (`layout_config.dfy`), with
enumerations for RowAlign (上/下 as `Up`/`Down`), ColumnAlign (左/右 as
`Left`/`Right`) and IconsAlign (縦/横 as `Vertical`/`Horizontal`). The host's
icon size (`ImageManager.iconWidth`, `iconHeight`) is passed in as parameters.
`arith.dfy` holds the facts about division and remainder that the proofs share.

About the inherited base update (`Sprite_StateIcon.prototype.updateIcon` of the
host engine, which is not part of this model): `BaseUpdateIcon` takes it to
- advance `animationIndex` by one, wrapping to 0 at the end of the list;
- show `icons[animationIndex]`;
- set both the index and the icon to 0 when the list is empty.
On the path the plugin uses, `animationIndex` is first set to `TargetIndex - 1`.
So the wrap never fires, and the icon shown is `icons[TargetIndex]`.

With an empty icon list the code calls only the base update and resets the
page counter. It does not change `opacity`. The slot becomes blank because the
base update selects icon 0, the blank icon. `UpdateIcon` follows the code, so
its contract keeps `opacity` unchanged on that path. Describing the empty case
as "opacity 0" does not match the code.

## Model

| member | source | states |
|---|---|---|
| GridPlacement.PlaceStateIcon | EXC_ArrangeStateIcons.js:143-197 | returns exactly rowMax*colMax slots; the k-th slot created has index k and is SlotAt(k): outer loop over columns for 縦 and over rows otherwise, and position x + offsetX + (iconWidth+padding)*xCount*(-1 for 左, else 1), y + offsetY + (iconHeight+padding)*yCount*(-1 for 上, else 1) |
| GridPlacement.CellOf | EXC_ArrangeStateIcons.js:147-172 | every slot index below rowMax*colMax gets a column count below colMax and a row count below rowMax |
| GridPlacement.GridCoversEachCellOnce | EXC_ArrangeStateIcons.js:157-172 | each (column, row) cell of the colMax-by-rowMax grid is the cell of one slot, and of no other slot, for both IconsAlign settings |
| GridPlacement.CellOfInjective | EXC_ArrangeStateIcons.js:157-172 | two different slots never get the same (column, row) cell |
| GridPlacement.SlotPositionsDistinct | EXC_ArrangeStateIcons.js:175-187 | when iconWidth+padding and iconHeight+padding are non-zero, no two slots share a position |
| GridPlacement.NeighbourSlotStep | EXC_ArrangeStateIcons.js:157-187 | consecutive slots in one outer group keep x (縦) or y (横) and move by one icon step plus padding in the other coordinate, in the direction RowAlign or ColumnAlign gives |
| GridPlacement.DefaultLayoutExample | EXC_ArrangeStateIcons.js:186-187 | with OffsetX -105, OffsetY -2, Padding 2, 3 rows, 4 columns, 下, 右, 横, anchor (100,100) and 32-pixel icons, slots 0, 1 and 4 are at (-5,98), (29,98) and (-5,132) |
| StateIconPaging.PageCount | EXC_ArrangeStateIcons.js:260 | the page count r for n icons is Math.ceil(n / maxIcons): n <= r*maxIcons < n + maxIcons |
| StateIconPaging.NextPage | EXC_ArrangeStateIcons.js:259-263 | the next page counter is 0 for an empty list, is below the page count of a non-empty list even if the list shrank, and is 0 whenever the list fits on one page |
| StateIconPaging.PageCycle | EXC_ArrangeStateIcons.js:259-263 | with a fixed non-empty list, the page counter after t updates from page 0 is t mod ceil(n / maxIcons) |
| StateIconPaging.PagesInCycle | EXC_ArrangeStateIcons.js:259-263 | within the first cycle the page counter equals the number of updates so far |
| StateIconPaging.CycleShowsEachIconOnce | EXC_ArrangeStateIcons.js:240-263 | over one page cycle from page 0, icon position k < n is shown by slot k mod maxIcons on update k / maxIcons, and by no other (slot, update) pair of that cycle |
| StateIconPaging.StateIconChild.constructor | EXC_ArrangeStateIcons.js:219-223 | a new slot has index -1 and page 0, and starts with the base widget's cleared icon state |
| StateIconPaging.StateIconChild.SetIndex | EXC_ArrangeStateIcons.js:275-277 | records the slot number and changes nothing else |
| StateIconPaging.StateIconChild.BaseUpdateIcon | EXC_ArrangeStateIcons.js:251 | the inherited step the plugin calls: advance the list position by one (wrapping), show that icon; an empty list clears position and icon |
| StateIconPaging.StateIconChild.UpdateIcon | EXC_ArrangeStateIcons.js:232-271 | non-empty list with t = index + maxIcons*pageIndex < n: opacity becomes DefaultOpacity and the icon is icons[t]; t >= n: opacity 0, icon kept; empty list: icon 0, opacity kept; the page counter becomes NextPage, so it is below ceil(n / maxIcons) after a non-empty update and 0 when n <= maxIcons |

## Left out

- Parameter parsing through `PluginManager.parameters` and the `Number(…)`/`String(…)` coercions (lines 117-128): the model takes a `Layout` value instead. Neither the fallback 縦 for IconsAlign (line 128) nor the declared default 横 (line 109) is built in.
- Non-integer parameter values, which JavaScript's `Number` would accept: every parameter is an integer here, and DefaultOpacity is in 0..255 as the parameter declares.
- The script-name lookup through `document.currentScript` (line 111), which is browser plumbing.
- Sprite plumbing: the key string, `createInnerSprite`, `setup`, `move`, `show`, hiding the original sprite, and the prototype wiring (lines 136-141, 160, 190-195, 206-215). `PlaceStateIcon` returns the slot records instead of sprites. A renderer is modelled as a `StateIconChild` built from the layout and numbered with `SetIndex`.
- The tick cadence: `animationWait` returning ChangeSpan (lines 226-228), and the host frame counter that decides when `updateIcon` runs. One `UpdateIcon` call is one page step.
- `shouldDisplay()` and `_battler.allIcons()` (lines 235-236): the icon list they produce is the `icons` input.
- The host's `updateFrame` drawing, and the opacity clamp of the host sprite.
- A layout with rowMax*colMax = 0: no slot is created, so `updateIcon` is never called. `UpdateIcon` therefore requires maxIcons >= 1.
- UpdateIcon: requires a numbered slot (index >= 0). `placeStateIcon` calls `setIndex` on every slot before the host can update it, and the code's behaviour with index -1 (reading `icons[-1]`) is not modelled.
