# Drag auto-scroller and list-editing utilities, in Dafny

This project models two parts of a browser note/todo front-end.

1. **`AutoScroller`** (`app_bak/src/components/Sortable/SortableHOC/AutoScroller.ts`).
   It is the controller that scrolls a container while a list item is dragged near one of its edges.
   - `update(translate)` reads six scroll metrics and derives the flags `isTop`, `isBottom`, `isLeft` and `isRight`.
   - It picks at most one direction, trying down, right, up and left in that order.
   - The speed is ten times the distance past the half-box threshold, divided by the box's extent.
   - It clears the running interval timer and starts a new one only when a direction was picked.
   - Each tick adds the offset to `scrollTop`/`scrollLeft` and reports it to `onScroll`.
   - `stop()` clears the timer.
2. **List utilities** (`app_bak/src/modules/task/utils.tsx`).
   - `createTodo` and `createBookmark` build records.
   - `findIndex` and `find` look records up by `id`.
   - `insertAfter` and `move` edit the list in place.
   - `paste` turns clipboard text into the target record's text plus new records right after it.

Files:

- `wrappers.dfy`: `Option`.
- `auto_scroller.dfy`, module `AutoScroll`, covers `AutoScroller.ts`.
  - The decision of one `update` is the pure function `Choose`; the lemmas about the decision are stated on it.
  - The class `Container` stands for the scrolled element.
  - The class `AutoScroller` has the methods `Stop`, `Update` and `Tick`.
  - Its `interval: Option<Plan>` field is the one-slot timer handle. It holds the direction and speed the timer's callback captured.
  - The ghost counters `timersStarted` and `timersCleared` count every `setInterval` and `clearInterval`. `Valid()` says their difference is 1 exactly when the slot is full and 0 otherwise. So at most one timer is ever live.
  - The ghost `scrollLog` records every offset passed to `onScroll`.
- `line_text.dfy`, module `LineText`: the text steps of `paste`, in order:
  1. `split('\n')`;
  2. the bullet pattern `^[\W]*(-|\*) (\[( |x)\] )?`;
  3. `trim()`;
  4. the empty-line filter.
- `task_utils.dfy`, module `TaskUtils`: the rest of `utils.tsx`.
  - The mutated array is the `items` field of the class `Collection`.
  - `InsertAfter`, `Move` and `Paste` are methods on it.
  - Each method's contract gives the new list as a function of the old one.
  - The lemmas state the properties of those functions.

The priority chain is not vertical-first. The code checks Scroll Right (`AutoScroller.ts:81`) before Scroll Up (`:87`). So when both conditions hold and Scroll Down's does not, the container scrolls right (`AutoScroll.RightBeforeUp`).

## Model

| member | source | states |
|---|---|---|
| AutoScroll.Choose | app_bak/src/components/Sortable/SortableHOC/AutoScroller.ts:48-99 | At most one axis gets a direction, and each direction is -1, 0 or +1. An axis not chosen keeps speed 1. Speeds are never negative. A direction is chosen exactly when one of the four edge conditions holds. |
| AutoScroll.FirstMatchWins | app_bak/src/components/Sortable/SortableHOC/AutoScroller.ts:75-99 | Each direction (down, right, up, left, none) is chosen if and only if its condition holds and no earlier condition in the chain holds. |
| AutoScroll.DownHasPriority | app_bak/src/components/Sortable/SortableHOC/AutoScroller.ts:75-81 | If `translate.y >= maxTranslate.y - height/2` and the container is not at the bottom, the direction is down, whatever the other conditions say. |
| AutoScroll.RightBeforeUp | app_bak/src/components/Sortable/SortableHOC/AutoScroller.ts:81-92 | When the right and up conditions both hold and down does not, right is chosen. |
| AutoScroll.BoundarySuppression | app_bak/src/components/Sortable/SortableHOC/AutoScroller.ts:70-99 | At the bottom, right, top or left edge, the direction towards that edge is never chosen, for any translation. |
| AutoScroll.SpeedFormula | app_bak/src/components/Sortable/SortableHOC/AutoScroller.ts:78-98 | On the chosen axis, speed = 10 * \|threshold - translate\| / extent. The source's `abs((a)/h)` is shown equal to `abs(a)/h` for positive h. |
| AutoScroll.DownSpeedMonotone | app_bak/src/components/Sortable/SortableHOC/AutoScroller.ts:75-80 | Once down is chosen, a larger `translate.y` still chooses down, with a speed that is no smaller. |
| AutoScroll.RightSpeedMonotone | app_bak/src/components/Sortable/SortableHOC/AutoScroller.ts:81-86 | Once right is chosen, a larger `translate.x` at the same height still chooses right, with a speed that is no smaller. |
| AutoScroll.UpSpeedMonotone | app_bak/src/components/Sortable/SortableHOC/AutoScroller.ts:87-92 | Once up is chosen, a smaller `translate.y` at the same x still chooses up, with a speed that is no smaller. |
| AutoScroll.LeftSpeedMonotone | app_bak/src/components/Sortable/SortableHOC/AutoScroller.ts:93-98 | Once left is chosen, a smaller `translate.x` at the same height still chooses left, with a speed that is no smaller. |
| AutoScroll.TickFollowsPlan | app_bak/src/components/Sortable/SortableHOC/AutoScroller.ts:107-110 | The tick offset is 0 on the axis not chosen, because speed 1 is multiplied by direction 0. On the chosen axis it is plus or minus the speed, with the direction's sign. |
| AutoScroll.TickOffset | app_bak/src/components/Sortable/SortableHOC/AutoScroller.ts:107-110 | On an axis with direction 0 the offset is 0; with direction +1 or -1 it is plus or minus that axis's speed. |
| AutoScroll.ScrollDownNearBottom | app_bak/src/components/Sortable/SortableHOC/AutoScroller.ts:70-99 | A box 40 high at y = 470 with bounds 0..480, in an unscrolled 1000/500 container, scrolls down at speed 2.5. With `scrollTop` = 500 (at the bottom), nothing is chosen. |
| AutoScroll.ScrollUpAtBottom | app_bak/src/components/Sortable/SortableHOC/AutoScroller.ts:70-99 | In a container at the bottom, y = 0 scrolls up at speed 5 and y = 10 scrolls up at speed 2.5. |
| AutoScroll.AutoScroller.constructor | app_bak/src/components/Sortable/SortableHOC/AutoScroller.ts:22-36 | Stores the container, box size and bounds as given. It starts with no timer and an empty scroll log. |
| AutoScroll.AutoScroller.LiveTimers | app_bak/src/components/Sortable/SortableHOC/AutoScroller.ts:101-116 | Under the invariant, the number of live timers (started minus cleared) is 0 or 1, and it is 1 exactly when the handle slot is full. |
| AutoScroll.AutoScroller.Stop | app_bak/src/components/Sortable/SortableHOC/AutoScroller.ts:38-43 | Afterwards no timer is live. A live timer is cleared exactly once. With no timer, nothing changes at all, so a second call is a no-op. |
| AutoScroll.AutoScroller.Update | app_bak/src/components/Sortable/SortableHOC/AutoScroller.ts:45-117 | Any previous timer is cleared (one more clear exactly when one was live). The new handle holds `Choose` of the translation, the box and the container's current metrics, and is set exactly when that plan moves. One timer is started exactly when the handle is set. The invariant is kept and the scroll log is untouched. |
| AutoScroll.AutoScroller.Tick | app_bak/src/components/Sortable/SortableHOC/AutoScroller.ts:106-115 | Adds the captured offset's `top` to `scrollTop` and its `left` to `scrollLeft`. Appends exactly that offset to the scroll log. The other four metrics and the timer state are unchanged. |
| AutoScroll.Container.constructor | app_bak/src/components/Sortable/SortableHOC/AutoScroller.ts:61-68 | A container whose metrics read back as the given ones. |
| AutoScroll.Container.ReadMetrics | app_bak/src/components/Sortable/SortableHOC/AutoScroller.ts:61-68 | The six metrics `update` reads: the current values of `scrollTop`, `scrollLeft`, `scrollHeight`, `scrollWidth`, `clientHeight` and `clientWidth`. |
| LineText.SplitLines | app_bak/src/modules/task/utils.tsx:68 | There is always at least one piece, and no piece contains a line feed. |
| LineText.JoinSplitLines | app_bak/src/modules/task/utils.tsx:68 | Joining the pieces back with line feeds gives the original text: splitting loses nothing. |
| LineText.LastBulletBefore | app_bak/src/modules/task/utils.tsx:69 | Finds the last `- ` or `* ` that starts before the given position, or reports that there is none. |
| LineText.BulletMatchIsPattern | app_bak/src/modules/task/utils.tsx:69 | If there is a last bullet inside the leading run of non-word characters, it is the last bullet that `^[\W]*` can reach (only non-word characters before it, and no reachable bullet after it). If that run holds no bullet, no bullet anywhere is reachable. This is the greedy-then-backtracking match of the pattern. |
| LineText.NoReachableBulletAfterRun | app_bak/src/modules/task/utils.tsx:69 | A bullet at or after the first word character is never reachable. |
| LineText.LastReachableBulletUnique | app_bak/src/modules/task/utils.tsx:69 | There is at most one last reachable bullet, so the match below is determined. |
| LineText.BulletMatchEnd | app_bak/src/modules/task/utils.tsx:69 | When the pattern matches, the match covers at least the 2 bullet characters and does not run past the line. Where exactly it ends is stated by `StripBulletIsReplace`. |
| LineText.StripBullet | app_bak/src/modules/task/utils.tsx:69 | The result is always a suffix of the line, and it is the line itself when the pattern does not match. What is removed on a match is stated by `StripBulletIsReplace`. |
| LineText.StripBulletIsReplace | app_bak/src/modules/task/utils.tsx:69 | With no reachable bullet, nothing matches and the line is unchanged. With one, the match ends after the last reachable bullet p: at p+6 when `[ ] ` or `[x] ` follows it, else at p+2. The result is the line from there on, so at least 2 characters shorter. |
| LineText.StripAtLastBullet | app_bak/src/modules/task/utils.tsx:69 | At the last bullet of the leading non-word run, the match ends after the bullet and its checkbox if any, and stripping keeps the rest of the line. |
| LineText.StripBulletedLine | app_bak/src/modules/task/utils.tsx:69 | `- [x] done` loses its bullet and its checkbox and becomes `done`. |
| LineText.Trim | app_bak/src/modules/task/utils.tsx:70 | The result is a slice of the input. Only white space is cut from either end, and the result neither starts nor ends with white space. |
| LineText.CleanLine | app_bak/src/modules/task/utils.tsx:69-70 | A cleaned line holds only characters of the line and neither begins nor ends with white space. |
| LineText.CleanLineIsSlice | app_bak/src/modules/task/utils.tsx:69-70 | A cleaned line is a slice of the part of the line that bullet stripping keeps, so no bullet or checkbox character survives. |
| LineText.TrimOfSuffix | app_bak/src/modules/task/utils.tsx:70 | Trimming a suffix of a line gives a slice of the line that starts no earlier than the suffix. |
| LineText.CleanBulletedLine | app_bak/src/modules/task/utils.tsx:69-70 | `- [x] done` cleans to `done`. |
| LineText.NonEmpty | app_bak/src/modules/task/utils.tsx:71 | Every kept line is non-empty and comes from the input, and every non-empty input line is kept. |
| LineText.NonEmptyAppend | app_bak/src/modules/task/utils.tsx:71 | Filtering distributes over concatenation, so order is kept block by block. |
| LineText.PastedLines | app_bak/src/modules/task/utils.tsx:67-71 | At most as many lines as the clipboard has pieces. Every line is non-empty, has no line feed, and neither begins nor ends with white space. Every line is the cleaned form of a clipboard piece, and every piece whose cleaned form is non-empty is kept. Order is kept, by `NonEmptyAppend`. |
| LineText.CleanAll | app_bak/src/modules/task/utils.tsx:69-70 | One cleaned line per piece, each the `CleanLine` of the piece at the same position. |
| LineText.PastedFromLines | app_bak/src/modules/task/utils.tsx:69-71 | The `PastedLines` promise for any sequence of single lines. |
| LineText.CleanedLinesPastable | app_bak/src/modules/task/utils.tsx:69-71 | Cleaning and filtering single lines leaves only non-empty, single, trimmed lines. |
| LineText.CleanLinePastable | app_bak/src/modules/task/utils.tsx:69-70 | A single line that cleans to a non-empty text cleans to one without line feeds and with no white space at either end. |
| LineText.NonEmptyPastable | app_bak/src/modules/task/utils.tsx:71 | When every non-empty input is pastable, everything the filter keeps is pastable. |
| TaskUtils.CreateTodo | app_bak/src/modules/task/utils.tsx:4-15 | A todo with the given id, never completed or auto-completed. Its `ident` is the preceding todo's, or 0. Its text is the given text, or empty. |
| TaskUtils.CreateBookmark | app_bak/src/modules/task/utils.tsx:17-22 | A bookmark with the given id and the given uri, or the empty uri. |
| TaskUtils.FindIndex | app_bak/src/modules/task/utils.tsx:24-26 | The result is -1 exactly when no record has the id. Otherwise it is the smallest index whose record has the id. |
| TaskUtils.Find | app_bak/src/modules/task/utils.tsx:28-31 | For an id that is present, returns a record with that id, and it is the first such record in the list. |
| TaskUtils.InsertPosition | app_bak/src/modules/task/utils.tsx:38-44 | With no anchor, or an anchor not in the list, the position is the end. Otherwise it is just after the first record with the anchor's id. |
| TaskUtils.InsertAt | app_bak/src/modules/task/utils.tsx:43 | `splice(p, 0, x)`: one longer, `x` at `p`, everything before `p` and everything from `p` on kept in order around it. |
| TaskUtils.RemoveAt | app_bak/src/modules/task/utils.tsx:57 | `splice(i, 1)`: one shorter, records before `i` in place, records after `i` moved one place forward. |
| TaskUtils.Moved | app_bak/src/modules/task/utils.tsx:55-58 | Same length; the record from `src` is at `dst`; records before both positions and after both positions stay where they were. |
| TaskUtils.InsertAtKeepsOthers | app_bak/src/modules/task/utils.tsx:38-44 | Removing the inserted record gives back the old list, so all earlier records keep their relative order. The multiset grows by exactly the new record. |
| TaskUtils.SpliceIsMove | app_bak/src/modules/task/utils.tsx:55-58 | The two splices (take out at `index`, put back at `index + by`) give exactly the move: the records in between shift one place, all others stay. |
| TaskUtils.MovedIsRelocation | app_bak/src/modules/task/utils.tsx:47-59 | After a move the record sits at `index + by`. Removing it from there gives the list with it removed from `index`, so the other records keep their order. Length and multiset are preserved. |
| TaskUtils.Reverse | app_bak/src/modules/task/utils.tsx:78 | Same length, and element k is element \|xs\|-1-k of the input. |
| TaskUtils.InsertEachAt | app_bak/src/modules/task/utils.tsx:78-80 | Inserting records one after another at position `p` adds exactly their number. Everything before `p` stays before them and everything from `p` on stays after them. |
| TaskUtils.NewRecords | app_bak/src/modules/task/utils.tsx:79 | One new record per text. |
| TaskUtils.NewRecordsAt | app_bak/src/modules/task/utils.tsx:79 | The record for the j-th text is `fnNew` of the anchor and the j-th text, so the records follow the texts' order. |
| TaskUtils.NewRecordsPrefix | app_bak/src/modules/task/utils.tsx:78-79 | One more text adds exactly its record at the end. |
| TaskUtils.NewRecordsReverse | app_bak/src/modules/task/utils.tsx:78-79 | Making records from the reversed texts gives the reversed records. |
| TaskUtils.FindIndexKeptByPrefix | app_bak/src/modules/task/utils.tsx:24-26 | A list that agrees with another up to and including its first match has its first match at the same place. |
| TaskUtils.UpdateKeepsPosition | app_bak/src/modules/task/utils.tsx:73-75 | Updating the found record in place with one keeping its id leaves it the first match. |
| TaskUtils.InsertEachAtStep | app_bak/src/modules/task/utils.tsx:78-80 | Records already inserted after the anchor leave the anchor's first occurrence in place. So the next `insertAfter` lands right after the anchor. |
| TaskUtils.InsertReversedRestoresOrder | app_bak/src/modules/task/utils.tsx:77-80 | Inserting the reversed records one by one at the same position leaves them at that position in their original order. |
| TaskUtils.PastedInOrder | app_bak/src/modules/task/utils.tsx:73-80 | With the target updated in place, the new records of the reversed lines end up right after it, in clipboard order. Everything before and after is unchanged. |
| TaskUtils.Collection.InsertAfter | app_bak/src/modules/task/utils.tsx:33-45 | The new list is the old one with the item placed at `InsertPosition`. |
| TaskUtils.Collection.Move | app_bak/src/modules/task/utils.tsx:47-59 | If the id is missing, or `index + by` is outside the list, the list is unchanged. Otherwise it becomes `Moved(old, index, index + by)`. |
| TaskUtils.Collection.InsertEachAfter | app_bak/src/modules/task/utils.tsx:78-80 | With the anchor present, the `forEach` of `insertAfter` calls inserts each new record right after the anchor's first occurrence, in turn. |
| TaskUtils.Collection.PasteLines | app_bak/src/modules/task/utils.tsx:73-80 | For a present target and at least one line: the target becomes `fnUpdate(target, first line)`, and right after it come `fnNew(target, line)` for the remaining lines in order. Nothing else changes, so the list grows by the number of remaining lines. |
| TaskUtils.Collection.Paste | app_bak/src/modules/task/utils.tsx:61-81 | The same, for the cleaned, non-empty lines of the clipboard text. |

## Left out

- The real `setInterval`/`clearInterval` scheduling, its 5 ms cadence and its jitter. The timer is the `interval` slot, and a tick is an explicit call of `Tick`.
- The `onScroll` callback is not modelled. Its calls appear as the ghost `scrollLog`.
- DOM behaviour of the container is not modelled: browsers clamp `scrollTop`/`scrollLeft` on assignment, and layout changes the metrics. The container is six plain numbers.
- IEEE floating point is not modelled. Numbers are `real`, and `width > 0` and `height > 0` are required at construction instead of reproducing NaN or Infinity from a division by zero.
- `AutoScroll.AutoScroller.constructor`: requires positive `width` and `height`, which the source does not check.
- `generateId` (utils/generateId) is not part of this model. Ids are parameters of `CreateTodo` and `CreateBookmark` and come from `fnNew` in `Paste`.
- `fnUpdate` is a function returning the updated record, which is written back at the target's position, as the shared object would be updated in place. `fnNew` is a function of the anchor record and the text. Any other effect of these callbacks, and the order in which `fnNew` is called, are not modelled.
- `TaskUtils.Collection.Paste`: requires `fnUpdate` to keep the record's id. Requires the target id to be present and at least one non-empty cleaned line. The source, given no non-empty line, calls `fnUpdate` with `undefined`, and given a missing target it passes `undefined` on.
- `TaskUtils.Collection.PasteLines`: has the same three requirements as `Paste`.
- `TaskUtils.Find`: requires the id to be present. The source returns `undefined` cast to the record type, and its comment calls looking up a missing item a bug.
- `TaskUtils.CreateTodo`: takes only the `ident` of the optional `after` argument, the one field the source reads.
- The record types come from `./types`, which is not part of this model. A record is a todo or a bookmark with the fields the constructors set.
- `move`'s `by` is an integer. A fractional `by` indexes `undefined` in the source and returns early, which the model does not express.
- Characters are Unicode scalar values, while JavaScript strings use UTF-16 code units. For `\W` and `trim` this makes no difference: every surrogate is a non-word character, and no white-space character lies outside the Basic Multilingual Plane.
- `app_bak/src/components/Section/index.tsx` is not part of this model; it is presentational only.
