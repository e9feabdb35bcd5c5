# scribe cursor and position, modelled in Dafny

This project models the cursor-and-position layer of the scribe text buffer.

- A `Position` is a `(line, offset)` pair. Its hand-written comparison orders by line first and by offset only when the lines agree. Equality is the derived field-by-field one.
- A `Cursor` holds a position and a *sticky offset*: the offset the user means to keep across vertical moves. Every move goes through `move_to`. `move_to` asks the text store whether the target is in bounds, and then either adopts the target and remembers its offset, or changes nothing.
- `move_up` and `move_down` first try the sticky offset on the neighbouring line. When that fails they fall back to that line's length, or to 0 when the line is not found. Either way they restore the sticky offset afterwards, so a later vertical move can reach it again.

The text store is not part of this model. The cursor sees it as a `TextStore` value with two parts: the content split into lines, and the store's own bounds check `inBounds`, which stays an abstract function. `LinesStore(lines)` is the concrete instance used by the tests. It admits a position when its line exists and its offset is at most that line's length, so the end-of-line slot is in bounds. Each cursor operation receives the store as it is at that moment. So a store edited between two operations is modelled by passing a different store. `Navigation.Run` strings such steps together.

Files:
- `wrappers.dfy`: module `Wrappers`, the `Option` type.
- `position.dfy`: module `Positions`. It holds the position type, the comparison, the operators `<`, `<=`, `>`, `>=` derived from it, and the order's laws.
- `text_store.dfy`: module `TextStores`. It holds the query surface of the store: the lines, a line looked up by number, a line's length, and the bounds check.
- `navigation.dfy`: module `Navigation`. It gives the navigation policy as pure functions on `(position, sticky offset)`, with lemmas about it.
- `cursor.dfy`: module `Cursors`. It holds the class `Cursor`, whose methods update `position` and `stickyOffset` in place and are proved to follow `Navigation`, and the line-scanning loop of the vertical moves.
- `cursor_tests.dfy`: module `CursorTests`. The documented example and the unit tests of the cursor appear as client methods, proved from the class contracts alone.

## Model

The navigation policy itself lives in the functions of module `Navigation`, which have no rows of their own: the lemmas below and the class methods' contracts state what they do. `MoveTo` models src/buffer/cursor.rs:56-67. `MoveVertically` models the shared body of `move_up` and `move_down` (src/buffer/cursor.rs:75-91, :98-114). `FallbackOffset` models the value their scanning loop computes (src/buffer/cursor.rs:80-85). `MoveUp`, `MoveDown`, `MoveLeft`, `MoveRight`, `MoveToStartOfLine` and `MoveToEndOfLine` model the operations of the same names. `Apply` and `Run` replay a sequence of such calls. The store's query surface is in module `TextStores`, also without rows: `NthLine` and `LineLength` stand for looking a line up by number in the split content (src/buffer/cursor.rs:81-84, :143-144), and `LinesStore` is the store used by the tests, whose bounds check admits every character slot and every end-of-line slot.

| member | source | states |
|---|---|---|
| Positions.PartialCmp | src/buffer/position.rs:10-26 | The comparison always answers `Some`, and answers `Equal` exactly when the two positions are equal under the derived equality |
| Positions.CmpCharacterised | src/buffer/position.rs:10-26 | `Less` iff the line is smaller, or the lines are equal and the offset is smaller; `Greater` symmetrically; `Equal` iff both fields agree |
| Positions.LtIsLexicographic | src/buffer/position.rs:10-26 | `<` coincides with the textbook lexicographic order on the keys `[line, offset]`, in both directions |
| Positions.EarlierLineIsLess | src/buffer/position.rs:12-13 | A smaller line number is `<` (and `<=`) whatever the offsets, and the other position is `>` |
| Positions.CmpAntisymmetric | src/buffer/position.rs:10-26 | Comparing `b` with `a` gives the reverse of comparing `a` with `b` |
| Positions.LtIrreflexive | src/buffer/position.rs:17-23 | No position is `<` itself; every position is `<=` and `>=` itself |
| Positions.LtTransitive | src/buffer/position.rs:10-26 | `a < b` and `b < c` imply `a < c` |
| Positions.LeTransitive | src/buffer/position.rs:10-26 | `a <= b` and `b <= c` imply `a <= c` |
| Positions.LeTotalAntisymmetric | src/buffer/position.rs:10-26 | Any two positions are `<=`-comparable; `<=` both ways forces equality; `<` is the negation of the reversed `<=` |
| Positions.SameLineSameOffsetIsLeAndGe | src/buffer/position.rs:51-63 | Same line and same offset give both `<=` and `>=`, and derived equality |
| Positions.CompareExamples | src/buffer/position.rs:33-57 | `(2,20) < (3,10)`, `(3,10) < (3,20)`, and `(3,10)` is `<=` and `>=` itself |
| Cursors.ScanLineLength | src/buffer/cursor.rs:80-85 | The scan over all lines yields the target line's length when that line exists, and 0 otherwise |
| Cursors.Cursor.constructor | src/buffer/cursor.rs:24-33 | A new cursor sits at the given, unchecked position and remembers its offset |
| Cursors.Cursor.MoveTo | src/buffer/cursor.rs:56-67 | Returns whether the store admits the target. If it does, position becomes the target and the sticky offset becomes the target's offset. Otherwise both are unchanged |
| Cursors.Cursor.MoveUp | src/buffer/cursor.rs:71-93 | The new state is `Navigation.MoveUp` of the old one, and the sticky offset is unchanged |
| Cursors.Cursor.MoveDown | src/buffer/cursor.rs:97-116 | The new state is `Navigation.MoveDown` of the old one, and the sticky offset is unchanged |
| Cursors.Cursor.MoveLeft | src/buffer/cursor.rs:120-126 | The new state is `Navigation.MoveLeft` of the old one; the line is unchanged |
| Cursors.Cursor.MoveRight | src/buffer/cursor.rs:130-133 | The new state is `Navigation.MoveRight` of the old one; the line is unchanged |
| Cursors.Cursor.MoveToStartOfLine | src/buffer/cursor.rs:136-139 | The new state is `Navigation.MoveToStartOfLine` of the old one; the line is unchanged |
| Cursors.Cursor.MoveToEndOfLine | src/buffer/cursor.rs:142-152 | The new state is `Navigation.MoveToEndOfLine` of the old one; the line is unchanged |
| Navigation.MoveToCommitsOrRejects | src/buffer/cursor.rs:56-67 | An in-bounds target is adopted together with its offset as the sticky offset; an out-of-bounds one leaves the state unchanged |
| Navigation.MoveToIdempotent | src/buffer/cursor.rs:56-67 | Moving to the same target twice is the same as moving there once |
| Navigation.ApplyOnlyAdoptsCheckedPositions | src/buffer/cursor.rs:36-38 | Every operation leaves the position alone or puts it where the store's check admits |
| Navigation.PositionAlwaysChecked | src/buffer/cursor.rs:6-8 | Over any session, with the store possibly edited between steps, the position is the initial one, or some step changed it to its final value, the store in force at that step admitted it, and no later step moved it |
| Navigation.InBoundsPreserved | src/buffer/cursor.rs:6-8 | Against an unchanging store, a cursor that starts in bounds stays in bounds after any sequence of operations |
| Navigation.MoveUpAtTopIsNoOp | src/buffer/cursor.rs:72-73 | On line 0, moving up changes neither position nor sticky offset |
| Navigation.VerticalMovesKeepSticky | src/buffer/cursor.rs:71-116 | Moving up or down never changes the sticky offset: not on direct success, not after the fallback, not on failure |
| Navigation.VerticalMovesChangeLineByOne | src/buffer/cursor.rs:75-116 | A vertical move stays put or lands, in bounds, on the neighbouring line in its direction |
| Navigation.VerticalSessionKeepsSticky | src/buffer/cursor.rs:88-91 | Any sequence of vertical moves, against any stores, keeps the sticky offset |
| Navigation.MoveUpFallback | src/buffer/cursor.rs:79-91 | If the sticky offset is rejected above, the cursor lands on the line's end when that line exists and its end is in bounds. If the line is missing it tries offset 0. The sticky offset is kept |
| Navigation.MoveDownFallback | src/buffer/cursor.rs:102-114 | The same fallback for the line below |
| Navigation.MoveUpClamps | src/buffer/cursor.rs:71-93 | Against a consistent store, moving up lands on the sticky offset clamped to the upper line's length, or changes nothing when there is no upper line |
| Navigation.MoveDownClamps | src/buffer/cursor.rs:97-116 | Against a consistent store, moving down lands on the sticky offset clamped to the lower line's length, or changes nothing when there is no lower line |
| Navigation.StickyOffsetSurvivesShortLineUp | src/buffer/cursor.rs:181-191 | Crossing a shorter line upwards visits its end and then recovers the remembered offset on the next, long enough line |
| Navigation.StickyOffsetSurvivesShortLineDown | src/buffer/cursor.rs:193-203 | The same crossing downwards |
| Navigation.MoveToResetsSticky | src/buffer/cursor.rs:205-215 | After a successful `move_to`, moving down aims at the target's offset, whatever was remembered before |
| Navigation.DownThenUpReturns | src/buffer/cursor.rs:71-116 | From an in-bounds cursor whose sticky offset equals its offset, down then up returns to exactly the same state |
| Navigation.UpThenDownReturns | src/buffer/cursor.rs:71-116 | From such a cursor below line 0, up then down returns to exactly the same state |
| Navigation.MoveLeftAtStartIsNoOp | src/buffer/cursor.rs:121-122 | At offset 0, moving left changes nothing |
| Navigation.HorizontalMovesStayOnLine | src/buffer/cursor.rs:120-152 | Left, right, line start and line end each either change nothing or land on their one target offset on the same line and remember it |
| Navigation.MoveToEndOfLineLandsAtLength | src/buffer/cursor.rs:142-152 | On an existing line whose end is in bounds the offset becomes exactly its length; a missing line is a no-op |
| Navigation.LineEndsIdempotent | src/buffer/cursor.rs:136-152 | Going to the start, or to the end, of the line twice is the same as going once |
| Navigation.MoveRightAtEndIsNoOp | src/buffer/cursor.rs:130-133 | At the end of a line of a consistent store, moving right changes nothing |
| Navigation.LeftThenRightReturns | src/buffer/cursor.rs:120-133 | From an in-bounds cursor whose sticky offset equals its offset, away from the line start, left then right returns to the same state |
| CursorTests.MoveToExample | src/buffer/cursor.rs:42-55 | On `"scribe"`, `(0,2)` is adopted, `(2,2)` is rejected, and the cursor stays at `(0,2)` |
| CursorTests.MoveUpGoesToEolIfOffsetWouldBeOutOfRange | src/buffer/cursor.rs:163-170 | From `(1,20)` under a 15-character line, moving up gives `(0,15)` |
| CursorTests.MoveDownGoesToEolIfOffsetWouldBeOutOfRange | src/buffer/cursor.rs:172-179 | From `(0,20)` above a 15-character line, moving down gives `(1,15)` |
| CursorTests.MoveUpPersistsOffsetAcrossShorterLines | src/buffer/cursor.rs:181-191 | Over lines of 26, 15 and 28 characters, two moves up from `(2,20)` give `(0,20)` |
| CursorTests.MoveDownPersistsOffsetAcrossShorterLines | src/buffer/cursor.rs:193-203 | Over the same lines, two moves down from `(0,20)` give `(2,20)` |
| CursorTests.MoveToSetsPersistedOffset | src/buffer/cursor.rs:205-215 | After `move_to((1,5))`, moving down gives `(2,5)` |
| CursorTests.MoveToStartOfLineSetsOffsetToZero | src/buffer/cursor.rs:217-224 | From `(1,5)`, going to the line start gives `(1,0)` |
| CursorTests.MoveToEndOfLineSetsOffsetTheLineLength | src/buffer/cursor.rs:226-233 | From `(0,5)` on a 15-character line, going to the line end gives `(0,15)` |
| CursorTests.MoveUpDoesNothingIfAtTheStartOfLine | src/buffer/cursor.rs:235-242 | From `(0,0)`, moving up leaves `(0,0)` |
| CursorTests.MoveLeftDoesNothingIfAtTheStartOfLine | src/buffer/cursor.rs:244-251 | From `(0,0)`, moving left leaves `(0,0)` |

When the fallback line cannot be found, the code still tries `move_to((target_line, 0))` and then restores the sticky offset (src/buffer/cursor.rs:80-91). It does not simply stop. The model keeps that attempt, and `Navigation.MoveUpFallback` and `Navigation.MoveDownFallback` state it.

## Left out

- Shared ownership of the store (`Rc<RefCell<GapBuffer>>`, src/buffer/cursor.rs:11) and its borrow discipline are not modelled. Each operation is given the store as an immutable value. Edits by other parties between operations appear as a different store at the next step.
- `GapBuffer::in_bounds` is not part of this model. It is the abstract function `TextStore.inBounds`. Lemmas that need it to agree with the lines assume `TextStores.Consistent`.
- `GapBuffer::to_string` and the split by `str::lines()` are not modelled. The store carries the resulting lines directly, so Rust's handling of `\r\n` and of a trailing newline is outside the model.
- Line lengths are sequence lengths. The source's `len()` counts UTF-8 bytes, which differs for non-ASCII text.
- `usize` overflow at `line + 1` and `offset + 1` (src/buffer/cursor.rs:98, :131) is not modelled; lines and offsets are unbounded naturals.
- The two identical scanning loops of `move_up` and `move_down` (src/buffer/cursor.rs:80-85, :103-108) are modelled once, as `Cursors.ScanLineLength`.
- The `Deref` impl (src/buffer/cursor.rs:16-22) is left out: the model reads `position.line` and `position.offset` directly. The derived `Clone`, `Copy` and `Debug` are left out too, because they are plumbing.
- The invariant that the position only changes through the bounds check (`Navigation.PositionAlwaysChecked`, `Navigation.InBoundsPreserved`) covers updates made through the cursor's operations only. The source's `position` field is public (src/buffer/cursor.rs:12), and so is the model's, so a caller can still write it directly.
