/**
 * The cursor's navigation policy as a pure state machine: every movement maps
 * the pair (position, sticky offset) and the store's current shape to the new
 * pair. The class in module Cursors is proved to follow these functions.
 */
module Navigation {
  import opened Wrappers
  import opened Positions
  import opened TextStores

  /** The whole state of a cursor: where it is and the offset it tries to keep on vertical moves. */
  datatype CursorState = CursorState(position: Position, sticky: nat)

  /** The single choke-point: adopt the target and remember its offset, or change nothing. */
  function MoveTo(store: TextStore, s: CursorState, target: Position): CursorState {
    if store.inBounds(target) then CursorState(target, target.offset) else s
  }

  /** The offset a clamped vertical move falls back to: the line's length, or 0 when there is no such line. */
  function FallbackOffset(store: TextStore, line: nat): nat {
    LineLength(store, line).GetOr(0)
  }

  /** Try the sticky offset on `line`; else its end of line; either way keep the sticky offset. */
  function MoveVertically(store: TextStore, s: CursorState, line: nat): CursorState {
    var target := Position(line, s.sticky);
    if store.inBounds(target) then
      MoveTo(store, s, target)
    else
      var fallen := MoveTo(store, s, Position(line, FallbackOffset(store, line)));
      CursorState(fallen.position, target.offset)
  }

  function MoveUp(store: TextStore, s: CursorState): CursorState {
    if s.position.line == 0 then s else MoveVertically(store, s, s.position.line - 1)
  }

  function MoveDown(store: TextStore, s: CursorState): CursorState {
    MoveVertically(store, s, s.position.line + 1)
  }

  function MoveLeft(store: TextStore, s: CursorState): CursorState {
    if s.position.offset == 0 then s
    else MoveTo(store, s, Position(s.position.line, s.position.offset - 1))
  }

  function MoveRight(store: TextStore, s: CursorState): CursorState {
    MoveTo(store, s, Position(s.position.line, s.position.offset + 1))
  }

  function MoveToStartOfLine(store: TextStore, s: CursorState): CursorState {
    MoveTo(store, s, Position(s.position.line, 0))
  }

  function MoveToEndOfLine(store: TextStore, s: CursorState): CursorState {
    match NthLine(store, s.position.line)
    case Some(line) => MoveTo(store, s, Position(s.position.line, |line|))
    case None => s
  }

  /** The operations a caller can apply to a cursor. */
  datatype Motion = To(target: Position) | Up | Down | Left | Right | StartOfLine | EndOfLine

  function Apply(store: TextStore, s: CursorState, m: Motion): CursorState {
    match m
    case To(target) => MoveTo(store, s, target)
    case Up => MoveUp(store, s)
    case Down => MoveDown(store, s)
    case Left => MoveLeft(store, s)
    case Right => MoveRight(store, s)
    case StartOfLine => MoveToStartOfLine(store, s)
    case EndOfLine => MoveToEndOfLine(store, s)
  }

  /** One operation, applied against the store as it is at that moment (other parties may edit it in between). */
  datatype Step = Step(store: TextStore, motion: Motion)

  /** The state after a session of operations, applied in order. */
  function Run(s: CursorState, steps: seq<Step>): CursorState
    decreases |steps|
  {
    if steps == [] then s
    else
      var last := steps[|steps| - 1];
      Apply(last.store, Run(s, steps[..|steps| - 1]), last.motion)
  }

  // ---------------------------------------------------------------------------
  // move_to

  /** An in-bounds target is adopted with its offset remembered; any other leaves the state alone. */
  lemma MoveToCommitsOrRejects(store: TextStore, s: CursorState, target: Position)
    ensures store.inBounds(target) ==> MoveTo(store, s, target) == CursorState(target, target.offset)
    ensures !store.inBounds(target) ==> MoveTo(store, s, target) == s
  {
  }

  /** Moving to the same target twice is the same as moving there once. */
  lemma MoveToIdempotent(store: TextStore, s: CursorState, target: Position)
    ensures MoveTo(store, MoveTo(store, s, target), target) == MoveTo(store, s, target)
  {
  }

  /** Every operation leaves the position where it was or puts it where the store's check admitted it. */
  lemma ApplyOnlyAdoptsCheckedPositions(store: TextStore, s: CursorState, m: Motion)
    ensures var r := Apply(store, s, m);
            r.position == s.position || store.inBounds(r.position)
  {
  }

  /**
   * The position after any session is the starting one, or some step changed
   * it to its final value, the store in force at that step admitted it, and no
   * later step moved it:
   * nothing reaches the position without the check of its own moment.
   */
  lemma {:induction false} PositionAlwaysChecked(s: CursorState, steps: seq<Step>)
    ensures var r := Run(s, steps);
            r.position == s.position ||
            exists i :: 0 <= i < |steps| && Run(s, steps[..i]).position != r.position &&
                        steps[i].store.inBounds(r.position) &&
                        forall j :: i < j <= |steps| ==> Run(s, steps[..j]).position == r.position
  {
    if steps != [] {
      var n := |steps| - 1;
      var prefix := steps[..n];
      var before := Run(s, prefix);
      var r := Run(s, steps);
      assert steps[..|steps|] == steps;
      ApplyOnlyAdoptsCheckedPositions(steps[n].store, before, steps[n].motion);
      if r.position != before.position {
        // The last step set the position, under its own store.
        forall j | n < j <= |steps|
          ensures Run(s, steps[..j]).position == r.position
        {
          assert j == |steps|;
        }
      } else {
        PositionAlwaysChecked(s, prefix);
        if r.position != s.position {
          var i :| 0 <= i < |prefix| && Run(s, prefix[..i]).position != r.position &&
                   prefix[i].store.inBounds(r.position) &&
                   forall j :: i < j <= |prefix| ==> Run(s, prefix[..j]).position == r.position;
          assert steps[i] == prefix[i];
          assert steps[..i] == prefix[..i];
          forall j | i < j <= |steps|
            ensures Run(s, steps[..j]).position == r.position
          {
            if j <= n {
              assert steps[..j] == prefix[..j];
            }
          }
        }
      }
    }
  }

  /** With an unchanging store, a cursor that starts in bounds stays in bounds. */
  lemma {:induction false} InBoundsPreserved(store: TextStore, s: CursorState, motions: seq<Motion>)
    requires store.inBounds(s.position)
    ensures store.inBounds(Run(s, Session(store, motions)).position)
  {
    var steps := Session(store, motions);
    PositionAlwaysChecked(s, steps);
  }

  /** A session against one unchanging store. */
  function Session(store: TextStore, motions: seq<Motion>): seq<Step>
  {
    seq(|motions|, i requires 0 <= i < |motions| => Step(store, motions[i]))
  }

  // ---------------------------------------------------------------------------
  // move_up and move_down

  /** On line 0, moving up changes neither the position nor the sticky offset. */
  lemma MoveUpAtTopIsNoOp(store: TextStore, s: CursorState)
    requires s.position.line == 0
    ensures MoveUp(store, s) == s
  {
  }

  /** A vertical move never changes the sticky offset, whether it succeeds directly, falls back or fails. */
  lemma VerticalMovesKeepSticky(store: TextStore, s: CursorState)
    ensures MoveUp(store, s).sticky == s.sticky
    ensures MoveDown(store, s).sticky == s.sticky
  {
  }

  /** Vertical moves either stay put or land on the neighbouring line. */
  lemma VerticalMovesChangeLineByOne(store: TextStore, s: CursorState)
    ensures var r := MoveUp(store, s);
            r.position == s.position || (r.position.line + 1 == s.position.line && store.inBounds(r.position))
    ensures var r := MoveDown(store, s);
            r.position == s.position || (r.position.line == s.position.line + 1 && store.inBounds(r.position))
  {
  }

  /** Any number of vertical moves, against any stores, keeps the sticky offset. */
  lemma {:induction false} VerticalSessionKeepsSticky(s: CursorState, steps: seq<Step>)
    requires forall i :: 0 <= i < |steps| ==> steps[i].motion.Up? || steps[i].motion.Down?
    ensures Run(s, steps).sticky == s.sticky
  {
    if steps != [] {
      var n := |steps| - 1;
      VerticalSessionKeepsSticky(s, steps[..n]);
      VerticalMovesKeepSticky(steps[n].store, Run(s, steps[..n]));
    }
  }

  /**
   * When the sticky offset does not fit on the line above, the cursor falls
   * back to that line's end when the line exists and its end is in bounds, and
   * to offset 0 (if admitted) when the line cannot be found.
   */
  lemma MoveUpFallback(store: TextStore, s: CursorState)
    requires 0 < s.position.line
    requires !store.inBounds(Position(s.position.line - 1, s.sticky))
    ensures var target := s.position.line - 1;
            target < |store.lines| && store.inBounds(Position(target, |store.lines[target]|)) ==>
              MoveUp(store, s) == CursorState(Position(target, |store.lines[target]|), s.sticky)
    ensures var target := s.position.line - 1;
            |store.lines| <= target ==>
              MoveUp(store, s).position == (if store.inBounds(Position(target, 0)) then Position(target, 0) else s.position)
  {
  }

  /** The same fallback for the line below. */
  lemma MoveDownFallback(store: TextStore, s: CursorState)
    requires !store.inBounds(Position(s.position.line + 1, s.sticky))
    ensures var target := s.position.line + 1;
            target < |store.lines| && store.inBounds(Position(target, |store.lines[target]|)) ==>
              MoveDown(store, s) == CursorState(Position(target, |store.lines[target]|), s.sticky)
    ensures var target := s.position.line + 1;
            |store.lines| <= target ==>
              MoveDown(store, s).position == (if store.inBounds(Position(target, 0)) then Position(target, 0) else s.position)
  {
  }

  function Min(a: nat, b: nat): nat {
    if a <= b then a else b
  }

  /**
   * Against a consistent store, moving up lands on the sticky offset clamped
   * to the length of the line above, and does nothing when there is none.
   */
  lemma MoveUpClamps(store: TextStore, s: CursorState)
    requires Consistent(store)
    ensures var l := s.position.line;
            MoveUp(store, s) ==
              if 0 < l && l - 1 < |store.lines| then
                CursorState(Position(l - 1, Min(s.sticky, |store.lines[l - 1]|)), s.sticky)
              else
                s
  {
  }

  /** Against a consistent store, moving down lands on the sticky offset clamped to the next line's length. */
  lemma MoveDownClamps(store: TextStore, s: CursorState)
    requires Consistent(store)
    ensures var l := s.position.line;
            MoveDown(store, s) ==
              if l + 1 < |store.lines| then
                CursorState(Position(l + 1, Min(s.sticky, |store.lines[l + 1]|)), s.sticky)
              else
                s
  {
  }

  /**
   * Crossing a line shorter than the sticky offset does not lose it: two moves
   * up land on the remembered offset again once a long enough line is reached.
   */
  lemma StickyOffsetSurvivesShortLineUp(store: TextStore, s: CursorState)
    requires Consistent(store)
    requires 2 <= s.position.line < |store.lines|
    requires |store.lines[s.position.line - 1]| < s.sticky <= |store.lines[s.position.line - 2]|
    ensures MoveUp(store, s).position == Position(s.position.line - 1, |store.lines[s.position.line - 1]|)
    ensures MoveUp(store, MoveUp(store, s)) == CursorState(Position(s.position.line - 2, s.sticky), s.sticky)
  {
  }

  /** The same for two moves down. */
  lemma StickyOffsetSurvivesShortLineDown(store: TextStore, s: CursorState)
    requires Consistent(store)
    requires s.position.line + 2 < |store.lines|
    requires |store.lines[s.position.line + 1]| < s.sticky <= |store.lines[s.position.line + 2]|
    ensures MoveDown(store, s).position == Position(s.position.line + 1, |store.lines[s.position.line + 1]|)
    ensures MoveDown(store, MoveDown(store, s)) == CursorState(Position(s.position.line + 2, s.sticky), s.sticky)
  {
  }

  /**
   * `move_to` resets the remembered offset: after it, a move down aims for the
   * new target's offset, whatever the cursor remembered before.
   */
  lemma MoveToResetsSticky(store: TextStore, s: CursorState, target: Position)
    requires Consistent(store)
    requires store.inBounds(target)
    requires target.line + 1 < |store.lines| && target.offset <= |store.lines[target.line + 1]|
    ensures MoveDown(store, MoveTo(store, s, target)) ==
            CursorState(Position(target.line + 1, target.offset), target.offset)
  {
  }

  /** From a settled in-bounds cursor, down then up returns exactly to the start. */
  lemma DownThenUpReturns(store: TextStore, s: CursorState)
    requires Consistent(store)
    requires store.inBounds(s.position) && s.sticky == s.position.offset
    requires s.position.line + 1 < |store.lines|
    ensures MoveUp(store, MoveDown(store, s)) == s
  {
  }

  /** From a settled in-bounds cursor below line 0, up then down returns exactly to the start. */
  lemma UpThenDownReturns(store: TextStore, s: CursorState)
    requires Consistent(store)
    requires store.inBounds(s.position) && s.sticky == s.position.offset
    requires 0 < s.position.line
    ensures MoveDown(store, MoveUp(store, s)) == s
  {
  }

  // ---------------------------------------------------------------------------
  // move_left, move_right, move_to_start_of_line, move_to_end_of_line

  /** At offset 0, moving left changes nothing. */
  lemma MoveLeftAtStartIsNoOp(store: TextStore, s: CursorState)
    requires s.position.offset == 0
    ensures MoveLeft(store, s) == s
  {
  }

  /**
   * The horizontal moves stay on the current line; each either changes nothing
   * or lands on its one target offset and remembers it.
   */
  lemma HorizontalMovesStayOnLine(store: TextStore, s: CursorState)
    ensures var r := MoveLeft(store, s);
            r == s || (0 < s.position.offset && r == CursorState(Position(s.position.line, s.position.offset - 1), s.position.offset - 1))
    ensures var r := MoveRight(store, s);
            r == s || r == CursorState(Position(s.position.line, s.position.offset + 1), s.position.offset + 1)
    ensures var r := MoveToStartOfLine(store, s);
            r == s || r == CursorState(Position(s.position.line, 0), 0)
    ensures var r := MoveToEndOfLine(store, s);
            r == s || (s.position.line < |store.lines| &&
                       r == CursorState(Position(s.position.line, |store.lines[s.position.line]|), |store.lines[s.position.line]|))
  {
  }

  /** Moving to the end of an existing line whose end is in bounds sets the offset to exactly its length; a missing line is a no-op. */
  lemma MoveToEndOfLineLandsAtLength(store: TextStore, s: CursorState)
    ensures var l := s.position.line;
            l < |store.lines| && store.inBounds(Position(l, |store.lines[l]|)) ==>
              MoveToEndOfLine(store, s).position == Position(l, |store.lines[l]|)
    ensures s.position.line >= |store.lines| ==> MoveToEndOfLine(store, s) == s
  {
  }

  /** Going to either end of a line twice is the same as going once. */
  lemma LineEndsIdempotent(store: TextStore, s: CursorState)
    ensures MoveToStartOfLine(store, MoveToStartOfLine(store, s)) == MoveToStartOfLine(store, s)
    ensures MoveToEndOfLine(store, MoveToEndOfLine(store, s)) == MoveToEndOfLine(store, s)
  {
  }

  /** At the end of a line of a consistent store, moving right keeps failing. */
  lemma MoveRightAtEndIsNoOp(store: TextStore, s: CursorState)
    requires Consistent(store)
    requires s.position.line < |store.lines| && s.position.offset == |store.lines[s.position.line]|
    ensures MoveRight(store, s) == s
  {
  }

  /** From a settled in-bounds cursor away from the line start, left then right returns to the start. */
  lemma LeftThenRightReturns(store: TextStore, s: CursorState)
    requires Consistent(store)
    requires store.inBounds(s.position) && s.sticky == s.position.offset
    requires 0 < s.position.offset
    ensures MoveRight(store, MoveLeft(store, s)) == s
  {
  }
}
