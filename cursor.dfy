/**
 * The cursor: a position that only moves through a bounds check against the
 * text store, plus the offset it tries to keep across vertical moves. The
 * store is passed to each operation as it currently is.
 */
module Cursors {
  import opened Positions
  import opened TextStores
  import Navigation

  /**
   * Scans the lines in order and keeps the length of the one numbered
   * `targetLine`; 0 when the scan never meets it.
   */
  method ScanLineLength(lines: seq<string>, targetLine: nat) returns (targetOffset: nat)
    ensures targetLine < |lines| ==> targetOffset == |lines[targetLine]|
    ensures |lines| <= targetLine ==> targetOffset == 0
  {
    targetOffset := 0;
    for lineNumber := 0 to |lines|
      invariant targetOffset == if targetLine < lineNumber then |lines[targetLine]| else 0
    {
      if lineNumber == targetLine {
        targetOffset := |lines[lineNumber]|;
      }
    }
  }

  class Cursor {
    var position: Position
    var stickyOffset: nat

    /** The abstract state the navigation policy is stated over. */
    function State(): Navigation.CursorState
      reads this
    {
      Navigation.CursorState(position, stickyOffset)
    }

    /** A cursor at `(line, offset)`, remembering `offset`; the position is not checked. */
    constructor (line: nat, offset: nat)
      ensures position == Position(line, offset) && stickyOffset == offset
    {
      position := Position(line, offset);
      stickyOffset := offset;
    }

    /** Adopts `target` and remembers its offset when the store admits it; otherwise changes nothing. */
    method MoveTo(store: TextStore, target: Position) returns (moved: bool)
      modifies this
      ensures moved == store.inBounds(target)
      ensures moved ==> position == target && stickyOffset == target.offset
      ensures !moved ==> position == old(position) && stickyOffset == old(stickyOffset)
      ensures State() == Navigation.MoveTo(store, old(State()), target)
    {
      if store.inBounds(target) {
        position := target;
        stickyOffset := target.offset;
        return true;
      }
      return false;
    }

    /** One line up at the sticky offset, else at that line's end; the sticky offset is kept. */
    method MoveUp(store: TextStore)
      modifies this
      ensures stickyOffset == old(stickyOffset)
      ensures State() == Navigation.MoveUp(store, old(State()))
    {
      if position.line == 0 {
        return;
      }
      var targetLine := position.line - 1;
      var newPosition := Position(targetLine, stickyOffset);
      var moved := MoveTo(store, newPosition);
      if !moved {
        var targetOffset := ScanLineLength(store.lines, targetLine);
        var _ := MoveTo(store, Position(targetLine, targetOffset));
        stickyOffset := newPosition.offset;
      }
    }

    /** One line down at the sticky offset, else at that line's end; the sticky offset is kept. */
    method MoveDown(store: TextStore)
      modifies this
      ensures stickyOffset == old(stickyOffset)
      ensures State() == Navigation.MoveDown(store, old(State()))
    {
      var targetLine := position.line + 1;
      var newPosition := Position(targetLine, stickyOffset);
      var moved := MoveTo(store, newPosition);
      if !moved {
        var targetOffset := ScanLineLength(store.lines, targetLine);
        var _ := MoveTo(store, Position(targetLine, targetOffset));
        stickyOffset := newPosition.offset;
      }
    }

    /** One offset to the left, unless already at offset 0. */
    method MoveLeft(store: TextStore)
      modifies this
      ensures position.line == old(position.line)
      ensures State() == Navigation.MoveLeft(store, old(State()))
    {
      if position.offset == 0 {
        return;
      }
      var newPosition := Position(position.line, position.offset - 1);
      var _ := MoveTo(store, newPosition);
    }

    /** One offset to the right. */
    method MoveRight(store: TextStore)
      modifies this
      ensures position.line == old(position.line)
      ensures State() == Navigation.MoveRight(store, old(State()))
    {
      var newPosition := Position(position.line, position.offset + 1);
      var _ := MoveTo(store, newPosition);
    }

    /** Offset 0 of the current line. */
    method MoveToStartOfLine(store: TextStore)
      modifies this
      ensures position.line == old(position.line)
      ensures State() == Navigation.MoveToStartOfLine(store, old(State()))
    {
      var newPosition := Position(position.line, 0);
      var _ := MoveTo(store, newPosition);
    }

    /** Just after the last character of the current line, if the store has that line. */
    method MoveToEndOfLine(store: TextStore)
      modifies this
      ensures position.line == old(position.line)
      ensures State() == Navigation.MoveToEndOfLine(store, old(State()))
    {
      var currentLine := NthLine(store, position.line);
      match currentLine {
        case Some(line) =>
          var newPosition := Position(position.line, |line|);
          var _ := MoveTo(store, newPosition);
        case None =>
      }
    }
  }
}
