/**
 * The cursor's documented examples and unit tests, as client methods that use
 * only the contracts of class Cursor: each returns where the cursor ends up.
 */
module CursorTests {
  import opened Positions
  import opened TextStores
  import opened Cursors

  const ThreeLines: seq<string> := ["First line that is longer.", "This is a test.", "Another line that is longer."]

  /** The documentation example of `move_to`: an in-bounds target is adopted, an out-of-bounds one ignored. */
  method MoveToExample() returns (first: bool, second: bool, line: nat, offset: nat)
    ensures first && !second
    ensures line == 0 && offset == 2
  {
    var store := LinesStore(["scribe"]);
    var cursor := new Cursor(0, 0);
    first := cursor.MoveTo(store, Position(0, 2));
    second := cursor.MoveTo(store, Position(2, 2));
    line, offset := cursor.position.line, cursor.position.offset;
  }

  method MoveUpGoesToEolIfOffsetWouldBeOutOfRange() returns (line: nat, offset: nat)
    ensures line == 0 && offset == 15
  {
    var store := LinesStore(["This is a test.", "Another line that is longer."]);
    var cursor := new Cursor(1, 20);
    cursor.MoveUp(store);
    line, offset := cursor.position.line, cursor.position.offset;
  }

  method MoveDownGoesToEolIfOffsetWouldBeOutOfRange() returns (line: nat, offset: nat)
    ensures line == 1 && offset == 15
  {
    var store := LinesStore(["Another line that is longer.", "This is a test."]);
    var cursor := new Cursor(0, 20);
    cursor.MoveDown(store);
    line, offset := cursor.position.line, cursor.position.offset;
  }

  method MoveUpPersistsOffsetAcrossShorterLines() returns (line: nat, offset: nat)
    ensures line == 0 && offset == 20
  {
    var store := LinesStore(ThreeLines);
    var cursor := new Cursor(2, 20);
    cursor.MoveUp(store);
    cursor.MoveUp(store);
    line, offset := cursor.position.line, cursor.position.offset;
  }

  method MoveDownPersistsOffsetAcrossShorterLines() returns (line: nat, offset: nat)
    ensures line == 2 && offset == 20
  {
    var store := LinesStore(ThreeLines);
    var cursor := new Cursor(0, 20);
    cursor.MoveDown(store);
    cursor.MoveDown(store);
    line, offset := cursor.position.line, cursor.position.offset;
  }

  method MoveToSetsPersistedOffset() returns (line: nat, offset: nat)
    ensures line == 2 && offset == 5
  {
    var store := LinesStore(ThreeLines);
    var cursor := new Cursor(0, 20);
    var _ := cursor.MoveTo(store, Position(1, 5));
    cursor.MoveDown(store);
    line, offset := cursor.position.line, cursor.position.offset;
  }

  method MoveToStartOfLineSetsOffsetToZero() returns (line: nat, offset: nat)
    ensures line == 1 && offset == 0
  {
    var store := LinesStore(["This is a test.", "Another line."]);
    var cursor := new Cursor(1, 5);
    cursor.MoveToStartOfLine(store);
    line, offset := cursor.position.line, cursor.position.offset;
  }

  method MoveToEndOfLineSetsOffsetTheLineLength() returns (line: nat, offset: nat)
    ensures line == 0 && offset == 15
  {
    var store := LinesStore(["This is a test.", "Another line."]);
    var cursor := new Cursor(0, 5);
    cursor.MoveToEndOfLine(store);
    line, offset := cursor.position.line, cursor.position.offset;
  }

  method MoveUpDoesNothingIfAtTheStartOfLine() returns (line: nat, offset: nat)
    ensures line == 0 && offset == 0
  {
    var store := LinesStore(["This is a test."]);
    var cursor := new Cursor(0, 0);
    cursor.MoveUp(store);
    line, offset := cursor.position.line, cursor.position.offset;
  }

  method MoveLeftDoesNothingIfAtTheStartOfLine() returns (line: nat, offset: nat)
    ensures line == 0 && offset == 0
  {
    var store := LinesStore(["This is a test."]);
    var cursor := new Cursor(0, 0);
    cursor.MoveLeft(store);
    line, offset := cursor.position.line, cursor.position.offset;
  }
}
