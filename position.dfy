/** A `(line, offset)` coordinate into line-structured text, with its line-major order. */
module Positions {
  import opened Wrappers

  /** Line and offset are unsigned; equality is the derived, field-by-field one. */
  datatype Position = Position(line: nat, offset: nat)

  datatype Ordering = Less | Equal | Greater {

    /** The ordering seen from the other side. */
    function Reverse(): Ordering {
      match this
      case Less => Greater
      case Equal => Equal
      case Greater => Less
    }
  }

  /** The hand-written comparison: lines first, offsets only when the lines agree. */
  function PartialCmp(a: Position, b: Position): (r: Option<Ordering>)
    ensures r.Some?
    ensures r.value == Equal <==> a == b
  {
    Some(
      if a.line < b.line then
        Less
      else if a.line > b.line then
        Greater
      else if a.offset < b.offset then
        Less
      else if a.offset > b.offset then
        Greater
      else
        Equal
    )
  }

  // The operators that PartialOrd derives from partial_cmp.

  predicate Lt(a: Position, b: Position) {
    PartialCmp(a, b) == Some(Less)
  }

  predicate Le(a: Position, b: Position) {
    PartialCmp(a, b) == Some(Less) || PartialCmp(a, b) == Some(Equal)
  }

  predicate Gt(a: Position, b: Position) {
    PartialCmp(a, b) == Some(Greater)
  }

  predicate Ge(a: Position, b: Position) {
    PartialCmp(a, b) == Some(Greater) || PartialCmp(a, b) == Some(Equal)
  }

  /** The comparison key: the line, then the offset. */
  function Key(p: Position): seq<nat>
  {
    [p.line, p.offset]
  }

  /** Textbook lexicographic order on sequences: they agree up to some index, where the first is smaller. */
  ghost predicate LexLess(x: seq<nat>, y: seq<nat>) {
    exists k :: 0 <= k < |x| && k < |y| && x[..k] == y[..k] && x[k] < y[k]
  }

  /** The three answers of the comparison, each in terms of the fields alone. */
  lemma CmpCharacterised(a: Position, b: Position)
    ensures PartialCmp(a, b) == Some(Less) <==>
            a.line < b.line || (a.line == b.line && a.offset < b.offset)
    ensures PartialCmp(a, b) == Some(Greater) <==>
            a.line > b.line || (a.line == b.line && a.offset > b.offset)
    ensures PartialCmp(a, b) == Some(Equal) <==> a.line == b.line && a.offset == b.offset
  {
  }

  /** `<` is exactly the lexicographic order on the keys `[line, offset]`. */
  lemma LtIsLexicographic(a: Position, b: Position)
    ensures Lt(a, b) <==> LexLess(Key(a), Key(b))
  {
    var x, y := Key(a), Key(b);
    if Lt(a, b) {
      if a.line < b.line {
        assert x[..0] == y[..0];
      } else {
        assert x[..1] == [a.line] == y[..1];
      }
    }
    if LexLess(x, y) {
      var k :| 0 <= k < |x| && k < |y| && x[..k] == y[..k] && x[k] < y[k];
      if k == 1 {
        assert x[..1][0] == a.line && y[..1][0] == b.line;
      }
    }
  }

  /** A smaller line number is earlier whatever the offsets are. */
  lemma EarlierLineIsLess(a: Position, b: Position)
    requires a.line < b.line
    ensures Lt(a, b) && Le(a, b) && Gt(b, a) && Ge(b, a)
  {
  }

  /** Comparing the other way round gives the reversed answer. */
  lemma CmpAntisymmetric(a: Position, b: Position)
    ensures PartialCmp(a, b).value == PartialCmp(b, a).value.Reverse()
  {
  }

  lemma LtIrreflexive(a: Position)
    ensures !Lt(a, a) && Le(a, a) && Ge(a, a)
  {
  }

  lemma LtTransitive(a: Position, b: Position, c: Position)
    requires Lt(a, b) && Lt(b, c)
    ensures Lt(a, c)
  {
  }

  lemma LeTransitive(a: Position, b: Position, c: Position)
    requires Le(a, b) && Le(b, c)
    ensures Le(a, c)
  {
  }

  /** `<=` is total and antisymmetric, so the order is linear. */
  lemma LeTotalAntisymmetric(a: Position, b: Position)
    ensures Le(a, b) || Le(b, a)
    ensures Le(a, b) && Le(b, a) ==> a == b
    ensures Lt(a, b) <==> !Le(b, a)
  {
  }

  /** Positions with the same line and offset are both `<=` and `>=` each other. */
  lemma SameLineSameOffsetIsLeAndGe(a: Position, b: Position)
    requires a.line == b.line && a.offset == b.offset
    ensures Le(a, b) && Ge(a, b) && a == b
  {
  }

  /** The three comparisons exercised by the module's own tests. */
  lemma CompareExamples()
    ensures Lt(Position(2, 20), Position(3, 10))
    ensures Lt(Position(3, 10), Position(3, 20))
    ensures Le(Position(3, 10), Position(3, 10)) && Ge(Position(3, 10), Position(3, 10))
  {
  }
}
