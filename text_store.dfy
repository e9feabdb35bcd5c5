/**
 * The text store as the cursor sees it: the content split into lines, and the
 * store's own bounds check, which the cursor consults but does not define.
 */
module TextStores {
  import opened Wrappers
  import opened Positions

  /**
   * `lines` is the content split into lines (without their terminators);
   * `inBounds` is the store's answer to "does this position address a
   * character slot or an end-of-line slot?".
   */
  datatype TextStore = TextStore(lines: seq<string>, inBounds: Position -> bool)

  /** The line with the given number, if the content has one. */
  function NthLine(store: TextStore, n: nat): (r: Option<string>)
    ensures r.Some? <==> n < |store.lines|
    ensures r.Some? ==> r.value == store.lines[n]
  {
    if n < |store.lines| then Some(store.lines[n]) else None
  }

  /** The length of the given line, if the content has one. */
  function LineLength(store: TextStore, n: nat): (r: Option<nat>)
    ensures r.Some? <==> n < |store.lines|
    ensures r.Some? ==> r.value == |store.lines[n]|
  {
    match NthLine(store, n)
    case Some(line) => Some(|line|)
    case None => None
  }

  /** A store whose bounds check admits every character slot and the end-of-line slot of every line. */
  function LinesStore(lines: seq<string>): (store: TextStore)
    ensures store.lines == lines
    ensures Consistent(store)
  {
    TextStore(lines, (p: Position) => p.line < |lines| && p.offset <= |lines[p.line]|)
  }

  /** The bounds check agrees with the lines: a position is in bounds iff its line exists and it is at most that line's end. */
  ghost predicate Consistent(store: TextStore) {
    forall p: Position :: store.inBounds(p) <==> p.line < |store.lines| && p.offset <= |store.lines[p.line]|
  }
}
