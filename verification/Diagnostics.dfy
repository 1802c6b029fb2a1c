/** Lines, columns and excerpts of source diagnostics. */
module Diagnostics {
  import opened Text

  const MAX_EXCERPT_LENGTH: nat := 120

  datatype Position = Position(line: nat, column: nat)

  /** A carriage return and the line feed after it break the line once. */
  predicate BreaksLine(source: Utf16, i: nat)
    requires i < |source|
  {
    IsLineBreak(source[i]) && !(source[i] == LINE_FEED && i > 0 && source[i - 1] == CARRIAGE_RETURN)
  }

  /** One more than the line breaks that begin before the offset. */
  function Line(source: Utf16, offset: nat): nat
    requires offset <= |source|
  {
    if offset == 0 then 1 else Line(source, offset - 1) + if BreaksLine(source, offset - 1) then 1 else 0
  }

  /** One more than the code units between the last line break and the offset. */
  function Column(source: Utf16, offset: nat): nat
    requires offset <= |source|
  {
    if offset == 0 || IsLineBreak(source[offset - 1]) then 1 else Column(source, offset - 1) + 1
  }

  method PositionAt(source: Utf16, offset: nat) returns (position: Position)
    requires offset <= |source|
    ensures position == Position(Line(source, offset), Column(source, offset))
  {
    var line, column, cursor := 1, 1, 0;
    while cursor < offset
      invariant cursor <= |source|
      invariant cursor <= offset ||
                (cursor == offset + 1 && offset > 0 && source[offset - 1] == CARRIAGE_RETURN && source[offset] == LINE_FEED)
      invariant line == Line(source, cursor) && column == Column(source, cursor)
      invariant 0 < cursor < |source| ==> !(source[cursor - 1] == CARRIAGE_RETURN && source[cursor] == LINE_FEED)
      decreases offset - cursor
    {
      var code := source[cursor];
      if code == CARRIAGE_RETURN {
        cursor := cursor + if cursor + 1 < |source| && source[cursor + 1] == LINE_FEED then 2 else 1;
        line, column := line + 1, 1;
      } else if code == LINE_FEED || code == LINE_SEPARATOR || code == PARAGRAPH_SEPARATOR {
        cursor, line, column := cursor + 1, line + 1, 1;
      } else {
        cursor, column := cursor + 1, column + 1;
      }
    }
    position := Position(line, column);
  }

  predicate InsideLineEnd(source: Utf16, offset: nat)
    requires offset <= |source|
  {
    0 < offset < |source| && source[offset - 1] == CARRIAGE_RETURN && source[offset] == LINE_FEED
  }

  lemma {:induction false} LinesAscend(source: Utf16, start: nat, end: nat)
    requires start <= end <= |source|
    ensures Line(source, start) <= Line(source, end)
  {
    if start < end { LinesAscend(source, start, end - 1); }
  }

  /** On one line the column grows with every code unit but the line feed of a pair. */
  lemma {:induction false} ColumnsCount(source: Utf16, start: nat, end: nat)
    requires start < end <= |source| && Line(source, start) == Line(source, end)
    ensures Column(source, end) == end - start + if InsideLineEnd(source, start) then 0 else Column(source, start)
  {
    LinesAscend(source, start, end - 1);
    LinesAscend(source, end - 1, end);
    if start + 1 < end {
      ColumnsCount(source, start, end - 1);
    }
  }

  /** The location of a span is in order, and two offsets share a position only around the feed of a pair. */
  lemma {:induction false} PositionsAreFaithful(source: Utf16, start: nat, end: nat)
    requires start < end <= |source|
    ensures
      || Line(source, start) < Line(source, end)
      || (Line(source, start) == Line(source, end) && Column(source, start) <= Column(source, end))
    ensures
      Line(source, start) == Line(source, end) && Column(source, start) == Column(source, end)
      <==> end == start + 1 && InsideLineEnd(source, start)
  {
    LinesAscend(source, start, end);
    if Line(source, start) == Line(source, end) {
      ColumnsCount(source, start, end);
    }
  }

  function ExcerptStart(length: nat, safeStart: nat): int {
    var last := length - MAX_EXCERPT_LENGTH;
    var first := if safeStart < last then safeStart else last;
    if first < 0 then 0 else first
  }

  function Excerpt(source: Utf16, safeStart: nat): Utf16
    requires safeStart <= |source|
  {
    var first := ExcerptStart(|source|, safeStart);
    var end := first + MAX_EXCERPT_LENGTH;
    source[first..if end < |source| then end else |source|]
  }

  /** The excerpt is bounded, as long as the source allows, and shows the place the span starts at. */
  lemma ExcerptShowsStart(source: Utf16, safeStart: nat)
    requires safeStart <= |source|
    ensures
      var excerpt, first := Excerpt(source, safeStart), ExcerptStart(|source|, safeStart);
      && |excerpt| == (if |source| < MAX_EXCERPT_LENGTH then |source| else MAX_EXCERPT_LENGTH)
      && 0 <= first <= safeStart <= first + |excerpt|
      && (safeStart < |source| ==> safeStart - first < |excerpt| && excerpt[safeStart - first] == source[safeStart])
  {
  }
}
