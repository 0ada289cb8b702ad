/**
 * The segmenter: splits an interval into `parts` equal slices, walking a
 * cursor from the start, and labels slice `i` with the planet `i` steps after
 * a given position of the hora rotation.
 */
module Segmenter {
  import opened HoraTable

  /** One report row: its 1-based number, its time span and its ruling planet. */
  datatype Segment = Segment(number: nat, startsAt: real, endsAt: real, planet: Planet)

  /** A line of a block: the heading that names it, or one segment row. */
  datatype BlockLine = Heading(title: string) | Row(segment: Segment)

  /** Length of each of the `parts` slices of the interval from `start` to `end`. */
  function Width(start: real, end: real, parts: nat): (w: real)
    requires parts > 0
    ensures (parts as real) * w == end - start
    ensures start <= end ==> w >= 0.0
  {
    (end - start) / (parts as real)
  }

  /** The segments in closed form: slice `i` spans `i` to `i + 1` widths from `start`. */
  function SegmentsOf(start: real, end: real, parts: nat, idx: int): (r: seq<Segment>)
    requires parts > 0
    ensures |r| == parts
  {
    var w := Width(start, end, parts);
    seq(parts, i requires 0 <= i < parts =>
      Segment(i + 1, start + (i as real) * w, start + ((i + 1) as real) * w, PlanetAt(idx + i)))
  }

  /** The lines of a block: its heading followed by one row per segment. */
  function BlockLinesOf(start: real, end: real, parts: nat, idx: int, title: string): (r: seq<BlockLine>)
    requires parts > 0
    ensures |r| == parts + 1 && r[0] == Heading(title)
    ensures forall i :: 0 <= i < parts ==> r[i + 1].Row? && r[i + 1].segment == SegmentsOf(start, end, parts, idx)[i]
  {
    var segments := SegmentsOf(start, end, parts, idx);
    [Heading(title)] + seq(parts, i requires 0 <= i < parts => Row(segments[i]))
  }

  /**
   * Builds a block by walking a cursor: each step appends the row from the
   * cursor to the cursor plus one width, then moves the cursor to that end.
   */
  method Block(start: real, end: real, parts: nat, idx: int, title: string) returns (lines: seq<BlockLine>)
    requires parts > 0
    ensures lines == BlockLinesOf(start, end, parts, idx, title)
  {
    var width := (end - start) / (parts as real);
    var cursor := start;
    lines := [Heading(title)];
    ghost var segments := SegmentsOf(start, end, parts, idx);
    for i := 0 to parts
      invariant |lines| == i + 1 && lines[0] == Heading(title)
      invariant cursor == start + (i as real) * width
      invariant forall k :: 0 <= k < i ==> lines[k + 1] == Row(segments[k])
    {
      var next := cursor + width;
      var planet := HoraCycle[(idx + i) % 7];
      lines := lines + [Row(Segment(i + 1, cursor, next, planet))];
      cursor := next;
    }
    assert lines == BlockLinesOf(start, end, parts, idx, title);
  }

  /**
   * Rows are numbered 1 to `parts` in order, and row `i` is ruled by the
   * rotation entry `idx + i` modulo 7. This restates `SegmentsOf` and `PlanetAt`
   * in the source's own indexing; it follows from their definitions.
   */
  lemma SegmentsLabelled(start: real, end: real, parts: nat, idx: int)
    requires parts > 0
    ensures forall i :: 0 <= i < parts ==>
      SegmentsOf(start, end, parts, idx)[i].number == i + 1 &&
      SegmentsOf(start, end, parts, idx)[i].planet == HoraCycle[(idx + i) % 7]
  {
    var r := SegmentsOf(start, end, parts, idx);
    forall i | 0 <= i < parts
      ensures r[i].number == i + 1 && r[i].planet == HoraCycle[(idx + i) % 7]
    {
    }
  }

  /** The planets repeat with period 7 along a block. */
  lemma PlanetsRepeatEverySeven(start: real, end: real, parts: nat, idx: int)
    requires parts > 0
    ensures forall i :: 0 <= i && i + 7 < parts ==>
      SegmentsOf(start, end, parts, idx)[i + 7].planet == SegmentsOf(start, end, parts, idx)[i].planet
  {
    var r := SegmentsOf(start, end, parts, idx);
    forall i | 0 <= i && i + 7 < parts
      ensures r[i + 7].planet == r[i].planet
    {
      PlanetAtPeriodic(idx + i);
      assert idx + (i + 7) == (idx + i) + 7;
    }
  }

  /** Starting at the last rotation position, eight rows wrap to the front and wrap again. */
  lemma WrapFromLastPosition(start: real, end: real)
    ensures var r := SegmentsOf(start, end, 8, 6);
      [r[0].planet, r[1].planet, r[2].planet, r[3].planet, r[4].planet, r[5].planet, r[6].planet, r[7].planet]
      == [Moon, Saturn, Jupiter, Mars, Sun, Venus, Mercury, Moon]
  {
    var r := SegmentsOf(start, end, 8, 6);
    assert r[7].planet == PlanetAt(13) == HoraCycle[6];
  }

  /** Every row spans exactly one width. */
  lemma SegmentsEqualWidth(start: real, end: real, parts: nat, idx: int)
    requires parts > 0
    ensures forall i :: 0 <= i < parts ==>
      SegmentsOf(start, end, parts, idx)[i].endsAt - SegmentsOf(start, end, parts, idx)[i].startsAt
      == Width(start, end, parts)
  {
  }

  /**
   * The rows are contiguous: the first starts at `start`, each ends where the
   * next starts, and the last ends exactly at `end`.
   */
  lemma SegmentsContiguous(start: real, end: real, parts: nat, idx: int)
    requires parts > 0
    ensures SegmentsOf(start, end, parts, idx)[0].startsAt == start
    ensures forall i :: 0 <= i < parts - 1 ==>
      SegmentsOf(start, end, parts, idx)[i].endsAt == SegmentsOf(start, end, parts, idx)[i + 1].startsAt
    ensures SegmentsOf(start, end, parts, idx)[parts - 1].endsAt == end
  {
    var w := Width(start, end, parts);
    assert (parts as real) * w == end - start;
  }

  /**
   * A block opens with its heading; its first row starts at `start` under the
   * planet at position `idx`, and its last row ends at `end`.
   */
  lemma BlockSpansInterval(start: real, end: real, parts: nat, idx: int, title: string)
    requires parts > 0
    ensures var b := BlockLinesOf(start, end, parts, idx, title);
      b[0] == Heading(title) &&
      b[1].Row? && b[1].segment.number == 1 && b[1].segment.startsAt == start && b[1].segment.planet == PlanetAt(idx) &&
      b[parts].Row? && b[parts].segment.number == parts && b[parts].segment.endsAt == end
  {
    SegmentsContiguous(start, end, parts, idx);
    assert idx + 0 == idx;
  }

  /** For a forward (or empty) interval the rows come in time order and do not overlap. */
  lemma SegmentsOrdered(start: real, end: real, parts: nat, idx: int)
    requires parts > 0 && start <= end
    ensures forall i, j :: 0 <= i < j < parts ==>
      SegmentsOf(start, end, parts, idx)[i].endsAt <= SegmentsOf(start, end, parts, idx)[j].startsAt
  {
    var r := SegmentsOf(start, end, parts, idx);
    var w := Width(start, end, parts);
    assert w >= 0.0;
    forall i, j | 0 <= i < j < parts
      ensures r[i].endsAt <= r[j].startsAt
    {
      assert r[i].endsAt == start + ((i + 1) as real) * w;
      assert r[j].startsAt == start + (j as real) * w;
      assert (i + 1) as real <= j as real;
      MulMonotone((i + 1) as real, j as real, w);
    }
  }

  /**
   * For a forward interval the rows partition it: every instant from `start`
   * up to (not including) `end` lies in exactly one row.
   */
  lemma SegmentsPartition(start: real, end: real, parts: nat, idx: int, t: real)
    requires parts > 0 && start <= t < end
    ensures exists i :: 0 <= i < parts && Contains(SegmentsOf(start, end, parts, idx)[i], t)
    ensures forall i, j ::
      0 <= i < parts && 0 <= j < parts &&
      Contains(SegmentsOf(start, end, parts, idx)[i], t) && Contains(SegmentsOf(start, end, parts, idx)[j], t)
      ==> i == j
  {
    var r := SegmentsOf(start, end, parts, idx);
    var w := Width(start, end, parts);
    assert (parts as real) * w == end - start;
    var k := Slot(t - start, w, parts);
    assert r[k].startsAt == start + (k as real) * w && r[k].endsAt == start + ((k + 1) as real) * w;
    assert Contains(r[k], t);
    SegmentsOrdered(start, end, parts, idx);
    forall i, j | 0 <= i < j < parts
      ensures !(Contains(r[i], t) && Contains(r[j], t))
    {
      assert r[i].endsAt <= r[j].startsAt;
    }
  }

  /** The slot of width `w` that holds offset `d`, when `d` lies within `n` slots. */
  lemma Slot(d: real, w: real, n: nat) returns (k: nat)
    requires w > 0.0 && 0.0 <= d < (n as real) * w
    ensures k < n && (k as real) * w <= d < ((k + 1) as real) * w
  {
    var x := d / w;
    assert x * w == d;
    if x >= n as real {
      MulMonotone(n as real, x, w);
    }
    k := x.Floor;
    assert (k as real) <= x < (k + 1) as real;
    MulMonotone(k as real, x, w);
    MulStrict(x, (k + 1) as real, w);
    calc {
      (k as real) * w;
    <= x * w;
    == d;
    < ((k + 1) as real) * w;
    }
  }

  /** Whether instant `t` lies in the half-open span of segment `s`. */
  predicate Contains(s: Segment, t: real) {
    s.startsAt <= t < s.endsAt
  }

  /** Multiplying both sides by a non-negative factor keeps `<=`. */
  lemma MulMonotone(a: real, b: real, c: real)
    requires a <= b && c >= 0.0
    ensures a * c <= b * c
  {
  }

  /** Multiplying both sides by a positive factor keeps `<`. */
  lemma MulStrict(a: real, b: real, c: real)
    requires a < b && c > 0.0
    ensures a * c < b * c
  {
  }
}
