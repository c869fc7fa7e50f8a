/** Gap detection: the ranges of a candle grid for which no closed candle is stored. */
module MissingRanges {
  import opened Wrappers

  datatype Candle = Candle(timestamp: int, isClosed: bool)

  datatype Range = Range(from: int, until: int)

  function Closed(candles: seq<Candle>): set<int> {
    set i | 0 <= i < |candles| && candles[i].isClosed :: candles[i].timestamp
  }

  /** The instants at which a candle of the range opens. */
  function Grid(from: int, until: int, interval: int): seq<int>
    requires interval > 0
    decreases until - from
  {
    if from >= until then [] else [from] + Grid(from + interval, until, interval)
  }

  predicate Covered(ranges: seq<Range>, t: int) {
    exists i :: 0 <= i < |ranges| && ranges[i].from <= t < ranges[i].until
  }

  /** One gap: it opens on the grid and ends at a stored candle or with the range. */
  predicate IsGap(existing: set<int>, grid: seq<int>, until: int, r: Range) {
    r.from in grid && r.from < r.until <= until && (r.until == until || (r.until in grid && r.until in existing))
  }

  /** All gaps in order, apart from each other, covering exactly the instants without a closed candle. */
  predicate GapsOn(existing: set<int>, grid: seq<int>, until: int, ranges: seq<Range>) {
    && (forall i | 0 <= i < |ranges| :: IsGap(existing, grid, until, ranges[i]))
    && (forall i, j | 0 <= i < j < |ranges| :: ranges[i].until < ranges[j].from)
    && (forall t {:trigger Covered(ranges, t)} | t in grid :: t !in existing <==> Covered(ranges, t))
  }

  predicate IsGaps(existing: set<int>, from: int, until: int, interval: int, ranges: seq<Range>)
    requires interval > 0
  {
    GapsOn(existing, Grid(from, until, interval), until, ranges)
  }

  lemma {:induction false} GridBounds(from: int, until: int, interval: int)
    requires interval > 0
    ensures forall t | t in Grid(from, until, interval) :: from <= t < until
    decreases until - from
  {
    if from < until { GridBounds(from + interval, until, interval); }
  }

  /** What is left of the grid is the grid from the present instant on. */
  ghost predicate Ahead(grid: seq<int>, now: int, until: int, interval: int)
    requires interval > 0
  {
    forall t :: t in Grid(now, until, interval) <==> t in grid && t >= now
  }

  lemma AheadStart(from: int, until: int, interval: int)
    requires interval > 0
    ensures Ahead(Grid(from, until, interval), from, until, interval)
  {
    GridBounds(from, until, interval);
  }

  lemma AheadStep(grid: seq<int>, now: int, until: int, interval: int)
    requires interval > 0 && now < until && Ahead(grid, now, until, interval)
    ensures now in grid && Ahead(grid, now + interval, until, interval)
    ensures forall t | t in grid :: t <= now || t >= now + interval
  {
    GridBounds(now + interval, until, interval);
    var later := Grid(now + interval, until, interval);
    assert Grid(now, until, interval) == [now] + later;
    hide Grid;
    assert now in [now] + later;
    forall t
      ensures t in later <==> t in grid && t >= now + interval
      ensures t in grid ==> t <= now || t >= now + interval
    {
      assert t in [now] + later <==> t == now || t in later;
    }
  }

  method FindMissingRanges(candles: seq<Candle>, range: Range, interval: int) returns (missing: seq<Range>)
    requires interval > 0
    ensures IsGaps(Closed(candles), range.from, range.until, interval, missing)
  {
    hide *;
    var existing := Closed(candles);
    missing := [];
    var start: Option<int> := None;
    var timestamp := range.from;
    Begins(existing, range.from, range.until, interval);
    while timestamp < range.until
      invariant Scanned(existing, range.from, range.until, interval, timestamp, start, missing)
      decreases range.until - timestamp
    {
      Advances(existing, range.from, range.until, interval, timestamp, start, missing);
      if timestamp !in existing {
        if start.None? { start := Some(timestamp); }
      } else if start.Some? {
        missing := missing + [Range(start.value, timestamp)];
        start := None;
      }
      timestamp := timestamp + interval;
    }
    Ends(existing, range.from, range.until, interval, timestamp, start, missing);
    if start.Some? {
      missing := missing + [Range(start.value, range.until)];
    }
  }

  /** The state of the scan when it has come to `now`. */
  ghost predicate Scanned(existing: set<int>, from: int, until: int, interval: int, now: int, start: Option<int>,
          missing: seq<Range>)
    requires interval > 0
  {
    var grid := Grid(from, until, interval);
    && Ahead(grid, now, until, interval)
    && (start.Some? ==> start.value in grid && start.value < now)
    && Pending(existing, grid, until, now, start, missing)
  }

  lemma Begins(existing: set<int>, from: int, until: int, interval: int)
    requires interval > 0
    ensures Scanned(existing, from, until, interval, from, None, [])
  {
    var grid := Grid(from, until, interval);
    GridBounds(from, until, interval);
    AheadStart(from, until, interval);
    NothingPending(existing, grid, until, from);
    hide Pending, Ahead, Grid;
  }

  lemma Advances(existing: set<int>, from: int, until: int, interval: int, now: int, start: Option<int>,
          missing: seq<Range>)
    requires interval > 0 && now < until && Scanned(existing, from, until, interval, now, start, missing)
    ensures now !in existing ==>
      Scanned(existing, from, until, interval, now + interval, if start.None? then Some(now) else start, missing)
    ensures now in existing && start.None? ==> Scanned(existing, from, until, interval, now + interval, None, missing)
    ensures now in existing && start.Some? ==>
      Scanned(existing, from, until, interval, now + interval, None, missing + [Range(start.value, now)])
  {
    hide Pending, Ahead, Grid;
    var grid := Grid(from, until, interval);
    AheadStep(grid, now, until, interval);
    NotYetCovered(existing, grid, until, now, start, missing);
    if now !in existing || start.None? {
      StillOpen(existing, grid, until, now, now + interval, start, missing);
    } else {
      GapCloses(existing, grid, until, now, now + interval, start.value, missing);
    }
  }

  lemma Ends(existing: set<int>, from: int, until: int, interval: int, now: int, start: Option<int>,
          missing: seq<Range>)
    requires interval > 0 && now >= until && Scanned(existing, from, until, interval, now, start, missing)
    ensures IsGaps(existing, from, until, interval, if start.Some? then missing + [Range(start.value, until)]
      else missing)
  {
    hide Pending, Ahead, Grid, IsGaps;
    PendingEnd(existing, from, until, interval, now, start, missing);
  }

  /** Everything before `now` is settled: covered by a finished gap, part of the one still open, or stored. */
  ghost predicate Pending(existing: set<int>, grid: seq<int>, until: int, now: int, start: Option<int>,
          missing: seq<Range>) {
    && (forall i | 0 <= i < |missing| ::
      IsGap(existing, grid, until, missing[i]) && missing[i].until < now && missing[i].until in existing)
    && (forall i, j | 0 <= i < j < |missing| :: missing[i].until < missing[j].from)
    && (start.Some? ==> forall i | 0 <= i < |missing| :: missing[i].until < start.value)
    && (forall t {:trigger Covered(missing, t)} | t in grid && t < now :: t !in existing <==>
      Covered(missing, t) || (start.Some? && start.value <= t))
  }

  lemma NothingPending(existing: set<int>, grid: seq<int>, until: int, now: int)
    requires forall t | t in grid :: t >= now
    ensures Pending(existing, grid, until, now, None, [])
  {
  }

  lemma NotYetCovered(existing: set<int>, grid: seq<int>, until: int, now: int, start: Option<int>, missing: seq<Range>)
    requires Pending(existing, grid, until, now, start, missing)
    ensures !Covered(missing, now)
  {
  }

  lemma StillOpen(existing: set<int>, grid: seq<int>, until: int, now: int, next: int, start: Option<int>,
          missing: seq<Range>)
    requires Pending(existing, grid, until, now, start, missing) && now < next && !Covered(missing, now)
    requires forall t | t in grid :: t <= now || t >= next
    requires now !in existing || start.None?
    requires start.Some? ==> start.value < now
    ensures Pending(existing, grid, until, next, if now !in existing && start.None? then Some(now) else start, missing)
  {
    hide Covered, IsGap;
  }

  lemma GapCloses(existing: set<int>, grid: seq<int>, until: int, now: int, next: int, start: int, missing: seq<Range>)
    requires Pending(existing, grid, until, now, Some(start), missing) && now in grid && now < until && now < next
      && !Covered(missing, now)
    requires forall t | t in grid :: t <= now || t >= next
    requires start in grid && start < now && now in existing
    ensures Pending(existing, grid, until, next, None, missing + [Range(start, now)])
  {
    var r := Range(start, now);
    assert IsGap(existing, grid, until, r);
    forall t | t in grid && t < next
      ensures t !in existing <==> Covered(missing + [r], t)
    {
      CoveredAppend(missing, r, t);
      assert Covered(missing, t) || !Covered(missing, t);
    }
  }

  lemma CoveredAppend(ranges: seq<Range>, r: Range, t: int)
    ensures Covered(ranges + [r], t) <==> Covered(ranges, t) || r.from <= t < r.until
  {
    if Covered(ranges, t) {
      var i :| 0 <= i < |ranges| && ranges[i].from <= t < ranges[i].until;
      assert (ranges + [r])[i] == ranges[i];
    }
    if r.from <= t < r.until { assert (ranges + [r])[|ranges|] == r; }
  }

  lemma PendingEnd(existing: set<int>, from: int, until: int, interval: int, now: int, start: Option<int>,
          missing: seq<Range>)
    requires interval > 0 && now >= until
    requires Pending(existing, Grid(from, until, interval), until, now, start, missing)
    requires start.Some? ==> start.value in Grid(from, until, interval)
    ensures IsGaps(existing, from, until, interval, if start.Some? then missing + [Range(start.value, until)]
      else missing)
  {
    var grid := Grid(from, until, interval);
    GridBounds(from, until, interval);
    if start.Some? {
      forall t | t in grid
        ensures t !in existing <==> Covered(missing + [Range(start.value, until)], t)
      {
        CoveredAppend(missing, Range(start.value, until), t);
      }
    }
  }

  // ---------------------------------------------------------------- what the ranges mean

  /** Nothing is reported exactly when the range is complete. */
  lemma EmptyIffComplete(existing: set<int>, from: int, until: int, interval: int, ranges: seq<Range>)
    requires interval > 0 && IsGaps(existing, from, until, interval, ranges)
    ensures ranges == [] <==> forall t | t in Grid(from, until, interval) :: t in existing
  {
    if ranges == [] {
      forall t | t in Grid(from, until, interval)
        ensures t in existing
      {
        assert !Covered(ranges, t);
      }
    } else {
      assert IsGap(existing, Grid(from, until, interval), until, ranges[0]);
      assert Covered(ranges, ranges[0].from);
    }
  }

  lemma {:induction false} GridSteps(from: int, until: int, interval: int, t: int)
    requires interval > 0 && t in Grid(from, until, interval)
    ensures t == from || t - interval in Grid(from, until, interval)
    decreases until - from
  {
    if t != from {
      GridSteps(from + interval, until, interval, t);
    }
  }

  lemma {:induction false} GridApart(from: int, until: int, interval: int, t: int, u: int)
    requires interval > 0 && t in Grid(from, until, interval) && u in Grid(from, until, interval) && t < u
    ensures t + interval <= u
    decreases until - from
  {
    GridBounds(from + interval, until, interval);
    if t != from { GridApart(from + interval, until, interval, t, u); }
  }

  /** An earlier gap ends before the grid instant that precedes a later one. */
  lemma EarlierEnds(existing: set<int>, from: int, until: int, interval: int, earlier: Range, later: Range)
    requires interval > 0 && IsGap(existing, Grid(from, until, interval), until, earlier)
      && IsGap(existing, Grid(from, until, interval), until, later)
    requires earlier.until < later.from && later.from - interval in Grid(from, until, interval)
    ensures earlier.until <= later.from - interval
  {
    GridApart(from, until, interval, earlier.until, later.from);
  }

  /** The grid instant before a reported range lies in no reported range. */
  lemma LeftUncovered(existing: set<int>, from: int, until: int, interval: int, ranges: seq<Range>, i: nat, j: nat)
    requires interval > 0 && IsGaps(existing, from, until, interval, ranges) && i < |ranges| && j < |ranges|
    requires ranges[i].from - interval in Grid(from, until, interval)
    ensures !(ranges[j].from <= ranges[i].from - interval < ranges[j].until)
  {
    var grid := Grid(from, until, interval);
    assert IsGap(existing, grid, until, ranges[i]) && IsGap(existing, grid, until, ranges[j]);
    assert j < i ==> ranges[j].until < ranges[i].from;
    assert i < j ==> ranges[i].until < ranges[j].from;
    assert ranges[i].from < ranges[i].until;
    hide IsGaps, GapsOn, Grid, IsGap;
    if j < i { EarlierEnds(existing, from, until, interval, ranges[j], ranges[i]); }
  }

  /** A reported range cannot be extended on either side: its neighbours on the grid are stored, or outside. */
  lemma GapsAreMaximal(existing: set<int>, from: int, until: int, interval: int, ranges: seq<Range>, i: nat)
    requires interval > 0 && IsGaps(existing, from, until, interval, ranges) && i < |ranges|
    ensures ranges[i].from == from || ranges[i].from - interval in existing
    ensures ranges[i].until == until || ranges[i].until in existing
  {
    assert IsGap(existing, Grid(from, until, interval), until, ranges[i]);
    GridSteps(from, until, interval, ranges[i].from);
    if ranges[i].from != from {
      forall j | 0 <= j < |ranges|
        ensures !(ranges[j].from <= ranges[i].from - interval < ranges[j].until)
      {
        LeftUncovered(existing, from, until, interval, ranges, i, j);
      }
      assert !Covered(ranges, ranges[i].from - interval);
    }
  }

  lemma CoveredBy(ranges: seq<Range>, t: int) returns (j: nat)
    requires Covered(ranges, t)
    ensures j < |ranges| && ranges[j].from <= t < ranges[j].until
  {
    j :| 0 <= j < |ranges| && ranges[j].from <= t < ranges[j].until;
  }

  lemma SameFrom(existing: set<int>, grid: seq<int>, until: int, a: seq<Range>, b: seq<Range>, i: nat)
    requires GapsOn(existing, grid, until, a) && GapsOn(existing, grid, until, b)
    requires i < |a| && i <= |b| && forall k | 0 <= k < i :: a[k] == b[k]
    ensures i < |b| && b[i].from <= a[i].from
  {
    var t := a[i].from;
    assert IsGap(existing, grid, until, a[i]);
    assert Covered(a, t);
    var j := CoveredBy(b, t);
    assert forall k | 0 <= k < i :: a[k].until < a[i].from;
    assert IsGap(existing, grid, until, b[i]);
    assert i < j ==> b[i].until < b[j].from;
  }

  lemma SameUntil(existing: set<int>, grid: seq<int>, until: int, a: seq<Range>, b: seq<Range>, i: nat)
    requires GapsOn(existing, grid, until, a) && GapsOn(existing, grid, until, b)
    requires i < |a| && i < |b| && a[i].from == b[i].from
    ensures b[i].until <= a[i].until
  {
    assert IsGap(existing, grid, until, a[i]) && IsGap(existing, grid, until, b[i]);
    assert a[i].from <= a[i].until < b[i].until ==> Covered(b, a[i].until);
  }

  lemma {:induction false} SamePrefix(existing: set<int>, grid: seq<int>, until: int, a: seq<Range>, b: seq<Range>,
          i: nat)
    requires GapsOn(existing, grid, until, a) && GapsOn(existing, grid, until, b) && i <= |a|
    ensures i <= |b| && forall k | 0 <= k < i :: a[k] == b[k]
  {
    hide GapsOn;
    if i > 0 {
      var k := i - 1;
      SamePrefix(existing, grid, until, a, b, k);
      SameFrom(existing, grid, until, a, b, k);
      SameFrom(existing, grid, until, b, a, k);
      SameUntil(existing, grid, until, a, b, k);
      SameUntil(existing, grid, until, b, a, k);
    }
  }

  /** The stored candles and the range determine the list: no other list of ranges meets the description. */
  lemma GapsUnique(existing: set<int>, from: int, until: int, interval: int, a: seq<Range>, b: seq<Range>)
    requires interval > 0 && IsGaps(existing, from, until, interval, a) && IsGaps(existing, from, until, interval, b)
    ensures a == b
  {
    hide GapsOn, Grid;
    SamePrefix(existing, Grid(from, until, interval), until, a, b, |a|);
    SamePrefix(existing, Grid(from, until, interval), until, b, a, |b|);
  }
}
