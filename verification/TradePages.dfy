/** Reading a list of trades page by page: each page names where the next one starts. */
module TradePages {
  import opened Wrappers
  import opened Sorting

  const PAGE_DEFAULT: int := 10
  const PAGE_MAX: int := 100

  /** Entry time, sequence number, and the identifier by its place in text order. */
  datatype Key = Key(entryTime: int, sequence: int, id: int)

  datatype Cursor = Cursor(owner: string, resource: string, limit: int, last: Key)

  datatype Page = Page(items: seq<Key>, totalCount: nat, nextCursor: Option<Cursor>)

  datatype PageError = InvalidPage | InvalidCursor

  predicate KeyLe(left: Key, right: Key) {
    || left.entryTime < right.entryTime
    || (left.entryTime == right.entryTime
      && (left.sequence < right.sequence || (left.sequence == right.sequence && left.id <= right.id)))
  }

  /** The index of the first trade with this key. */
  function FindIndex(keys: seq<Key>, key: Key): (r: Option<nat>)
    ensures r.Some? ==> r.value < |keys| && keys[r.value] == key
    ensures r.None? ==> key !in keys
  {
    if keys == [] then None
    else if keys[0] == key then Some(0)
    else
      var rest := FindIndex(keys[1..], key);
      if rest.Some? then Some(rest.value + 1) else None
  }

  function Min(a: nat, b: nat): nat {
    if a < b then a else b
  }

  /** A trade stands for its key here; nothing else of it decides where it is listed. */
  function PageTrades(trades: seq<Key>, requested: Option<int>, cursor: Option<Cursor>, owner: string,
          resource: string): Result<Page, PageError> {
    var limit := if requested.Some? then requested.value else PAGE_DEFAULT;
    if limit < 1 || limit > PAGE_MAX then Failure(InvalidPage)
    else
      var ordered := Sort(KeyLe, trades);
      if cursor.None? then Success(Slice(ordered, 0, limit, owner, resource))
      else if cursor.value.owner != owner || cursor.value.resource != resource
        || cursor.value.limit != limit then Failure(InvalidCursor)
      else
        var index := FindIndex(ordered, cursor.value.last);
        if index.None? then Failure(InvalidCursor) else Success(Slice(ordered, index.value + 1, limit, owner, resource))
  }

  function Slice(ordered: seq<Key>, start: nat, limit: int, owner: string, resource: string): Page
    requires start <= |ordered| && limit >= 1
  {
    var stop := Min(start + limit, |ordered|);
    var items := ordered[start..stop];
    Page(items, |ordered|, if stop < |ordered|
      && items != [] then Some(Cursor(owner, resource, limit, items[|items| - 1])) else None)
  }

  /** What following the cursors for up to `n` pages yields, and whether it has come to the end. */
  datatype Walk = Walk(items: seq<Key>, ended: bool)

  function WalkPages(trades: seq<Key>, limit: int, cursor: Option<Cursor>, owner: string, resource: string,
          n: nat): Walk
    decreases n
  {
    if n == 0 then Walk([], false)
    else
      var page := PageTrades(trades, Some(limit), cursor, owner, resource);
      if page.Failure? then Walk([], false)
      else if page.value.nextCursor.None? then Walk(page.value.items, true)
      else
        var rest := WalkPages(trades, limit, page.value.nextCursor, owner, resource, n - 1);
        Walk(page.value.items + rest.items, rest.ended)
  }

  predicate Unique(keys: seq<Key>) {
    forall i, j | 0 <= i < j < |keys| :: keys[i] != keys[j]
  }

  lemma KeyOrder()
    ensures TotalPreorder(KeyLe)
  {
  }

  lemma SortedUniquely(trades: seq<Key>)
    requires Unique(trades)
    ensures Unique(Sort(KeyLe, trades)) && |Sort(KeyLe, trades)| == |trades|
      && multiset(Sort(KeyLe, trades)) == multiset(trades)
  {
    var ordered := Sort(KeyLe, trades);
    SortPermutes(KeyLe, trades);
    forall i, j | 0 <= i < j < |ordered|
      ensures ordered[i] != ordered[j]
    {
      OnceEach(trades, ordered[i]);
      TwiceCounts(ordered, i, j);
    }
  }

  lemma {:induction false} OnceEach(keys: seq<Key>, k: Key)
    requires Unique(keys)
    ensures multiset(keys)[k] <= 1
  {
    if keys != [] {
      OnceEach(keys[1..], k);
      assert keys == [keys[0]] + keys[1..];
      if k == keys[0] {
        assert k !in keys[1..];
        assert multiset(keys[1..])[k] == 0;
      }
    }
  }

  lemma TwiceCounts(keys: seq<Key>, i: nat, j: nat)
    requires i < j < |keys|
    ensures keys[i] == keys[j] ==> multiset(keys)[keys[i]] >= 2
  {
    assert keys == keys[..j] + keys[j..];
    assert keys[..j][i] in multiset(keys[..j]);
    assert keys[j..][0] in multiset(keys[j..]);
  }

  lemma FindUnique(keys: seq<Key>, p: nat)
    requires Unique(keys) && p < |keys|
    ensures FindIndex(keys, keys[p]) == Some(p)
  {
  }

  /** Every page boundary from `start` on falls behind the first trade of its key. */
  predicate CleanBoundaries(ordered: seq<Key>, limit: int, start: nat)
    requires limit >= 1
    decreases |ordered| - start
  {
    var stop := start + limit;
    stop < |ordered| ==>
      FindIndex(ordered, ordered[stop - 1]) == Some(stop - 1) && CleanBoundaries(ordered, limit, stop)
  }

  lemma {:induction false} UniqueIsClean(ordered: seq<Key>, limit: int, start: nat)
    requires Unique(ordered) && limit >= 1
    ensures CleanBoundaries(ordered, limit, start)
    decreases |ordered| - start
  {
    var stop := start + limit;
    if stop < |ordered| {
      FindUnique(ordered, stop - 1);
      UniqueIsClean(ordered, limit, stop);
    }
  }

  lemma {:induction false} FindsFirst(keys: seq<Key>, p: nat)
    requires p < |keys|
    ensures FindIndex(keys, keys[p]).Some? && FindIndex(keys, keys[p]).value <= p
  {
    if p > 0 && keys[0] != keys[p] { FindsFirst(keys[1..], p - 1); }
  }

  lemma BoundaryHere(ordered: seq<Key>, limit: int, start: nat)
    requires limit >= 1
    ensures start + limit >= |ordered| ==> CleanBoundaries(ordered, limit, start)
    ensures start + limit < |ordered| ==>
      (CleanBoundaries(ordered, limit, start) <==>
         FindIndex(ordered, ordered[start + limit - 1]) == Some(start + limit - 1)
           && CleanBoundaries(ordered, limit, start + limit))
  {
    hide FindIndex;
  }

  /** The walk that starts at `start`: exact when the boundaries are clean, too long otherwise, if it ends at all. */
  lemma {:induction false} WalkFrom(trades: seq<Key>, limit: int, cursor: Option<Cursor>, owner: string,
          resource: string, n: nat, start: nat)
    requires 1 <= limit <= PAGE_MAX && start <= |Sort(KeyLe, trades)|
    requires PageTrades(trades, Some(limit), cursor, owner, resource)
      == Success(Slice(Sort(KeyLe, trades), start, limit, owner, resource))
    ensures var walk, ordered := WalkPages(trades, limit, cursor, owner, resource, n), Sort(KeyLe, trades);
      && (CleanBoundaries(ordered, limit, start) && n > |ordered| - start ==> walk == Walk(ordered[start..], true))
      && (walk.ended ==> |walk.items| >= |ordered| - start)
      && (walk.ended && !CleanBoundaries(ordered, limit, start) ==> |walk.items| > |ordered| - start)
    decreases n
  {
    hide PageTrades, Sort, FindIndex, Slice, CleanBoundaries;
    var ordered := Sort(KeyLe, trades);
    var page, stop := Slice(ordered, start, limit, owner, resource), Min(start + limit, |ordered|);
    SliceFacts(ordered, start, limit, owner, resource);
    BoundaryHere(ordered, limit, start);
    if n > 0 && page.nextCursor.Some? {
      FindsFirst(ordered, stop - 1);
      var first := FindIndex(ordered, ordered[stop - 1]).value;
      NextPage(trades, limit, owner, resource, stop, first);
      WalkFrom(trades, limit, page.nextCursor, owner, resource, n - 1, first + 1);
    }
  }

  lemma SliceFacts(ordered: seq<Key>, start: nat, limit: int, owner: string, resource: string)
    requires start <= |ordered| && limit >= 1
    ensures var page, stop := Slice(ordered, start, limit, owner, resource), Min(start + limit, |ordered|);
      && (page.nextCursor.None? ==> page.items == ordered[start..])
      && |page.items| == stop - start
      && (page.nextCursor.Some? <==> stop < |ordered|)
      && (page.nextCursor.Some? ==>
        start < stop == start + limit && page.nextCursor == Some(Cursor(owner, resource, limit, ordered[stop - 1])))
      && (page.nextCursor.Some? ==> page.items + ordered[stop..] == ordered[start..])
  {
    var stop := Min(start + limit, |ordered|);
    assert start < stop ==> ordered[start..stop][stop - start - 1] == ordered[stop - 1];
    assert ordered[start..stop] + ordered[stop..] == ordered[start..];
  }

  lemma NextPage(trades: seq<Key>, limit: int, owner: string, resource: string, stop: nat, first: nat)
    requires 1 <= limit <= PAGE_MAX && 0 < stop <= |Sort(KeyLe, trades)| && first < stop
    requires FindIndex(Sort(KeyLe, trades), Sort(KeyLe, trades)[stop - 1]) == Some(first)
    ensures PageTrades(trades, Some(limit), Some(Cursor(owner, resource, limit, Sort(KeyLe, trades)[stop - 1])), owner,
      resource)
      == Success(Slice(Sort(KeyLe, trades), first + 1, limit, owner, resource))
  {
    hide Sort, FindIndex;
  }

  /**
   * Following the cursors lists exactly the ordered trades if and only if every page boundary falls behind the first
   * trade of its key.
   */
  lemma WalkExactly(trades: seq<Key>, limit: int, owner: string, resource: string, n: nat)
    requires 1 <= limit <= PAGE_MAX && n > |trades|
    ensures WalkPages(trades, limit, None, owner, resource, n) == Walk(Sort(KeyLe, trades), true) <==>
      CleanBoundaries(Sort(KeyLe, trades), limit, 0)
  {
    SortPermutes(KeyLe, trades);
    hide Sort, WalkPages, CleanBoundaries;
    WalkFrom(trades, limit, None, owner, resource, n, 0);
    assert Sort(KeyLe, trades)[0..] == Sort(KeyLe, trades);
  }

  /** Later in time; at one time, with a higher sequence number; with one number, with a later identifier. */
  predicate Follows(next: Key, key: Key) {
    if next.entryTime != key.entryTime then next.entryTime > key.entryTime
    else if next.sequence != key.sequence then next.sequence > key.sequence
    else next.id > key.id
  }

  /** With distinct keys the walk ends and lists every trade exactly once, each after all those listed before it. */
  lemma WalkListsAll(trades: seq<Key>, limit: int, owner: string, resource: string, n: nat)
    requires Unique(trades) && 1 <= limit <= PAGE_MAX && n > |trades|
    ensures var walk := WalkPages(trades, limit, None, owner, resource, n);
      walk.ended && walk.items == Sort(KeyLe, trades) && multiset(walk.items) == multiset(trades)
        && (forall i, j | 0 <= i < j < |walk.items| :: Follows(walk.items[j], walk.items[i]))
  {
    SortedUniquely(trades);
    KeyOrder();
    SortSorts(KeyLe, trades);
    hide Sort, WalkPages, CleanBoundaries;
    assert Unique(Sort(KeyLe, trades)) && Sorted(KeyLe, Sort(KeyLe, trades));
    UniqueIsClean(Sort(KeyLe, trades), limit, 0);
    WalkExactly(trades, limit, owner, resource, n);
  }

  /**
   * A page is refused for a size outside 1 to 100, ten if none is named, and then for a cursor made for another owner,
   * list or size, or naming no trade. Otherwise it counts all trades and holds no more than asked for; it names its own
   * last trade as the place to go on from, unless it reaches the end.
   */
  lemma PageAnswers(trades: seq<Key>, requested: Option<int>, cursor: Option<Cursor>, owner: string, resource: string)
    ensures var limit, page := if requested.Some? then requested.value
      else 10, PageTrades(trades, requested, cursor, owner, resource);
      && (page == Failure(InvalidPage) <==> limit < 1 || limit > 100)
      && (page == Failure(InvalidCursor) <==>
            1 <= limit <= 100 && cursor.Some?
              && !(cursor.value.last in trades && cursor.value == Cursor(owner, resource, limit, cursor.value.last)))
      && (page.Success? ==>
            && page.value.totalCount == |trades| && |page.value.items| <= limit
            && (forall k | k in page.value.items :: k in trades)
            && (page.value.nextCursor.Some? ==>
                  |page.value.items| == limit
                  && page.value.nextCursor.value == Cursor(owner, resource, limit, page.value.items[limit - 1]))
            && (cursor.None? ==>
              |page.value.items| == Min(limit, |trades|) && (page.value.nextCursor.Some? <==> |trades| > limit)))
  {
    hide Sort, Slice, FindIndex, KeyLe;
    SortPermutes(KeyLe, trades);
    var limit, ordered := if requested.Some? then requested.value else 10, Sort(KeyLe, trades);
    SameMembers(trades, ordered);
    if 1 <= limit <= 100 {
      SliceHolds(ordered, 0, limit, owner, resource);
      if cursor.Some? && FindIndex(ordered, cursor.value.last).Some? {
        SliceHolds(ordered, FindIndex(ordered, cursor.value.last).value + 1, limit, owner, resource);
      }
    }
  }

  lemma SameMembers(trades: seq<Key>, ordered: seq<Key>)
    requires multiset(trades) == multiset(ordered)
    ensures forall k :: k in trades <==> k in ordered
  {
    assert forall k :: k in trades <==> k in multiset(trades);
    assert forall k :: k in ordered <==> k in multiset(ordered);
  }

  lemma SliceHolds(ordered: seq<Key>, start: nat, limit: int, owner: string, resource: string)
    requires start <= |ordered| && 1 <= limit
    ensures var page := Slice(ordered, start, limit, owner, resource);
      && page.totalCount == |ordered| && |page.items| == Min(limit, |ordered| - start)
      && (forall k | k in page.items :: k in ordered)
      && (page.nextCursor.Some? <==> |ordered| - start > limit)
      && (page.nextCursor.Some? ==> page.nextCursor.value == Cursor(owner, resource, limit, page.items[limit - 1]))
  {
  }

  // ---------------------------------------------------------------- keys that repeat

  const TWIN: Key := Key(0, 1, 0)

  lemma TwinsSorted()
    ensures Sort(KeyLe, [TWIN, TWIN, TWIN]) == [TWIN, TWIN, TWIN]
  {
    assert [TWIN, TWIN, TWIN][1..] == [TWIN, TWIN] && [TWIN, TWIN][1..] == [TWIN] && [TWIN][1..] == [];
    assert Sort(KeyLe, [TWIN]) == [TWIN];
    assert Sort(KeyLe, [TWIN, TWIN]) == [TWIN, TWIN];
  }

  lemma TwinPage(cursor: Option<Cursor>)
    requires cursor.Some? ==> cursor.value == Cursor("owner", "list", 1, TWIN)
    ensures PageTrades([TWIN, TWIN, TWIN], Some(1), cursor, "owner", "list")
      == Success(Page([TWIN], 3, Some(Cursor("owner", "list", 1, TWIN))))
  {
    TwinsSorted();
    var ordered := [TWIN, TWIN, TWIN];
    assert FindIndex(ordered, TWIN) == Some(0);
    hide Sort, FindIndex;
    assert ordered[0..1] == [TWIN] && ordered[1..2] == [TWIN];
  }

  /** Three trades with one key, read one at a time: the walk repeats the second page for ever. */
  lemma {:induction false} RepeatedKeysNeverEnd(cursor: Option<Cursor>, n: nat)
    requires cursor.Some? ==> cursor.value == Cursor("owner", "list", 1, TWIN)
    ensures var walk := WalkPages([TWIN, TWIN, TWIN], 1, cursor, "owner", "list", n); !walk.ended && |walk.items| == n
    decreases n
  {
    if n > 0 {
      TwinPage(cursor);
      hide PageTrades;
      RepeatedKeysNeverEnd(Some(Cursor("owner", "list", 1, TWIN)), n - 1);
    }
  }
}
