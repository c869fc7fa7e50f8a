/** What one submission does to the table of entries and to the lists of all scopes. */
module LeaderboardSteps {
  import opened Wrappers
  import opened Sorting
  import opened Leaderboard
  import opened LeaderboardRanking

  /** All inserted entries are older than `now`. */
  predicate Before(records: seq<Record>, now: int) {
    forall i | 0 <= i < |records| :: records[i].entry.addedAt < now
  }

  predicate TableOk(b: Board, now: int) {
    RecordsOk(b.records, b.sequence) && Before(b.records, now)
  }

  /** The active list of the scope is the ten best of these offers. */
  predicate Ranks(offers: seq<Entry>, b: Board, c: string) {
    |Active(b.records, c)| <= TOP_K && Erased(Sort(RankLe, Active(b.records, c))) == TopTen(offers)
  }

  predicate Has(records: seq<Record>, id: string) {
    exists i | 0 <= i < |records| :: records[i].entry.experimentId == id
  }

  lemma {:induction false} FoundListed(records: seq<Record>, id: string)
    ensures FindByExperiment(records, id).Some? <==> Has(records, id)
  {
    if records != [] {
      FoundListed(records[1..], id);
      assert records == [records[0]] + records[1..];
      if Has(records[1..], id) {
        var i :| 0 <= i < |records[1..]| && records[1..][i].entry.experimentId == id;
        assert records[i + 1].entry.experimentId == id;
      }
      if Has(records, id) && records[0].entry.experimentId != id {
        var i :| 0 <= i < |records| && records[i].entry.experimentId == id;
        assert records[1..][i - 1].entry.experimentId == id;
      }
    }
  }

  /** The list the submission looks at is the sorted active list itself. */
  lemma TopIsActive(b: Board, c: string)
    requires RecordsOk(b.records, b.sequence) && |Active(b.records, c)| <= TOP_K
    ensures ActiveTopK(b.records, c) == Sort(RankLe, Active(b.records, c)) == RankEntries(ActiveTopK(b.records, c))
    ensures |ActiveTopK(b.records, c)| == |Active(b.records, c)|
  {
    var active := Active(b.records, c);
    var top := Sort(RankLe, active);
    SortPermutes(RankLe, active);
    SortPermutes(RankLe, top);
    Orders();
    SortSorts(RankLe, active);
    SortSorts(RankLe, top);
    ActiveLater(b.records, b.sequence, c);
    NoTies(active);
    SameStrict(RankLe, active, top);
    SortedUnique(RankLe, top, Sort(RankLe, top));
  }

  lemma TakeAt(xs: seq<Entry>, k: nat)
    ensures |Take(xs, k)| == (if |xs| <= k then |xs| else k) && forall q | 0 <= q < |Take(xs, k)| ::
      Take(xs, k)[q] == xs[q]
  {
  }

  lemma SameLength(xs: seq<Entry>, ys: seq<Entry>)
    requires multiset(xs) == multiset(ys)
    ensures |xs| == |ys|
  {
    assert |multiset(xs)| == |multiset(ys)|;
  }

  /** The list after a newcomer joined those kept. */
  lemma Joined(kept: seq<Entry>, ranked: seq<Entry>, entry: Entry)
    requires multiset(kept) == multiset(ranked) && Sorted(Better, ranked) && LaterAndLater(kept + [entry])
    ensures Erased(Sort(RankLe, kept + [entry])) == Insert(Better, Erase(entry), Erased(ranked))
  {
    Orders();
    assert forall i | 0 <= i < |kept| :: kept[i] == (kept + [entry])[i];
    assert LaterAndLater(kept);
    RankIsBetter(kept + [entry]);
    SortAppend(kept, entry);
    NoTies(kept);
    SortSorts(Better, kept);
    SortPermutes(Better, kept);
    SameStrict(Better, kept, Sort(Better, kept));
    SortedUnique(Better, Sort(Better, kept), ranked);
    InsertErased(entry, ranked);
  }

  lemma JoinsOffline(kept: seq<Entry>, ranked: seq<Entry>, entry: Entry)
    requires multiset(kept) == multiset(ranked) && Sorted(Better, ranked) && |ranked| < TOP_K
      && LaterAndLater(kept + [entry])
    ensures |kept + [entry]| <= TOP_K
      && Erased(Sort(RankLe, kept + [entry])) == Insert(Better, Erase(entry), Erased(ranked))
  {
    hide Sorted, LaterAndLater, Erased, Insert, Sort, Erase;
    SameLength(kept, ranked);
    Joined(kept, ranked, entry);
  }

  /** The ten best after a new offer, in terms of the ten best before. */
  lemma TopTenGrows(offers: seq<Entry>, e: Entry)
    requires LaterAndLater(offers + [e])
    ensures var top, grown := TopTen(offers), TopTen(offers + [e]);
      && (|top| < TOP_K ==> grown == Insert(Better, e, top))
      && (|top| == TOP_K && !Better(e, top[TOP_K - 1]) ==> grown == top)
      && (|top| == TOP_K && Better(e, top[TOP_K - 1]) ==> grown == Insert(Better, e, top[..TOP_K - 1]))
  {
    var all := Sort(Better, offers);
    Orders();
    SortAppend(offers, e);
    SortSorts(Better, offers);
    TopTenIs(offers);
    TopTenIs(offers + [e]);
    hide *;
    TakeGrows(all, e);
  }

  lemma TopTenIs(offers: seq<Entry>)
    ensures TopTen(offers) == Take(Sort(Better, offers), TOP_K)
  {
  }

  lemma TakeGrows(all: seq<Entry>, e: Entry)
    requires Sorted(Better, all)
    ensures var first, grown := Take(all, TOP_K), Take(Insert(Better, e, all), TOP_K);
      && (|first| < TOP_K ==> grown == Insert(Better, e, first))
      && (|first| == TOP_K && !Better(e, first[TOP_K - 1]) ==> grown == first)
      && (|first| == TOP_K && Better(e, first[TOP_K - 1]) ==> grown == Insert(Better, e, first[..TOP_K - 1]))
  {
    hide Sorted, Insert, Better;
    InsertLength(e, all);
    if |all| >= TOP_K {
      TakeInsert(e, all, TOP_K);
      TakeFirst(all, TOP_K);
      TakeFirst(Insert(Better, e, all), TOP_K);
      hide Take;
      assert all[..TOP_K][..TOP_K - 1] == all[..TOP_K - 1];
    }
  }

  lemma TakeFirst(xs: seq<Entry>, k: nat)
    requires k <= |xs|
    ensures Take(xs, k) == xs[..k]
  {
  }

  // ---------------------------------------------------------------- the cases of a submission

  /** The same records, some of them perhaps inactive. */
  predicate SameEntries(records: seq<Record>, kept: seq<Record>) {
    |kept| == |records| && forall i | 0 <= i < |records| :: kept[i].entry == records[i].entry
  }

  /** The entry under which an experiment is inserted. */
  function NewEntry(b: Board, x: Experiment, now: int): Entry {
    Entry(b.sequence + 1, x.id, x.scopeId, x.score, now)
  }

  /** The board after an admission. */
  function Admit(b: Board, kept: seq<Record>, x: Experiment, now: int): Board {
    Board(kept + [Record(NewEntry(b, x, now), true)], b.sequence + 1)
  }

  /** The submission of an eligible experiment that has no entry yet. */
  predicate Open(b: Board, x: Experiment) {
    Eligible(x) && FindByExperiment(b.records, x.id).None?
  }

  lemma SubmitCases(b: Board, x: Experiment, now: int)
    requires RecordsOk(b.records, b.sequence) && |Active(b.records, x.scopeId)| <= TOP_K
    ensures var top, r := Sort(RankLe, Active(b.records, x.scopeId)), Submit(b, x, now).0;
      && |top| <= TOP_K
      && (!Open(b, x) ==> r == b)
      && (Open(b, x) && |top| == TOP_K && x.score <= top[TOP_K - 1].score ==> r == b)
      && (Open(b, x) && |top| == TOP_K && x.score > top[TOP_K - 1].score ==>
            r == Admit(b, Deactivate(b.records, top[TOP_K - 1].id), x, now))
      && (Open(b, x) && |top| < TOP_K ==> r == Admit(b, b.records, x, now))
  {
    TopIsActive(b, x.scopeId);
    hide RecordsOk, Active, Sort, Deactivate, ActiveTopK, RankEntries, FindByExperiment;
  }

  lemma AdmitRecords(b: Board, kept: seq<Record>, x: Experiment, now: int, later: int)
    requires TableOk(b, now) && SameEntries(b.records, kept) && FindByExperiment(b.records, x.id).None? && now < later
    ensures TableOk(Admit(b, kept, x, now), later)
    ensures forall id | Has(b.records, id) :: Has(Admit(b, kept, x, now).records, id)
    ensures forall id | Has(Admit(b, kept, x, now).records, id) :: Has(b.records, id) || id == x.id
    ensures Has(Admit(b, kept, x, now).records, x.id)
  {
    FoundListed(b.records, x.id);
    var r := Admit(b, kept, x, now).records;
    assert forall i | 0 <= i < |b.records| :: r[i].entry == b.records[i].entry;
    assert r[|b.records|].entry.experimentId == x.id;
  }

  lemma TableLater(b: Board, now: int, later: int)
    requires TableOk(b, now) && now < later
    ensures TableOk(b, later)
  {
    hide RecordsOk;
  }

  lemma KeptAll(records: seq<Record>)
    ensures SameEntries(records, records)
  {
  }

  lemma DeactivatedSame(records: seq<Record>, id: nat)
    ensures SameEntries(records, Deactivate(records, id))
  {
  }

  /** Every submission keeps the table in order and its entries, and adds at most one for its own experiment. */
  lemma TableStep(b: Board, x: Experiment, now: int, later: int)
    requires TableOk(b, now) && now < later && |Active(b.records, x.scopeId)| <= TOP_K
    ensures var r := Submit(b, x, now).0;
      && TableOk(r, later)
      && (forall id | Has(b.records, id) :: Has(r.records, id))
      && (forall id | Has(r.records, id) :: Has(b.records, id) || (id == x.id && Eligible(x)))
  {
    hide Submit, RecordsOk, Active, Sort, FindByExperiment, Deactivate, SameEntries, Has, Before, Admit;
    SubmitCases(b, x, now);
    TableLater(b, now, later);
    var top := Sort(RankLe, Active(b.records, x.scopeId));
    if Open(b, x) {
      KeptAll(b.records);
      AdmitRecords(b, b.records, x, now, later);
      if |top| == TOP_K {
        DeactivatedSame(b.records, top[TOP_K - 1].id);
        AdmitRecords(b, Deactivate(b.records, top[TOP_K - 1].id), x, now, later);
      }
    }
  }

  // ---------------------------------------------------------------- the lists after a submission

  lemma DropLast(xs: seq<Entry>, k: nat)
    requires |xs| == k + 1
    ensures multiset(xs[..k]) == multiset(xs) - multiset{xs[k]}
  {
    assert xs == xs[..k] + [xs[k]];
  }

  lemma DeactivatedOk(b: Board, id: nat)
    requires RecordsOk(b.records, b.sequence)
    ensures RecordsOk(Deactivate(b.records, id), b.sequence)
  {
  }

  lemma OtherScopeIds(b: Board, e: Entry, c: string, d: string)
    requires RecordsOk(b.records, b.sequence) && Listed(b.records, e) && e.scopeId == c != d
    ensures forall f | f in Active(b.records, d) :: f.id != e.id
  {
    forall f | f in Active(b.records, d)
      ensures f.id != e.id
    {
      ActiveListed(b.records, d, f);
    }
  }

  /** The list a full scope keeps when its lowest entry leaves. */
  lemma Evicted(b: Board, c: string, top: seq<Entry>)
    requires RecordsOk(b.records, b.sequence) && top == Sort(RankLe, Active(b.records, c)) && |top| == TOP_K
    ensures var kept := Deactivate(b.records, top[TOP_K - 1].id);
      && multiset(Active(kept, c)) == multiset(top[..TOP_K - 1]) && LaterAndLater(Active(kept, c))
        && RecordsOk(kept, b.sequence)
      && (forall d: string | d != c :: Active(kept, d) == Active(b.records, d))
  {
    var lowest := top[TOP_K - 1];
    var kept := Deactivate(b.records, lowest.id);
    SortPermutes(RankLe, Active(b.records, c));
    assert lowest in multiset(top);
    ActiveListed(b.records, c, lowest);
    DeactivatedOk(b, lowest.id);
    hide Active, Deactivate, RecordsOk, Sort, Listed;
    DeactivateHere(b.records, b.sequence, c, lowest);
    DropLast(top, TOP_K - 1);
    ActiveLater(kept, b.sequence, c);
    forall d: string | d != c
      ensures Active(kept, d) == Active(b.records, d)
    {
      OtherScopeIds(b, lowest, c, d);
      DeactivateElsewhere(b.records, lowest.id, d);
    }
  }

  lemma TopSorted(b: Board, c: string)
    requires RecordsOk(b.records, b.sequence)
    ensures Sorted(Better, Sort(RankLe, Active(b.records, c)))
    ensures multiset(Sort(RankLe, Active(b.records, c))) == multiset(Active(b.records, c))
      && LaterAndLater(Active(b.records, c))
  {
    var active := Active(b.records, c);
    ActiveLater(b.records, b.sequence, c);
    RankIsBetter(active);
    Orders();
    SortSorts(Better, active);
    SortPermutes(RankLe, active);
  }

  lemma ErasedPrefix(xs: seq<Entry>, k: nat)
    requires k <= |xs|
    ensures |Erased(xs)| == |xs| && Erased(xs[..k]) == Erased(xs)[..k]
  {
    ErasedAt(xs);
    ErasedAt(xs[..k]);
  }

  lemma TopIsOlder(b: Board, c: string, now: int)
    requires Before(b.records, now)
    ensures forall i | 0 <= i < |Sort(RankLe, Active(b.records, c))| ::
      Sort(RankLe, Active(b.records, c))[i].addedAt < now
  {
    var active := Active(b.records, c);
    SortPermutes(RankLe, active);
    forall i | 0 <= i < |Sort(RankLe, active)|
      ensures Sort(RankLe, active)[i].addedAt < now
    {
      assert Sort(RankLe, active)[i] in multiset(active);
      ActiveListed(b.records, c, Sort(RankLe, active)[i]);
    }
  }

  lemma JoinedLater(kept: seq<Record>, c: string, entry: Entry)
    requires LaterAndLater(Active(kept, c)) && Before(kept, entry.addedAt)
    ensures LaterAndLater(Active(kept, c) + [entry])
  {
    forall e | e in Active(kept, c)
      ensures e.addedAt < entry.addedAt
    {
      ActiveListed(kept, c, e);
    }
  }

  lemma KeptLater(records: seq<Record>, kept: seq<Record>, c: string, entry: Entry)
    requires SameEntries(records, kept) && Before(records, entry.addedAt) && LaterAndLater(Active(kept, c))
    ensures LaterAndLater(Active(kept, c) + [entry])
  {
    assert Before(kept, entry.addedAt);
    hide Active, LaterAndLater;
    JoinedLater(kept, c, entry);
  }

  lemma SortedPrefix(xs: seq<Entry>, k: nat)
    requires Sorted(Better, xs) && k <= |xs|
    ensures Sorted(Better, xs[..k])
  {
  }

  lemma NewEntryIs(b: Board, x: Experiment, now: int)
    ensures NewEntry(b, x, now).addedAt == now && NewEntry(b, x, now).scopeId == x.scopeId
      && Erase(NewEntry(b, x, now)) == Offer(x, now)
  {
  }

  lemma RanksMean(offers: seq<Entry>, b: Board, c: string)
    requires Ranks(offers, b, c)
    ensures |Active(b.records, c)| <= TOP_K && Erased(Sort(RankLe, Active(b.records, c))) == TopTen(offers)
  {
  }

  lemma RanksBy(offers: seq<Entry>, b: Board, c: string, active: seq<Entry>)
    requires Active(b.records, c) == active && |active| <= TOP_K && Erased(Sort(RankLe, active)) == TopTen(offers)
    ensures Ranks(offers, b, c)
  {
  }

  /** How the ten best of the offers grow, told by the list the board holds. */
  lemma OffersGrow(offers: seq<Entry>, b: Board, x: Experiment, now: int)
    requires TableOk(b, now) && Ranks(offers, b, x.scopeId) && LaterAndLater(offers + [Offer(x, now)])
    ensures var top, e, grown := Sort(RankLe, Active(b.records, x.scopeId)), Offer(x, now),
      TopTen(offers + [Offer(x, now)]);
      && |top| <= TOP_K
      && (|top| < TOP_K ==> grown == Insert(Better, e, Erased(top)))
      && (|top| == TOP_K && x.score <= top[TOP_K - 1].score ==> grown == TopTen(offers))
      && (|top| == TOP_K && x.score > top[TOP_K - 1].score ==> grown == Insert(Better, e, Erased(top[..TOP_K - 1])))
  {
    var c := x.scopeId;
    var top := Sort(RankLe, Active(b.records, c));
    RanksMean(offers, b, c);
    SortPermutes(RankLe, Active(b.records, c));
    ErasedAt(top);
    if |top| == TOP_K {
      TopIsOlder(b, c, now);
      ErasedPrefix(top, TOP_K - 1);
    }
    hide RecordsOk, Before, Active, Sort, Erased, Insert, TopTen, LaterAndLater, Ranks;
    TopTenGrows(offers, Offer(x, now));
  }

  /** An open submission is admitted exactly when it belongs to the ten best offers, and then takes its place there. */
  lemma OfferStep(offers: seq<Entry>, b: Board, x: Experiment, now: int)
    requires TableOk(b, now) && Ranks(offers, b, x.scopeId) && LaterAndLater(offers + [Offer(x, now)]) && Open(b, x)
    ensures Ranks(offers + [Offer(x, now)], Submit(b, x, now).0, x.scopeId)
  {
    hide Ranks, RecordsOk, Active, Sort, Sorted, Erased, Erase, Insert, TopTen, LaterAndLater, Before,
      FindByExperiment, SameEntries,
      ActiveTopK, Deactivate, NewEntry, Offer, Submit, Eligible;
    var c, entry := x.scopeId, NewEntry(b, x, now);
    var top := Sort(RankLe, Active(b.records, c));
    RanksMean(offers, b, c);
    SubmitCases(b, x, now);
    TopSorted(b, c);
    OffersGrow(offers, b, x, now);
    NewEntryIs(b, x, now);
    var r := Submit(b, x, now).0;
    if |top| == TOP_K && x.score <= top[TOP_K - 1].score {
      RanksBy(offers + [Offer(x, now)], b, c, Active(b.records, c));
    } else if |top| == TOP_K {
      var kept := Deactivate(b.records, top[TOP_K - 1].id);
      Evicted(b, c, top);
      DeactivatedSame(b.records, top[TOP_K - 1].id);
      SortedPrefix(top, TOP_K - 1);
      KeptLater(b.records, kept, c, entry);
      JoinsOffline(Active(kept, c), top[..TOP_K - 1], entry);
      ActiveAppend(kept, Record(entry, true), c);
      RanksBy(offers + [Offer(x, now)], r, c, Active(kept, c) + [entry]);
    } else {
      KeptAll(b.records);
      KeptLater(b.records, b.records, c, entry);
      JoinsOffline(Active(b.records, c), top, entry);
      ActiveAppend(b.records, Record(entry, true), c);
      RanksBy(offers + [Offer(x, now)], r, c, Active(b.records, c) + [entry]);
    }
  }

  /** The lists of other scopes do not change. */
  lemma ElsewhereStep(b: Board, x: Experiment, now: int, d: string)
    requires RecordsOk(b.records, b.sequence) && |Active(b.records, x.scopeId)| <= TOP_K && d != x.scopeId
    ensures Active(Submit(b, x, now).0.records, d) == Active(b.records, d)
  {
    hide RecordsOk, Active, Sort, FindByExperiment, Deactivate, Submit, Eligible;
    var top := Sort(RankLe, Active(b.records, x.scopeId));
    SubmitCases(b, x, now);
    NewEntryIs(b, x, now);
    ActiveAppend(b.records, Record(NewEntry(b, x, now), true), d);
    if |top| == TOP_K {
      Evicted(b, x.scopeId, top);
      ActiveAppend(Deactivate(b.records, top[TOP_K - 1].id), Record(NewEntry(b, x, now), true), d);
    }
  }

  /** An entry that has just been admitted is on the list of its scope. */
  lemma AdmittedListed(b: Board, x: Experiment, now: int)
    requires RecordsOk(b.records, b.sequence) && |Active(b.records, x.scopeId)| <= TOP_K && Submit(b, x, now).0 != b
    ensures NewEntry(b, x, now) in Active(Submit(b, x, now).0.records, x.scopeId)
  {
    hide RecordsOk, Active, Sort, FindByExperiment, Deactivate, Submit, Eligible;
    var top := Sort(RankLe, Active(b.records, x.scopeId));
    SubmitCases(b, x, now);
    NewEntryIs(b, x, now);
    ActiveAppend(b.records, Record(NewEntry(b, x, now), true), x.scopeId);
    if |top| == TOP_K {
      ActiveAppend(Deactivate(b.records, top[TOP_K - 1].id), Record(NewEntry(b, x, now), true), x.scopeId);
    }
  }
}
