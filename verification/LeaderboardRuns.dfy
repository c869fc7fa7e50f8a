/** The online list along every run of submissions, compared with rankings made offline. */
module LeaderboardRuns {
  import opened Wrappers
  import opened Sorting
  import opened Leaderboard
  import opened LeaderboardRanking
  import opened LeaderboardSteps

  // ---------------------------------------------------------------- runs and their offers

  /** All submissions lie before `now`. */
  predicate Ends(subs: seq<Submission>, now: int) {
    forall i | 0 <= i < |subs| :: subs[i].at < now
  }

  lemma PlayStep(subs: seq<Submission>, s: Submission)
    ensures Play(subs + [s]) == Submit(Play(subs), s.experiment, s.at).0
  {
    hide Submit;
    assert (subs + [s])[..|subs|] == subs;
  }

  lemma IncreasingPrefix(subs: seq<Submission>, s: Submission)
    requires Increasing(subs + [s])
    ensures Increasing(subs) && Ends(subs, s.at)
  {
    assert forall i | 0 <= i < |subs| :: (subs + [s])[i] == subs[i];
    assert (subs + [s])[|subs|] == s;
  }

  lemma OffersStep(subs: seq<Submission>, s: Submission, c: string)
    ensures Offers(subs + [s], c) ==
      if Open(Play(subs), s.experiment) && s.experiment.scopeId == c
      then Offers(subs, c) + [Offer(s.experiment, s.at)] else Offers(subs, c)
  {
    assert (subs + [s])[..|subs|] == subs;
  }

  /** The entry bears the time of one of the submissions. */
  predicate Dated(subs: seq<Submission>, e: Entry) {
    exists i | 0 <= i < |subs| :: subs[i].at == e.addedAt
  }

  lemma DatedBefore(subs: seq<Submission>, s: Submission, offers: seq<Entry>)
    requires Ends(subs, s.at) && LaterAndLater(offers) && forall e | e in offers :: Dated(subs, e)
    ensures LaterAndLater(offers + [Offer(s.experiment, s.at)])
    ensures forall e | e in offers + [Offer(s.experiment, s.at)] :: Dated(subs + [s], e)
  {
    assert forall i | 0 <= i < |subs| :: (subs + [s])[i] == subs[i];
    assert (subs + [s])[|subs|] == s;
    forall i | 0 <= i < |offers|
      ensures offers[i].addedAt < s.at
    {
      assert Dated(subs, offers[i]);
    }
  }

  lemma {:induction false} OffersDated(subs: seq<Submission>, c: string)
    requires Increasing(subs)
    ensures LaterAndLater(Offers(subs, c)) && forall e | e in Offers(subs, c) :: Dated(subs, e)
    decreases |subs|
  {
    if subs != [] {
      var before, s := subs[..|subs| - 1], subs[|subs| - 1];
      assert subs == before + [s];
      hide Increasing, Offers, Dated, LaterAndLater, Open;
      IncreasingPrefix(before, s);
      OffersDated(before, c);
      OffersStep(before, s, c);
      DatedBefore(before, s, Offers(before, c));
    }
  }

  /** In every run the table is in order and the list of every scope is the ten best of its offers. */
  lemma {:induction false} RunOk(subs: seq<Submission>, now: int)
    requires Increasing(subs) && Ends(subs, now)
    ensures TableOk(Play(subs), now) && forall c: string :: Ranks(Offers(subs, c), Play(subs), c)
    decreases |subs|
  {
    if subs == [] {
      assert Sort(Better, []) == [];
    } else {
      var before, s := subs[..|subs| - 1], subs[|subs| - 1];
      assert subs == before + [s];
      IncreasingPrefix(before, s);
      assert s.at < now;
      hide Increasing, Ends, Play, Offers, TableOk, Ranks;
      RunOk(before, s.at);
      StepOk(before, s, now);
    }
  }

  lemma StepOk(subs: seq<Submission>, s: Submission, now: int)
    requires Increasing(subs + [s]) && TableOk(Play(subs), s.at) && s.at < now
    requires forall c: string :: Ranks(Offers(subs, c), Play(subs), c)
    ensures TableOk(Play(subs + [s]), now) && forall c: string :: Ranks(Offers(subs + [s], c), Play(subs + [s]), c)
  {
    hide Increasing, Ends, Play, Offers, Ranks, RecordsOk, Before, Submit, Offer, LaterAndLater, Dated, Open;
    var x, b := s.experiment, Play(subs);
    PlayStep(subs, s);
    RanksMean(Offers(subs, x.scopeId), b, x.scopeId);
    TableStep(b, x, s.at, now);
    SubmitCases(b, x, s.at);
    forall c: string
      ensures Ranks(Offers(subs + [s], c), Play(subs + [s]), c)
    {
      OffersStep(subs, s, c);
      if c != x.scopeId {
        ElsewhereStep(b, x, s.at, c);
        RanksMean(Offers(subs, c), b, c);
        RanksBy(Offers(subs, c), Play(subs + [s]), c, Active(b.records, c));
      } else if Open(b, x) {
        IncreasingPrefix(subs, s);
        OffersDated(subs, c);
        DatedBefore(subs, s, Offers(subs, c));
        OfferStep(Offers(subs, c), b, x, s.at);
      }
    }
  }

  /** The list a run leaves behind for a scope. */
  function OnlineList(subs: seq<Submission>, c: string): seq<Entry> {
    ActiveTopK(Play(subs).records, c)
  }

  lemma ListIs(offers: seq<Entry>, b: Board, c: string)
    requires RecordsOk(b.records, b.sequence) && Ranks(offers, b, c)
    ensures Erased(ActiveTopK(b.records, c)) == TopTen(offers)
      && |ActiveTopK(b.records, c)| == |TopTen(offers)| <= TOP_K
    ensures ActiveTopK(b.records, c) == Sort(RankLe, Active(b.records, c))
    ensures forall i | 0 <= i < |TopTen(offers)| :: TopTen(offers)[i].score == ActiveTopK(b.records, c)[i].score
  {
    TopIsActive(b, c);
    ErasedAt(ActiveTopK(b.records, c));
    hide RecordsOk, Active, Sort, Erased, TopTen, ActiveTopK;
  }

  /** A time after all submissions. */
  lemma SomeEnd(subs: seq<Submission>) returns (now: int)
    requires Increasing(subs)
    ensures Ends(subs, now)
  {
    now := if subs == [] then 0 else subs[|subs| - 1].at + 1;
  }

  /** In every run, whatever is submitted again and with whatever score, the online list is the ten best offers. */
  lemma OnlineIsBestOffers(subs: seq<Submission>, c: string)
    requires Increasing(subs)
    ensures Erased(OnlineList(subs, c)) == TopTen(Offers(subs, c))
  {
    hide Increasing, Ends, Play, Offers, RecordsOk, Before, Ranks, TopTen, ActiveTopK;
    var now := SomeEnd(subs);
    RunOk(subs, now);
    ListIs(Offers(subs, c), Play(subs), c);
  }

  // ---------------------------------------------------------------- the lowest entry of a full list

  lemma InsertKeepsAbove(e: Entry, xs: seq<Entry>, floor: real)
    requires e.score >= floor && forall x | x in xs :: x.score >= floor
    ensures forall y | y in Insert(Better, e, xs) :: y.score >= floor
  {
    forall y | y in Insert(Better, e, xs)
      ensures y.score >= floor
    {
      InsertMember(Better, e, xs, y);
    }
  }

  lemma Rises(offline: seq<Entry>, e: Entry, grown: seq<Entry>)
    requires |offline| == TOP_K && forall x | x in offline :: x.score >= offline[TOP_K - 1].score
    requires !Better(e, offline[TOP_K - 1]) ==> grown == offline
    requires Better(e, offline[TOP_K - 1]) ==> grown == Insert(Better, e, offline[..TOP_K - 1])
    ensures |grown| == TOP_K && grown[TOP_K - 1].score >= offline[TOP_K - 1].score
  {
    if Better(e, offline[TOP_K - 1]) {
      InsertLength(e, offline[..TOP_K - 1]);
      InsertKeepsAbove(e, offline[..TOP_K - 1], offline[TOP_K - 1].score);
    }
  }

  lemma TopTenSorted(offers: seq<Entry>)
    ensures var top := TopTen(offers); forall x | x in top :: x.score >= top[|top| - 1].score
  {
    Orders();
    var all, top := Sort(Better, offers), TopTen(offers);
    SortSorts(Better, offers);
    TakeAt(all, TOP_K);
    forall x | x in top
      ensures x.score >= top[|top| - 1].score
    {
      var i :| 0 <= i < |top| && top[i] == x;
      if i < |top| - 1 { assert Better(all[i], all[|top| - 1]); }
    }
  }

  /** Once ten entries are active in a scope there are always ten, and the lowest active score never decreases. */
  lemma LowestNeverDecreases(subs: seq<Submission>, s: Submission, c: string)
    requires Increasing(subs + [s]) && |OnlineList(subs, c)| == TOP_K
    ensures var before, after := OnlineList(subs, c), OnlineList(subs + [s], c);
      |after| == TOP_K && after[TOP_K - 1].score >= before[TOP_K - 1].score
  {
    hide Increasing, Ends, Play, Offers, RecordsOk, Before, Ranks, TopTen, ActiveTopK, LaterAndLater, Dated, Open,
      Better, Insert;
    IncreasingPrefix(subs, s);
    RunOk(subs, s.at);
    RunOkNext(subs, s);
    ListIs(Offers(subs, c), Play(subs), c);
    ListIs(Offers(subs + [s], c), Play(subs + [s]), c);
    OffersStep(subs, s, c);
    OffersDated(subs, c);
    DatedBefore(subs, s, Offers(subs, c));
    if Offers(subs + [s], c) != Offers(subs, c) {
      var e := Offer(s.experiment, s.at);
      TopTenGrows(Offers(subs, c), e);
      TopTenSorted(Offers(subs, c));
      Rises(TopTen(Offers(subs, c)), e, TopTen(Offers(subs, c) + [e]));
    }
  }

  lemma RunOkNext(subs: seq<Submission>, s: Submission)
    requires Increasing(subs + [s])
    ensures TableOk(Play(subs + [s]), s.at + 1) && forall c: string :: Ranks(Offers(subs + [s], c), Play(subs + [s]), c)
  {
    hide Play, Offers, TableOk, Ranks;
    assert (subs + [s])[|subs|] == s;
    RunOk(subs + [s], s.at + 1);
  }

  // ---------------------------------------------------------------- submitting again

  /** The scope's list is full and ends with a score at least this high. */
  predicate FullAbove(subs: seq<Submission>, c: string, score: real) {
    |OnlineList(subs, c)| == TOP_K && OnlineList(subs, c)[TOP_K - 1].score >= score
  }

  /** What became of the last submission, told by the lists before it. */
  lemma LastSubmission(subs: seq<Submission>, s: Submission)
    requires Increasing(subs + [s])
    ensures var x, b, r := s.experiment, Play(subs), Play(subs + [s]);
      && (r == b <==> !Open(b, x) || FullAbove(subs, x.scopeId, x.score))
      && (r != b ==> Has(r.records, x.id) && NewEntry(b, x, s.at) in Active(r.records, x.scopeId))
      && (forall id | Has(b.records, id) :: Has(r.records, id))
      && (forall id | Has(r.records, id) :: Has(b.records, id) || (id == x.id && Eligible(x)))
  {
    hide Increasing, Ends, Play, Offers, Ranks, RecordsOk, Before, Submit, Active, Sort, ActiveTopK, Deactivate, Has,
      NewEntry, Open, TopTen;
    var x, b := s.experiment, Play(subs);
    IncreasingPrefix(subs, s);
    RunOk(subs, s.at);
    PlayStep(subs, s);
    RanksMean(Offers(subs, x.scopeId), b, x.scopeId);
    ListIs(Offers(subs, x.scopeId), b, x.scopeId);
    TableStep(b, x, s.at, s.at + 1);
    SubmitCases(b, x, s.at);
    if Play(subs + [s]) != b {
      AdmittedListed(b, x, s.at);
      ActiveHas(Play(subs + [s]).records, x.scopeId, NewEntry(b, x, s.at));
      NewEntryNames(b, x, s.at);
    }
  }

  lemma ActiveHas(records: seq<Record>, c: string, e: Entry)
    requires e in Active(records, c)
    ensures Has(records, e.experimentId)
  {
    ActiveListed(records, c, e);
  }

  lemma NewEntryNames(b: Board, x: Experiment, now: int)
    ensures NewEntry(b, x, now).experimentId == x.id && NewEntry(b, x, now).addedAt == now
  {
  }

  /** An experiment that was offered and has no entry stands behind a full list, whatever happened since. */
  lemma {:induction false} TurnedDown(subs: seq<Submission>, i: nat)
    requires Increasing(subs) && i < |subs| && Eligible(subs[i].experiment)
      && !Has(Play(subs).records, subs[i].experiment.id)
    ensures FullAbove(subs, subs[i].experiment.scopeId, subs[i].experiment.score)
    decreases |subs|
  {
    var n := |subs| - 1;
    var before, s, x := subs[..n], subs[n], subs[i].experiment;
    assert subs == before + [s];
    hide Increasing, Play, OnlineList, Has, Eligible;
    IncreasingPrefix(before, s);
    LastSubmission(before, s);
    if i < n {
      assert before[i] == subs[i];
      TurnedDown(before, i);
      LowestNeverDecreases(before, s, x.scopeId);
    } else {
      FoundListed(Play(before).records, x.id);
      assert Open(Play(before), x);
      SamePlay(before, s);
    }
  }

  lemma SamePlay(subs: seq<Submission>, s: Submission)
    ensures Play(subs + [s]) == Play(subs) ==> forall c: string :: OnlineList(subs + [s], c) == OnlineList(subs, c)
  {
    hide Play, ActiveTopK;
  }

  /**
   * An experiment that was submitted before changes the board exactly if it has no entry and its score has come to
   * exceed the lowest one of the list, which is then full.
   */
  lemma ResubmissionExactly(subs: seq<Submission>, s: Submission)
    requires Increasing(subs + [s]) && ScopesFixed(subs + [s]) && Seen(subs, s.experiment.id)
    ensures Play(subs + [s]) != Play(subs) <==> Readmits(subs, s)
    ensures Open(Play(subs), s.experiment) ==> |OnlineList(subs, s.experiment.scopeId)| == TOP_K
  {
    var x := s.experiment;
    IncreasingPrefix(subs, s);
    LastSubmission(subs, s);
    if Open(Play(subs), x) {
      var i :| 0 <= i < |subs| && Eligible(subs[i].experiment) && subs[i].experiment.id == x.id;
      FirstScope(subs, s, i);
      FoundListed(Play(subs).records, x.id);
      hide *;
      TurnedDown(subs, i);
    }
    hide Increasing, ScopesFixed, Play, OnlineList, Open, Has, Active, NewEntry;
  }

  lemma FirstScope(subs: seq<Submission>, s: Submission, i: nat)
    requires ScopesFixed(subs + [s]) && i < |subs| && Eligible(subs[i].experiment) && Eligible(s.experiment)
      && subs[i].experiment.id == s.experiment.id
    ensures subs[i].experiment.scopeId == s.experiment.scopeId
  {
    assert (subs + [s])[i] == subs[i] && (subs + [s])[|subs|] == s;
  }

  /** The experiment was submitted before and has no entry, and its score now exceeds the lowest of the full list. */
  ghost predicate Readmits(subs: seq<Submission>, s: Submission) {
    var list := OnlineList(subs, s.experiment.scopeId);
    && Seen(subs, s.experiment.id) && Open(Play(subs), s.experiment)
    && |list| == TOP_K && s.experiment.score > list[TOP_K - 1].score
  }

  /** An experiment whose score was not raised is never readmitted. */
  lemma NotReadmitted(subs: seq<Submission>, s: Submission)
    requires Increasing(subs + [s]) && ScopesFixed(subs + [s]) && NeverRaised(subs + [s])
    ensures !Readmits(subs, s)
  {
    var x := s.experiment;
    IncreasingPrefix(subs, s);
    if Seen(subs, x.id) && Open(Play(subs), x) {
      var i :| 0 <= i < |subs| && Eligible(subs[i].experiment) && subs[i].experiment.id == x.id;
      FirstScope(subs, s, i);
      assert (subs + [s])[i] == subs[i] && (subs + [s])[|subs|] == s;
      FoundListed(Play(subs).records, x.id);
      hide Increasing, ScopesFixed, Play, OnlineList, Has;
      TurnedDown(subs, i);
    }
  }

  /** Submitting an experiment again with a score no higher than before changes the board of no scope. */
  lemma ResubmissionChangesNothing(subs: seq<Submission>, s: Submission)
    requires Increasing(subs + [s]) && ScopesFixed(subs + [s]) && NeverRaised(subs + [s]) && Seen(subs, s.experiment.id)
    ensures Play(subs + [s]) == Play(subs)
  {
    hide *;
    NotReadmitted(subs, s);
    ResubmissionExactly(subs, s);
  }

  // ---------------------------------------------------------------- the offline ranking

  /** The online list is the offline ranking of all distinct experiments, as they were first submitted. */
  ghost predicate Agrees(subs: seq<Submission>, c: string) {
    Erased(OnlineList(subs, c)) == Offline(subs, c)
  }

  ghost predicate RanksDistinct(subs: seq<Submission>) {
    forall c: string :: Ranks(Distinct(subs, c), Play(subs), c)
  }

  lemma DistinctStep(subs: seq<Submission>, s: Submission, c: string)
    ensures Distinct(subs + [s], c) ==
      if Eligible(s.experiment) && s.experiment.scopeId == c && !Seen(subs, s.experiment.id)
      then Distinct(subs, c) + [Offer(s.experiment, s.at)] else Distinct(subs, c)
  {
    assert (subs + [s])[..|subs|] == subs;
  }

  lemma {:induction false} DistinctDated(subs: seq<Submission>, c: string)
    requires Increasing(subs)
    ensures LaterAndLater(Distinct(subs, c)) && forall e | e in Distinct(subs, c) :: Dated(subs, e)
    decreases |subs|
  {
    if subs != [] {
      var before, s := subs[..|subs| - 1], subs[|subs| - 1];
      assert subs == before + [s];
      hide Increasing, Distinct, Dated, LaterAndLater, Seen, Eligible;
      IncreasingPrefix(before, s);
      DistinctDated(before, c);
      DistinctStep(before, s, c);
      DatedBefore(before, s, Distinct(before, c));
    }
  }

  /** Every experiment with an entry was submitted. */
  lemma {:induction false} ListedSeen(subs: seq<Submission>)
    requires Increasing(subs)
    ensures forall id | Has(Play(subs).records, id) :: Seen(subs, id)
    decreases |subs|
  {
    if subs != [] {
      var before, s := subs[..|subs| - 1], subs[|subs| - 1];
      assert subs == before + [s];
      SeenLater(before, s);
      hide Increasing, Play, Seen, Has, Eligible, OnlineList;
      IncreasingPrefix(before, s);
      ListedSeen(before);
      LastSubmission(before, s);
    }
  }

  lemma SeenLater(subs: seq<Submission>, s: Submission)
    ensures forall id | Seen(subs, id) :: Seen(subs + [s], id)
    ensures Eligible(s.experiment) ==> Seen(subs + [s], s.experiment.id)
  {
    assert forall i | 0 <= i < |subs| :: (subs + [s])[i] == subs[i];
    assert (subs + [s])[|subs|] == s;
  }

  /** Unless it readmits an experiment, a submission keeps every list equal to its offline ranking. */
  lemma OfflineStep(subs: seq<Submission>, s: Submission)
    requires Increasing(subs + [s]) && ScopesFixed(subs + [s]) && RanksDistinct(subs) && !Readmits(subs, s)
    ensures RanksDistinct(subs + [s])
  {
    hide Increasing, ScopesFixed, Play, Distinct, Ranks, RecordsOk, Before, Submit, Offer, LaterAndLater, Dated, Seen,
      Eligible, Has,
      Readmits, OnlineList, Active;
    var x, b := s.experiment, Play(subs);
    IncreasingPrefix(subs, s);
    RunOk(subs, s.at);
    PlayStep(subs, s);
    RanksMean(Distinct(subs, x.scopeId), b, x.scopeId);
    SubmitCases(b, x, s.at);
    ListedSeen(subs);
    FoundListed(b.records, x.id);
    if Seen(subs, x.id) { ResubmissionExactly(subs, s); }
    forall c: string
      ensures Ranks(Distinct(subs + [s], c), Play(subs + [s]), c)
    {
      DistinctStep(subs, s, c);
      RanksMean(Distinct(subs, c), b, c);
      if Seen(subs, x.id) || !Eligible(x) {
        assert Play(subs + [s]) == b;
      } else if c != x.scopeId {
        ElsewhereStep(b, x, s.at, c);
        RanksBy(Distinct(subs, c), Play(subs + [s]), c, Active(b.records, c));
      } else {
        DistinctDated(subs, c);
        DatedBefore(subs, s, Distinct(subs, c));
        OfferStep(Distinct(subs, c), b, x, s.at);
      }
    }
  }

  lemma RanksAgrees(subs: seq<Submission>, c: string)
    requires Increasing(subs) && RanksDistinct(subs)
    ensures Agrees(subs, c)
  {
    hide Increasing, Ends, Play, Distinct, RecordsOk, Before, Ranks, TopTen, ActiveTopK;
    var now := SomeEnd(subs);
    RunOk(subs, now);
    ListIs(Distinct(subs, c), Play(subs), c);
  }

  /**
   * A readmission puts an entry on the list that bears the time of the resubmission, which no distinct experiment has.
   */
  lemma ReadmissionDisagrees(subs: seq<Submission>, s: Submission)
    requires Increasing(subs + [s]) && ScopesFixed(subs + [s]) && Readmits(subs, s)
    ensures !Agrees(subs + [s], s.experiment.scopeId)
  {
    var x, c := s.experiment, s.experiment.scopeId;
    var e := NewEntry(Play(subs), x, s.at);
    assert Seen(subs, x.id);
    hide Increasing, ScopesFixed, Play, Distinct, Offers, Ranks, RecordsOk, Before, Dated, Seen, Has, Readmits, TopTen,
      ActiveTopK, NewEntry,
      Sort, Active, Erased, Erase, Open;
    ResubmissionExactly(subs, s);
    LastSubmission(subs, s);
    NewEntryNames(Play(subs), x, s.at);
    RunOkNext(subs, s);
    ListIs(Offers(subs + [s], c), Play(subs + [s]), c);
    ErasedHas(OnlineList(subs + [s], c), Active(Play(subs + [s]).records, c), e);
    DistinctStep(subs, s, c);
    IncreasingPrefix(subs, s);
    NotDistinct(subs, c, s.at, Erase(e));
  }

  lemma ErasedHas(list: seq<Entry>, active: seq<Entry>, e: Entry)
    requires list == Sort(RankLe, active) && e in active
    ensures Erase(e) in Erased(list) && Erase(e).addedAt == e.addedAt
  {
    SortPermutes(RankLe, active);
    assert e in multiset(list);
    ErasedAt(list);
    var i :| 0 <= i < |list| && list[i] == e;
    assert Erased(list)[i] == Erase(e);
  }

  lemma NotDistinct(subs: seq<Submission>, c: string, now: int, e: Entry)
    requires Increasing(subs) && Ends(subs, now) && e.addedAt == now
    ensures e !in Offline(subs, c)
  {
    hide Increasing, Distinct, LaterAndLater, TopTen;
    DistinctDated(subs, c);
    if e in Offline(subs, c) { AmongOffers(Distinct(subs, c), e); }
  }

  lemma AmongOffers(offers: seq<Entry>, e: Entry)
    requires e in TopTen(offers)
    ensures e in offers
  {
    var all := Sort(Better, offers);
    SortPermutes(Better, offers);
    TakeAt(all, TOP_K);
    assert e in multiset(all);
  }

  /**
   * All lists agree with their offline rankings throughout a run exactly if no submission of it readmits an experiment
   * whose score was raised after it had been turned down.
   */
  lemma OnlineIsOfflineExactly(subs: seq<Submission>)
    requires Increasing(subs) && ScopesFixed(subs)
    ensures (forall k: nat, c: string | k <= |subs| :: Agrees(subs[..k], c))
      <==> (forall k: nat | k < |subs| :: !Readmits(subs[..k], subs[k]))
  {
    hide Agrees, Readmits, RanksDistinct;
    if forall k: nat, c: string | k <= |subs| :: Agrees(subs[..k], c) {
      forall k: nat | k < |subs|
        ensures !Readmits(subs[..k], subs[k])
      {
        PrefixFacts(subs, k + 1);
        assert subs[..k + 1] == subs[..k] + [subs[k]];
        assert Agrees(subs[..k + 1], subs[k].experiment.scopeId);
        if Readmits(subs[..k], subs[k]) { ReadmissionDisagrees(subs[..k], subs[k]); }
      }
    }
    if forall k: nat | k < |subs| :: !Readmits(subs[..k], subs[k]) {
      forall k: nat, c: string | k <= |subs|
        ensures Agrees(subs[..k], c)
      {
        AgreesSoFar(subs, k);
        PrefixFacts(subs, k);
        RanksAgrees(subs[..k], c);
      }
    }
  }

  lemma PrefixFacts(subs: seq<Submission>, k: nat)
    requires k <= |subs|
    ensures Increasing(subs) ==> Increasing(subs[..k])
    ensures ScopesFixed(subs) ==> ScopesFixed(subs[..k])
    ensures NeverRaised(subs) ==> NeverRaised(subs[..k])
  {
    assert forall i | 0 <= i < k :: subs[..k][i] == subs[i];
  }

  lemma {:induction false} AgreesSoFar(subs: seq<Submission>, k: nat)
    requires Increasing(subs) && ScopesFixed(subs) && k <= |subs|
    requires forall i: nat | i < |subs| :: !Readmits(subs[..i], subs[i])
    ensures RanksDistinct(subs[..k])
  {
    if k == 0 {
      assert Sort(Better, []) == [];
    } else {
      hide RanksDistinct, Readmits;
      AgreesSoFar(subs, k - 1);
      PrefixFacts(subs, k);
      assert subs[..k] == subs[..k - 1] + [subs[k - 1]];
      OfflineStep(subs[..k - 1], subs[k - 1]);
    }
  }

  /**
   * While no score is raised, the list of every scope is the ten best of all distinct eligible experiments ever
   * submitted.
   */
  lemma OnlineIsOffline(subs: seq<Submission>, c: string)
    requires Increasing(subs) && ScopesFixed(subs) && NeverRaised(subs)
    ensures Erased(OnlineList(subs, c)) == Offline(subs, c)
  {
    hide OnlineList, Offline, Readmits;
    forall k: nat | k < |subs|
      ensures !Readmits(subs[..k], subs[k])
    {
      PrefixFacts(subs, k + 1);
      assert subs[..k + 1] == subs[..k] + [subs[k]];
      NotReadmitted(subs[..k], subs[k]);
    }
    OnlineIsOfflineExactly(subs);
    assert subs[..|subs|] == subs;
    assert Agrees(subs[..|subs|], c);
  }
}
