/** What a submission is told, compared with what became of the lists. */
module LeaderboardAnswers {
  import opened Wrappers
  import opened Sorting
  import opened Leaderboard
  import opened LeaderboardRanking
  import opened LeaderboardSteps
  import opened LeaderboardRuns

  /** The entry of this experiment in this scope, whether still in the list or not. */
  predicate EntryOf(records: seq<Record>, x: Experiment, e: Entry) {
    Listed(records, e) && e.experimentId == x.id && e.scopeId == x.scopeId
  }

  lemma {:induction false} FoundEntry(records: seq<Record>, id: string)
    ensures var e := FindByExperiment(records, id);
      e.Some? ==> Listed(records, e.value) && e.value.experimentId == id
  {
    if records != [] && records[0].entry.experimentId != id {
      FoundEntry(records[1..], id);
      var e := FindByExperiment(records[1..], id);
      if e.Some? {
        var i :| 0 <= i < |records[1..]| && records[1..][i].entry == e.value;
        assert records[i + 1].entry == e.value;
      }
    }
  }

  lemma OneEntry(b: Board, d: Entry, e: Entry)
    requires RecordsOk(b.records, b.sequence) && Listed(b.records, d) && Listed(b.records, e)
      && d.experimentId == e.experimentId
    ensures d == e
  {
    var i :| 0 <= i < |b.records| && b.records[i].entry == d;
    var j :| 0 <= j < |b.records| && b.records[j].entry == e;
    assert i == j;
  }

  lemma ListedHas(records: seq<Record>, e: Entry)
    requires Listed(records, e)
    ensures Has(records, e.experimentId)
  {
  }

  lemma NewcomerListed(kept: seq<Record>, e: Entry)
    ensures Listed(kept + [Record(e, true)], e)
  {
    assert (kept + [Record(e, true)])[|kept|].entry == e;
  }

  /** The answer, told by the table before and after. */
  lemma AnswerHere(b: Board, x: Experiment, now: int)
    requires RecordsOk(b.records, b.sequence)
    ensures var (r, answer) := Submit(b, x, now);
      && (answer.Failure? <==> x.inSearchRun && x.rankEligible && !x.owned)
      && (answer.Success? ==>
            && (answer.value.admitted <==> Eligible(x) && exists e :: EntryOf(r.records, x, e))
            && (answer.value.admitted ==> answer.value.entry.Some? && EntryOf(r.records, x, answer.value.entry.value))
            && (!answer.value.admitted ==> answer.value.entry.None? && answer.value.evicted.None?))
      && (r != b ==> answer.Success? && answer.value.admitted && answer.value.entry == Some(NewEntry(b, x, now)))
  {
    FoundEntry(b.records, x.id);
    FoundListed(b.records, x.id);
    hide RecordsOk, RankEntries, ActiveTopK, Deactivate, Listed, Has, FindByExperiment;
    var found := FindByExperiment(b.records, x.id);
    var (r, answer) := Submit(b, x, now);
    if Eligible(x) {
      if found.Some? {
        forall e | EntryOf(b.records, x, e)
          ensures e == found.value
        {
          OneEntry(b, found.value, e);
        }
        if found.value.scopeId == x.scopeId { assert EntryOf(b.records, x, found.value); }
      } else {
        forall e | Listed(b.records, e)
          ensures e.experimentId != x.id
        {
          ListedHas(b.records, e);
        }
        if answer.value.admitted {
          var kept := r.records[..|r.records| - 1];
          NewcomerListed(kept, NewEntry(b, x, now));
          assert r.records == kept + [Record(NewEntry(b, x, now), true)];
          assert EntryOf(r.records, x, NewEntry(b, x, now));
        }
      }
    }
  }

  /**
   * A submission fails exactly if the experiment is to be ranked but its owner does not have the scope. It is told it
   * was admitted exactly if it is to be ranked and now has an entry in its scope, which is then named; only then is
   * anything named.
   */
  lemma AnswerIsTrue(subs: seq<Submission>, s: Submission)
    requires Increasing(subs + [s])
    ensures var x, r, answer := s.experiment, Play(subs + [s]), Submit(Play(subs), s.experiment, s.at).1;
      && (answer.Failure? <==> x.inSearchRun && x.rankEligible && !x.owned)
      && (answer.Success? ==>
            && (answer.value.admitted <==> Eligible(x) && exists e :: EntryOf(r.records, x, e))
            && (answer.value.admitted ==> answer.value.entry.Some? && EntryOf(r.records, x, answer.value.entry.value))
            && (!answer.value.admitted ==> answer.value.entry.None? && answer.value.evicted.None?))
  {
    hide Increasing, Ends, Play, Submit, EntryOf, RecordsOk, Before, Ranks, Eligible;
    IncreasingPrefix(subs, s);
    RunOk(subs, s.at);
    PlayStep(subs, s);
    AnswerHere(Play(subs), s.experiment, s.at);
  }

  lemma MemberOfBag(xs: seq<Entry>, ys: seq<Entry>)
    requires multiset(xs) == multiset(ys)
    ensures forall e :: e in xs <==> e in ys
  {
    assert forall e :: e in xs <==> e in multiset(xs);
    assert forall e :: e in ys <==> e in multiset(ys);
  }

  lemma InPrefix(xs: seq<Entry>)
    requires xs != [] && LaterAndLater(xs)
    ensures forall e :: e in xs[..|xs| - 1] <==> e in xs && e != xs[|xs| - 1]
  {
  }

  /** Who is in the list after an admission. */
  lemma MembersAfter(b: Board, x: Experiment, now: int)
    requires TableOk(b, now) && |Active(b.records, x.scopeId)| <= TOP_K && Submit(b, x, now).0 != b
    ensures var before, entry := Sort(RankLe, Active(b.records, x.scopeId)), NewEntry(b, x, now);
      forall e :: e in Active(Submit(b, x, now).0.records, x.scopeId) <==>
        e == entry || (e in before && (|before| < TOP_K || e != before[|before| - 1]))
  {
    hide RecordsOk, Before, Active, Sort, Deactivate, FindByExperiment, Submit, NewEntry, LaterAndLater;
    var c, entry := x.scopeId, NewEntry(b, x, now);
    var before := Sort(RankLe, Active(b.records, c));
    SubmitCases(b, x, now);
    TopSorted(b, c);
    NewEntryIs(b, x, now);
    MemberOfBag(before, Active(b.records, c));
    if |before| < TOP_K {
      ActiveAppend(b.records, Record(entry, true), c);
    } else {
      var kept := Deactivate(b.records, before[TOP_K - 1].id);
      Evicted(b, c, before);
      MemberOfBag(Active(kept, c), before[..TOP_K - 1]);
      DistinctSorted(before, Active(b.records, c));
      ActiveAppend(kept, Record(entry, true), c);
    }
  }

  lemma DistinctSorted(xs: seq<Entry>, ys: seq<Entry>)
    requires xs != [] && multiset(xs) == multiset(ys) && LaterAndLater(ys)
    ensures forall e :: e in xs[..|xs| - 1] <==> e in xs && e != xs[|xs| - 1]
  {
    var n := |xs| - 1;
    OnceEach(ys);
    DropLast(xs, n);
    forall e
      ensures e in xs[..n] <==> e in xs && e != xs[n]
    {
      assert e in xs <==> multiset(xs)[e] > 0;
      assert e in xs[..n] <==> multiset(xs[..n])[e] > 0;
    }
  }

  lemma {:induction false} OnceEach(ys: seq<Entry>)
    requires LaterAndLater(ys)
    ensures forall e :: multiset(ys)[e] <= 1
  {
    if ys != [] {
      OnceEach(ys[1..]);
      assert ys == [ys[0]] + ys[1..];
      assert forall e | e in ys[1..] :: e.addedAt > ys[0].addedAt;
      assert ys[0] in multiset(ys[1..]) <==> ys[0] in ys[1..];
    }
  }

  lemma LowestNamed(b: Board, x: Experiment, now: int)
    requires RecordsOk(b.records, b.sequence) && |Active(b.records, x.scopeId)| <= TOP_K && Submit(b, x, now).0 != b
    ensures var before, answer := ActiveTopK(b.records, x.scopeId), Submit(b, x, now).1;
      answer.Success? && answer.value.evicted == if before == [] then None else Some(before[|before| - 1].experimentId)
  {
    TopIsActive(b, x.scopeId);
    hide RecordsOk, RankEntries, ActiveTopK, Deactivate, FindByExperiment;
  }

  /**
   * After an admission the list holds the newcomer and everybody who was there, except the lowest of a full list. The
   * answer names the lowest as evicted whenever there was one: so it tells the truth exactly if the list was full or
   * empty.
   */
  lemma EvictionReportedExactly(subs: seq<Submission>, s: Submission)
    requires Increasing(subs + [s]) && Play(subs + [s]) != Play(subs)
    ensures var c, before, after := s.experiment.scopeId, OnlineList(subs, s.experiment.scopeId),
        OnlineList(subs + [s], s.experiment.scopeId);
      var answer := Submit(Play(subs), s.experiment, s.at).1;
      && answer.Success? && answer.value.entry == Some(NewEntry(Play(subs), s.experiment, s.at))
      && (forall e :: e in after <==>
            e == answer.value.entry.value || (e in before && (|before| < TOP_K || e != before[|before| - 1])))
      && answer.value.evicted == (if before == [] then None else Some(before[|before| - 1].experimentId))
      && ((answer.value.evicted.Some? <==> exists e :: e in before && e !in after) <==>
        |before| == TOP_K || before == [])
  {
    hide Increasing, Ends, Play, Offers, Submit, RecordsOk, Before, Ranks, TopTen, ActiveTopK, Active, NewEntry,
      EntryOf, Sort;
    var x, b, r := s.experiment, Play(subs), Play(subs + [s]);
    var c := x.scopeId;
    IncreasingPrefix(subs, s);
    RunOk(subs, s.at);
    PlayStep(subs, s);
    RunOkNext(subs, s);
    RanksMean(Offers(subs, c), b, c);
    ListIs(Offers(subs, c), b, c);
    RanksMean(Offers(subs + [s], c), r, c);
    ListIs(Offers(subs + [s], c), r, c);
    AnswerHere(b, x, s.at);
    MembersAfter(b, x, s.at);
    LowestNamed(b, x, s.at);
    var before, after := OnlineList(subs, c), OnlineList(subs + [s], c);
    TopSorted(r, c);
    MemberOfBag(after, Active(r.records, c));
    NewcomerLater(b, c, x, s.at);
    if |before| == TOP_K { assert before[TOP_K - 1] in before && before[TOP_K - 1] !in after; }
  }

  lemma NewcomerLater(b: Board, c: string, x: Experiment, now: int)
    requires Before(b.records, now)
    ensures NewEntry(b, x, now) !in Sort(RankLe, Active(b.records, c))
  {
    TopIsOlder(b, c, now);
    NewEntryIs(b, x, now);
    hide Sort, Active;
  }
}
