/** A run on which an experiment is turned down, rated anew, submitted again and admitted. */
module LeaderboardReadmission {
  import opened Wrappers
  import opened Sorting
  import opened Leaderboard
  import opened LeaderboardRanking
  import opened LeaderboardSteps
  import opened LeaderboardRuns

  const SCOPE: string := "scope"

  /** A different name for every number. */
  function Name(n: nat): string {
    seq(n + 1, _ => 'e')
  }

  function Rated(id: string, score: real): Experiment {
    Experiment(id, SCOPE, score, true, true, true)
  }

  /** Distinct experiments, all with the score one. */
  function Filling(n: nat): seq<Submission> {
    seq(n, i requires 0 <= i < n => Submission(Rated(Name(i), 1.0), i))
  }

  lemma FillingSteps(n: nat)
    ensures Filling(n + 1) == Filling(n) + [Submission(Rated(Name(n), 1.0), n)]
    ensures Increasing(Filling(n)) && ScopesFixed(Filling(n)) && NeverRaised(Filling(n)) && Ends(Filling(n), n)
  {
  }

  /** Names of that kind are not used again, and never mean anything else. */
  lemma NotSeenYet(n: nat, id: string)
    requires forall i: nat | i < n :: id != Name(i)
    ensures !Seen(Filling(n), id)
  {
    assert forall i: nat | i < n :: Filling(n)[i].experiment.id == Name(i);
  }

  lemma {:induction false} DistinctFilling(n: nat)
    ensures |Distinct(Filling(n), SCOPE)| == n && forall e | e in Distinct(Filling(n), SCOPE) :: e.score == 1.0
  {
    if n > 0 {
      DistinctFilling(n - 1);
      FillingSteps(n - 1);
      forall i: nat | i < n - 1
        ensures Name(n - 1) != Name(i)
      {
        assert |Name(n - 1)| == n && |Name(i)| == i + 1;
      }
      NotSeenYet(n - 1, Name(n - 1));
      DistinctStep(Filling(n - 1), Submission(Rated(Name(n - 1), 1.0), n - 1), SCOPE);
      hide Distinct, Seen, Filling;
    }
  }

  lemma TenOffers(offers: seq<Entry>)
    requires |offers| == TOP_K && forall e | e in offers :: e.score == 1.0
    ensures |TopTen(offers)| == TOP_K && TopTen(offers)[TOP_K - 1].score == 1.0
  {
    var all := Sort(Better, offers);
    SortPermutes(Better, offers);
    TakeAt(all, TOP_K);
    assert all[TOP_K - 1] in multiset(all);
  }

  /** Ten of them fill the list. */
  lemma FilledList()
    ensures var list := OnlineList(Filling(TOP_K), SCOPE); |list| == TOP_K && list[TOP_K - 1].score == 1.0
  {
    hide *;
    FillingSteps(TOP_K);
    DistinctFilling(TOP_K);
    OnlineIsOffline(Filling(TOP_K), SCOPE);
    OfflineIs(Filling(TOP_K), SCOPE);
    TenOffers(Distinct(Filling(TOP_K), SCOPE));
    ErasedAt(OnlineList(Filling(TOP_K), SCOPE));
    ErasedScores(OnlineList(Filling(TOP_K), SCOPE));
  }

  lemma OfflineIs(subs: seq<Submission>, c: string)
    ensures Offline(subs, c) == TopTen(Distinct(subs, c))
  {
  }

  lemma ErasedScores(xs: seq<Entry>)
    ensures |Erased(xs)| == |xs| && forall i | 0 <= i < |xs| :: Erased(xs)[i].score == xs[i].score
  {
    ErasedAt(xs);
  }

  /** The eleventh experiment is turned down at first. */
  function TurnedAway(): seq<Submission> {
    Filling(TOP_K) + [Submission(Rated("late", 0.5), TOP_K)]
  }

  lemma TurnedAwayRun()
    ensures var subs, s := TurnedAway(), Submission(Rated("late", 2.0), TOP_K + 1);
      Increasing(subs + [s]) && ScopesFixed(subs + [s]) && Seen(subs, "late") && Increasing(subs)
  {
    var subs := TurnedAway();
    assert subs[TOP_K].experiment == Rated("late", 0.5) && Eligible(Rated("late", 0.5));
  }

  lemma LateIsNew()
    ensures !Has(Play(Filling(TOP_K)).records, "late")
  {
    FillingSteps(TOP_K);
    forall i: nat | i < TOP_K
      ensures "late" != Name(i)
    {
      assert "late"[0] == 'l' && Name(i)[0] == 'e';
    }
    NotSeenYet(TOP_K, "late");
    hide Play, Seen, Filling, Has, Increasing;
    ListedSeen(Filling(TOP_K));
  }

  /** Raising its score makes the same experiment push another one out of a list that had been settled. */
  lemma ReadmissionHappens()
    ensures exists subs: seq<Submission>, s: Submission ::
      (Increasing(subs + [s]) && ScopesFixed(subs + [s]) && Seen(subs, s.experiment.id)
       && Play(subs + [s]) != Play(subs) && !Agrees(subs + [s], s.experiment.scopeId))
  {
    var filled, first := Filling(TOP_K), Submission(Rated("late", 0.5), TOP_K);
    var subs, s := TurnedAway(), Submission(Rated("late", 2.0), TOP_K + 1);
    TurnedAwayRun();
    FilledList();
    LateIsNew();
    assert Open(Play(subs), s.experiment) by {
      hide Play, Filling, OnlineList, Increasing, Has;
      LastSubmission(filled, first);
      FoundListed(Play(subs).records, "late");
    }
    assert OnlineList(subs, SCOPE) == OnlineList(filled, SCOPE) by {
      hide Play, Filling, Increasing, Has;
      LastSubmission(filled, first);
      SamePlay(filled, first);
    }
    hide Play, Filling, OnlineList, Increasing, ScopesFixed, Seen, Open, Agrees, TurnedAway;
    assert Readmits(subs, s);
    ResubmissionExactly(subs, s);
    ReadmissionDisagrees(subs, s);
  }
}
