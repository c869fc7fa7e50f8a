/** The offline ranking of everything ever submitted, and how rankings and the table of entries behave. */
module LeaderboardRanking {
  import opened Wrappers
  import opened Sorting
  import opened Leaderboard

  datatype Submission = Submission(experiment: Experiment, at: int)

  /** The offline order: higher score first, then the earlier submission. */
  predicate Better(left: Entry, right: Entry) {
    left.score > right.score || (left.score == right.score && left.addedAt <= right.addedAt)
  }

  predicate Eligible(x: Experiment) {
    x.inSearchRun && x.rankEligible && x.owned
  }

  ghost predicate Seen(subs: seq<Submission>, id: string) {
    exists i :: 0 <= i < |subs| && Eligible(subs[i].experiment) && subs[i].experiment.id == id
  }

  /** Submissions carry strictly increasing times. */
  predicate Increasing(subs: seq<Submission>) {
    forall i, j | 0 <= i < j < |subs| :: subs[i].at < subs[j].at
  }

  /** An experiment stays in its scope. */
  predicate ScopesFixed(subs: seq<Submission>) {
    forall i, j | 0 <= i < j < |subs| && Eligible(subs[i].experiment) && Eligible(subs[j].experiment) ::
      subs[i].experiment.id == subs[j].experiment.id ==> subs[i].experiment.scopeId == subs[j].experiment.scopeId
  }

  /** An experiment that is submitted again never has a higher score than before. */
  predicate NeverRaised(subs: seq<Submission>) {
    forall i, j | 0 <= i < j < |subs| && Eligible(subs[i].experiment) && Eligible(subs[j].experiment) ::
      subs[i].experiment.id == subs[j].experiment.id ==> subs[j].experiment.score <= subs[i].experiment.score
  }

  /** The online run. */
  function Play(subs: seq<Submission>): Board
    decreases |subs|
  {
    if subs == [] then EMPTY else Submit(Play(subs[..|subs| - 1]), subs[|subs| - 1].experiment, subs[|subs| - 1].at).0
  }

  /** What a submission offers, without an identifier of its own. */
  function Offer(x: Experiment, now: int): Entry {
    Entry(0, x.id, x.scopeId, x.score, now)
  }

  /** Every eligible submission to a scope of an experiment that has no entry yet, rejected ones included. */
  function Offers(subs: seq<Submission>, scopeId: string): seq<Entry>
    decreases |subs|
  {
    if subs == [] then []
    else
      var before, last := subs[..|subs| - 1], subs[|subs| - 1];
      var x := last.experiment;
      Offers(before, scopeId) +
      if Eligible(x) && x.scopeId == scopeId
        && FindByExperiment(Play(before).records, x.id).None? then [Offer(x, last.at)] else []
  }

  /** Every distinct eligible experiment of a scope, with the score and the time it was first submitted with. */
  ghost function Distinct(subs: seq<Submission>, scopeId: string): seq<Entry>
    decreases |subs|
  {
    if subs == [] then []
    else
      var before, last := subs[..|subs| - 1], subs[|subs| - 1];
      var x := last.experiment;
      Distinct(before, scopeId) +
      if Eligible(x) && x.scopeId == scopeId && !Seen(before, x.id) then [Offer(x, last.at)] else []
  }

  /** The ten best of some offers. */
  function TopTen(offers: seq<Entry>): seq<Entry> {
    Take(Sort(Better, offers), TOP_K)
  }

  /** The offline ranking. */
  ghost function Offline(subs: seq<Submission>, scopeId: string): seq<Entry> {
    TopTen(Distinct(subs, scopeId))
  }

  function Erase(e: Entry): Entry {
    e.(id := 0)
  }

  function Erased(xs: seq<Entry>): seq<Entry> {
    if xs == [] then [] else [Erase(xs[0])] + Erased(xs[1..])
  }

  // ---------------------------------------------------------------- sorting

  lemma Orders()
    ensures TotalPreorder(Better) && TotalPreorder(RankLe)
  {
  }

  predicate LaterAndLater(xs: seq<Entry>) {
    forall i, j | 0 <= i < j < |xs| :: xs[i].addedAt < xs[j].addedAt
  }

  /** With distinct times no two entries tie. */
  lemma NoTies(xs: seq<Entry>)
    requires LaterAndLater(xs)
    ensures Strict(Better, xs) && Strict(RankLe, xs)
  {
    forall x, y | x in xs && y in xs && x.addedAt == y.addedAt
      ensures x == y
    {
      var i :| 0 <= i < |xs| && xs[i] == x;
      var j :| 0 <= j < |xs| && xs[j] == y;
    }
  }

  /** Identifiers never decide when times differ. */
  lemma RankIsBetter(xs: seq<Entry>)
    requires LaterAndLater(xs)
    ensures Sort(RankLe, xs) == Sort(Better, xs)
  {
    Orders();
    NoTies(xs);
    SortSorts(RankLe, xs);
    SortSorts(Better, xs);
    SortPermutes(RankLe, xs);
    SortPermutes(Better, xs);
    SameStrict(Better, xs, Sort(RankLe, xs));
    SortedUnique(Better, Sort(RankLe, xs), Sort(Better, xs));
  }

  lemma SameStrict(le: (Entry, Entry) -> bool, xs: seq<Entry>, ys: seq<Entry>)
    requires Strict(le, xs) && multiset(xs) == multiset(ys)
    ensures Strict(le, ys)
  {
    forall y | y in ys
      ensures y in xs
    {
      assert y in multiset(ys);
    }
  }

  lemma {:induction false} InsertErased(x: Entry, xs: seq<Entry>)
    ensures Erased(Insert(Better, x, xs)) == Insert(Better, Erase(x), Erased(xs))
  {
    if xs == [] {
      assert Erased([x]) == [Erase(x)];
    } else if Better(x, xs[0]) {
      assert ([x] + xs)[1..] == xs;
    } else {
      InsertErased(x, xs[1..]);
      assert ([xs[0]] + Insert(Better, x, xs[1..]))[1..] == Insert(Better, x, xs[1..]);
    }
  }

  lemma {:induction false} SortErased(xs: seq<Entry>)
    ensures Sort(Better, Erased(xs)) == Erased(Sort(Better, xs))
  {
    if xs != [] {
      SortErased(xs[1..]);
      InsertErased(xs[0], Sort(Better, xs[1..]));
    }
  }

  lemma {:induction false} ErasedAt(xs: seq<Entry>)
    ensures |Erased(xs)| == |xs| && forall i | 0 <= i < |xs| :: Erased(xs)[i] == Erase(xs[i])
  {
    if xs != [] { ErasedAt(xs[1..]); }
  }

  lemma SortAppend(xs: seq<Entry>, x: Entry)
    requires LaterAndLater(xs + [x])
    ensures Sort(Better, xs + [x]) == Insert(Better, x, Sort(Better, xs))
  {
    Orders();
    NoTies(xs + [x]);
    SortSorts(Better, xs);
    SortPermutes(Better, xs);
    InsertSorts(Better, x, Sort(Better, xs));
    InsertPermutes(Better, x, Sort(Better, xs));
    SortSorts(Better, xs + [x]);
    SortPermutes(Better, xs + [x]);
    SameStrict(Better, xs + [x], Sort(Better, xs + [x]));
    SortedUnique(Better, Sort(Better, xs + [x]), Insert(Better, x, Sort(Better, xs)));
  }

  /** A newcomer behind the first `k` leaves them alone; one ahead of the last of them pushes it out. */
  lemma {:induction false} TakeInsert(x: Entry, xs: seq<Entry>, k: nat)
    requires 0 < k <= |xs| && Sorted(Better, xs)
    ensures |Insert(Better, x, xs)| == |xs| + 1
    ensures !Better(x, xs[k - 1]) ==> Insert(Better, x, xs)[..k] == xs[..k]
    ensures Better(x, xs[k - 1]) ==> Insert(Better, x, xs)[..k] == Insert(Better, x, xs[..k - 1])
  {
    if Better(x, xs[0]) {
      assert Better(x, xs[k - 1]) by { if k > 1 { assert Better(xs[0], xs[k - 1]); } }
      assert ([x] + xs)[..k] == [x] + xs[..k - 1];
    } else {
      if k > 1 {
        TakeInsert(x, xs[1..], k - 1);
        assert xs[1..][..k - 2] == xs[1..k - 1];
        assert xs[..k - 1][1..] == xs[1..k - 1];
        assert ([xs[0]] + Insert(Better, x, xs[1..]))[..k] == [xs[0]] + Insert(Better, x, xs[1..])[..k - 1];
        assert xs[..k] == [xs[0]] + xs[1..][..k - 1];
      } else {
        InsertLength(x, xs[1..]);
      }
    }
  }

  lemma {:induction false} InsertLength(x: Entry, xs: seq<Entry>)
    ensures |Insert(Better, x, xs)| == |xs| + 1
  {
    if xs != [] && !Better(x, xs[0]) { InsertLength(x, xs[1..]); }
  }

  // ---------------------------------------------------------------- the table of entries

  predicate RecordsOk(records: seq<Record>, sequence: nat) {
    && (forall i | 0 <= i < |records| :: records[i].entry.id <= sequence)
    && (forall i, j | 0 <= i < j < |records| ::
          records[i].entry.id < records[j].entry.id && records[i].entry.addedAt < records[j].entry.addedAt)
    && (forall i, j | 0 <= i < j < |records| :: records[i].entry.experimentId != records[j].entry.experimentId)
  }

  predicate Listed(records: seq<Record>, e: Entry) {
    exists i :: 0 <= i < |records| && records[i].entry == e
  }

  lemma {:induction false} ActiveListed(records: seq<Record>, c: string, e: Entry)
    requires e in Active(records, c)
    ensures Listed(records, e) && e.scopeId == c
  {
    var n := |records| - 1;
    if records[n].active && records[n].entry.scopeId == c && e == records[n].entry {
    } else {
      ActiveListed(records[..n], c, e);
    }
  }

  lemma {:induction false} ActiveLater(records: seq<Record>, sequence: nat, c: string)
    requires RecordsOk(records, sequence)
    ensures LaterAndLater(Active(records, c))
  {
    if records != [] {
      var n := |records| - 1;
      ActiveLater(records[..n], sequence, c);
      forall e | e in Active(records[..n], c)
        ensures e.addedAt < records[n].entry.addedAt
      {
        ActiveListed(records[..n], c, e);
      }
    }
  }

  lemma {:induction false} DeactivateElsewhere(records: seq<Record>, id: nat, c: string)
    requires forall e | e in Active(records, c) :: e.id != id
    ensures Active(Deactivate(records, id), c) == Active(records, c)
  {
    if records != [] {
      var n := |records| - 1;
      assert Deactivate(records, id)[..n] == Deactivate(records[..n], id);
      DeactivateElsewhere(records[..n], id, c);
      assert records[n].active && records[n].entry.scopeId == c ==> records[n].entry in Active(records, c);
    }
  }

  /** Entries listed before the last one bear other identifiers. */
  lemma OtherIds(records: seq<Record>, sequence: nat, c: string, e: Entry)
    requires RecordsOk(records, sequence) && records != [] && e in Active(records[..|records| - 1], c)
    ensures e.id != records[|records| - 1].entry.id
  {
    ActiveListed(records[..|records| - 1], c, e);
  }

  function Tail(r: Record, c: string): seq<Entry> {
    if r.active && r.entry.scopeId == c then [r.entry] else []
  }

  lemma ActiveSplit(records: seq<Record>, id: nat, c: string)
    requires records != []
    ensures var n := |records| - 1;
      && Active(records, c) == Active(records[..n], c) + Tail(records[n], c)
      && Active(Deactivate(records, id), c)
         == Active(Deactivate(records[..n], id), c) + if records[n].entry.id == id then [] else Tail(records[n], c)
  {
    assert Deactivate(records, id)[..|records| - 1] == Deactivate(records[..|records| - 1], id);
  }

  lemma {:induction false} DeactivateHere(records: seq<Record>, sequence: nat, c: string, e: Entry)
    requires RecordsOk(records, sequence) && e in Active(records, c)
    ensures multiset(Active(Deactivate(records, e.id), c)) == multiset(Active(records, c)) - multiset{e}
  {
    hide Active, Deactivate, RecordsOk;
    if records == [] {
      NothingActive(c);
    } else {
      var n := |records| - 1;
      ActiveSplit(records, e.id, c);
      ShorterOk(records, sequence);
      if e in Active(records[..n], c) {
        OtherIds(records, sequence, c, e);
        DeactivateHere(records[..n], sequence, c, e);
      } else {
        forall f | f in Active(records[..n], c)
          ensures f.id != e.id
        {
          OtherIds(records, sequence, c, f);
        }
        DeactivateElsewhere(records[..n], e.id, c);
      }
    }
  }

  lemma NothingActive(c: string)
    ensures Active([], c) == []
  {
  }

  lemma ShorterOk(records: seq<Record>, sequence: nat)
    requires RecordsOk(records, sequence) && records != []
    ensures RecordsOk(records[..|records| - 1], sequence)
  {
  }

  lemma ActiveAppend(records: seq<Record>, r: Record, c: string)
    ensures Active(records + [r], c) == if r.active
      && r.entry.scopeId == c then Active(records, c) + [r.entry] else Active(records, c)
  {
    assert (records + [r])[..|records|] == records;
  }
}
