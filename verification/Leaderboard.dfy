/**
 * The online leaderboard: at most ten active entries a scope, kept by deactivating the lowest and inserting the
 * newcomer.
 */
module Leaderboard {
  import opened Wrappers
  import opened Sorting

  const TOP_K: nat := 10

  /** The parts of an experiment result that a submission looks at; `owned` says that its owner has the scope. */
  datatype Experiment = Experiment(id: string, scopeId: string, score: real, inSearchRun: bool, rankEligible: bool,
          owned: bool)

  datatype Entry = Entry(id: nat, experimentId: string, scopeId: string, score: real, addedAt: int)

  datatype Record = Record(entry: Entry, active: bool)

  /** All entries ever inserted, in order of insertion, and the counter entry identifiers come from. */
  datatype Board = Board(records: seq<Record>, sequence: nat)

  /** `evicted` is the experiment the answer names as having left the list. */
  datatype Admission = Admission(admitted: bool, entry: Option<Entry>, evicted: Option<string>)

  datatype SubmitError = ScopeNotFound

  const EMPTY: Board := Board([], 0)

  predicate RankLe(left: Entry, right: Entry) {
    || left.score > right.score
    || (left.score == right.score
      && (left.addedAt < right.addedAt || (left.addedAt == right.addedAt && left.id <= right.id)))
  }

  function RankEntries(entries: seq<Entry>): seq<Entry> {
    Sort(RankLe, entries)
  }

  function Active(records: seq<Record>, scopeId: string): seq<Entry> {
    if records == [] then []
    else
      var last := records[|records| - 1];
      Active(records[..|records| - 1], scopeId) + if last.active
        && last.entry.scopeId == scopeId then [last.entry] else []
  }

  function Take<T>(xs: seq<T>, k: nat): seq<T> {
    if |xs| <= k then xs else xs[..k]
  }

  function ActiveTopK(records: seq<Record>, scopeId: string): seq<Entry> {
    Take(RankEntries(Active(records, scopeId)), TOP_K)
  }

  function FindByExperiment(records: seq<Record>, experimentId: string): Option<Entry> {
    if records == [] then None
    else if records[0].entry.experimentId == experimentId then Some(records[0].entry)
    else FindByExperiment(records[1..], experimentId)
  }

  function Deactivate(records: seq<Record>, entryId: nat): seq<Record> {
    seq(|records|, i requires 0 <= i < |records| =>
      if records[i].entry.id == entryId then records[i].(active := false) else records[i])
  }

  function Submit(b: Board, x: Experiment, now: int): (Board, Result<Admission, SubmitError>) {
    if !x.inSearchRun || !x.rankEligible then (b, Success(Admission(false, None, None)))
    else if !x.owned then (b, Failure(ScopeNotFound))
    else
      var existing := FindByExperiment(b.records, x.id);
      if existing.Some? then
        var here := existing.value.scopeId == x.scopeId;
        (b, Success(Admission(here, if here then existing else None, None)))
      else
        var active := RankEntries(ActiveTopK(b.records, x.scopeId));
        if |active| == TOP_K && x.score <= active[|active| - 1].score then (b, Success(Admission(false, None, None)))
        else
          var kept := if |active| == TOP_K then Deactivate(b.records, active[|active| - 1].id) else b.records;
          var entry := Entry(b.sequence + 1, x.id, x.scopeId, x.score, now);
          var lowest := if active == [] then None else Some(active[|active| - 1].experimentId);
          (Board(kept + [Record(entry, true)], b.sequence + 1), Success(Admission(true, Some(entry), lowest)))
  }
}
