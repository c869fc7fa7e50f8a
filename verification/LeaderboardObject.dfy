/** The in-memory leaderboard as the object it is. */
module LeaderboardObject {
  import opened Wrappers
  import opened Leaderboard

  class LeaderboardModule {
    var records: seq<Record>
    var sequence: nat

    ghost function State(): Board
      reads this
    {
      Board(records, sequence)
    }

    constructor ()
      ensures State() == EMPTY
    {
      records, sequence := [], 0;
    }

    method GetByExperimentResultId(experimentId: string) returns (r: Option<Entry>)
      ensures r == FindByExperiment(records, experimentId)
    {
      var i := 0;
      while i < |records|
        invariant 0 <= i <= |records|
        invariant FindByExperiment(records, experimentId) == FindByExperiment(records[i..], experimentId)
      {
        if records[i].entry.experimentId == experimentId { return Some(records[i].entry); }
        assert records[i..][1..] == records[i + 1..];
        i := i + 1;
      }
      return None;
    }

    method GetActiveTopK(scopeId: string) returns (r: seq<Entry>)
      ensures r == ActiveTopK(records, scopeId)
    {
      var active: seq<Entry> := [];
      var i := 0;
      while i < |records|
        invariant 0 <= i <= |records|
        invariant active == Active(records[..i], scopeId)
      {
        assert records[..i + 1][..i] == records[..i];
        if records[i].active && records[i].entry.scopeId == scopeId {
          active := active + [records[i].entry];
        }
        i := i + 1;
      }
      assert records[..i] == records;
      r := Take(RankEntries(active), TOP_K);
    }

    method DeactivateEntry(entryId: nat)
      modifies this`records
      ensures records == Deactivate(old(records), entryId)
    {
      var i := 0;
      while i < |records|
        invariant 0 <= i <= |records| == |old(records)|
        invariant forall k | 0 <= k < i :: records[k] == Deactivate(old(records), entryId)[k]
        invariant forall k | i <= k < |records| :: records[k] == old(records)[k]
      {
        if records[i].entry.id == entryId {
          records := records[i := records[i].(active := false)];
        }
        i := i + 1;
      }
    }

    method Insert(experimentId: string, scopeId: string, score: real, addedAt: int) returns (created: Entry)
      modifies this
      ensures created == Entry(old(sequence) + 1, experimentId, scopeId, score, addedAt)
      ensures State() == Board(old(records) + [Record(created, true)], old(sequence) + 1)
    {
      sequence := sequence + 1;
      created := Entry(sequence, experimentId, scopeId, score, addedAt);
      records := records + [Record(created, true)];
    }

    method Submit(x: Experiment, now: int) returns (r: Result<Admission, SubmitError>)
      modifies this
      ensures (State(), r) == Leaderboard.Submit(old(State()), x, now)
    {
      if !x.inSearchRun || !x.rankEligible { return Success(Admission(false, None, None)); }
      if !x.owned { return Failure(ScopeNotFound); }
      var existing := GetByExperimentResultId(x.id);
      if existing.Some? {
        var here := existing.value.scopeId == x.scopeId;
        return Success(Admission(here, if here then existing else None, None));
      }
      var top := GetActiveTopK(x.scopeId);
      var active := RankEntries(top);
      if |active| == TOP_K && x.score <= active[|active| - 1].score { return Success(Admission(false, None, None)); }
      if |active| == TOP_K {
        DeactivateEntry(active[|active| - 1].id);
      }
      var inserted := Insert(x.id, x.scopeId, x.score, now);
      return Success(
        Admission(true, Some(inserted), if active == [] then None else Some(active[|active| - 1].experimentId)));
    }
  }
}
