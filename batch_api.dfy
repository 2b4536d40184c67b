/**
 * The batch endpoints' in-memory registry of batch runs: starting a run,
 * progress and completion updates, stopping, status queries, and the
 * listing that merges the registry with the batches found in the store.
 * Ids and clock readings arrive as parameters.
 */
module BatchApi {
  import opened Options
  import opened PyDicts
  import Runner
  import PyStrings

  /** One registry entry (`_running_batches[batch_id]` without its runner). */
  datatype Entry = Entry(
    status: string,
    totalGames: int,
    completedGames: int,
    failedGames: int,
    goodWins: int,
    evilWins: int,
    startedAt: string,
    finishedAt: Option<string>,
    errors: seq<string>)

  datatype HttpError = HttpError(statusCode: int, detail: string)

  datatype StatusResponse = StatusResponse(
    batchId: string,
    status: string,
    totalGames: int,
    completedGames: int,
    failedGames: int,
    goodWins: int,
    evilWins: int,
    startedAt: string,
    finishedAt: Option<string>,
    errors: seq<string>)

  /** A batch summary aggregated from the stored games of one `batch_id`. */
  datatype StoredBatch = StoredBatch(
    batchId: string,
    totalGames: int,
    completed: int,
    goodWins: int,
    evilWins: int,
    goodWinRate: string,
    startedAt: Option<string>,
    finishedAt: Option<string>)

  /** One row of `list_batches`; only rows from the store carry a win rate. */
  datatype Listing = Listing(
    batchId: string,
    status: string,
    totalGames: int,
    completed: int,
    goodWins: int,
    evilWins: int,
    goodWinRate: Option<string>,
    startedAt: Option<string>,
    finishedAt: Option<string>)

  type Registry = Dict<string, Entry>

  // ----- registry transitions -----

  function NewEntry(numGames: int, startedAt: string): Entry {
    Entry("running", numGames, 0, 0, 0, 0, startedAt, None, [])
  }

  /** `start_batch_run`: a running entry with zeroed counters under the new id. */
  function Started(reg: Registry, batchId: string, numGames: int, startedAt: string): Registry {
    Set(reg, batchId, NewEntry(numGames, startedAt))
  }

  /** `_update_progress`: the entry's `completed_games` becomes `done`; an unknown id changes nothing. */
  function Progressed(reg: Registry, batchId: string, done: int): Registry {
    match Get(reg, batchId)
    case Some(e) => Set(reg, batchId, e.(completedGames := done))
    case None => reg
  }

  /** `_run_batch` after `run` returns: the entry becomes "completed" with the run's counters. */
  function Completed(reg: Registry, batchId: string, r: Runner.Tallies, finishedAt: string): Registry {
    match Get(reg, batchId)
    case Some(e) =>
      Set(reg, batchId, e.(status := "completed", completedGames := r.completedGames, failedGames := r.failedGames,
        goodWins := r.goodWins, evilWins := r.evilWins, finishedAt := Some(finishedAt), errors := r.errors))
    case None => reg
  }

  /** The progress callback, once per count: `_update_progress` for each count in turn. */
  function ProgressedAll(reg: Registry, batchId: string, counts: seq<nat>): Registry
    decreases |counts|
  {
    if counts == [] then reg
    else ProgressedAll(Progressed(reg, batchId, counts[0]), batchId, counts[1..])
  }

  /**
   * The progress a run reports is overwritten when it completes: whatever
   * counts the callback wrote, the entry ends as the run's counters say.
   */
  lemma {:induction false} ProgressOverwrittenOnCompletion(reg: Registry, batchId: string, counts: seq<nat>, r: Runner.Tallies, finishedAt: string)
    ensures Completed(ProgressedAll(reg, batchId, counts), batchId, r, finishedAt) == Completed(reg, batchId, r, finishedAt)
    decreases |counts|
  {
    if counts != [] {
      var reg' := Progressed(reg, batchId, counts[0]);
      ProgressOverwrittenOnCompletion(reg', batchId, counts[1..], r, finishedAt);
      match Get(reg, batchId)
      case None =>
      case Some(e) =>
        var e' := e.(completedGames := counts[0]);
        GetSetSame(reg, batchId, e');
        SetTwice(reg, batchId, e', e'.(status := "completed", completedGames := r.completedGames, failedGames := r.failedGames,
          goodWins := r.goodWins, evilWins := r.evilWins, finishedAt := Some(finishedAt), errors := r.errors));
    }
  }

  /** `_run_batch` when `run` raises: the entry becomes "failed" with that one error. */
  function Failed(reg: Registry, batchId: string, error: string, now: string): Registry {
    match Get(reg, batchId)
    case Some(e) => Set(reg, batchId, e.(status := "failed", finishedAt := Some(now), errors := [error]))
    case None => reg
  }

  /** `stop_batch_run`: 404 for an unknown id, 400 unless running, else the entry becomes "stopped". */
  function Stopped(reg: Registry, batchId: string, now: string): Result<Registry, HttpError> {
    match Get(reg, batchId)
    case None => Err(HttpError(404, "Batch not found"))
    case Some(e) =>
      if e.status != "running" then Err(HttpError(400, "Batch is not running"))
      else Ok(Set(reg, batchId, e.(status := "stopped", finishedAt := Some(now))))
  }

  /** `get_batch_status`: 404 for an unknown id, else the entry's fields. */
  function BatchStatus(reg: Registry, batchId: string): Result<StatusResponse, HttpError> {
    match Get(reg, batchId)
    case None => Err(HttpError(404, "Batch not found"))
    case Some(e) =>
      Ok(StatusResponse(batchId, e.status, e.totalGames, e.completedGames, e.failedGames, e.goodWins, e.evilWins,
        e.startedAt, e.finishedAt, e.errors))
  }

  /** A stop answers 404 exactly for an unknown id and 400 exactly for a batch that is not running. */
  lemma StopOutcomes(reg: Registry, batchId: string, now: string)
    ensures Stopped(reg, batchId, now) == Err(HttpError(404, "Batch not found")) <==> !Contains(reg, batchId)
    ensures Stopped(reg, batchId, now) == Err(HttpError(400, "Batch is not running")) <==>
      Contains(reg, batchId) && Get(reg, batchId).value.status != "running"
    ensures Stopped(reg, batchId, now).Ok? <==> Contains(reg, batchId) && Get(reg, batchId).value.status == "running"
  {}

  /** A successful stop marks that batch stopped at `now` and touches no other batch. */
  lemma StopMarksOnlyThatBatch(reg: Registry, batchId: string, now: string, other: string)
    requires Stopped(reg, batchId, now).Ok?
    ensures var reg' := Stopped(reg, batchId, now).value;
      && Keys(reg') == Keys(reg)
      && Get(reg', batchId) == Some(Get(reg, batchId).value.(status := "stopped", finishedAt := Some(now)))
      && (other != batchId ==> Get(reg', other) == Get(reg, other))
  {
    var e := Get(reg, batchId).value;
    GetSetSame(reg, batchId, e.(status := "stopped", finishedAt := Some(now)));
    if other != batchId {
      GetSetOther(reg, batchId, e.(status := "stopped", finishedAt := Some(now)), other);
    }
  }

  /** The status of a known batch is its entry, field by field; an unknown one is 404. */
  lemma StatusMirrorsEntry(reg: Registry, batchId: string)
    ensures BatchStatus(reg, batchId).Err? <==> !Contains(reg, batchId)
    ensures BatchStatus(reg, batchId).Err? ==> BatchStatus(reg, batchId).error.statusCode == 404
    ensures BatchStatus(reg, batchId).Ok? ==>
      var r := BatchStatus(reg, batchId).value;
      var e := Get(reg, batchId).value;
      && r.batchId == batchId && r.status == e.status && r.totalGames == e.totalGames
      && r.completedGames == e.completedGames && r.failedGames == e.failedGames
      && r.goodWins == e.goodWins && r.evilWins == e.evilWins && r.finishedAt == e.finishedAt && r.errors == e.errors
  {}

  /** Every transition keeps one entry per id, and only a start adds an id. */
  lemma {:induction false} TransitionsKeepIds(reg: Registry, batchId: string, done: int, r: Runner.Tallies, error: string, now: string)
    requires Valid(reg)
    ensures Valid(Started(reg, batchId, 0, now))
    ensures Keys(Progressed(reg, batchId, done)) == Keys(reg) && Valid(Progressed(reg, batchId, done))
    ensures Keys(Completed(reg, batchId, r, now)) == Keys(reg) && Valid(Completed(reg, batchId, r, now))
    ensures Keys(Failed(reg, batchId, error, now)) == Keys(reg) && Valid(Failed(reg, batchId, error, now))
    ensures Stopped(reg, batchId, now).Ok? ==> Valid(Stopped(reg, batchId, now).value)
  {
    SetValid(reg, batchId, NewEntry(0, now));
    if Contains(reg, batchId) {
      var e := Get(reg, batchId).value;
      SetValid(reg, batchId, e.(completedGames := done));
      SetValid(reg, batchId, e.(status := "completed", completedGames := r.completedGames, failedGames := r.failedGames,
        goodWins := r.goodWins, evilWins := r.evilWins, finishedAt := Some(now), errors := r.errors));
      SetValid(reg, batchId, e.(status := "failed", finishedAt := Some(now), errors := [error]));
      SetValid(reg, batchId, e.(status := "stopped", finishedAt := Some(now)));
    }
  }

  /**
   * A stopped batch's run still returns normally (its later slots are
   * skipped), and `_run_batch` then overwrites "stopped" with "completed".
   */
  lemma StoppedBatchEndsCompleted(reg: Registry, batchId: string, now: string, r: Runner.Tallies, later: string)
    requires Stopped(reg, batchId, now).Ok?
    ensures Get(Completed(Stopped(reg, batchId, now).value, batchId, r, later), batchId).value.status == "completed"
  {
    var stopped := Stopped(reg, batchId, now).value;
    var e := Get(reg, batchId).value.(status := "stopped", finishedAt := Some(now));
    GetSetSame(reg, batchId, e);
    var done := e.(status := "completed", completedGames := r.completedGames, failedGames := r.failedGames,
      goodWins := r.goodWins, evilWins := r.evilWins, finishedAt := Some(later), errors := r.errors);
    GetSetSame(stopped, batchId, done);
  }

  /**
   * While a batch runs, its `completed_games` is the count the runner passes
   * to the progress callback, which counts failed games as well; once the
   * run returns it holds the completed games only.
   */
  lemma ProgressCountsFailures(reg: Registry, batchId: string, t: Runner.Tallies, gameIndex: nat, id: string, winner: Option<string>)
    requires Contains(reg, batchId) && Runner.Consistent(t)
    ensures var t' := Runner.Recorded(t, gameIndex, Runner.Finished(id, winner));
      && Get(Progressed(reg, batchId, t'.completedCount), batchId).value.completedGames == t'.completedGames + t'.failedGames
  {
    var t' := Runner.Recorded(t, gameIndex, Runner.Finished(id, winner));
    GetSetSame(reg, batchId, Get(reg, batchId).value.(completedGames := t'.completedCount));
  }

  // ----- listing -----

  function RegistryListing(batchId: string, e: Entry): Listing {
    Listing(batchId, e.status, e.totalGames, e.completedGames, e.goodWins, e.evilWins, None, Some(e.startedAt), e.finishedAt)
  }

  /** `{"batch_id": ..., "status": "completed", **b}`: the stored summary has no status of its own. */
  function StoredListing(b: StoredBatch): Listing {
    Listing(b.batchId, "completed", b.totalGames, b.completed, b.goodWins, b.evilWins, Some(b.goodWinRate), b.startedAt, b.finishedAt)
  }

  function RegistryListings(reg: Registry): (rows: seq<Listing>)
    ensures |rows| == |reg|
  {
    seq(|reg|, i requires 0 <= i < |reg| => RegistryListing(reg[i].0, reg[i].1))
  }

  /** The stored batches whose id the registry does not hold, in store order. */
  function UnseenStored(reg: Registry, stored: seq<StoredBatch>): (rows: seq<Listing>)
    ensures |rows| <= |stored|
    ensures forall k :: 0 <= k < |rows| ==> !Contains(reg, rows[k].batchId) && rows[k].status == "completed"
    ensures forall j :: 0 <= j < |stored| && !Contains(reg, stored[j].batchId) ==> StoredListing(stored[j]) in rows
  {
    if stored == [] then []
    else
      var rest := UnseenStored(reg, stored[1..]);
      assert forall j :: 1 <= j < |stored| ==> stored[j] == stored[1..][j - 1];
      if Contains(reg, stored[0].batchId) then rest else [StoredListing(stored[0])] + rest
  }

  /** `list_batches`: the registry's batches first, in insertion order, then the unseen stored batches. */
  function ListBatches(reg: Registry, stored: seq<StoredBatch>): seq<Listing> {
    RegistryListings(reg) + UnseenStored(reg, stored)
  }

  /** The ids of a listing. */
  function ListedIds(rows: seq<Listing>): (ids: seq<string>)
    ensures |ids| == |rows| && forall i :: 0 <= i < |rows| ==> ids[i] == rows[i].batchId
  {
    seq(|rows|, i requires 0 <= i < |rows| => rows[i].batchId)
  }

  ghost predicate Distinct(ids: seq<string>) {
    forall i, j :: 0 <= i < j < |ids| ==> ids[i] != ids[j]
  }

  /** Stored rows keep the store's order, so distinct stored ids stay distinct. */
  lemma {:induction false} UnseenStoredDistinct(reg: Registry, stored: seq<StoredBatch>)
    requires Distinct(ListedIds(StoredListings(stored)))
    ensures Distinct(ListedIds(UnseenStored(reg, stored)))
  {
    if stored != [] {
      var rows := StoredListings(stored);
      assert StoredListings(stored[1..]) == rows[1..];
      assert ListedIds(StoredListings(stored[1..])) == ListedIds(rows)[1..];
      UnseenStoredDistinct(reg, stored[1..]);
      var rest := UnseenStored(reg, stored[1..]);
      if !Contains(reg, stored[0].batchId) {
        forall k | 0 <= k < |rest| ensures rest[k].batchId != stored[0].batchId {
          UnseenStoredFrom(reg, stored[1..], k);
        }
      }
    }
  }

  function StoredListings(stored: seq<StoredBatch>): (rows: seq<Listing>)
    ensures |rows| == |stored| && forall i :: 0 <= i < |stored| ==> rows[i] == StoredListing(stored[i])
  {
    seq(|stored|, i requires 0 <= i < |stored| => StoredListing(stored[i]))
  }

  /** Every unseen row is one of the stored summaries. */
  lemma {:induction false} UnseenStoredFrom(reg: Registry, stored: seq<StoredBatch>, k: int)
    requires 0 <= k < |UnseenStored(reg, stored)|
    ensures exists j :: 0 <= j < |stored| && UnseenStored(reg, stored)[k] == StoredListing(stored[j])
  {
    if stored != [] {
      if Contains(reg, stored[0].batchId) {
        UnseenStoredFrom(reg, stored[1..], k);
        var j :| 0 <= j < |stored[1..]| && UnseenStored(reg, stored[1..])[k] == StoredListing(stored[1..][j]);
        assert stored[1..][j] == stored[j + 1];
      } else if k > 0 {
        UnseenStoredFrom(reg, stored[1..], k - 1);
        var j :| 0 <= j < |stored[1..]| && UnseenStored(reg, stored[1..])[k - 1] == StoredListing(stored[1..][j]);
        assert stored[1..][j] == stored[j + 1];
      }
    }
  }

  /**
   * The merge: the registry's batches come first in its order; a stored
   * batch is listed, as "completed", exactly when the registry does not
   * hold its id; and with distinct ids on both sides no id is listed twice.
   */
  lemma ListBatchesMerges(reg: Registry, stored: seq<StoredBatch>)
    ensures var rows := ListBatches(reg, stored);
      && (forall i :: 0 <= i < |reg| ==> rows[i] == RegistryListing(reg[i].0, reg[i].1))
      && (forall k :: |reg| <= k < |rows| ==> !Contains(reg, rows[k].batchId) && rows[k].status == "completed")
      && (forall j :: 0 <= j < |stored| && !Contains(reg, stored[j].batchId) ==> StoredListing(stored[j]) in rows)
    ensures Valid(reg) && Distinct(ListedIds(StoredListings(stored))) ==> Distinct(ListedIds(ListBatches(reg, stored)))
  {
    var rows := ListBatches(reg, stored);
    var unseen := UnseenStored(reg, stored);
    forall j | 0 <= j < |stored| && !Contains(reg, stored[j].batchId) ensures StoredListing(stored[j]) in rows {
      assert StoredListing(stored[j]) in unseen;
    }
    if Valid(reg) && Distinct(ListedIds(StoredListings(stored))) {
      UnseenStoredDistinct(reg, stored);
      var ids := ListedIds(rows);
      forall i, j | 0 <= i < j < |ids| ensures ids[i] != ids[j] {
        if j < |reg| {
          assert ids[i] == reg[i].0 && ids[j] == reg[j].0;
        } else if i < |reg| {
          assert ids[i] == Keys(reg)[i];
          assert !Contains(reg, rows[j].batchId);
        } else {
          assert ids[i] == ListedIds(unseen)[i - |reg|] && ids[j] == ListedIds(unseen)[j - |reg|];
        }
      }
    }
  }

  // ----- the batch id stamped on the games -----

  /**
   * The batch id the games of an API-started batch are stored under, as
   * written: `run` draws its own id, so the registry's id is never used.
   */
  function StampedIdAsWritten(registryId: string, drawnId: string): string {
    drawnId
  }

  /** The batch id the games are meant to carry: the one the registry and the client know. */
  function StampedId(registryId: string, drawnId: string): string {
    registryId
  }

  /** A stored summary of a batch whose games all finished. */
  function SummaryOf(batchId: string, t: Runner.Tallies): StoredBatch {
    StoredBatch(batchId, t.completedGames, t.completedGames, t.goodWins, t.evilWins, "", None, None)
  }

  /**
   * As written, a batch started through the API and run to its end is listed
   * twice: once from the registry under its id, and once more from the store
   * under the id `run` drew, which the registry does not know.
   */
  lemma ListedTwiceAsWritten(reg: Registry, registryId: string, drawnId: string, t: Runner.Tallies)
    requires Contains(reg, registryId) && !Contains(reg, drawnId)
    ensures var rows := ListBatches(reg, [SummaryOf(StampedIdAsWritten(registryId, drawnId), t)]);
      && rows == RegistryListings(reg) + [StoredListing(SummaryOf(drawnId, t))]
      && |rows| == |reg| + 1
  {
    var stored := [SummaryOf(drawnId, t)];
    assert stored[1..] == [];
  }

  /** With the registry's id on the games, the stored summary of a registered batch is not listed again. */
  lemma ListedOnce(reg: Registry, registryId: string, drawnId: string, t: Runner.Tallies)
    requires Contains(reg, registryId)
    ensures ListBatches(reg, [SummaryOf(StampedId(registryId, drawnId), t)]) == RegistryListings(reg)
  {}

  // ----- the registry object -----

  /** `_running_batches` with the runner each entry holds. */
  class BatchRegistry {
    var batches: Registry
    var runners: map<string, Runner.BatchGameRunner>

    constructor()
      ensures batches == [] && runners == map[]
    {
      batches := [];
      runners := map[];
    }

    /** `start_batch_run`: register the batch as running and create its runner. */
    method StartBatchRun(batchId: string, config: Runner.BatchConfig, startedAt: string) returns (message: string)
      modifies this
      ensures batches == Started(old(batches), batchId, config.numGames, startedAt)
      ensures runners.Keys == old(runners.Keys) + {batchId}
      ensures fresh(runners[batchId]) && runners[batchId].config == config && !runners[batchId].stopRequested
      ensures forall id :: id in old(runners) && id != batchId ==> runners[id] == old(runners[id])
      ensures message == "Started batch run with " + PyStrings.IntToString(config.numGames) + " games"
    {
      batches := Started(batches, batchId, config.numGames, startedAt);
      var runner := new Runner.BatchGameRunner(config);
      runners := runners[batchId := runner];
      message := "Started batch run with " + PyStrings.IntToString(config.numGames) + " games";
    }

    /** `_update_progress`. */
    method UpdateProgress(batchId: string, done: int)
      modifies this
      ensures batches == Progressed(old(batches), batchId, done) && runners == old(runners)
    {
      var e := Get(batches, batchId);
      if e.Some? {
        batches := Set(batches, batchId, e.value.(completedGames := done));
      }
    }

    /**
     * `_run_batch`: run the batch's runner over what happens during the run,
     * pass each progress count it reports to `_update_progress`, then record
     * the run's counters. The games carry the id `run` draws, `StampedIdAsWritten`.
     */
    method RunBatch(batchId: string, drawnId: string, events: seq<Runner.Event>, finishedAt: string)
      returns (result: Runner.BatchResult)
      requires batchId in runners
      modifies this, runners[batchId]
      ensures runners == old(runners) && fresh(result) && result.batchId == StampedIdAsWritten(batchId, drawnId)
      ensures runners[batchId].State() == Runner.Replay(Runner.RunState(old(runners[batchId].stopRequested), Runner.NoTallies), events)
      ensures batches == Completed(old(batches), batchId, runners[batchId].State().tallies, finishedAt)
    {
      var runner := runners[batchId];
      var progress;
      result, progress := runner.Run(StampedIdAsWritten(batchId, drawnId), events);
      batches := ProgressedAll(batches, batchId, progress);
      var t := runner.State().tallies;
      ProgressOverwrittenOnCompletion(old(batches), batchId, progress, t, finishedAt);
      batches := Completed(batches, batchId, t, finishedAt);
    }

    /** `_run_batch` when `run` raises. */
    method FailBatch(batchId: string, error: string, now: string)
      modifies this
      ensures batches == Failed(old(batches), batchId, error, now) && runners == old(runners)
    {
      var e := Get(batches, batchId);
      if e.Some? {
        batches := Set(batches, batchId, e.value.(status := "failed", finishedAt := Some(now), errors := [error]));
      }
    }

    /** `stop_batch_run`: on success the batch's runner is asked to stop as well. */
    method StopBatchRun(batchId: string, now: string) returns (r: Result<string, HttpError>)
      requires Contains(batches, batchId) ==> batchId in runners
      modifies this, if batchId in runners then {runners[batchId]} else {}
      ensures runners == old(runners)
      ensures Stopped(old(batches), batchId, now).Err? ==>
        && r == Err(Stopped(old(batches), batchId, now).error) && batches == old(batches)
      ensures Stopped(old(batches), batchId, now).Ok? ==>
        && batches == Stopped(old(batches), batchId, now).value
        && runners[batchId].stopRequested
        && r == Ok("Batch " + batchId + " stop requested")
    {
      var s := Stopped(batches, batchId, now);
      if s.Err? {
        return Err(s.error);
      }
      var runner := runners[batchId];
      runner.Stop();
      batches := s.value;
      return Ok("Batch " + batchId + " stop requested");
    }
  }
}
