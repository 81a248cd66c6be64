/**
 * The quota-tracked API client: counts the calls of this run, refuses to
 * call once today's total reaches the daily quota, and folds the run's
 * count into the persisted quota record.
 */
module Quota {
  import opened Wrappers
  import opened Documents

  const DailyQuota: int := 10000

  function Max(a: int, b: int): int { if a < b then b else a }

  /** The persisted record `{date, totalCalls, lastCalls}`. */
  datatype QuotaRecord = QuotaRecord(date: string, totalCalls: int, lastCalls: int)

  /** The record used when none is stored (or the stored one cannot be read). */
  function DefaultRecord(today: string): QuotaRecord {
    QuotaRecord(today, 0, 0)
  }

  /** update(): the record after folding a run of `pulls` calls into it on day `today`. */
  function Commit(r: QuotaRecord, pulls: nat, today: string): QuotaRecord {
    if r.date == today then QuotaRecord(r.date, r.totalCalls + pulls, pulls)
    else QuotaRecord(today, pulls, pulls)
  }

  /**
   * Committing records the run as the last run, keeps the day's running total
   * on the same day and restarts it on a new day.
   */
  lemma CommitFoldsRun(r: QuotaRecord, pulls: nat, today: string)
    ensures var c := Commit(r, pulls, today);
      && c.lastCalls == pulls && c.date == today
      && (r.date == today ==> c.totalCalls == r.totalCalls + pulls)
      && (r.date != today ==> c.totalCalls == pulls)
  {
  }

  /** A request is issued only while the calls used today stay under the quota. */
  predicate MayCall(storedTotal: int, pulls: nat) {
    storedTotal + pulls < DailyQuota
  }

  /** The answer of one `pullData` call and the run's call count afterwards. */
  datatype Pulled = Pulled(response: Option<Doc>, pulls: nat)

  /**
   * pullData as a function of the stored total, the run's call count, the
   * network (call number and path to answer) and the path.
   */
  function Pull(storedTotal: int, pulls: nat, respond: (nat, string) -> Option<Doc>, path: string): Pulled {
    if MayCall(storedTotal, pulls) then Pulled(respond(pulls, path), pulls + 1) else Pulled(None, pulls)
  }

  /**
   * At quota no request is made and nothing is returned; under quota exactly
   * one call is counted, failed or not. Either way the day's total does not
   * rise above the larger of the quota and its value before the call.
   */
  lemma PullGate(storedTotal: int, pulls: nat, respond: (nat, string) -> Option<Doc>, path: string)
    ensures var r := Pull(storedTotal, pulls, respond, path);
      && (!MayCall(storedTotal, pulls) ==> r == Pulled(None, pulls))
      && (MayCall(storedTotal, pulls) ==> r == Pulled(respond(pulls, path), pulls + 1))
      && pulls <= r.pulls
      && storedTotal + r.pulls <= Max(DailyQuota, storedTotal + pulls)
  {
  }

  /** The client object: the run's call counter, the error flag and the quota record. */
  class DtoolsApi {
    var apiPulls: nat
    var errState: int
    var apiDetails: QuotaRecord
    /** The network: the answer to the call with a given number and path, or None when it fails. */
    const respond: (nat, string) -> Option<Doc>

    /**
     * Starts with no calls and no error, loads the stored record (or a fresh
     * one for today) and immediately commits the empty run into it.
     */
    constructor (stored: Option<QuotaRecord>, today: string, respond: (nat, string) -> Option<Doc>)
      ensures apiPulls == 0 && errState == 0 && this.respond == respond
      ensures apiDetails == Commit(stored.GetOr(DefaultRecord(today)), 0, today)
      ensures apiDetails.date == today && GetLast() == 0
      ensures GetTotal() == if stored.Some? && stored.value.date == today then stored.value.totalCalls else 0
    {
      apiPulls := 0;
      errState := 0;
      this.respond := respond;
      apiDetails := stored.GetOr(DefaultRecord(today));
      new;
      Update(today);
    }

    method SetError(state: int)
      modifies this`errState
      ensures GetError() == state
    {
      errState := state;
    }

    function GetError(): int
      reads this
    {
      errState
    }

    /** Calls used today: the stored total plus this run's calls. */
    function GetTotal(): int
      reads this
    {
      apiDetails.totalCalls + apiPulls
    }

    /** Calls used by the last committed run. */
    function GetLast(): int
      reads this
    {
      apiDetails.lastCalls
    }

    /**
     * pullData(path): below quota, counts one call and returns the network's
     * answer (None on failure); at quota, makes no call and returns None.
     */
    method PullData(path: string) returns (r: Option<Doc>)
      modifies this`apiPulls
      ensures Pulled(r, apiPulls) == Pull(apiDetails.totalCalls, old(apiPulls), respond, path)
      ensures old(GetTotal()) >= DailyQuota ==> r == None && apiPulls == old(apiPulls)
      ensures old(GetTotal()) < DailyQuota ==> apiPulls == old(apiPulls) + 1 && r == respond(old(apiPulls), path)
      ensures GetTotal() <= Max(DailyQuota, old(GetTotal()))
    {
      if GetTotal() < DailyQuota {
        apiPulls := apiPulls + 1;
        r := respond(apiPulls - 1, path);
      } else {
        r := None;
      }
    }

    /** update(today): fold this run's call count into the record. */
    method Update(today: string)
      modifies this`apiDetails
      ensures apiDetails == Commit(old(apiDetails), apiPulls, today)
      ensures GetLast() == apiPulls
    {
      apiDetails := apiDetails.(lastCalls := apiPulls);
      if apiDetails.date == today {
        apiDetails := apiDetails.(totalCalls := apiDetails.totalCalls + apiPulls);
      } else {
        apiDetails := apiDetails.(date := today, totalCalls := apiPulls);
      }
    }
  }
}
