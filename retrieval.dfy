/**
 * Laws of cache-first retrieval and of what a failed retrieval does to the
 * run: the two lists abort it, a detail skips its opportunity, and a quote
 * or change order is skipped on its own.
 */
module Retrieval {
  import opened Wrappers
  import opened Documents
  import opened Accumulator
  import opened Quota
  import opened Pipeline

  /**
   * One retrieval: a cache hit (flag set, key present, right kind) makes no
   * call and changes nothing; a miss makes at most one call (exactly one
   * under the quota), answers with the network's reply when it is a document
   * of the right kind, and writes only that reply, under the given key.
   */
  lemma FetchCalls(env: Env, io: Io, kind: Kind, key: string, path: string)
    ensures var r := Fetch(env, io, kind, key, path);
      var hit := UseCache(env.flags, kind) && key in io.cache && OfKind(io.cache[key], kind);
      && (hit ==> r == Fetched(Some(io.cache[key]), io))
      && (!hit ==> r.io.pulls == io.pulls + (if MayCall(env.storedTotal, io.pulls) then 1 else 0))
      && (!hit && r.doc.Some? ==> MayCall(env.storedTotal, io.pulls) && r.doc == env.respond(io.pulls, path))
      && (!hit && r.doc.Some? ==> r.io.cache == io.cache[key := r.doc.value])
      && (r.doc.None? ==> r.io.cache == io.cache)
  {
    PullGate(env.storedTotal, io.pulls, env.respond, path);
  }

  /**
   * A document once retrieved is served from the cache the next time its
   * flag is set: the same document, with no call and no change.
   */
  lemma FetchRoundTrip(env: Env, io: Io, kind: Kind, key: string, path: string, path2: string)
    requires Fetch(env, io, kind, key, path).doc.Some? && UseCache(env.flags, kind)
    ensures var r := Fetch(env, io, kind, key, path);
      Fetch(env, r.io, kind, key, path2) == Fetched(r.doc, r.io)
  {
  }

  /** A retrieval leaves every other cache file as it was. */
  lemma FetchKeepsOtherFiles(env: Env, io: Io, kind: Kind, key: string, path: string, other: string)
    requires other != key && other in io.cache
    ensures var r := Fetch(env, io, kind, key, path);
      other in r.io.cache && r.io.cache[other] == io.cache[other]
  {
  }

  /**
   * How a run ends: it aborts without rows when a time column is selected
   * and the time entries cannot be had, or when the opportunity list cannot
   * be had; otherwise it completes.
   */
  lemma RunOutcome(env: Env, io: Io)
    ensures var r := Run(env, io);
      var hours := Fetch(env, io, HoursKind, HoursKey, TimePath);
      var io1 := if WantsTime(env.headers) then hours.io else io;
      && (r.outcome == NoTimeEntries <==> WantsTime(env.headers) && hours.doc.None?)
      && (r.outcome == NoOpportunityList <==>
            !(WantsTime(env.headers) && hours.doc.None?) && Fetch(env, io1, OppListKind, OppKey, OppPath).doc.None?)
      && (r.outcome != Completed ==> r.rows == [])
  {
  }

  /** An opportunity whose detail cannot be had emits no row and leaves the minutes alone. */
  lemma DetailFailureSkips(env: Env, st: State, o: OppSummary)
    requires Fetch(env, st.io, DetailKind, DetailKey(o.id), DetailPath(o)).doc.None?
    ensures ProcessOpp(env, st, o).rows == [] && ProcessOpp(env, st, o).st.mins == st.mins
  {
  }

  /** A change order that cannot be had adds nothing; the loop goes on with the next one. */
  lemma ChangeFailureSkips(env: Env, st: State, projId: string, changeId: string)
    requires Fetch(env, st.io, ChangeKind, ChangeKey(changeId), ChangeOrderPath(changeId)).doc.None?
    ensures ApplyChange(env, st, projId, changeId).mins == st.mins
  {
  }

  /** A quote that cannot be had leaves the best quote as it was. */
  lemma QuoteFailureSkips(env: Env, s: Scan, quoteId: string)
    requires OrderedDict.Valid(s.labor)
    requires Fetch(env, s.io, QuoteKind, QuoteKey(quoteId), QuotePath(quoteId)).doc.None?
    ensures ScanQuote(env, s, quoteId).best == s.best && ScanQuote(env, s, quoteId).labor == s.labor
  {
  }
}
