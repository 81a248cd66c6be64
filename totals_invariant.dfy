/**
 * The "TOTALS" invariant across a run: as long as no document names a
 * labor type "TOTALS", every project's "TOTALS" entry equals the sum of its
 * other entries after every step of the opportunity loop, so the single
 * row emitted without "Labor Type" carries the project's summed minutes.
 */
module TotalsInvariant {
  import opened Wrappers
  import opened Documents
  import opened OrderedDict
  import opened Accumulator
  import opened Pipeline
  import opened WonBranch
  import opened QuoteChoice

  /** Every project of the accumulator keeps the "TOTALS" invariant. */
  ghost predicate AllTotalsOk(mins: Minutes) {
    forall p :: p in mins ==> TotalsOk(mins[p])
  }

  /** No time entry of the list is booked against a labor type called "TOTALS". */
  ghost predicate CleanEntries(es: seq<TimeEntry>) {
    forall e :: e in es ==> e.laborType != Totals
  }

  /** A document names no labor type "TOTALS". */
  ghost predicate CleanDoc(d: Doc) {
    match d
    case EntriesDoc(es) => CleanEntries(es)
    case OppListDoc(_) => true
    case DetailDoc(x) => NoTotalsIn(x.laborTypes)
    case ChangeOrderDoc(c) => NoTotalsIn(c.laborTypes)
    case QuoteDoc(q) => NoTotalsIn(q.laborTypes)
  }

  ghost predicate CleanCache(cache: map<string, Doc>) {
    forall k :: k in cache ==> CleanDoc(cache[k])
  }

  /** The network never answers with a document naming a labor type "TOTALS". */
  ghost predicate CleanNetwork(respond: (nat, string) -> Option<Doc>) {
    forall n: nat, path: string :: respond(n, path).Some? ==> CleanDoc(respond(n, path).value)
  }

  /** What cleanliness a retrieval relies on and keeps. */
  ghost predicate CleanIo(env: Env, io: Io) {
    CleanCache(io.cache) && CleanNetwork(env.respond)
  }

  /** A retrieval from a clean cache and network yields a clean document and keeps the cache clean. */
  lemma FetchKeepsClean(env: Env, io: Io, kind: Kind, key: string, path: string)
    requires CleanIo(env, io)
    ensures var r := Fetch(env, io, kind, key, path);
      CleanIo(env, r.io) && (r.doc.Some? ==> CleanDoc(r.doc.value))
  {
    var r := Fetch(env, io, kind, key, path);
    if r.io.cache != io.cache {
      var n := io.pulls;
      assert env.respond(n, path).Some? ==> CleanDoc(env.respond(n, path).value);
    }
  }

  /** One updateTime keeps every project's invariant (it only changes its own project). */
  lemma AddTimeKeepsAll(mins: Minutes, projId: string, task: string, quoteMins: int, taskMins: int)
    requires task != Totals && AllTotalsOk(mins)
    ensures AllTotalsOk(AddTime(mins, projId, task, quoteMins, taskMins))
  {
    AddTimeKeepsTotals(mins, projId, task, quoteMins, taskMins);
  }

  lemma {:induction false} AddEntriesKeepsAll(mins: Minutes, es: seq<TimeEntry>)
    requires CleanEntries(es) && AllTotalsOk(mins)
    ensures AllTotalsOk(AddEntries(mins, es))
  {
    if es != [] {
      var e := es[|es| - 1];
      assert e in es;
      AddEntriesKeepsAll(mins, es[..|es| - 1]);
      AddTimeKeepsAll(AddEntries(mins, es[..|es| - 1]), e.projectId, e.laborType, 0, e.hoursWorkedInMinutes);
    }
  }

  lemma {:induction false} AddLaborKeepsAll(mins: Minutes, projId: string, lts: seq<LaborItem>)
    requires NoTotalsIn(lts) && AllTotalsOk(mins)
    ensures AllTotalsOk(AddLabor(mins, projId, lts))
  {
    if lts != [] {
      var lt := lts[|lts| - 1];
      assert lt in lts;
      AddLaborKeepsAll(mins, projId, lts[..|lts| - 1]);
      AddTimeKeepsAll(AddLabor(mins, projId, lts[..|lts| - 1]), projId, lt.name, ToMinutes(lt.totalTimeInSeconds), 0);
    }
  }

  /** The lazy creation of `{'TOTALS': [0, 0]}` keeps every project's invariant. */
  lemma TouchKeepsAll(mins: Minutes, projId: string)
    requires AllTotalsOk(mins)
    ensures AllTotalsOk(Touched(mins, projId))
  {
    TouchKeepsTotals(mins, projId);
  }

  lemma {:induction false} ApplyChangesKeepsAll(env: Env, st: State, projId: string, ids: seq<string>)
    requires CleanIo(env, st.io) && AllTotalsOk(st.mins)
    ensures CleanIo(env, ApplyChanges(env, st, projId, ids).io) && AllTotalsOk(ApplyChanges(env, st, projId, ids).mins)
  {
    if ids != [] {
      var prev := ApplyChanges(env, st, projId, ids[..|ids| - 1]);
      var id := ids[|ids| - 1];
      ApplyChangesKeepsAll(env, st, projId, ids[..|ids| - 1]);
      FetchKeepsClean(env, prev.io, ChangeKind, ChangeKey(id), ChangeOrderPath(id));
      var f := Fetch(env, prev.io, ChangeKind, ChangeKey(id), ChangeOrderPath(id));
      if f.doc.Some? && f.doc.value.change.state == AcceptedState {
        AddLaborKeepsAll(prev.mins, projId, f.doc.value.change.laborTypes);
      }
    }
  }

  /** A quote with no "TOTALS" labor type gives labor without a "TOTALS" key. */
  lemma {:induction false} QuoteLaborNoTotals(lts: seq<LaborItem>)
    requires NoTotalsIn(lts)
    ensures Totals !in QuoteLabor(lts).values
  {
    if lts != [] {
      assert lts[|lts| - 1] in lts;
      QuoteLaborNoTotals(lts[..|lts| - 1]);
    }
  }

  lemma {:induction false} ScanQuotesKeepsClean(env: Env, s: Scan, ids: seq<string>)
    requires Valid(s.labor) && CleanIo(env, s.io) && Totals !in s.labor.values
    ensures CleanIo(env, ScanQuotes(env, s, ids).io) && Totals !in ScanQuotes(env, s, ids).labor.values
  {
    if ids != [] {
      var prev := ScanQuotes(env, s, ids[..|ids| - 1]);
      var id := ids[|ids| - 1];
      ScanQuotesKeepsClean(env, s, ids[..|ids| - 1]);
      FetchKeepsClean(env, prev.io, QuoteKind, QuoteKey(id), QuotePath(id));
      var f := Fetch(env, prev.io, QuoteKind, QuoteKey(id), QuotePath(id));
      if f.doc.Some? {
        QuoteLaborNoTotals(f.doc.value.quote.laborTypes);
      }
    }
  }

  /** Replacing a project by `{lt: [m, 0], 'TOTALS': [m, 0]}`, `lt` not "TOTALS", keeps every invariant. */
  lemma ReplaceAllKeepsAll(mins: Minutes, projId: string, labor: Dict<int>)
    requires Valid(labor) && Totals !in labor.values && AllTotalsOk(mins)
    ensures AllTotalsOk(ReplaceAll(mins, projId, labor.order, labor.values))
  {
    ReplaceAllKeepsLast(mins, projId, labor.order, labor.values);
    if labor.order != [] {
      var k := labor.order[|labor.order| - 1];
      FreshKeepsTotals(k, Pair(labor.values[k], 0));
    }
  }

  /** Gathering the minutes of one opportunity keeps every invariant and the cache clean. */
  lemma LaborForKeepsAll(env: Env, st: State, o: OppSummary, d: Detail)
    requires CleanIo(env, st.io) && AllTotalsOk(st.mins) && NoTotalsIn(d.laborTypes)
    ensures CleanIo(env, LaborFor(env, st, o, d).io) && AllTotalsOk(LaborFor(env, st, o, d).mins)
  {
    var mins := Touched(st.mins, o.id);
    TouchKeepsAll(st.mins, o.id);
    if o.stage == WonStage {
      AddLaborKeepsAll(mins, o.id, d.laborTypes);
      ApplyChangesKeepsAll(env, State(st.io, AddLabor(mins, o.id, d.laborTypes)), o.id, d.changeOrderIds);
    } else {
      var s0 := Scan(st.io, 0, Empty());
      ScanQuotesKeepsClean(env, s0, d.quoteIds);
      var s := ScanQuotes(env, s0, d.quoteIds);
      ReplaceAllKeepsAll(mins, o.id, s.labor);
    }
  }

  lemma ProcessOppKeepsAll(env: Env, st: State, o: OppSummary)
    requires CleanIo(env, st.io) && AllTotalsOk(st.mins)
    ensures CleanIo(env, ProcessOpp(env, st, o).st.io) && AllTotalsOk(ProcessOpp(env, st, o).st.mins)
  {
    FetchKeepsClean(env, st.io, DetailKind, DetailKey(o.id), DetailPath(o));
    var f := Fetch(env, st.io, DetailKind, DetailKey(o.id), DetailPath(o));
    if f.doc.Some? && WantsTime(env.headers) {
      LaborForKeepsAll(env, State(f.io, st.mins), o, f.doc.value.detail);
    }
  }

  /** Every step of the opportunity loop keeps every project's "TOTALS" equal to the sum of its entries. */
  lemma {:induction false} ProcessOppsKeepsAll(env: Env, st: State, opps: seq<OppSummary>)
    requires CleanIo(env, st.io) && AllTotalsOk(st.mins)
    ensures CleanIo(env, ProcessOpps(env, st, opps).st.io) && AllTotalsOk(ProcessOpps(env, st, opps).st.mins)
  {
    if opps != [] {
      ProcessOppsKeepsAll(env, st, opps[..|opps| - 1]);
      ProcessOppKeepsAll(env, ProcessOpps(env, st, opps[..|opps| - 1]).st, opps[|opps| - 1]);
    }
  }

  /** The minutes the opportunity loop starts from (the time entries' worked minutes) keep the invariant. */
  lemma EntriesStartClean(es: seq<TimeEntry>)
    requires CleanEntries(es)
    ensures AllTotalsOk(AddEntries(map[], es))
  {
    AddEntriesKeepsAll(map[], es);
  }
}
