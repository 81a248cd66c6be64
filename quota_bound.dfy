/**
 * The quota bound over a whole run: the day's total never rises above the
 * larger of the daily quota and its value when the run started, and a run
 * that starts at quota makes no call at all.
 */
module QuotaBound {
  import opened Wrappers
  import opened Documents
  import opened Accumulator
  import opened Quota
  import opened Pipeline

  /** From call count `a` to call count `b` the day's total stays within the ceiling. */
  ghost predicate Within(env: Env, a: nat, b: nat) {
    a <= b && env.storedTotal + b <= Max(DailyQuota, env.storedTotal + a)
  }

  lemma WithinTrans(env: Env, a: nat, b: nat, c: nat)
    requires Within(env, a, b) && Within(env, b, c)
    ensures Within(env, a, c)
  {
  }

  lemma FetchWithin(env: Env, io: Io, kind: Kind, key: string, path: string)
    ensures Within(env, io.pulls, Fetch(env, io, kind, key, path).io.pulls)
  {
    PullGate(env.storedTotal, io.pulls, env.respond, path);
  }

  lemma {:induction false} ApplyChangesWithin(env: Env, st: State, projId: string, ids: seq<string>)
    ensures Within(env, st.io.pulls, ApplyChanges(env, st, projId, ids).io.pulls)
  {
    if ids != [] {
      var prev := ApplyChanges(env, st, projId, ids[..|ids| - 1]);
      var id := ids[|ids| - 1];
      ApplyChangesWithin(env, st, projId, ids[..|ids| - 1]);
      FetchWithin(env, prev.io, ChangeKind, ChangeKey(id), ChangeOrderPath(id));
      WithinTrans(env, st.io.pulls, prev.io.pulls, ApplyChanges(env, st, projId, ids).io.pulls);
    }
  }

  lemma {:induction false} ScanQuotesWithin(env: Env, s: Scan, ids: seq<string>)
    requires OrderedDict.Valid(s.labor)
    ensures Within(env, s.io.pulls, ScanQuotes(env, s, ids).io.pulls)
  {
    if ids != [] {
      var prev := ScanQuotes(env, s, ids[..|ids| - 1]);
      var id := ids[|ids| - 1];
      ScanQuotesWithin(env, s, ids[..|ids| - 1]);
      FetchWithin(env, prev.io, QuoteKind, QuoteKey(id), QuotePath(id));
      WithinTrans(env, s.io.pulls, prev.io.pulls, ScanQuotes(env, s, ids).io.pulls);
    }
  }

  lemma ProcessOppWithin(env: Env, st: State, o: OppSummary)
    ensures Within(env, st.io.pulls, ProcessOpp(env, st, o).st.io.pulls)
  {
    var f := Fetch(env, st.io, DetailKind, DetailKey(o.id), DetailPath(o));
    FetchWithin(env, st.io, DetailKind, DetailKey(o.id), DetailPath(o));
    if f.doc.Some? && WantsTime(env.headers) {
      var d := f.doc.value.detail;
      var mins := Touched(st.mins, o.id);
      if o.stage == WonStage {
        ApplyChangesWithin(env, State(f.io, AddLabor(mins, o.id, d.laborTypes)), o.id, d.changeOrderIds);
      } else {
        ScanQuotesWithin(env, Scan(f.io, 0, OrderedDict.Empty()), d.quoteIds);
      }
      WithinTrans(env, st.io.pulls, f.io.pulls, ProcessOpp(env, st, o).st.io.pulls);
    }
  }

  lemma {:induction false} ProcessOppsWithin(env: Env, st: State, opps: seq<OppSummary>)
    ensures Within(env, st.io.pulls, ProcessOpps(env, st, opps).st.io.pulls)
  {
    if opps != [] {
      var prev := ProcessOpps(env, st, opps[..|opps| - 1]);
      ProcessOppsWithin(env, st, opps[..|opps| - 1]);
      ProcessOppWithin(env, prev.st, opps[|opps| - 1]);
      WithinTrans(env, st.io.pulls, prev.st.io.pulls, ProcessOpps(env, st, opps).st.io.pulls);
    }
  }

  lemma RunOppsWithin(env: Env, st: State)
    ensures Within(env, st.io.pulls, RunOpps(env, st).io.pulls)
  {
    var f := Fetch(env, st.io, OppListKind, OppKey, OppPath);
    FetchWithin(env, st.io, OppListKind, OppKey, OppPath);
    if f.doc.Some? {
      ProcessOppsWithin(env, State(f.io, st.mins), f.doc.value.opps);
    }
  }

  /**
   * A whole run never pushes the calls used today above the larger of the
   * daily quota and the total the run started with, and never lowers the
   * run's call count.
   */
  lemma RunWithinQuota(env: Env, io: Io)
    ensures var r := Run(env, io);
      io.pulls <= r.io.pulls && env.storedTotal + r.io.pulls <= Max(DailyQuota, env.storedTotal + io.pulls)
  {
    if WantsTime(env.headers) {
      var f := Fetch(env, io, HoursKind, HoursKey, TimePath);
      FetchWithin(env, io, HoursKind, HoursKey, TimePath);
      if f.doc.Some? {
        RunOppsWithin(env, State(f.io, AddEntries(map[], f.doc.value.entries)));
      }
    } else {
      RunOppsWithin(env, State(io, map[]));
    }
  }

  /** A run that starts with today's total at or above the quota makes no call at all: only cached data is used. */
  lemma RunAtQuotaMakesNoCall(env: Env, io: Io)
    requires !MayCall(env.storedTotal, io.pulls)
    ensures Run(env, io).io.pulls == io.pulls
  {
    RunWithinQuota(env, io);
  }
}
