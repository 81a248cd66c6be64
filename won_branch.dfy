/**
 * What the minute accumulator holds: worked minutes per (project, labor
 * type) from the time entries, and for a won project its own labor plus the
 * labor of its accepted change orders as quoted minutes.
 */
module WonBranch {
  import opened Wrappers
  import opened Documents
  import opened OrderedDict
  import opened Accumulator
  import opened Pipeline

  /** Sum of `hoursWorkedInMinutes` over the entries of project `projId` and labor type `task`. */
  function Worked(es: seq<TimeEntry>, projId: string, task: string): int {
    if es == [] then 0
    else
      var e := es[|es| - 1];
      Worked(es[..|es| - 1], projId, task) + if e.projectId == projId && e.laborType == task then e.hoursWorkedInMinutes else 0
  }

  /** Sum of the truncated minutes of the labor items named `task`. */
  function TaskMinutes(lts: seq<LaborItem>, task: string): int {
    if lts == [] then 0
    else
      var lt := lts[|lts| - 1];
      TaskMinutes(lts[..|lts| - 1], task) + if lt.name == task then ToMinutes(lt.totalTimeInSeconds) else 0
  }

  /** No labor item is called "TOTALS". */
  ghost predicate NoTotalsIn(lts: seq<LaborItem>) {
    forall lt :: lt in lts ==> lt.name != Totals
  }

  /** The time-entry loop adds to each (project, labor type) exactly its entries' worked minutes, and no quoted minutes. */
  lemma {:induction false} AddEntriesGet(mins: Minutes, es: seq<TimeEntry>, projId: string, task: string)
    requires task != Totals
    ensures Get(AddEntries(mins, es), projId, task).quoted == Get(mins, projId, task).quoted
    ensures Get(AddEntries(mins, es), projId, task).worked == Get(mins, projId, task).worked + Worked(es, projId, task)
  {
    if es != [] {
      var e := es[|es| - 1];
      var prev := AddEntries(mins, es[..|es| - 1]);
      AddEntriesGet(mins, es[..|es| - 1], projId, task);
      AddTimeGet(prev, e.projectId, e.laborType, 0, e.hoursWorkedInMinutes, projId, task);
    }
  }

  /** A `laborTypes` loop adds to each labor type of its project exactly the truncated minutes of its items. */
  lemma {:induction false} AddLaborGet(mins: Minutes, id: string, lts: seq<LaborItem>, projId: string, task: string)
    requires task != Totals
    ensures Get(AddLabor(mins, id, lts), projId, task).quoted
         == Get(mins, projId, task).quoted + if projId == id then TaskMinutes(lts, task) else 0
    ensures Get(AddLabor(mins, id, lts), projId, task).worked == Get(mins, projId, task).worked
  {
    if lts != [] {
      var lt := lts[|lts| - 1];
      var prev := AddLabor(mins, id, lts[..|lts| - 1]);
      AddLaborGet(mins, id, lts[..|lts| - 1], projId, task);
      assert AddLabor(mins, id, lts) == AddTime(prev, id, lt.name, ToMinutes(lt.totalTimeInSeconds), 0);
      AddTimeGet(prev, id, lt.name, ToMinutes(lt.totalTimeInSeconds), 0, projId, task);
    }
  }

  /** ... and to the project's "TOTALS" the quote-style total of all its items. */
  lemma {:induction false} AddLaborTotals(mins: Minutes, id: string, lts: seq<LaborItem>)
    requires NoTotalsIn(lts)
    ensures Get(AddLabor(mins, id, lts), id, Totals).quoted == Get(mins, id, Totals).quoted + QuoteMinutes(lts)
    ensures Get(AddLabor(mins, id, lts), id, Totals).worked == Get(mins, id, Totals).worked
  {
    if lts != [] {
      var lt := lts[|lts| - 1];
      var prev := AddLabor(mins, id, lts[..|lts| - 1]);
      assert lt in lts;
      AddLaborTotals(mins, id, lts[..|lts| - 1]);
      assert AddLabor(mins, id, lts) == AddTime(prev, id, lt.name, ToMinutes(lt.totalTimeInSeconds), 0);
      AddTimeGetTotals(prev, id, lt.name, ToMinutes(lt.totalTimeInSeconds), 0, id);
    }
  }

  /** The cache and call count after the change-order loop (they do not depend on the minutes). */
  function ChangesIo(env: Env, io: Io, ids: seq<string>): Io {
    if ids == [] then io
    else
      var id := ids[|ids| - 1];
      Fetch(env, ChangesIo(env, io, ids[..|ids| - 1]), ChangeKind, ChangeKey(id), ChangeOrderPath(id)).io
  }

  /** The change orders the loop managed to retrieve, in order; the others contribute nothing. */
  function FetchedChanges(env: Env, io: Io, ids: seq<string>): seq<ChangeOrder> {
    if ids == [] then []
    else
      var id := ids[|ids| - 1];
      var f := Fetch(env, ChangesIo(env, io, ids[..|ids| - 1]), ChangeKind, ChangeKey(id), ChangeOrderPath(id));
      FetchedChanges(env, io, ids[..|ids| - 1]) + if f.doc.Some? then [f.doc.value.change] else []
  }

  /** The labor of the accepted change orders among `cs`, added in order. */
  function AddAccepted(mins: Minutes, id: string, cs: seq<ChangeOrder>): Minutes {
    if cs == [] then mins
    else
      var c := cs[|cs| - 1];
      var prev := AddAccepted(mins, id, cs[..|cs| - 1]);
      if c.state == AcceptedState then AddLabor(prev, id, c.laborTypes) else prev
  }

  /** Per labor type, the minutes of the accepted change orders among `cs`. */
  function AcceptedMinutes(cs: seq<ChangeOrder>, task: string): int {
    if cs == [] then 0
    else
      var c := cs[|cs| - 1];
      AcceptedMinutes(cs[..|cs| - 1], task) + if c.state == AcceptedState then TaskMinutes(c.laborTypes, task) else 0
  }

  /** The total minutes of the accepted change orders among `cs`. */
  function AcceptedTotal(cs: seq<ChangeOrder>): int {
    if cs == [] then 0
    else
      var c := cs[|cs| - 1];
      AcceptedTotal(cs[..|cs| - 1]) + if c.state == AcceptedState then QuoteMinutes(c.laborTypes) else 0
  }

  ghost predicate NoTotalsInChanges(cs: seq<ChangeOrder>) {
    forall c :: c in cs ==> NoTotalsIn(c.laborTypes)
  }

  /** The change-order loop is the accepted-labor fold over the change orders it retrieved. */
  lemma {:induction false} ApplyChangesIsFold(env: Env, st: State, id: string, ids: seq<string>)
    ensures ApplyChanges(env, st, id, ids)
         == State(ChangesIo(env, st.io, ids), AddAccepted(st.mins, id, FetchedChanges(env, st.io, ids)))
  {
    if ids != [] {
      var pre := ids[..|ids| - 1];
      ApplyChangesIsFold(env, st, id, pre);
      var cs := FetchedChanges(env, st.io, pre);
      var f := Fetch(env, ChangesIo(env, st.io, pre), ChangeKind, ChangeKey(ids[|ids| - 1]), ChangeOrderPath(ids[|ids| - 1]));
      if f.doc.Some? {
        assert (cs + [f.doc.value.change])[..|cs|] == cs;
      } else {
        assert cs + [] == cs;
      }
    }
  }

  lemma {:induction false} AddAcceptedGet(mins: Minutes, id: string, cs: seq<ChangeOrder>, task: string)
    requires task != Totals
    ensures Get(AddAccepted(mins, id, cs), id, task).quoted == Get(mins, id, task).quoted + AcceptedMinutes(cs, task)
    ensures Get(AddAccepted(mins, id, cs), id, task).worked == Get(mins, id, task).worked
  {
    if cs != [] {
      var c := cs[|cs| - 1];
      var prev := AddAccepted(mins, id, cs[..|cs| - 1]);
      AddAcceptedGet(mins, id, cs[..|cs| - 1], task);
      if c.state == AcceptedState {
        assert AddAccepted(mins, id, cs) == AddLabor(prev, id, c.laborTypes);
        AddLaborGet(prev, id, c.laborTypes, id, task);
      } else {
        assert AddAccepted(mins, id, cs) == prev;
      }
    }
  }

  lemma {:induction false} AddAcceptedTotals(mins: Minutes, id: string, cs: seq<ChangeOrder>)
    requires NoTotalsInChanges(cs)
    ensures Get(AddAccepted(mins, id, cs), id, Totals).quoted == Get(mins, id, Totals).quoted + AcceptedTotal(cs)
    ensures Get(AddAccepted(mins, id, cs), id, Totals).worked == Get(mins, id, Totals).worked
  {
    if cs != [] {
      var c := cs[|cs| - 1];
      var prev := AddAccepted(mins, id, cs[..|cs| - 1]);
      AddAcceptedTotals(mins, id, cs[..|cs| - 1]);
      if c.state == AcceptedState {
        assert c in cs;
        assert AddAccepted(mins, id, cs) == AddLabor(prev, id, c.laborTypes);
        AddLaborTotals(prev, id, c.laborTypes);
      } else {
        assert AddAccepted(mins, id, cs) == prev;
      }
    }
  }

  /** Creating the project lazily adds nothing to any entry. */
  lemma TouchedGet(mins: Minutes, id: string, projId: string, task: string)
    ensures Get(Touched(mins, id), projId, task) == Get(mins, projId, task)
  {
  }

  /**
   * A won project: every labor type's quoted minutes grow by exactly the
   * minutes of the detail's own labor items plus those of the accepted
   * change orders among the ones retrieved; non-accepted and unretrievable
   * change orders add nothing, and worked minutes are untouched.
   */
  lemma WonTaskMinutes(env: Env, st: State, o: OppSummary, d: Detail, task: string)
    requires o.stage == WonStage && task != Totals
    ensures Get(LaborFor(env, st, o, d).mins, o.id, task).quoted
         == Get(st.mins, o.id, task).quoted
            + TaskMinutes(d.laborTypes, task) + AcceptedMinutes(FetchedChanges(env, st.io, d.changeOrderIds), task)
    ensures Get(LaborFor(env, st, o, d).mins, o.id, task).worked == Get(st.mins, o.id, task).worked
  {
    var mins := Touched(st.mins, o.id);
    var base := AddLabor(mins, o.id, d.laborTypes);
    ApplyChangesIsFold(env, State(st.io, base), o.id, d.changeOrderIds);
    TouchedGet(st.mins, o.id, o.id, task);
    AddLaborGet(mins, o.id, d.laborTypes, o.id, task);
    AddAcceptedGet(base, o.id, FetchedChanges(env, st.io, d.changeOrderIds), task);
  }

  /**
   * A won project's "TOTALS" grows by the detail's total minutes plus the
   * accepted change orders' totals, when no labor item is itself called "TOTALS".
   */
  lemma WonTotalMinutes(env: Env, st: State, o: OppSummary, d: Detail)
    requires o.stage == WonStage
    requires NoTotalsIn(d.laborTypes) && NoTotalsInChanges(FetchedChanges(env, st.io, d.changeOrderIds))
    ensures Get(LaborFor(env, st, o, d).mins, o.id, Totals).quoted
         == Get(st.mins, o.id, Totals).quoted
            + QuoteMinutes(d.laborTypes) + AcceptedTotal(FetchedChanges(env, st.io, d.changeOrderIds))
    ensures Get(LaborFor(env, st, o, d).mins, o.id, Totals).worked == Get(st.mins, o.id, Totals).worked
  {
    var mins := Touched(st.mins, o.id);
    var base := AddLabor(mins, o.id, d.laborTypes);
    ApplyChangesIsFold(env, State(st.io, base), o.id, d.changeOrderIds);
    TouchedGet(st.mins, o.id, o.id, Totals);
    AddLaborTotals(mins, o.id, d.laborTypes);
    AddAcceptedTotals(base, o.id, FetchedChanges(env, st.io, d.changeOrderIds));
  }
}
