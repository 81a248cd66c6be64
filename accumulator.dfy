/**
 * The labor-minute accumulator: project id -> task name -> (quoted, worked)
 * minutes, with a synthetic "TOTALS" task per project that is kept equal to
 * the sum of the project's other tasks.
 */
module Accumulator {
  import opened OrderedDict

  datatype Pair = Pair(quoted: int, worked: int)

  function Add(a: Pair, b: Pair): Pair {
    Pair(a.quoted + b.quoted, a.worked + b.worked)
  }

  const Zero: Pair := Pair(0, 0)

  /** The key of the running total inside every project's table. */
  const Totals: string := "TOTALS"

  /** One project's tasks, in insertion order. */
  type Table = Dict<Pair>

  /** All projects' tables. */
  type Minutes = map<string, Table>

  /** `t[k]`, or zero minutes when `k` is absent. */
  function At(t: Table, k: string): Pair {
    if k in t.values then t.values[k] else Zero
  }

  /** `allMins[projId][task]`, or zero minutes when either key is absent. */
  function Get(mins: Minutes, projId: string, task: string): Pair {
    if projId in mins then At(mins[projId], task) else Zero
  }

  /** Add `p` to task `k`, creating `k` with `p` if it is absent. */
  function Bump(t: Table, k: string, p: Pair): Table {
    if k in t.values then Put(t, k, Add(t.values[k], p)) else Put(t, k, p)
  }

  /** The dictionary literal `{task: p, 'TOTALS': p}` (a single key when `task` is "TOTALS"). */
  function Fresh(task: string, p: Pair): Table {
    Put(Put(Empty(), task, p), Totals, p)
  }

  /** `updateTime(allMins, projId, task, quoteMins, taskMins)`, as a function of the old accumulator. */
  function AddTime(mins: Minutes, projId: string, task: string, quoteMins: int, taskMins: int): Minutes {
    var p := Pair(quoteMins, taskMins);
    if projId in mins then mins[projId := Bump(Bump(mins[projId], task, p), Totals, p)]
    else mins[projId := Fresh(task, p)]
  }

  /** The lazy creation of `{'TOTALS': [0, 0]}` for a project not yet present. */
  function Touched(mins: Minutes, projId: string): Minutes {
    if projId in mins then mins else mins[projId := Put(Empty(), Totals, Zero)]
  }

  /** Sum of the entries listed in `order`, leaving out "TOTALS". */
  function SumOf(order: seq<string>, values: map<string, Pair>): Pair {
    if order == [] then Zero
    else
      var k := order[|order| - 1];
      Add(SumOf(order[..|order| - 1], values),
          if k == Totals || k !in values then Zero else values[k])
  }

  /** The accumulator invariant for one project: "TOTALS" is present and equals the sum of the other tasks. */
  ghost predicate TotalsOk(t: Table) {
    Valid(t) && Totals in t.values && t.values[Totals] == SumOf(t.order, t.values)
  }

  /** Changing a key that is not listed does not change the sum. */
  lemma {:induction false} SumIgnoresUnlisted(order: seq<string>, values: map<string, Pair>, k: string, v: Pair)
    requires k !in order
    ensures SumOf(order, values[k := v]) == SumOf(order, values)
  {
    if order != [] {
      SumIgnoresUnlisted(order[..|order| - 1], values, k, v);
    }
  }

  /** Changing "TOTALS" does not change the sum. */
  lemma {:induction false} SumIgnoresTotals(order: seq<string>, values: map<string, Pair>, v: Pair)
    ensures SumOf(order, values[Totals := v]) == SumOf(order, values)
  {
    if order != [] {
      SumIgnoresTotals(order[..|order| - 1], values, v);
    }
  }

  /** Adding `p` to a listed task other than "TOTALS" adds `p` to the sum. */
  lemma {:induction false} SumBump(order: seq<string>, values: map<string, Pair>, k: string, p: Pair)
    requires forall i, j :: 0 <= i < j < |order| ==> order[i] != order[j]
    requires k in order && k in values && k != Totals
    ensures SumOf(order, values[k := Add(values[k], p)]) == Add(SumOf(order, values), p)
  {
    var n := |order|;
    var pre := order[..n - 1];
    if order[n - 1] == k {
      assert k !in pre by {
        forall i | 0 <= i < |pre| ensures pre[i] != k { assert order[i] != order[n - 1]; }
      }
      SumIgnoresUnlisted(pre, values, k, Add(values[k], p));
    } else {
      assert k in pre by {
        var i :| 0 <= i < n && order[i] == k;
        assert pre[i] == k;
      }
      SumBump(pre, values, k, p);
    }
  }

  /** Adding a pair to a task other than "TOTALS" adds it to the sum of the tasks and leaves "TOTALS" alone. */
  lemma BumpTaskSum(t: Table, task: string, p: Pair)
    requires task != Totals && Valid(t)
    ensures Valid(Bump(t, task, p))
    ensures SumOf(Bump(t, task, p).order, Bump(t, task, p).values) == Add(SumOf(t.order, t.values), p)
    ensures Totals in t.values ==> Totals in Bump(t, task, p).values && Bump(t, task, p).values[Totals] == t.values[Totals]
  {
    var t1 := Bump(t, task, p);
    PutValid(t, task, if task in t.values then Add(t.values[task], p) else p);
    if task in t.values {
      assert t1 == Dict(t.order, t.values[task := Add(t.values[task], p)]);
      SumBump(t.order, t.values, task, p);
    } else {
      assert t1 == Dict(t.order + [task], t.values[task := p]);
      assert t1.order[..|t1.order| - 1] == t.order;
      SumIgnoresUnlisted(t.order, t.values, task, p);
    }
  }

  /** Adding a pair to a task other than "TOTALS" and to "TOTALS" keeps the table's invariant. */
  lemma BumpKeepsTotals(t: Table, task: string, p: Pair)
    requires task != Totals && TotalsOk(t)
    ensures TotalsOk(Bump(Bump(t, task, p), Totals, p))
  {
    var t1 := Bump(t, task, p);
    BumpTaskSum(t, task, p);
    PutValid(t1, Totals, Add(t1.values[Totals], p));
    SumIgnoresTotals(t1.order, t1.values, Add(t1.values[Totals], p));
  }

  /** updateTime of a task other than "TOTALS" keeps the project's invariant, or establishes it for a new project. */
  lemma AddTimeKeepsTotals(mins: Minutes, projId: string, task: string, quoteMins: int, taskMins: int)
    requires task != Totals
    requires projId in mins ==> TotalsOk(mins[projId])
    ensures TotalsOk(AddTime(mins, projId, task, quoteMins, taskMins)[projId])
  {
    if projId in mins {
      BumpKeepsTotals(mins[projId], task, Pair(quoteMins, taskMins));
    } else {
      FreshKeepsTotals(task, Pair(quoteMins, taskMins));
    }
  }

  /** updateTime touches one project only, and afterwards that project holds `task` and "TOTALS". */
  lemma AddTimeFrame(mins: Minutes, projId: string, task: string, quoteMins: int, taskMins: int)
    ensures var r := AddTime(mins, projId, task, quoteMins, taskMins);
      && r.Keys == mins.Keys + {projId}
      && (forall o :: o in mins && o != projId ==> r[o] == mins[o])
      && r[projId].values.Keys == (if projId in mins then mins[projId].values.Keys else {}) + {task, Totals}
  {
  }

  /**
   * updateTime adds exactly `(quoteMins, taskMins)` to `allMins[projId][task]`,
   * creating the entry when absent, adds the same to the project's "TOTALS",
   * and changes no other project and no other task.
   */
  lemma AddTimeAddsOnce(mins: Minutes, projId: string, task: string, quoteMins: int, taskMins: int)
    ensures var r := AddTime(mins, projId, task, quoteMins, taskMins);
      && r.Keys == mins.Keys + {projId}
      && (forall o :: o in mins && o != projId ==> r[o] == mins[o])
      && r[projId].values.Keys == (if projId in mins then mins[projId].values.Keys else {}) + {task, Totals}
      && (forall o, k :: k != Totals ==>
            Get(r, o, k) == if o == projId && k == task then Add(Get(mins, o, k), Pair(quoteMins, taskMins)) else Get(mins, o, k))
      && (task != Totals ==> Get(r, projId, Totals) == Add(Get(mins, projId, Totals), Pair(quoteMins, taskMins)))
  {
    AddTimeFrame(mins, projId, task, quoteMins, taskMins);
    forall o, k | k != Totals {
      AddTimeGet(mins, projId, task, quoteMins, taskMins, o, k);
    }
    if task != Totals {
      AddTimeGetTotals(mins, projId, task, quoteMins, taskMins, projId);
    }
  }

  /** updateTime at one entry other than "TOTALS": the pair is added there and nowhere else. */
  lemma AddTimeGet(mins: Minutes, projId: string, task: string, quoteMins: int, taskMins: int, o: string, k: string)
    requires k != Totals
    ensures Get(AddTime(mins, projId, task, quoteMins, taskMins), o, k)
         == if o == projId && k == task then Add(Get(mins, o, k), Pair(quoteMins, taskMins)) else Get(mins, o, k)
  {
  }

  /** updateTime at "TOTALS": the pair is added to its own project's total only. */
  lemma AddTimeGetTotals(mins: Minutes, projId: string, task: string, quoteMins: int, taskMins: int, o: string)
    requires task != Totals
    ensures Get(AddTime(mins, projId, task, quoteMins, taskMins), o, Totals)
         == if o == projId then Add(Get(mins, o, Totals), Pair(quoteMins, taskMins)) else Get(mins, o, Totals)
  {
  }

  /** The lazily created table satisfies the invariant, and an existing one is left alone. */
  lemma TouchKeepsTotals(mins: Minutes, projId: string)
    requires projId in mins ==> TotalsOk(mins[projId])
    ensures var r := Touched(mins, projId);
      && r.Keys == mins.Keys + {projId}
      && (forall o :: o in mins ==> r[o] == mins[o])
      && TotalsOk(r[projId]) && (projId !in mins ==> r[projId].order == [Totals])
  {
    if projId !in mins {
      var t := Put(Empty<Pair>(), Totals, Zero);
      PutValid(Empty<Pair>(), Totals, Zero);
      assert t.order == [Totals] && t.order[..0] == [];
    }
  }

  /** `{task: p, 'TOTALS': p}` with `task` other than "TOTALS" lists `task` first. */
  lemma FreshShape(task: string, p: Pair)
    requires task != Totals
    ensures Fresh(task, p) == Dict([task, Totals], map[task := p, Totals := p])
  {
    assert Put(Empty<Pair>(), task, p) == Dict([task], map[task := p]);
  }

  /** The sum of the tasks of `{task: p, 'TOTALS': p}` is `p`. */
  lemma SumOfFresh(task: string, p: Pair)
    requires task != Totals
    ensures SumOf([task, Totals], map[task := p, Totals := p]) == p
  {
    var v := map[task := p, Totals := p];
    assert [task, Totals][..1] == [task] && [task][..0] == [];
    assert SumOf([task], v) == Add(SumOf([], v), p);
  }

  /** The replacement table `{lt: [m, 0], 'TOTALS': [m, 0]}` satisfies the invariant. */
  lemma FreshKeepsTotals(task: string, p: Pair)
    requires task != Totals
    ensures TotalsOk(Fresh(task, p)) && Fresh(task, p).order == [task, Totals]
  {
    FreshShape(task, p);
    SumOfFresh(task, p);
  }

  /** The accumulator `allMins`, updated in place as the source updates its nested dictionary. */
  class AllMinutes {
    var projects: Minutes

    constructor ()
      ensures projects == map[]
    {
      projects := map[];
    }

    /** `updateTime(allMins, projId, task, quoteMins, taskMins)`. */
    method UpdateTime(projId: string, task: string, quoteMins: int, taskMins: int)
      modifies this
      ensures projects == AddTime(old(projects), projId, task, quoteMins, taskMins)
    {
      var p := Pair(quoteMins, taskMins);
      if projId in projects {
        var t := projects[projId];
        if task in t.values {
          t := Put(t, task, Add(t.values[task], p));
        } else {
          t := Put(t, task, p);
        }
        t := Bump(t, Totals, p);
        projects := projects[projId := t];
      } else {
        projects := projects[projId := Fresh(task, p)];
      }
    }

    /** The lazy creation of an opportunity's table, holding only a zero "TOTALS", when it is not yet present. */
    method Touch(projId: string)
      modifies this
      ensures projects == Touched(old(projects), projId)
    {
      if projId !in projects {
        projects := projects[projId := Put(Empty(), Totals, Zero)];
      }
    }

    /** The quote branch's replacement: the project's whole table becomes one labor type and its "TOTALS", both quoting `m`. */
    method Replace(projId: string, task: string, m: int)
      modifies this
      ensures projects == old(projects)[projId := Fresh(task, Pair(m, 0))]
    {
      projects := projects[projId := Fresh(task, Pair(m, 0))];
    }
  }
}
