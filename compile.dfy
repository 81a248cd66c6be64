/**
 * compileData as imperative code over the client object and the
 * accumulator object, each loop proved to compute the matching function of
 * module Pipeline.
 */
module Compile {
  import opened Wrappers
  import opened Documents
  import opened OrderedDict
  import opened Accumulator
  import opened Quota
  import opened Pipeline

  /** `env` describes `api`: its stored daily total and its network. */
  ghost predicate Serves(api: DtoolsApi, env: Env)
    reads api
  {
    env.storedTotal == api.apiDetails.totalCalls && env.respond == api.respond
  }

  /** Read the cache when the kind's flag is set; on a miss call the API and write a success through. */
  method CachedFetch(api: DtoolsApi, env: Env, kind: Kind, key: string, path: string, cache: map<string, Doc>)
    returns (doc: Option<Doc>, newCache: map<string, Doc>)
    requires Serves(api, env)
    modifies api`apiPulls
    ensures Fetch(env, Io(old(api.apiPulls), cache), kind, key, path) == Fetched(doc, Io(api.apiPulls, newCache))
  {
    doc := None;
    newCache := cache;
    if UseCache(env.flags, kind) && key in cache && OfKind(cache[key], kind) {
      doc := Some(cache[key]);
    }
    if doc.None? {
      var data := api.PullData(path);
      if data.Some? && OfKind(data.value, kind) {
        doc := data;
        newCache := cache[key := data.value];
      }
    }
  }

  /** The loop over the time entries: each adds its worked minutes to its project and labor type. */
  method AddTimeEntries(acc: AllMinutes, es: seq<TimeEntry>)
    modifies acc
    ensures acc.projects == AddEntries(old(acc.projects), es)
  {
    for i := 0 to |es|
      invariant acc.projects == AddEntries(old(acc.projects), es[..i])
    {
      acc.UpdateTime(es[i].projectId, es[i].laborType, 0, es[i].hoursWorkedInMinutes);
      assert es[..i + 1][..i] == es[..i];
    }
    assert es[..|es|] == es;
  }

  /** The loop over `laborTypes`: each adds its truncated minutes as quoted minutes. */
  method AddLaborTypes(acc: AllMinutes, projId: string, lts: seq<LaborItem>)
    modifies acc
    ensures acc.projects == AddLabor(old(acc.projects), projId, lts)
  {
    for i := 0 to |lts|
      invariant acc.projects == AddLabor(old(acc.projects), projId, lts[..i])
    {
      acc.UpdateTime(projId, lts[i].name, ToMinutes(lts[i].totalTimeInSeconds), 0);
      assert lts[..i + 1][..i] == lts[..i];
    }
    assert lts[..|lts|] == lts;
  }

  /** The loop over a won project's change orders; a failed fetch skips that change order only. */
  method ApplyChangeOrders(api: DtoolsApi, env: Env, acc: AllMinutes, projId: string, ids: seq<string>, cache: map<string, Doc>)
    returns (newCache: map<string, Doc>)
    requires Serves(api, env)
    modifies api`apiPulls, acc
    ensures ApplyChanges(env, State(Io(old(api.apiPulls), cache), old(acc.projects)), projId, ids)
         == State(Io(api.apiPulls, newCache), acc.projects)
  {
    newCache := cache;
    for i := 0 to |ids|
      invariant Serves(api, env)
      invariant ApplyChanges(env, State(Io(old(api.apiPulls), cache), old(acc.projects)), projId, ids[..i])
             == State(Io(api.apiPulls, newCache), acc.projects)
    {
      var changeId := ids[i];
      var change;
      change, newCache := CachedFetch(api, env, ChangeKind, ChangeKey(changeId), ChangeOrderPath(changeId), newCache);
      if change.Some? && change.value.change.state == AcceptedState {
        AddLaborTypes(acc, projId, change.value.change.laborTypes);
      }
      assert ids[..i + 1][..i] == ids[..i];
    }
    assert ids[..|ids|] == ids;
  }

  /** The loop over an opportunity's quotes, keeping the first one with the strictly greatest total. */
  method ScanQuoteList(api: DtoolsApi, env: Env, ids: seq<string>, cache: map<string, Doc>)
    returns (oppMinutes: int, oppLabor: Dict<int>, newCache: map<string, Doc>)
    requires Serves(api, env)
    modifies api`apiPulls
    ensures ScanQuotes(env, Scan(Io(old(api.apiPulls), cache), 0, Empty()), ids)
         == Scan(Io(api.apiPulls, newCache), oppMinutes, oppLabor)
  {
    oppMinutes, oppLabor, newCache := 0, Empty(), cache;
    for i := 0 to |ids|
      invariant Serves(api, env)
      invariant ScanQuotes(env, Scan(Io(old(api.apiPulls), cache), 0, Empty()), ids[..i])
             == Scan(Io(api.apiPulls, newCache), oppMinutes, oppLabor)
    {
      var quoteId := ids[i];
      var quote;
      quote, newCache := CachedFetch(api, env, QuoteKind, QuoteKey(quoteId), QuotePath(quoteId), newCache);
      if quote.Some? {
        var quoteMins := QuoteMinutes(quote.value.quote.laborTypes);
        if quoteMins > oppMinutes {
          oppMinutes := quoteMins;
          oppLabor := QuoteLabor(quote.value.quote.laborTypes);
        }
      }
      assert ids[..i + 1][..i] == ids[..i];
    }
    assert ids[..|ids|] == ids;
  }

  /** The loop over `oppLabor`: each labor type replaces the project's whole table. */
  method ReplaceLabor(acc: AllMinutes, projId: string, labor: Dict<int>)
    requires Valid(labor)
    modifies acc
    ensures acc.projects == ReplaceAll(old(acc.projects), projId, labor.order, labor.values)
  {
    for i := 0 to |labor.order|
      invariant acc.projects == ReplaceAll(old(acc.projects), projId, labor.order[..i], labor.values)
    {
      var k := labor.order[i];
      acc.Replace(projId, k, labor.values[k]);
      assert labor.order[..i + 1][..i] == labor.order[..i];
    }
    assert labor.order[..|labor.order|] == labor.order;
  }

  /** The minutes of one retrieved opportunity: lazy creation, then the won or the quote branch. */
  method GatherMinutes(api: DtoolsApi, env: Env, acc: AllMinutes, o: OppSummary, d: Detail, cache: map<string, Doc>)
    returns (newCache: map<string, Doc>)
    requires Serves(api, env)
    modifies api`apiPulls, acc
    ensures LaborFor(env, State(Io(old(api.apiPulls), cache), old(acc.projects)), o, d)
         == State(Io(api.apiPulls, newCache), acc.projects)
  {
    acc.Touch(o.id);
    if o.stage == WonStage {
      AddLaborTypes(acc, o.id, d.laborTypes);
      newCache := ApplyChangeOrders(api, env, acc, o.id, d.changeOrderIds, cache);
    } else {
      var oppMinutes, oppLabor;
      oppMinutes, oppLabor, newCache := ScanQuoteList(api, env, d.quoteIds, cache);
      ReplaceLabor(acc, o.id, oppLabor);
    }
  }

  /** The rows of one opportunity, from its scalar prefix and its minute table. */
  method EmitRows(csvData: seq<Value>, headers: seq<Column>, t: Table) returns (rows: seq<Row>)
    ensures rows == RowsFor(csvData, headers, t)
  {
    if LaborType in headers {
      rows := [];
      for i := 0 to |t.order|
        invariant rows == LaborRows(csvData, headers, t.order[..i], t)
      {
        var laborType := t.order[i];
        if laborType != Totals {
          var temp := csvData + [Str(laborType)];
          if QuotedMinutes in headers {
            temp := temp + [Int(At(t, laborType).quoted)];
          }
          if WorkedMinutes in headers {
            temp := temp + [Int(At(t, laborType).worked)];
          }
          assert temp == csvData + [Str(laborType)] + MinuteCells(headers, At(t, laborType));
          rows := rows + [temp];
        }
        assert t.order[..i + 1][..i] == t.order[..i];
      }
      assert t.order[..|t.order|] == t.order;
    } else {
      var row := csvData;
      if QuotedMinutes in headers {
        row := row + [Int(At(t, Totals).quoted)];
      }
      if WorkedMinutes in headers {
        row := row + [Int(At(t, Totals).worked)];
      }
      assert row == csvData + MinuteCells(headers, At(t, Totals));
      rows := [row];
    }
  }

  /** The body of the loop over the opportunity list. */
  method ProcessOpportunity(api: DtoolsApi, env: Env, acc: AllMinutes, o: OppSummary, cache: map<string, Doc>)
    returns (rows: seq<Row>, newCache: map<string, Doc>)
    requires Serves(api, env)
    modifies api`apiPulls, acc
    ensures ProcessOpp(env, State(Io(old(api.apiPulls), cache), old(acc.projects)), o)
         == Step(State(Io(api.apiPulls, newCache), acc.projects), rows)
  {
    var details;
    details, newCache := CachedFetch(api, env, DetailKind, DetailKey(o.id), DetailPath(o), cache);
    if details.None? {
      rows := [];
      return;
    }
    var d := details.value.detail;
    var csvData := ScalarPrefix(d, env.headers);
    if WantsTime(env.headers) {
      newCache := GatherMinutes(api, env, acc, o, d, newCache);
    }
    rows := EmitRows(csvData, env.headers, TableOf(acc.projects, o.id));
  }

  /** One more opportunity: the loop's state and rows extend by what that opportunity does. */
  lemma ProcessOppsPrefix(env: Env, st: State, opps: seq<OppSummary>, i: nat)
    requires i < |opps|
    ensures var prev := ProcessOpps(env, st, opps[..i]);
      var next := ProcessOpp(env, prev.st, opps[i]);
      ProcessOpps(env, st, opps[..i + 1]) == Step(next.st, prev.rows + next.rows)
  {
    assert opps[..i + 1][..i] == opps[..i];
  }

  /** The loop over the opportunity list: each opportunity's rows, in list order. */
  method ProcessOpportunities(api: DtoolsApi, env: Env, acc: AllMinutes, opps: seq<OppSummary>, cache: map<string, Doc>)
    returns (rows: seq<Row>, newCache: map<string, Doc>)
    requires Serves(api, env)
    modifies api`apiPulls, acc
    ensures ProcessOpps(env, State(Io(old(api.apiPulls), cache), old(acc.projects)), opps)
         == Step(State(Io(api.apiPulls, newCache), acc.projects), rows)
  {
    ghost var start := State(Io(api.apiPulls, cache), acc.projects);
    newCache, rows := cache, [];
    for i := 0 to |opps|
      invariant Serves(api, env)
      invariant ProcessOpps(env, start, opps[..i]) == Step(State(Io(api.apiPulls, newCache), acc.projects), rows)
    {
      var oppRows;
      oppRows, newCache := ProcessOpportunity(api, env, acc, opps[i], newCache);
      ProcessOppsPrefix(env, start, opps, i);
      rows := rows + oppRows;
    }
    assert opps[..|opps|] == opps;
  }

  /**
   * compileData: returns how the run ended, the rows it appended to the
   * report and the cache afterwards; an abort sets the client's error flag to 1.
   */
  method CompileData(api: DtoolsApi, flags: Flags, headers: seq<Column>, cache0: map<string, Doc>)
    returns (outcome: Outcome, rows: seq<Row>, cache: map<string, Doc>)
    modifies api`apiPulls, api`errState
    ensures Run(Env(api.apiDetails.totalCalls, api.respond, flags, headers), Io(old(api.apiPulls), cache0))
         == Report(outcome, Io(api.apiPulls, cache), rows)
    ensures api.errState == if outcome == Completed then old(api.errState) else 1
  {
    var env := Env(api.apiDetails.totalCalls, api.respond, flags, headers);
    var acc := new AllMinutes();
    cache, rows := cache0, [];
    if WantsTime(headers) {
      var entries;
      entries, cache := CachedFetch(api, env, HoursKind, HoursKey, TimePath, cache);
      if entries.None? {
        api.SetError(1);
        outcome := NoTimeEntries;
        return;
      }
      AddTimeEntries(acc, entries.value.entries);
    }
    var oppDoc;
    oppDoc, cache := CachedFetch(api, env, OppListKind, OppKey, OppPath, cache);
    if oppDoc.None? {
      api.SetError(1);
      outcome := NoOpportunityList;
      return;
    }
    rows, cache := ProcessOpportunities(api, env, acc, oppDoc.value.opps, cache);
    outcome := Completed;
  }
}
