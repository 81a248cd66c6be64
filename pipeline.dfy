/**
 * The report pipeline as functions: cache-first retrieval, time-entry
 * pre-aggregation, the won-project and best-quote branches, and row
 * expansion. The methods in module Compile are proved to compute these.
 */
module Pipeline {
  import opened Wrappers
  import opened Documents
  import opened OrderedDict
  import opened Accumulator
  import opened Quota

  /** The five "attempt to pull from file" check boxes. */
  datatype Flags = Flags(hours: bool, opps: bool, details: bool, quotes: bool, changes: bool)

  function UseCache(f: Flags, k: Kind): bool {
    match k
    case HoursKind => f.hours
    case OppListKind => f.opps
    case DetailKind => f.details
    case QuoteKind => f.quotes
    case ChangeKind => f.changes
  }

  /** What a run is given: the stored quota total, the network, the flags and the selected columns. */
  datatype Env = Env(storedTotal: int, respond: (nat, string) -> Option<Doc>, flags: Flags, headers: seq<Column>)

  /** The run's effect on the outside world: calls made so far and the cache files. */
  datatype Io = Io(pulls: nat, cache: map<string, Doc>)

  /** The run's state between opportunities: the outside world and the accumulator. */
  datatype State = State(io: Io, mins: Minutes)

  type Row = seq<Value>

  datatype Fetched = Fetched(doc: Option<Doc>, io: Io)

  /**
   * Cache-first retrieval of one document of kind `kind`: read the cache
   * when the kind's flag is set; on a miss call the API and write a
   * successful answer through to the cache under the same key.
   */
  function Fetch(env: Env, io: Io, kind: Kind, key: string, path: string): (r: Fetched)
    ensures r.doc.Some? ==> OfKind(r.doc.value, kind) && key in r.io.cache && r.io.cache[key] == r.doc.value
    ensures r.io.cache.Keys <= io.cache.Keys + {key}
  {
    if UseCache(env.flags, kind) && key in io.cache && OfKind(io.cache[key], kind) then
      Fetched(Some(io.cache[key]), io)
    else
      var p := Pull(env.storedTotal, io.pulls, env.respond, path);
      if p.response.Some? && OfKind(p.response.value, kind) then
        Fetched(p.response, Io(p.pulls, io.cache[key := p.response.value]))
      else
        Fetched(None, Io(p.pulls, io.cache))
  }

  /** The loop over the time entries: worked minutes per (project, labor type). */
  function AddEntries(mins: Minutes, es: seq<TimeEntry>): Minutes {
    if es == [] then mins
    else
      var e := es[|es| - 1];
      AddTime(AddEntries(mins, es[..|es| - 1]), e.projectId, e.laborType, 0, e.hoursWorkedInMinutes)
  }

  /** The loop over a document's `laborTypes`: quoted minutes per labor type. */
  function AddLabor(mins: Minutes, projId: string, lts: seq<LaborItem>): Minutes {
    if lts == [] then mins
    else
      var lt := lts[|lts| - 1];
      AddTime(AddLabor(mins, projId, lts[..|lts| - 1]), projId, lt.name, ToMinutes(lt.totalTimeInSeconds), 0)
  }

  /** One change order of a won project: fetched, and its labor added only when it is accepted. */
  function ApplyChange(env: Env, st: State, projId: string, changeId: string): State {
    var f := Fetch(env, st.io, ChangeKind, ChangeKey(changeId), ChangeOrderPath(changeId));
    if f.doc.Some? && f.doc.value.change.state == AcceptedState then
      State(f.io, AddLabor(st.mins, projId, f.doc.value.change.laborTypes))
    else
      State(f.io, st.mins)
  }

  /** The loop over `changeOrderIds`. */
  function ApplyChanges(env: Env, st: State, projId: string, ids: seq<string>): State {
    if ids == [] then st
    else ApplyChange(env, ApplyChanges(env, st, projId, ids[..|ids| - 1]), projId, ids[|ids| - 1])
  }

  /** `quoteMins`: a quote's total labor minutes. */
  function QuoteMinutes(lts: seq<LaborItem>): int {
    if lts == [] then 0
    else QuoteMinutes(lts[..|lts| - 1]) + ToMinutes(lts[|lts| - 1].totalTimeInSeconds)
  }

  /** `quoteLabor`: labor type -> minutes; a repeated labor type keeps its first place and its last minutes. */
  function QuoteLabor(lts: seq<LaborItem>): (d: Dict<int>)
    ensures Valid(d)
  {
    if lts == [] then Empty()
    else
      var lt := lts[|lts| - 1];
      Put(QuoteLabor(lts[..|lts| - 1]), lt.name, ToMinutes(lt.totalTimeInSeconds))
  }

  /** The best-quote search so far: `oppMinutes` and `oppLabor`. */
  datatype Scan = Scan(io: Io, best: int, labor: Dict<int>)

  /** One quote: fetched, and kept when its total is strictly greater than the best so far. */
  function ScanQuote(env: Env, s: Scan, quoteId: string): (r: Scan)
    requires Valid(s.labor)
    ensures Valid(r.labor)
  {
    var f := Fetch(env, s.io, QuoteKind, QuoteKey(quoteId), QuotePath(quoteId));
    if f.doc.Some? && QuoteMinutes(f.doc.value.quote.laborTypes) > s.best then
      Scan(f.io, QuoteMinutes(f.doc.value.quote.laborTypes), QuoteLabor(f.doc.value.quote.laborTypes))
    else
      Scan(f.io, s.best, s.labor)
  }

  /** The loop over `quoteIds`. */
  function ScanQuotes(env: Env, s: Scan, ids: seq<string>): (r: Scan)
    requires Valid(s.labor)
    ensures Valid(r.labor)
  {
    if ids == [] then s
    else ScanQuote(env, ScanQuotes(env, s, ids[..|ids| - 1]), ids[|ids| - 1])
  }

  /** The loop over `oppLabor`: each labor type in turn replaces the project's whole table. */
  function ReplaceAll(mins: Minutes, projId: string, order: seq<string>, values: map<string, int>): Minutes
    requires forall k :: k in order ==> k in values
  {
    if order == [] then mins
    else
      var k := order[|order| - 1];
      ReplaceAll(mins, projId, order[..|order| - 1], values)[projId := Fresh(k, Pair(values[k], 0))]
  }

  /**
   * The minutes of one opportunity whose detail was retrieved: a won project
   * adds its own labor and its accepted change orders; any other keeps the
   * labor of its best quote.
   */
  function LaborFor(env: Env, st: State, o: OppSummary, d: Detail): State {
    var mins := Touched(st.mins, o.id);
    if o.stage == WonStage then
      ApplyChanges(env, State(st.io, AddLabor(mins, o.id, d.laborTypes)), o.id, d.changeOrderIds)
    else
      var s := ScanQuotes(env, Scan(st.io, 0, Empty()), d.quoteIds);
      State(s.io, ReplaceAll(mins, o.id, s.labor.order, s.labor.values))
  }

  /** The detail fields of the selected non-time columns, in column order. */
  function ScalarPrefix(d: Detail, headers: seq<Column>): seq<Value> {
    if headers == [] then []
    else
      var c := headers[|headers| - 1];
      ScalarPrefix(d, headers[..|headers| - 1]) + if IsTimeColumn(c) then [] else [FieldOf(d, c)]
  }

  /** The quoted and worked cells, each only when its column is selected. */
  function MinuteCells(headers: seq<Column>, p: Pair): seq<Value> {
    (if QuotedMinutes in headers then [Int(p.quoted)] else [])
    + (if WorkedMinutes in headers then [Int(p.worked)] else [])
  }

  /** One row per task listed in `order`, "TOTALS" left out. */
  function LaborRows(prefix: seq<Value>, headers: seq<Column>, order: seq<string>, t: Table): seq<Row> {
    if order == [] then []
    else
      var k := order[|order| - 1];
      LaborRows(prefix, headers, order[..|order| - 1], t)
      + if k == Totals then [] else [prefix + [Str(k)] + MinuteCells(headers, At(t, k))]
  }

  /** The table of a project, empty when the project has none. */
  function TableOf(mins: Minutes, projId: string): Table {
    if projId in mins then mins[projId] else Empty()
  }

  /** The rows of one opportunity: one per task when "Labor Type" is selected, else one with the totals. */
  function RowsFor(prefix: seq<Value>, headers: seq<Column>, t: Table): seq<Row> {
    if LaborType in headers then LaborRows(prefix, headers, t.order, t)
    else [prefix + MinuteCells(headers, At(t, Totals))]
  }

  /** The state after one opportunity, and the rows it emits. */
  datatype Step = Step(st: State, rows: seq<Row>)

  /** One opportunity of the list; one whose detail cannot be retrieved is skipped without a row. */
  function ProcessOpp(env: Env, st: State, o: OppSummary): Step {
    var f := Fetch(env, st.io, DetailKind, DetailKey(o.id), DetailPath(o));
    if f.doc.None? then Step(State(f.io, st.mins), [])
    else
      var d := f.doc.value.detail;
      var st1 := if WantsTime(env.headers) then LaborFor(env, State(f.io, st.mins), o, d) else State(f.io, st.mins);
      Step(st1, RowsFor(ScalarPrefix(d, env.headers), env.headers, TableOf(st1.mins, o.id)))
  }

  /** The loop over the opportunity list. */
  function ProcessOpps(env: Env, st: State, opps: seq<OppSummary>): Step {
    if opps == [] then Step(st, [])
    else
      var prev := ProcessOpps(env, st, opps[..|opps| - 1]);
      var next := ProcessOpp(env, prev.st, opps[|opps| - 1]);
      Step(next.st, prev.rows + next.rows)
  }

  /** How a run ends: completed, or aborted because one of the two lists could not be had. */
  datatype Outcome = Completed | NoTimeEntries | NoOpportunityList

  datatype Report = Report(outcome: Outcome, io: Io, rows: seq<Row>)

  /** From the opportunity list on, given the accumulated worked minutes. */
  function RunOpps(env: Env, st: State): Report {
    var f := Fetch(env, st.io, OppListKind, OppKey, OppPath);
    if f.doc.None? then Report(NoOpportunityList, f.io, [])
    else
      var s := ProcessOpps(env, State(f.io, st.mins), f.doc.value.opps);
      Report(Completed, s.st.io, s.rows)
  }

  /** compileData: time entries (only when a time column is selected), then the opportunities. */
  function Run(env: Env, io: Io): Report {
    if WantsTime(env.headers) then
      var f := Fetch(env, io, HoursKind, HoursKey, TimePath);
      if f.doc.None? then Report(NoTimeEntries, f.io, [])
      else RunOpps(env, State(f.io, AddEntries(map[], f.doc.value.entries)))
    else
      RunOpps(env, State(io, map[]))
  }
}
