/**
 * The documents the D-Tools cloud API returns and the local cache stores,
 * the report columns, and the cache keys and API paths built from the
 * source's constants.
 */
module Documents {

  /** A JSON scalar as it appears in an opportunity detail and in a CSV cell. */
  datatype Value = Null | Bool(b: bool) | Int(i: int) | Num(r: real) | Str(s: string)

  /** One `laborTypes` element: a labor category and its duration. */
  datatype LaborItem = LaborItem(name: string, totalTimeInSeconds: int)

  /** One element of the time-entry list. */
  datatype TimeEntry = TimeEntry(projectId: string, laborType: string, hoursWorkedInMinutes: int)

  /** One element of the opportunity list. */
  datatype OppSummary = OppSummary(id: string, stage: string)

  /** The opportunity (or, for a won opportunity, project) detail document. */
  datatype Detail = Detail(
    id: Value, clientName: Value, name: Value, stage: Value, priority: Value, price: Value,
    laborTypes: seq<LaborItem>, changeOrderIds: seq<string>, quoteIds: seq<string>)

  datatype ChangeOrder = ChangeOrder(state: string, laborTypes: seq<LaborItem>)

  datatype Quote = Quote(laborTypes: seq<LaborItem>)

  /** A document, as answered by the API or held in one cache file. */
  datatype Doc =
    | EntriesDoc(entries: seq<TimeEntry>)
    | OppListDoc(opps: seq<OppSummary>)
    | DetailDoc(detail: Detail)
    | ChangeOrderDoc(change: ChangeOrder)
    | QuoteDoc(quote: Quote)

  /** The five kinds of cached entity, each with its own "prefer cache" flag. */
  datatype Kind = HoursKind | OppListKind | DetailKind | ChangeKind | QuoteKind

  predicate OfKind(d: Doc, k: Kind) {
    match k
    case HoursKind => d.EntriesDoc?
    case OppListKind => d.OppListDoc?
    case DetailKind => d.DetailDoc?
    case ChangeKind => d.ChangeOrderDoc?
    case QuoteKind => d.QuoteDoc?
  }

  /** The selectable report columns, in the order the selection list shows them. */
  datatype Column =
    | JobId | ClientName | JobName | JobStage | JobPriority | JobPrice
    | LaborType | QuotedMinutes | WorkedMinutes

  /** The three columns that need the labor-minute accumulator. */
  predicate IsTimeColumn(c: Column) {
    c == LaborType || c == QuotedMinutes || c == WorkedMinutes
  }

  /** The detail field a scalar column reads. */
  function FieldOf(d: Detail, c: Column): Value
    requires !IsTimeColumn(c)
  {
    match c
    case JobId => d.id
    case ClientName => d.clientName
    case JobName => d.name
    case JobStage => d.stage
    case JobPriority => d.priority
    case JobPrice => d.price
  }

  /** Whether any time column is requested, which decides whether minutes are gathered at all. */
  predicate WantsTime(headers: seq<Column>) {
    LaborType in headers || QuotedMinutes in headers || WorkedMinutes in headers
  }

  /**
   * `int(seconds / 60)`: the quotient truncated toward zero, so a negative
   * duration rounds up, not down as Dafny's `/` would.
   */
  function ToMinutes(seconds: int): (m: int)
    ensures 0 <= seconds ==> 0 <= m * 60 <= seconds < m * 60 + 60
    ensures seconds < 0 ==> m * 60 - 60 < seconds <= m * 60 <= 0
  {
    if seconds >= 0 then seconds / 60 else -((-seconds) / 60)
  }

  const WonStage: string := "Opportunity Won"
  const AcceptedState: string := "Accepted"

  // Cache keys: one file per cached document, namespaced by entity kind.
  const HoursFile: string := "Dtools_All_Hours"
  const OppFile: string := "Dtools_Opps_List"
  const DetailsPath: string := "OpportunityDetails"
  const QuotesPath: string := "QuoteDetails"
  const ChangePath: string := "ChangeDetails"

  const HoursKey: string := HoursFile + ".txt"
  const OppKey: string := OppFile + ".txt"

  function DetailKey(id: string): string { DetailsPath + "/" + id + ".txt" }
  function ChangeKey(id: string): string { ChangePath + "/" + id + ".txt" }
  function QuoteKey(id: string): string { QuotesPath + "/" + id + ".txt" }

  /** The cache key of the document of kind `k` (the two snapshots have no id). */
  function KeyOf(k: Kind, id: string): string {
    match k
    case HoursKind => HoursKey
    case OppListKind => OppKey
    case DetailKind => DetailKey(id)
    case ChangeKind => ChangeKey(id)
    case QuoteKind => QuoteKey(id)
  }

  predicate HasId(k: Kind) { k == DetailKind || k == ChangeKind || k == QuoteKind }

  /** `prefix + "/" + id + ".txt"` determines `id` when `prefix` is fixed. */
  lemma {:induction false} PathIdInjective(prefix: string, a: string, b: string)
    requires prefix + "/" + a + ".txt" == prefix + "/" + b + ".txt"
    ensures a == b
  {
    var sa, sb := prefix + "/" + a + ".txt", prefix + "/" + b + ".txt";
    var n := |prefix| + 1;
    assert |a| == |b|;
    assert sa[n..n + |a|] == a;
    assert sb[n..n + |b|] == b;
  }

  /**
   * Keys of different kinds never collide, and within a kind that has ids the
   * key determines the id: a document is only ever read back under the key it
   * was written with.
   */
  lemma {:induction false} KeysAreNamespaced(k1: Kind, a: string, k2: Kind, b: string)
    requires KeyOf(k1, a) == KeyOf(k2, b)
    ensures k1 == k2
    ensures HasId(k1) ==> a == b
  {
    var s1, s2 := KeyOf(k1, a), KeyOf(k2, b);
    assert s1[0] == s2[0];
    if k1 == HoursKind || k1 == OppListKind {
      assert s1[0] == 'D';
      assert k2 == HoursKind || k2 == OppListKind;
      assert s1[7] == s2[7];
    } else {
      if k1 == DetailKind { PathIdInjective(DetailsPath, a, b); }
      else if k1 == ChangeKind { PathIdInjective(ChangePath, a, b); }
      else { PathIdInjective(QuotesPath, a, b); }
    }
  }

  // API paths, relative to the API base URL.
  const TimePath: string := "/TimeEntries/GetTimeEntries?page=1&pageSize=6000"
  const OppPath: string := "/Opportunities/GetOpportunities"
    + "?stages=New%20Sales%20Opportunity"
    + "&stages=Opportunity%20Won"
    + "&stages=Qualifying%20%26%20Consulting"
    + "&stages=Quote%20Development%20%28See%20Quote%20States%29"
    + "&stages=Negotiating%2C%20Reviews"
    + "&stages=On%20Hold&sort=Price%20DESC"
    + "&page=1"
    + "&pageSize=3000"

  /** A won opportunity's detail comes from the project endpoint, any other from the opportunity endpoint. */
  function DetailPath(o: OppSummary): string {
    if o.stage == WonStage then "/Projects/GetProject?id=" + o.id
    else "/Opportunities/GetOpportunity?id=" + o.id
  }

  function ChangeOrderPath(id: string): string { "/ChangeOrders/GetChangeOrder?id=" + id }
  function QuotePath(id: string): string { "/Quotes/GetQuote?id=" + id }
}
