/**
 * What the quote branch keeps for an opportunity that is not won: the
 * labor of the first retrieved quote with the largest total, and of that
 * only the last labor type, since each labor type replaces the project's
 * whole table in turn.
 */
module QuoteChoice {
  import opened Documents
  import opened OrderedDict
  import opened Accumulator
  import opened Pipeline

  /** The cache and call count after the quote loop (they do not depend on the quotes' minutes). */
  function QuotesIo(env: Env, io: Io, ids: seq<string>): Io {
    if ids == [] then io
    else
      var id := ids[|ids| - 1];
      Fetch(env, QuotesIo(env, io, ids[..|ids| - 1]), QuoteKind, QuoteKey(id), QuotePath(id)).io
  }

  /** The quotes the loop managed to retrieve, in order; the others are skipped. */
  function FetchedQuotes(env: Env, io: Io, ids: seq<string>): seq<Quote> {
    if ids == [] then []
    else
      var id := ids[|ids| - 1];
      var f := Fetch(env, QuotesIo(env, io, ids[..|ids| - 1]), QuoteKind, QuoteKey(id), QuotePath(id));
      FetchedQuotes(env, io, ids[..|ids| - 1]) + if f.doc.Some? then [f.doc.value.quote] else []
  }

  /** The best quote so far: its total minutes and its labor. */
  datatype Best = Best(minutes: int, labor: Dict<int>)

  /** The selection over a list of quotes: a later quote wins only with a strictly larger total. */
  function Choose(b: Best, qs: seq<Quote>): (r: Best)
    requires Valid(b.labor)
    ensures Valid(r.labor)
  {
    if qs == [] then b
    else
      var prev := Choose(b, qs[..|qs| - 1]);
      var q := qs[|qs| - 1];
      if QuoteMinutes(q.laborTypes) > prev.minutes then Best(QuoteMinutes(q.laborTypes), QuoteLabor(q.laborTypes))
      else prev
  }

  /** The quote loop is the selection over the quotes it retrieved. */
  lemma {:induction false} ScanQuotesIsChoice(env: Env, s: Scan, ids: seq<string>)
    requires Valid(s.labor)
    ensures ScanQuotes(env, s, ids).io == QuotesIo(env, s.io, ids)
    ensures ScanQuotes(env, s, ids).best == Choose(Best(s.best, s.labor), FetchedQuotes(env, s.io, ids)).minutes
    ensures ScanQuotes(env, s, ids).labor == Choose(Best(s.best, s.labor), FetchedQuotes(env, s.io, ids)).labor
  {
    if ids != [] {
      var pre := ids[..|ids| - 1];
      ScanQuotesIsChoice(env, s, pre);
      var qs := FetchedQuotes(env, s.io, pre);
      var f := Fetch(env, QuotesIo(env, s.io, pre), QuoteKind, QuoteKey(ids[|ids| - 1]), QuotePath(ids[|ids| - 1]));
      if f.doc.Some? {
        assert (qs + [f.doc.value.quote])[..|qs|] == qs;
      } else {
        assert qs + [] == qs;
      }
    }
  }

  /** The labor types named in a quote's labor dictionary are exactly the names of its items. */
  lemma {:induction false} QuoteLaborKeys(lts: seq<LaborItem>)
    ensures forall k :: k in QuoteLabor(lts).values <==> exists i :: 0 <= i < |lts| && lts[i].name == k
  {
    if lts != [] {
      var pre := lts[..|lts| - 1];
      QuoteLaborKeys(pre);
      forall k ensures k in QuoteLabor(lts).values <==> exists i :: 0 <= i < |lts| && lts[i].name == k {
        if k in QuoteLabor(pre).values {
          var i :| 0 <= i < |pre| && pre[i].name == k;
          assert lts[i] == pre[i];
        }
        if exists i :: 0 <= i < |lts| && lts[i].name == k {
          var i :| 0 <= i < |lts| && lts[i].name == k;
          if i < |pre| {
            assert pre[i] == lts[i];
          }
        }
      }
    }
  }

  /** A labor type's minutes in the dictionary are those of the last item with that name. */
  lemma {:induction false} QuoteLaborLastWins(lts: seq<LaborItem>, i: nat)
    requires i < |lts|
    requires forall j :: i < j < |lts| ==> lts[j].name != lts[i].name
    ensures lts[i].name in QuoteLabor(lts).values
    ensures QuoteLabor(lts).values[lts[i].name] == ToMinutes(lts[i].totalTimeInSeconds)
  {
    var pre := lts[..|lts| - 1];
    if i < |pre| {
      assert forall j :: i < j < |pre| ==> pre[j] == lts[j];
      QuoteLaborLastWins(pre, i);
      assert pre[i] == lts[i];
    }
  }

  /**
   * `o` lists names in the order of their first occurrence among `lts`:
   * wherever a later-listed name occurs, every earlier-listed name has
   * already occurred before it.
   */
  ghost predicate FirstOrdered(o: seq<string>, lts: seq<LaborItem>) {
    forall p, q, i :: 0 <= p < q < |o| && 0 <= i < |lts| && lts[i].name == o[q] ==>
      exists j :: 0 <= j < i && lts[j].name == o[p]
  }

  lemma FirstOrderedAt(o: seq<string>, lts: seq<LaborItem>, p: nat, q: nat, i: nat)
    requires FirstOrdered(o, lts)
    requires p < q < |o| && i < |lts| && lts[i].name == o[q]
    ensures exists j :: 0 <= j < i && lts[j].name == o[p]
  {
    var name := o[p];
    assert lts[i].name == o[q];
  }

  /** One index triple of the step below: an earlier-listed name occurs before item `i`. */
  lemma FirstOrderedPutAt(d: Dict<int>, lts: seq<LaborItem>, v: int, p: nat, q: nat, i: nat)
    requires lts != [] && Valid(d) && FirstOrdered(d.order, lts[..|lts| - 1])
    requires forall k :: k in d.values <==> exists j :: 0 <= j < |lts| - 1 && lts[j].name == k
    requires var o := Put(d, lts[|lts| - 1].name, v).order;
      p < q < |o| && i < |lts| && lts[i].name == o[q]
    ensures exists j :: 0 <= j < i && lts[j].name == Put(d, lts[|lts| - 1].name, v).order[p]
  {
    var pre := lts[..|lts| - 1];
    var o := Put(d, lts[|lts| - 1].name, v).order;
    assert p < |d.order| && o[p] == d.order[p];
    assert o[p] in d.values;
    if i == |pre| {
      var j :| 0 <= j < |lts| - 1 && lts[j].name == o[p];
    } else {
      assert lts[i] == pre[i];
      assert lts[i].name in d.values;
      assert q < |d.order| && o[q] == d.order[q];
      FirstOrderedAt(d.order, pre, p, q, i);
      var j :| 0 <= j < i && pre[j].name == d.order[p];
      assert lts[j] == pre[j];
    }
  }

  /** Assigning the next item's name keeps a first-occurrence order of the items so far. */
  lemma FirstOrderedPut(d: Dict<int>, lts: seq<LaborItem>, v: int)
    requires lts != [] && Valid(d) && FirstOrdered(d.order, lts[..|lts| - 1])
    requires forall k :: k in d.values <==> exists j :: 0 <= j < |lts| - 1 && lts[j].name == k
    ensures FirstOrdered(Put(d, lts[|lts| - 1].name, v).order, lts)
  {
    var o := Put(d, lts[|lts| - 1].name, v).order;
    forall p, q, i | 0 <= p < q < |o| && 0 <= i < |lts| && lts[i].name == o[q]
      ensures exists j :: 0 <= j < i && lts[j].name == o[p]
    {
      FirstOrderedPutAt(d, lts, v, p, q, i);
    }
    assert FirstOrdered(o, lts);
  }

  /** The dictionary lists its labor types in the order of their first occurrence among the items. */
  lemma {:induction false} QuoteLaborFirstOrder(lts: seq<LaborItem>)
    ensures FirstOrdered(QuoteLabor(lts).order, lts)
  {
    if lts != [] {
      var pre := lts[..|lts| - 1];
      var x := lts[|lts| - 1];
      QuoteLaborFirstOrder(pre);
      QuoteLaborKeys(pre);
      assert forall j :: 0 <= j < |pre| ==> pre[j] == lts[j];
      FirstOrderedPut(QuoteLabor(pre), lts, ToMinutes(x.totalTimeInSeconds));
    }
  }

  /** Assigning a new name after names listed in item order keeps them listed in item order. */
  lemma DistinctPut(d: Dict<int>, pre: seq<LaborItem>, x: LaborItem, v: int)
    requires x.name !in d.values
    requires |d.order| == |pre| && forall i :: 0 <= i < |pre| ==> d.order[i] == pre[i].name
    ensures |Put(d, x.name, v).order| == |pre| + 1
    ensures forall i :: 0 <= i < |pre| + 1 ==> Put(d, x.name, v).order[i] == (pre + [x])[i].name
  {
  }

  /** With distinct names, the dictionary lists the items' names in item order, so its last key is the last item's. */
  lemma {:induction false} QuoteLaborDistinct(lts: seq<LaborItem>)
    requires forall i, j :: 0 <= i < j < |lts| ==> lts[i].name != lts[j].name
    ensures |QuoteLabor(lts).order| == |lts|
    ensures forall i :: 0 <= i < |lts| ==> QuoteLabor(lts).order[i] == lts[i].name
  {
    if lts != [] {
      var pre := lts[..|lts| - 1];
      var x := lts[|lts| - 1];
      assert lts == pre + [x];
      QuoteLaborDistinct(pre);
      QuoteLaborKeys(pre);
      assert x.name !in QuoteLabor(pre).values by {
        forall i | 0 <= i < |pre| ensures pre[i].name != x.name {
          assert pre[i] == lts[i];
        }
      }
      DistinctPut(QuoteLabor(pre), pre, x, ToMinutes(x.totalTimeInSeconds));
    }
  }

  /**
   * The kept total is at least the starting best and every quote's total, and
   * the starting labor survives unless some quote beats the starting total.
   */
  lemma {:induction false} ChooseIsMaximum(b: Best, qs: seq<Quote>)
    requires Valid(b.labor)
    ensures b.minutes <= Choose(b, qs).minutes
    ensures forall j :: 0 <= j < |qs| ==> QuoteMinutes(qs[j].laborTypes) <= Choose(b, qs).minutes
    ensures Choose(b, qs).minutes == b.minutes ==> Choose(b, qs).labor == b.labor
  {
    if qs != [] {
      var n := |qs|;
      var pre := qs[..n - 1];
      ChooseIsMaximum(b, pre);
      assert forall j :: 0 <= j < n - 1 ==> qs[j] == pre[j];
    }
  }

  /**
   * When the kept total differs from the starting one, the kept labor is that
   * of the first quote reaching the kept total: every earlier quote is
   * strictly smaller, so ties go to the earlier quote.
   */
  lemma {:induction false} ChooseIsFirstMaximum(b: Best, qs: seq<Quote>)
    requires Valid(b.labor)
    ensures var r := Choose(b, qs);
      r.minutes != b.minutes ==>
        exists j :: 0 <= j < |qs| && QuoteMinutes(qs[j].laborTypes) == r.minutes
          && r.labor == QuoteLabor(qs[j].laborTypes)
          && forall i :: 0 <= i < j ==> QuoteMinutes(qs[i].laborTypes) < r.minutes
  {
    if qs != [] {
      var n := |qs|;
      var pre := qs[..n - 1];
      var prev := Choose(b, pre);
      ChooseIsMaximum(b, pre);
      var m := QuoteMinutes(qs[n - 1].laborTypes);
      if m > prev.minutes {
        assert forall i :: 0 <= i < n - 1 ==> qs[i] == pre[i];
        assert forall i :: 0 <= i < n - 1 ==> QuoteMinutes(qs[i].laborTypes) < m;
      } else if prev.minutes != b.minutes {
        ChooseIsFirstMaximum(b, pre);
        var j :| 0 <= j < n - 1 && QuoteMinutes(pre[j].laborTypes) == prev.minutes
          && prev.labor == QuoteLabor(pre[j].laborTypes)
          && forall i :: 0 <= i < j ==> QuoteMinutes(pre[i].laborTypes) < prev.minutes;
        assert forall i :: 0 <= i <= j ==> qs[i] == pre[i];
      }
    }
  }

  /** The project's table holds only what the last labor type of the loop put there. */
  lemma {:induction false} ReplaceAllKeepsLast(mins: Minutes, projId: string, order: seq<string>, values: map<string, int>)
    requires forall k :: k in order ==> k in values
    ensures order == [] ==> ReplaceAll(mins, projId, order, values) == mins
    ensures order != [] ==>
      var k := order[|order| - 1];
      ReplaceAll(mins, projId, order, values) == mins[projId := Fresh(k, Pair(values[k], 0))]
  {
    if order != [] {
      ReplaceAllKeepsLast(mins, projId, order[..|order| - 1], values);
    }
  }

  /** Replacing after the lazy creation: the creation only survives when there is no labor to replace with. */
  lemma ReplaceAfterTouch(mins: Minutes, projId: string, c: Dict<int>)
    requires Valid(c)
    ensures c.order == [] ==> ReplaceAll(Touched(mins, projId), projId, c.order, c.values) == Touched(mins, projId)
    ensures c.order != [] ==>
      var lt := c.order[|c.order| - 1];
      ReplaceAll(Touched(mins, projId), projId, c.order, c.values) == mins[projId := Fresh(lt, Pair(c.values[lt], 0))]
  {
    var m := Touched(mins, projId);
    ReplaceAllKeepsLast(m, projId, c.order, c.values);
    if c.order != [] {
      var lt := c.order[|c.order| - 1];
      var t := Fresh(lt, Pair(c.values[lt], 0));
      assert m[projId := t] == mins[projId := t];
    }
  }

  /** The quote branch, in terms of the selection over the retrieved quotes. */
  lemma NonWonIsChoice(env: Env, st: State, o: OppSummary, d: Detail)
    requires o.stage != WonStage
    ensures var c := Choose(Best(0, Empty()), FetchedQuotes(env, st.io, d.quoteIds)).labor;
      LaborFor(env, st, o, d) == State(QuotesIo(env, st.io, d.quoteIds), ReplaceAll(Touched(st.mins, o.id), o.id, c.order, c.values))
  {
    ScanQuotesIsChoice(env, Scan(st.io, 0, Empty()), d.quoteIds);
  }

  /**
   * An opportunity that is not won: with `c` the chosen quote's labor, the
   * project is only created lazily when `c` is empty, and otherwise its
   * table becomes `{lt: [m, 0], 'TOTALS': [m, 0]}` for the last labor type
   * `lt` of `c`, whatever the project held before.
   */
  lemma NonWonMinutes(env: Env, st: State, o: OppSummary, d: Detail)
    requires o.stage != WonStage
    ensures var c := Choose(Best(0, Empty()), FetchedQuotes(env, st.io, d.quoteIds)).labor;
      var r := LaborFor(env, st, o, d);
      && (c.order == [] ==> r.mins == Touched(st.mins, o.id))
      && (c.order != [] ==>
            var lt := c.order[|c.order| - 1];
            r.mins == st.mins[o.id := Fresh(lt, Pair(c.values[lt], 0))])
  {
    var c := Choose(Best(0, Empty()), FetchedQuotes(env, st.io, d.quoteIds)).labor;
    NonWonIsChoice(env, st, o, d);
    ReplaceAfterTouch(st.mins, o.id, c);
  }

  /** When no retrieved quote has a positive total, the project is only created lazily. */
  lemma NonWonWithoutPositiveQuote(env: Env, st: State, o: OppSummary, d: Detail)
    requires o.stage != WonStage
    requires var qs := FetchedQuotes(env, st.io, d.quoteIds); forall i :: 0 <= i < |qs| ==> QuoteMinutes(qs[i].laborTypes) <= 0
    ensures LaborFor(env, st, o, d).mins == Touched(st.mins, o.id)
  {
    ChooseIsMaximum(Best(0, Empty()), FetchedQuotes(env, st.io, d.quoteIds));
    ChooseIsFirstMaximum(Best(0, Empty()), FetchedQuotes(env, st.io, d.quoteIds));
    NonWonMinutes(env, st, o, d);
  }

  /** Once a quote with labor is chosen, no task of the project keeps any worked minutes. */
  lemma NonWonDropsWorked(env: Env, st: State, o: OppSummary, d: Detail, task: string)
    requires o.stage != WonStage
    requires Choose(Best(0, Empty()), FetchedQuotes(env, st.io, d.quoteIds)).labor.order != []
    ensures Get(LaborFor(env, st, o, d).mins, o.id, task).worked == 0
  {
    NonWonMinutes(env, st, o, d);
  }

  /**
   * When the kept labor is that of a retrieved quote whose items have
   * distinct names, the opportunity's table ends as its last item alone,
   * quoting that item's minutes.
   */
  lemma NonWonLastItem(env: Env, st: State, o: OppSummary, d: Detail, j: nat)
    requires o.stage != WonStage
    requires j < |FetchedQuotes(env, st.io, d.quoteIds)|
    requires Choose(Best(0, Empty()), FetchedQuotes(env, st.io, d.quoteIds)).labor
          == QuoteLabor(FetchedQuotes(env, st.io, d.quoteIds)[j].laborTypes)
    requires FetchedQuotes(env, st.io, d.quoteIds)[j].laborTypes != []
    requires var lts := FetchedQuotes(env, st.io, d.quoteIds)[j].laborTypes;
      forall a, b :: 0 <= a < b < |lts| ==> lts[a].name != lts[b].name
    ensures var lts := FetchedQuotes(env, st.io, d.quoteIds)[j].laborTypes;
      var it := lts[|lts| - 1];
      LaborFor(env, st, o, d).mins == st.mins[o.id := Fresh(it.name, Pair(ToMinutes(it.totalTimeInSeconds), 0))]
  {
    var lts := FetchedQuotes(env, st.io, d.quoteIds)[j].laborTypes;
    NonWonMinutes(env, st, o, d);
    QuoteLaborDistinct(lts);
    QuoteLaborLastWins(lts, |lts| - 1);
  }
}
