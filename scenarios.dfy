/**
 * Two small runs worked through: a won project with one labor item and no
 * time entries, and the choice between two quotes.
 */
module Scenarios {
  import opened Wrappers
  import opened Documents
  import opened OrderedDict
  import opened Accumulator
  import opened Pipeline
  import opened QuoteChoice

  /** The won opportunity "1" with one hour of "Install" and no change orders. */
  function InstallDetail(): Detail {
    Detail(Int(1), Str("Client"), Str("Job"), Str(WonStage), Null, Null, [LaborItem("Install", 3600)], [], [])
  }

  /** The table of the won project: "TOTALS" first (created lazily), then one hour of "Install". */
  lemma InstallMinutes()
    ensures var m := AddLabor(Touched(map[], "1"), "1", InstallDetail().laborTypes);
      && "1" in m && m["1"].order == [Totals, "Install"]
      && At(m["1"], "Install") == Pair(60, 0)
  {
    var lts := InstallDetail().laborTypes;
    assert lts[..0] == [];
    assert ToMinutes(3600) == 60;
  }

  /** The scalar prefix of the three columns is the job id alone. */
  lemma InstallPrefix()
    ensures ScalarPrefix(InstallDetail(), [JobId, LaborType, WorkedMinutes]) == [Int(1)]
  {
    var d := InstallDetail();
    assert [JobId][..0] == [];
    assert ScalarPrefix(d, [JobId]) == [Int(1)];
    assert [JobId, LaborType][..1] == [JobId];
    assert ScalarPrefix(d, [JobId, LaborType]) == [Int(1)];
    assert [JobId, LaborType, WorkedMinutes][..2] == [JobId, LaborType];
  }

  /** The rows of that table: "TOTALS" is left out, "Install" gives one row. */
  lemma InstallRows(t: Table)
    requires t.order == [Totals, "Install"] && At(t, "Install") == Pair(60, 0)
    ensures RowsFor([Int(1)], [JobId, LaborType, WorkedMinutes], t) == [[Int(1), Str("Install"), Int(0)]]
  {
    var h := [JobId, LaborType, WorkedMinutes];
    assert [Totals][..0] == [];
    assert LaborRows([Int(1)], h, [Totals], t) == [];
    assert t.order[..1] == [Totals];
    assert MinuteCells(h, Pair(60, 0)) == [Int(0)];
    assert LaborRows([Int(1)], h, t.order, t) == [[Int(1)] + [Str("Install")] + [Int(0)]];
    assert h[1] == LaborType;
    assert [Int(1)] + [Str("Install")] + [Int(0)] == [Int(1), Str("Install"), Int(0)];
  }

  /** With the detail cached, the opportunity reads it without a call and gathers its own labor only. */
  lemma InstallStep(env: Env, io: Io)
    requires env.flags.details && WantsTime(env.headers)
    requires DetailKey("1") in io.cache && io.cache[DetailKey("1")] == DetailDoc(InstallDetail())
    ensures var m := AddLabor(Touched(map[], "1"), "1", InstallDetail().laborTypes);
      ProcessOpp(env, State(io, map[]), OppSummary("1", WonStage))
        == Step(State(io, m), RowsFor(ScalarPrefix(InstallDetail(), env.headers), env.headers, TableOf(m, "1")))
  {
    var o := OppSummary("1", WonStage);
    assert Fetch(env, io, DetailKind, DetailKey("1"), DetailPath(o)) == Fetched(Some(DetailDoc(InstallDetail())), io);
  }

  /**
   * With the detail cached, no time entries and the columns "Job ID",
   * "Labor Type" and "Worked Minutes", the opportunity yields exactly the
   * row `1, "Install", 0`, and one hour of quoted minutes is recorded.
   */
  lemma WonInstallRow(env: Env, io: Io)
    requires env.flags.details && env.headers == [JobId, LaborType, WorkedMinutes]
    requires DetailKey("1") in io.cache && io.cache[DetailKey("1")] == DetailDoc(InstallDetail())
    ensures var s := ProcessOpp(env, State(io, map[]), OppSummary("1", WonStage));
      && s.rows == [[Int(1), Str("Install"), Int(0)]]
      && Get(s.st.mins, "1", "Install") == Pair(60, 0)
      && s.st.io == io
  {
    var m := AddLabor(Touched(map[], "1"), "1", InstallDetail().laborTypes);
    assert env.headers[1] == LaborType;
    InstallStep(env, io);
    InstallMinutes();
    InstallPrefix();
    InstallRows(m["1"]);
  }

  /** A quote of 300 minutes followed by one of 200: the first is kept. */
  lemma BiggerQuoteWins()
    ensures var a := Quote([LaborItem("Install", 18000)]);
      var b := Quote([LaborItem("Wiring", 12000)]);
      Choose(Best(0, Empty()), [a, b]) == Best(300, QuoteLabor(a.laborTypes))
  {
    var a := Quote([LaborItem("Install", 18000)]);
    var b := Quote([LaborItem("Wiring", 12000)]);
    assert a.laborTypes[..0] == [] && b.laborTypes[..0] == [];
    assert QuoteMinutes(a.laborTypes) == 300;
    assert QuoteMinutes(b.laborTypes) == 200;
    var b0 := Best(0, Empty());
    assert [a][..0] == [];
    assert Choose(b0, [a]) == Best(300, QuoteLabor(a.laborTypes));
    assert [a, b][..1] == [a];
  }

  /** Two quotes of equal total: the earlier one is kept. */
  lemma TieKeepsEarlierQuote()
    ensures var a := Quote([LaborItem("Install", 6000)]);
      var b := Quote([LaborItem("Wiring", 6000)]);
      Choose(Best(0, Empty()), [a, b]) == Best(100, QuoteLabor(a.laborTypes))
  {
    var a := Quote([LaborItem("Install", 6000)]);
    var b := Quote([LaborItem("Wiring", 6000)]);
    assert a.laborTypes[..0] == [] && b.laborTypes[..0] == [];
    assert QuoteMinutes(a.laborTypes) == 100;
    assert QuoteMinutes(b.laborTypes) == 100;
    var b0 := Best(0, Empty());
    assert [a][..0] == [];
    assert Choose(b0, [a]) == Best(100, QuoteLabor(a.laborTypes));
    assert [a, b][..1] == [a];
  }
}
