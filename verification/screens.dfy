/** How the two comparison screens turn a comparison table into a verdict
    (`determineWinner`, `getMainAdvantage` and their GPU twins): rows whose delta starts
    with "+" count for the first component and rows starting with "-" for the second; the
    side with more rows wins, and a headline is picked from the names of the categories
    marked "+". */
module Screens {
  import opened Text
  import opened Wrappers
  import opened Comparison
  import CpuData
  import CpuComparison
  import GpuComparison

  // ---------------------------------------------------------------------------------------
  // Lookup tables

  /** The branch of a `when (category)` that a key selects: the first entry with that key. */
  function Lookup(table: seq<(string, string)>, key: string): Option<string>
  {
    if |table| == 0 then None
    else if table[0].0 == key then Some(table[0].1)
    else Lookup(table[1..], key)
  }

  /** A key selects a branch exactly when some entry has it, and then the first such entry. */
  lemma {:induction false} LookupSpec(table: seq<(string, string)>, key: string)
    ensures Lookup(table, key).Some? <==> exists j :: 0 <= j < |table| && table[j].0 == key
    ensures Lookup(table, key).Some? ==>
      exists j :: 0 <= j < |table| && table[j] == (key, Lookup(table, key).value)
        && forall k :: 0 <= k < j ==> table[k].0 != key
  {
    if |table| > 0 && table[0].0 != key {
      LookupSpec(table[1..], key);
      assert forall j :: 1 <= j < |table| ==> table[1..][j - 1] == table[j];
      if Lookup(table, key).Some? {
        var j :| 0 <= j < |table[1..]| && table[1..][j] == (key, Lookup(table, key).value)
          && forall k :: 0 <= k < j ==> table[1..][k].0 != key;
        assert table[j + 1] == (key, Lookup(table, key).value);
        assert forall k :: 0 <= k < j + 1 ==> table[k].0 != key;
      }
    }
  }

  /** A key that differs from every entry in its length or its first character selects no
      branch. */
  lemma NoEntryFor(table: seq<(string, string)>, key: string)
    requires forall j :: 0 <= j < |table| ==>
      |table[j].0| != |key| || (|key| > 0 && |table[j].0| > 0 && table[j].0[0] != key[0])
    ensures Lookup(table, key) == None
  {
    LookupSpec(table, key);
  }

  /** Whether a delta counts for a side. */
  predicate Favors(side: Side, delta: string)
  {
    if side == First then FavorsFirst(delta) else FavorsSecond(delta)
  }

  /** The advantage names collected in row order from the rows that count for `side` and
      whose category the table names. */
  function AdvantagesFor(rows: seq<Row>, names: seq<(string, string)>, side: Side): (adv: seq<string>)
    ensures |adv| <= |rows|
  {
    if |rows| == 0 then []
    else
      var rest := AdvantagesFor(rows[1..], names, side);
      var name := Lookup(names, rows[0].key);
      if Favors(side, rows[0].delta) && name.Some? then [name.value] + rest else rest
  }

  /** Every collected name comes from a row that counts for the side, and every such row
      with a named category contributes its name. */
  lemma {:induction false} AdvantagesForSpec(rows: seq<Row>, names: seq<(string, string)>, side: Side)
    ensures forall a :: a in AdvantagesFor(rows, names, side) ==>
      exists i :: 0 <= i < |rows| && Favors(side, rows[i].delta) && Lookup(names, rows[i].key) == Some(a)
    ensures forall i :: 0 <= i < |rows| && Favors(side, rows[i].delta) && Lookup(names, rows[i].key).Some? ==>
      Lookup(names, rows[i].key).value in AdvantagesFor(rows, names, side)
  {
    if |rows| > 0 {
      AdvantagesForSpec(rows[1..], names, side);
      assert forall i :: 1 <= i < |rows| ==> rows[1..][i - 1] == rows[i];
    }
  }

  /** Rows whose categories the table does not name contribute nothing. */
  lemma {:induction false} NoNamedRows(rows: seq<Row>, names: seq<(string, string)>, side: Side)
    requires forall i :: 0 <= i < |rows| ==> Lookup(names, rows[i].key) == None
    ensures AdvantagesFor(rows, names, side) == []
  {
    if |rows| > 0 {
      assert forall i :: 1 <= i < |rows| ==> rows[1..][i - 1] == rows[i];
      NoNamedRows(rows[1..], names, side);
    }
  }

  const Fallback := "Excelente Performance"
  const Prefix := "Vantagem em "

  /** The headline for a list of advantages: the first priority entry present in the list,
      else "Vantagem em " and the first advantage, else the fallback. */
  function Headline(adv: seq<string>, priority: seq<(string, string)>): (h: string)
    ensures |adv| == 0 ==> h == Fallback
    decreases |priority|
  {
    if |priority| == 0 then (if |adv| == 0 then Fallback else Prefix + adv[0])
    else if priority[0].0 in adv then priority[0].1
    else Headline(adv, priority[1..])
  }

  /** The headline is the first priority entry present in the list; only when none is present
      does it fall back to the first advantage or to the fallback text. */
  lemma {:induction false} HeadlineSpec(adv: seq<string>, priority: seq<(string, string)>)
    ensures (exists j :: 0 <= j < |priority| && priority[j].0 in adv) ==>
      exists j :: 0 <= j < |priority| && priority[j].0 in adv && Headline(adv, priority) == priority[j].1
        && forall k :: 0 <= k < j ==> priority[k].0 !in adv
    ensures (forall j :: 0 <= j < |priority| ==> priority[j].0 !in adv) ==>
      Headline(adv, priority) == if |adv| == 0 then Fallback else Prefix + adv[0]
    decreases |priority|
  {
    if |priority| > 0 && priority[0].0 !in adv {
      HeadlineSpec(adv, priority[1..]);
      assert forall j :: 1 <= j < |priority| ==> priority[1..][j - 1] == priority[j];
      if exists j :: 0 <= j < |priority| && priority[j].0 in adv {
        var j :| 0 <= j < |priority| && priority[j].0 in adv;
        assert priority[1..][j - 1].0 in adv;
        var j' :| 0 <= j' < |priority[1..]| && priority[1..][j'].0 in adv && Headline(adv, priority[1..]) == priority[1..][j'].1
          && forall k :: 0 <= k < j' ==> priority[1..][k].0 !in adv;
        assert forall k :: 0 <= k < j' + 1 ==> priority[k].0 !in adv;
      }
    }
  }

  /** `determineWinner` as written: the headline is always taken from the rows marked "+",
      which are the first component's wins, even when the second component wins. */
  function DetermineWinner(rows: seq<Row>, names: seq<(string, string)>, priority: seq<(string, string)>): (o: Outcome)
    ensures Called(o, Tally(rows))
    ensures o.winner != None ==> o.advantage == Headline(AdvantagesFor(rows, names, First), priority)
  {
    Decide(Tally(rows), Headline(AdvantagesFor(rows, names, First), priority))
  }

  /** `determineWinner` as evidently intended: the headline comes from the winner's rows. */
  function DetermineWinnerCorrected(rows: seq<Row>, names: seq<(string, string)>, priority: seq<(string, string)>): (o: Outcome)
    ensures Called(o, Tally(rows))
    ensures o.winner == Some(First) ==> o == DetermineWinner(rows, names, priority)
    ensures o.winner.Some? ==> o.advantage == Headline(AdvantagesFor(rows, names, o.winner.value), priority)
  {
    var t := Tally(rows);
    Decide(t, Headline(AdvantagesFor(rows, names, if t.1 > t.0 then Second else First), priority))
  }

  /** With the correction, a headline chosen from the priority list names a category whose
      row counts for the winner. */
  lemma CorrectedHeadlineFromWinnerRow(rows: seq<Row>, names: seq<(string, string)>, priority: seq<(string, string)>)
    requires DetermineWinnerCorrected(rows, names, priority).winner.Some?
    ensures var o := DetermineWinnerCorrected(rows, names, priority);
      var adv := AdvantagesFor(rows, names, o.winner.value);
      (exists j :: 0 <= j < |priority| && priority[j].0 in adv) ==>
        exists i, j :: 0 <= i < |rows| && 0 <= j < |priority|
          && Favors(o.winner.value, rows[i].delta) && Lookup(names, rows[i].key) == Some(priority[j].0)
          && o.advantage == priority[j].1
  {
    var o := DetermineWinnerCorrected(rows, names, priority);
    var adv := AdvantagesFor(rows, names, o.winner.value);
    HeadlineSpec(adv, priority);
    AdvantagesForSpec(rows, names, o.winner.value);
    if exists j :: 0 <= j < |priority| && priority[j].0 in adv {
      var j :| 0 <= j < |priority| && priority[j].0 in adv && Headline(adv, priority) == priority[j].1
        && forall k :: 0 <= k < j ==> priority[k].0 !in adv;
      var i :| 0 <= i < |rows| && Favors(o.winner.value, rows[i].delta) && Lookup(names, rows[i].key) == Some(priority[j].0);
    }
  }

  // ---------------------------------------------------------------------------------------
  // The CPU screen

  const CpuNames: seq<(string, string)> := [
    ("Performance", "Performance Geral"), ("Single-Core", "Single-Core"), ("Multi-Core", "Multi-Core"), ("Gaming", "Desempenho em Jogos"),
    ("Efici√™ncia", "Efici√™ncia Energ√©tica"), ("üå°Ô∏è Temp. Gaming/Trabalho Pesado", "Temperatura Mais Baixa"), ("‚ö†Ô∏è Risco Overclock", "Melhor Overclock"), ("üî• Estabilidade T√©rmica", "Estabilidade T√©rmica")]

  const CpuPriority: seq<(string, string)> := [
    ("Desempenho em Jogos", "Melhor para Gaming"), ("Performance Geral", "Performance Superior"), ("Single-Core", "Single-Core Mais R√°pido"), ("Multi-Core", "Multi-Core Mais Poderoso"), ("Temperatura Mais Baixa", "Mais Frio e Eficiente")]

  /** The CPU screen's verdict on a comparison table. */
  function CpuWinner(rows: seq<Row>): (o: Outcome)
    ensures Called(o, Tally(rows))
    ensures o.winner != None ==> o.advantage == Headline(AdvantagesFor(rows, CpuNames, First), CpuPriority)
  {
    DetermineWinner(rows, CpuNames, CpuPriority)
  }

  /** Of the eight categories of `compareCpus`, the screen names only the four score rows:
      the keys of the TDP and thermal rows are spelled differently in the screen's table. */
  lemma CpuScreenNamesScoreRowsOnly()
    ensures forall i :: 0 <= i < 8 ==> (Lookup(CpuNames, CpuComparison.CpuKeys[i]).Some? <==> i < 4)
  {
    var keys := CpuComparison.CpuKeys;
    assert forall i :: 0 <= i < 4 ==> CpuNames[i].0 == keys[i];
    forall i | 4 <= i < 8
      ensures Lookup(CpuNames, keys[i]) == None
    {
      assert |keys[i]| == 10 || keys[i][0] in {'\U{1F321}', '\U{26A0}', '\U{1F525}'};
      NoEntryFor(CpuNames, keys[i]);
    }
  }

  /** Two eight-core CPUs built as the catalogue builds them: the first with 16 threads at
      4.0 GHz and 125 W, the second with 8 threads at 5.0 GHz and 105 W. */
  const ManyThreads: CpuData.Cpu :=
    CpuData.NewCpu(1, "Many Threads", "AMD", "AM5", 3.0, 4.0, 8, 16, 125, 128, "", "", "", "", "")
  const FastClock: CpuData.Cpu :=
    CpuData.NewCpu(2, "Fast Clock", "AMD", "AM5", 4.0, 5.0, 8, 8, 105, 128, "", "", "", "", "")

  /** The sides the eight rows of that comparison count for: the overall score (512000
      against 320000) and the higher TDP for the first CPU, the single-core, multi-core and
      gaming scores (each 20 % lower) for the second, the three thermal rows for neither. */
  lemma ManyThreadsRows()
    ensures var rows := CpuComparison.CompareCpus(ManyThreads, FastClock);
      && FavorsFirst(rows[0].delta) && FavorsSecond(rows[1].delta) && FavorsSecond(rows[2].delta)
      && FavorsSecond(rows[3].delta) && FavorsFirst(rows[4].delta)
      && Neutral(rows[5].delta) && Neutral(rows[6].delta) && Neutral(rows[7].delta)
  {
    assert CpuComparison.OverallScore(ManyThreads) == 512000 && CpuComparison.OverallScore(FastClock) == 320000;
    assert CpuComparison.SingleCoreScore(ManyThreads) == 4000 && CpuComparison.SingleCoreScore(FastClock) == 5000;
    assert CpuComparison.MultiCoreScore(ManyThreads) == 16000 && CpuComparison.MultiCoreScore(FastClock) == 20000;
    assert CpuComparison.EstimateFps(ManyThreads) == 320 && CpuComparison.EstimateFps(FastClock) == 400;
  }

  /** The rows that count, in that order, for a table under the CPU keys. */
  predicate ManyThreadsPattern(rows: seq<Row>)
  {
    && |rows| == 8
    && FavorsFirst(rows[0].delta) && FavorsSecond(rows[1].delta) && FavorsSecond(rows[2].delta)
    && FavorsSecond(rows[3].delta) && FavorsFirst(rows[4].delta)
    && Neutral(rows[5].delta) && Neutral(rows[6].delta) && Neutral(rows[7].delta)
  }

  /** Such a table tallies 2 rows for the first CPU and 3 for the second. */
  lemma ManyThreadsPatternTally(rows: seq<Row>)
    requires ManyThreadsPattern(rows)
    ensures Tally(rows) == (2, 3)
  {
    assert rows[..0] == [];
    TallyStep(rows, 0); assert Tally(rows[..1]) == (1, 0);
    TallyStep(rows, 1); assert Tally(rows[..2]) == (1, 1);
    TallyStep(rows, 2); assert Tally(rows[..3]) == (1, 2);
    TallyStep(rows, 3); assert Tally(rows[..4]) == (1, 3);
    TallyStep(rows, 4); assert Tally(rows[..5]) == (2, 3);
    TallyStep(rows, 5); TallyStep(rows, 6); TallyStep(rows, 7);
    assert rows[..8] == rows;
  }

  /** The names of the first four categories, as the screen's table gives them. */
  lemma ScoreRowNames()
    ensures Lookup(CpuNames, CpuComparison.CpuKeys[0]) == Some("Performance Geral")
    ensures Lookup(CpuNames, CpuComparison.CpuKeys[1]) == Some("Single-Core")
    ensures Lookup(CpuNames, CpuComparison.CpuKeys[2]) == Some("Multi-Core")
    ensures Lookup(CpuNames, CpuComparison.CpuKeys[3]) == Some("Desempenho em Jogos")
  {
    assert CpuNames[1..][1..] == CpuNames[2..];
    assert CpuNames[2..][1..] == CpuNames[3..];
  }

  /** `AdvantagesFor` from position `k` on: the name of row `k`, if it counts, and the rest. */
  lemma AdvantagesFrom(rows: seq<Row>, names: seq<(string, string)>, side: Side, k: nat)
    requires k < |rows|
    ensures AdvantagesFor(rows[k..], names, side)
      == (if Favors(side, rows[k].delta) && Lookup(names, rows[k].key).Some?
          then [Lookup(names, rows[k].key).value] else [])
         + AdvantagesFor(rows[k + 1..], names, side)
  {
    assert rows[k..][1..] == rows[k + 1..];
  }

  /** The rows after the four score rows name nothing, for either side. */
  lemma UnnamedTail(rows: seq<Row>, side: Side)
    requires |rows| == 8 && Keys(rows) == CpuComparison.CpuKeys
    ensures AdvantagesFor(rows[4..], CpuNames, side) == []
  {
    CpuScreenNamesScoreRowsOnly();
    assert forall i :: 0 <= i < 8 ==> rows[i].key == Keys(rows)[i];
    assert rows[8..] == [];
    AdvantagesFrom(rows, CpuNames, side, 7);
    AdvantagesFrom(rows, CpuNames, side, 6);
    AdvantagesFrom(rows, CpuNames, side, 5);
    AdvantagesFrom(rows, CpuNames, side, 4);
  }

  /** Of such a table the screen names the overall score for the first CPU. */
  lemma ManyThreadsFirstAdvantages(rows: seq<Row>)
    requires ManyThreadsPattern(rows) && Keys(rows) == CpuComparison.CpuKeys
    ensures AdvantagesFor(rows, CpuNames, First) == ["Performance Geral"]
  {
    ScoreRowNames();
    assert forall i :: 0 <= i < 8 ==> rows[i].key == Keys(rows)[i];
    UnnamedTail(rows, First);
    AdvantagesFrom(rows, CpuNames, First, 3);
    AdvantagesFrom(rows, CpuNames, First, 2);
    AdvantagesFrom(rows, CpuNames, First, 1);
    AdvantagesFrom(rows, CpuNames, First, 0);
    assert rows[0..] == rows;
  }

  /** ... and the single-core, multi-core and gaming scores for the second. */
  lemma ManyThreadsSecondAdvantages(rows: seq<Row>)
    requires ManyThreadsPattern(rows) && Keys(rows) == CpuComparison.CpuKeys
    ensures AdvantagesFor(rows, CpuNames, Second) == ["Single-Core", "Multi-Core", "Desempenho em Jogos"]
  {
    ScoreRowNames();
    assert forall i :: 0 <= i < 8 ==> rows[i].key == Keys(rows)[i];
    UnnamedTail(rows, Second);
    AdvantagesFrom(rows, CpuNames, Second, 3);
    assert AdvantagesFor(rows[3..], CpuNames, Second) == ["Desempenho em Jogos"];
    AdvantagesFrom(rows, CpuNames, Second, 2);
    assert AdvantagesFor(rows[2..], CpuNames, Second) == ["Multi-Core", "Desempenho em Jogos"];
    AdvantagesFrom(rows, CpuNames, Second, 1);
    assert AdvantagesFor(rows[1..], CpuNames, Second) == ["Single-Core", "Multi-Core", "Desempenho em Jogos"];
    AdvantagesFrom(rows, CpuNames, Second, 0);
    assert rows[0..] == rows;
  }

  /** The headlines the two advantage lists lead to. */
  lemma ManyThreadsHeadlines()
    ensures Headline(["Performance Geral"], CpuPriority) == "Performance Superior"
    ensures Headline(["Single-Core", "Multi-Core", "Desempenho em Jogos"], CpuPriority) == "Melhor para Gaming"
  {
    assert CpuPriority[0].0 !in ["Performance Geral"];
  }

  /** The second CPU wins "3 x 2", yet the headline praises the overall performance, the
      row it lost. With the correction the headline is the second CPU's gaming score. */
  lemma CpuHeadlineFromLoser()
    ensures CpuWinner(CpuComparison.CompareCpus(ManyThreads, FastClock))
      == Outcome(Some(Second), ScoreText(3, 2), "Performance Superior")
    ensures DetermineWinnerCorrected(CpuComparison.CompareCpus(ManyThreads, FastClock), CpuNames, CpuPriority)
      == Outcome(Some(Second), ScoreText(3, 2), "Melhor para Gaming")
  {
    var rows := CpuComparison.CompareCpus(ManyThreads, FastClock);
    ManyThreadsRows();
    ManyThreadsPatternTally(rows);
    ManyThreadsFirstAdvantages(rows);
    ManyThreadsSecondAdvantages(rows);
    ManyThreadsHeadlines();
  }

  // ---------------------------------------------------------------------------------------
  // The GPU screen

  const GpuNames: seq<(string, string)> := [
    ("Performance", "Performance Geral"), ("Gaming", "Desempenho em Jogos"), ("VRAM", "Mais Mem√≥ria VRAM"), ("Clock Speed", "Maior Velocidade"),
    ("Efici√™ncia", "Efici√™ncia Energ√©tica"), ("üå°Ô∏è Temperatura", "Temperatura Mais Baixa"), ("üí° Consumo", "Menor Consumo")]

  const GpuPriority: seq<(string, string)> := [
    ("Desempenho em Jogos", "Melhor para Gaming"), ("Performance Geral", "Performance Superior"), ("Mais Mem√≥ria VRAM", "Mais VRAM para Texturas"), ("Maior Velocidade", "Clocks Mais Altos"),
    ("Temperatura Mais Baixa", "Mais Fria e Eficiente"), ("Menor Consumo", "Mais Econ√¥mica")]

  /** The GPU screen's verdict on a comparison table. */
  function GpuWinner(rows: seq<Row>): (o: Outcome)
    ensures Called(o, Tally(rows))
    ensures o.winner != None ==> o.advantage == Headline(AdvantagesFor(rows, GpuNames, First), GpuPriority)
  {
    DetermineWinner(rows, GpuNames, GpuPriority)
  }

  /** None of the ten categories of `compareGpus` is named in the GPU screen's table. */
  lemma GpuScreenNamesNoRow()
    ensures forall i :: 0 <= i < 10 ==> Lookup(GpuNames, GpuComparison.GpuKeys[i]) == None
  {
    var keys := GpuComparison.GpuKeys;
    assert forall j :: 0 <= j < 7 ==> GpuNames[j].0[0] in {'P', 'G', 'V', 'C', 'E', '\U{F8FF}'};
    assert forall i :: 0 <= i < 10 ==> keys[i][0] !in {'P', 'G', 'V', 'C', 'E', '\U{F8FF}'};
  }

  /** So a decided GPU comparison always reads "Excelente Performance", whichever side's
      rows the headline is taken from. */
  lemma GpuHeadlineAlwaysFallback(g1: GpuComparison.Gpu, g2: GpuComparison.Gpu, side: Side)
    ensures AdvantagesFor(GpuComparison.CompareGpus(g1, g2), GpuNames, side) == []
    ensures GpuWinner(GpuComparison.CompareGpus(g1, g2)).winner != None ==>
      GpuWinner(GpuComparison.CompareGpus(g1, g2)).advantage == Fallback
  {
    var rows := GpuComparison.CompareGpus(g1, g2);
    GpuKeysNamedNowhere(rows, side);
    GpuKeysNamedNowhere(rows, First);
  }

  /** A table under the GPU comparison's keys gives no advantage to either side. */
  lemma GpuKeysNamedNowhere(rows: seq<Row>, side: Side)
    requires Keys(rows) == GpuComparison.GpuKeys
    ensures AdvantagesFor(rows, GpuNames, side) == []
  {
    GpuScreenNamesNoRow();
    assert forall i :: 0 <= i < |rows| ==> rows[i].key == Keys(rows)[i];
    NoNamedRows(rows, GpuNames, side);
  }
}
