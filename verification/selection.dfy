/** The selection side of the comparison screens: the catalogue shown (entries with a name),
    the search filter, the list of at most two selected components, and the switch to and
    from the full-screen comparison. */
module Selection {
  import opened Text
  import opened Wrappers
  import CpuData
  import GpuData

  // ---------------------------------------------------------------------------------------
  // The selected list

  /** Kotlin's `list - x`: the list without the first occurrence of `x`. */
  function RemoveFirst<T(==)>(xs: seq<T>, x: T): (r: seq<T>)
    ensures x !in xs ==> r == xs
    ensures x in xs ==> |r| == |xs| - 1
    ensures multiset(r) == multiset(xs) - multiset{x}
  {
    if |xs| == 0 then []
    else
      assert xs == [xs[0]] + xs[1..];
      if xs[0] == x then xs[1..]
      else [xs[0]] + RemoveFirst(xs[1..], x)
  }

  /** The position of the first occurrence of `x`. */
  function FirstIndex<T(==)>(xs: seq<T>, x: T): (k: nat)
    requires x in xs
    ensures k < |xs| && xs[k] == x && x !in xs[..k]
  {
    if xs[0] == x then 0
    else
      var k := FirstIndex(xs[1..], x);
      assert xs[..k + 1] == [xs[0]] + xs[1..][..k];
      k + 1
  }

  /** Removing an element keeps the order of the others: the result is the list with the
      position of its first occurrence cut out. */
  lemma {:induction false} RemoveFirstCutsFirstIndex<T>(xs: seq<T>, x: T)
    requires x in xs
    ensures RemoveFirst(xs, x) == xs[..FirstIndex(xs, x)] + xs[FirstIndex(xs, x) + 1..]
  {
    if xs[0] == x {
      assert FirstIndex(xs, x) == 0;
      assert xs[..0] + xs[1..] == xs[1..];
    } else {
      RemoveFirstCutsFirstIndex(xs[1..], x);
      CutAfterHead(xs, FirstIndex(xs[1..], x));
    }
  }

  /** Cutting position `k` out of the tail and putting the head back cuts position `k + 1`. */
  lemma CutAfterHead<T>(xs: seq<T>, k: nat)
    requires k + 1 < |xs|
    ensures [xs[0]] + (xs[1..][..k] + xs[1..][k + 1..]) == xs[..k + 1] + xs[k + 2..]
  {
    assert xs[..k + 1] == [xs[0]] + xs[1..][..k];
    assert xs[k + 2..] == xs[1..][k + 1..];
  }

  /** `onCpuSelected` / `onGpuSelected`: selecting appends while fewer than two are selected
      and is ignored otherwise; deselecting removes the first occurrence. */
  function Toggle<T(==)>(selected: seq<T>, item: T, select: bool): (r: seq<T>)
    ensures select && |selected| < 2 ==> r == selected + [item]
    ensures select && |selected| >= 2 ==> r == selected
    ensures !select ==> multiset(r) == multiset(selected) - multiset{item}
  {
    if select then (if |selected| < 2 then selected + [item] else selected)
    else RemoveFirst(selected, item)
  }

  /** No component is selected twice. */
  predicate Distinct<T(==)>(xs: seq<T>)
  {
    forall i, j :: 0 <= i < j < |xs| ==> xs[i] != xs[j]
  }

  /** What the screen holds: at most two distinct components. */
  predicate ValidSelection<T(==)>(xs: seq<T>)
  {
    |xs| <= 2 && Distinct(xs)
  }

  /** A tap on a card: the card asks to select the component when it is not selected yet
      and to deselect it otherwise. */
  function Tap<T(==)>(selected: seq<T>, item: T): (r: seq<T>)
    ensures item in selected && Distinct(selected) ==> item !in r && |r| == |selected| - 1
    ensures item !in selected && |selected| < 2 ==> item in r && |r| == |selected| + 1
    ensures item !in selected && |selected| >= 2 ==> r == selected
  {
    if item in selected then
      TapRemoves(selected, item);
      Toggle(selected, item, false)
    else
      Toggle(selected, item, true)
  }

  /** Deselecting a component selected once leaves no copy of it behind, and keeps the
      others distinct. */
  lemma TapRemoves<T>(selected: seq<T>, item: T)
    requires item in selected
    ensures Distinct(selected) ==> item !in RemoveFirst(selected, item) && Distinct(RemoveFirst(selected, item))
  {
    RemoveFirstCutsFirstIndex(selected, item);
    if Distinct(selected) {
      CutKeepsDistinct(selected, FirstIndex(selected, item));
    }
  }

  /** Cutting one position out of a list without repeats leaves no other copy of the element
      cut, and no repeats. */
  lemma CutKeepsDistinct<T>(xs: seq<T>, k: nat)
    requires k < |xs| && Distinct(xs)
    ensures xs[k] !in xs[..k] + xs[k + 1..] && Distinct(xs[..k] + xs[k + 1..])
  {
    var r := xs[..k] + xs[k + 1..];
    assert forall i :: 0 <= i < |r| ==> r[i] == xs[if i < k then i else i + 1];
  }

  /** Taps keep the selection valid: never more than two, never the same one twice. */
  lemma TapKeepsValid<T>(selected: seq<T>, item: T)
    requires ValidSelection(selected)
    ensures ValidSelection(Tap(selected, item))
  {
    if item in selected {
      TapRemoves(selected, item);
    }
  }

  /** A second tap on a component the first tap selected deselects it again. */
  lemma TapTwiceRestores<T>(selected: seq<T>, item: T)
    requires |selected| < 2 && item !in selected
    ensures Tap(Tap(selected, item), item) == selected
  {
    var r := selected + [item];
    assert item in r;
    RemoveFirstCutsFirstIndex(r, item);
    assert FirstIndex(r, item) == |selected|;
    assert r[..|selected|] == selected;
  }

  // ---------------------------------------------------------------------------------------
  // Screen state

  /** The screen's state: the selection, whether the full-screen comparison was requested,
      and the search text. */
  datatype Screen<T> = Screen(selected: seq<T>, showComparison: bool, query: string)

  /** The full-screen comparison is shown when it was requested and exactly two are selected;
      it compares them in selection order. */
  function Compared<T>(s: Screen<T>): (pair: Option<(T, T)>)
    ensures pair.Some? <==> s.showComparison && |s.selected| == 2
    ensures pair.Some? ==> pair.value == (s.selected[0], s.selected[1])
  {
    if s.showComparison && |s.selected| == 2 then Some((s.selected[0], s.selected[1])) else None
  }

  /** The "compare" button, enabled only with exactly two selected. */
  function PressCompare<T>(s: Screen<T>): (r: Screen<T>)
    ensures r.selected == s.selected && r.query == s.query
    ensures |s.selected| == 2 ==> Compared(r).Some?
    ensures |s.selected| != 2 ==> r == s
  {
    if |s.selected| == 2 then s.(showComparison := true) else s
  }

  /** `onBackClick`: leave the comparison and forget both the selection and the search. */
  function Back<T>(s: Screen<T>): (r: Screen<T>)
    ensures Compared(r) == None && r.selected == [] && r.query == ""
  {
    Screen([], false, "")
  }

  /** `onClearSelection` of the selection bar: forget the selection and the search, leave
      the comparison request as it is. */
  function ClearSelection<T>(s: Screen<T>): (r: Screen<T>)
    ensures Compared(r) == None && r.selected == [] && r.query == ""
    ensures r.showComparison == s.showComparison
  {
    s.(selected := [], query := "")
  }

  /** After leaving the comparison, a new one needs two fresh selections and a press. */
  lemma BackThenCompareNeedsTwo<T>(s: Screen<T>, a: T, b: T)
    requires a != b
    ensures Compared(PressCompare(Back(s))) == None
    ensures Compared(PressCompare(Back(s).(selected := Tap(Tap(Back(s).selected, a), b))))
      == Some((a, b))
  {
    assert Tap([], a) == [a];
    assert Tap([a], b) == [a, b];
  }

  // ---------------------------------------------------------------------------------------
  // Catalogue and search

  /** `sub` is `xs` with some entries dropped and the rest in their original order. */
  predicate SubsequenceOf<T(==)>(sub: seq<T>, xs: seq<T>)
  {
    |sub| == 0 || (|xs| > 0 && ((sub[0] == xs[0] && SubsequenceOf(sub[1..], xs[1..])) || SubsequenceOf(sub, xs[1..])))
  }

  /** What `FilterSeq` promises of `r` for the list `xs`: every entry of `r` comes from
      `xs` and passes, and every passing entry of `xs` is in `r` with all its copies. */
  predicate Filtered<T(==)>(r: seq<T>, xs: seq<T>, keep: T -> bool)
  {
    && (forall i :: 0 <= i < |r| ==> r[i] in xs && keep(r[i]))
    && (forall i :: 0 <= i < |xs| && keep(xs[i]) ==> xs[i] in r)
    && (forall i :: 0 <= i < |xs| ==> multiset(r)[xs[i]] == if keep(xs[i]) then multiset(xs)[xs[i]] else 0)
  }

  /** Keep the entries that satisfy `keep`, in order. */
  function FilterSeq<T(==)>(xs: seq<T>, keep: T -> bool): (r: seq<T>)
    ensures |r| <= |xs|
    ensures SubsequenceOf(r, xs)
    ensures forall i :: 0 <= i < |r| ==> r[i] in xs && keep(r[i])
    ensures forall i :: 0 <= i < |xs| && keep(xs[i]) ==> xs[i] in r
    ensures forall i :: 0 <= i < |xs| ==> multiset(r)[xs[i]] == if keep(xs[i]) then multiset(xs)[xs[i]] else 0
  {
    if |xs| == 0 then []
    else
      var rest := FilterSeq(xs[1..], keep);
      FilterStep(xs, rest, keep);
      if keep(xs[0]) then [xs[0]] + rest else rest
  }

  /** One step of the filter: if `rest` is the filtered tail, adding the head when it passes
      gives the filtered list. */
  lemma FilterStep<T>(xs: seq<T>, rest: seq<T>, keep: T -> bool)
    requires |xs| > 0 && Filtered(rest, xs[1..], keep)
    ensures Filtered(if keep(xs[0]) then [xs[0]] + rest else rest, xs, keep)
  {
    FilterStepMembers(xs, rest, keep);
    FilterStepCounts(xs, rest, keep);
  }

  lemma FilterStepMembers<T>(xs: seq<T>, rest: seq<T>, keep: T -> bool)
    requires |xs| > 0
    requires forall i :: 0 <= i < |rest| ==> rest[i] in xs[1..] && keep(rest[i])
    requires forall i :: 0 <= i < |xs| - 1 && keep(xs[1..][i]) ==> xs[1..][i] in rest
    ensures var r := if keep(xs[0]) then [xs[0]] + rest else rest;
      && (forall i :: 0 <= i < |r| ==> r[i] in xs && keep(r[i]))
      && (forall i :: 0 <= i < |xs| && keep(xs[i]) ==> xs[i] in r)
  {
    var tail := xs[1..];
    assert forall i :: 0 < i < |xs| ==> xs[i] == tail[i - 1];
  }

  lemma FilterStepCounts<T>(xs: seq<T>, rest: seq<T>, keep: T -> bool)
    requires |xs| > 0
    requires forall i :: 0 <= i < |rest| ==> rest[i] in xs[1..]
    requires forall i :: 0 <= i < |xs| - 1 ==>
      multiset(rest)[xs[1..][i]] == if keep(xs[1..][i]) then multiset(xs[1..])[xs[1..][i]] else 0
    ensures var r := if keep(xs[0]) then [xs[0]] + rest else rest;
      forall i :: 0 <= i < |xs| ==> multiset(r)[xs[i]] == if keep(xs[i]) then multiset(xs)[xs[i]] else 0
  {
    var tail := xs[1..];
    assert multiset(xs) == multiset{xs[0]} + multiset(tail) by { assert xs == [xs[0]] + tail; }
    var r := if keep(xs[0]) then [xs[0]] + rest else rest;
    assert multiset(r) == (if keep(xs[0]) then multiset{xs[0]} else multiset{}) + multiset(rest);
    forall i | 0 <= i < |xs|
      ensures multiset(r)[xs[i]] == if keep(xs[i]) then multiset(xs)[xs[i]] else 0
    {
      if i > 0 {
        assert xs[i] == tail[i - 1];
      } else if xs[0] !in tail {
        assert xs[0] !in rest;
      } else {
        var j :| 0 <= j < |tail| && tail[j] == xs[0];
      }
    }
  }

  /** Everything is kept when everything passes. */
  lemma {:induction false} FilterSeqKeepsAll<T>(xs: seq<T>, keep: T -> bool)
    requires forall x :: x in xs ==> keep(x)
    ensures FilterSeq(xs, keep) == xs
  {
    if |xs| > 0 {
      FilterSeqKeepsAll(xs[1..], keep);
    }
  }

  /** `loadCpus().filter { it.name.isNotEmpty() }`. */
  function CpuCatalog(all: seq<CpuData.Cpu>): (r: seq<CpuData.Cpu>)
    ensures forall c :: c in r <==> c in all && c.name != ""
  {
    FilterSeq(all, (c: CpuData.Cpu) => c.name != "")
  }

  /** `loadGpus().filter { it.name.isNotEmpty() }`. */
  function GpuCatalog(all: seq<GpuData.Gpu>): (r: seq<GpuData.Gpu>)
    ensures forall g :: g in r <==> g in all && g.name != ""
  {
    FilterSeq(all, (g: GpuData.Gpu) => g.name != "")
  }

  /** The CPU search: name, brand or socket contain the query ignoring case, or the core
      count or TDP written in decimal contain it as typed. */
  predicate CpuMatches(cpu: CpuData.Cpu, query: string)
  {
    || ContainsIC(cpu.name, query) || ContainsIC(cpu.brand, query) || ContainsIC(cpu.socket, query)
    || Contains(IntToString(cpu.cores), query) || Contains(IntToString(cpu.tdp), query)
  }

  /** The GPU search: name or brand contain the query ignoring case, or the memory size or
      TDP written in decimal contain it as typed. */
  predicate GpuMatches(gpu: GpuData.Gpu, query: string)
  {
    || ContainsIC(gpu.name, query) || ContainsIC(gpu.brand, query)
    || Contains(IntToString(gpu.memory), query) || Contains(IntToString(gpu.tdp), query)
  }

  /** `filteredCpus`: a blank query shows the whole list. */
  function FilterCpus(cpus: seq<CpuData.Cpu>, query: string): (r: seq<CpuData.Cpu>)
    ensures IsBlank(query) ==> r == cpus
    ensures forall c :: c in r <==> c in cpus && (IsBlank(query) || CpuMatches(c, query))
  {
    if IsBlank(query) then cpus else FilterSeq(cpus, (c: CpuData.Cpu) => CpuMatches(c, query))
  }

  /** `filteredGpus`: a blank query shows the whole list. */
  function FilterGpus(gpus: seq<GpuData.Gpu>, query: string): (r: seq<GpuData.Gpu>)
    ensures IsBlank(query) ==> r == gpus
    ensures forall g :: g in r <==> g in gpus && (IsBlank(query) || GpuMatches(g, query))
  {
    if IsBlank(query) then gpus else FilterSeq(gpus, (g: GpuData.Gpu) => GpuMatches(g, query))
  }

  /** The empty query is blank, and every component matches it anyway. */
  lemma EmptyQueryMatchesAll(cpu: CpuData.Cpu, gpu: GpuData.Gpu)
    ensures IsBlank("")
    ensures CpuMatches(cpu, "") && GpuMatches(gpu, "")
  {
    assert StartsWithIC(cpu.name, "");
    assert StartsWithIC(gpu.name, "");
  }

  /** A query that matches a CPU's name also matches it with its letters in another case. */
  lemma CpuSearchIgnoresCase(cpu: CpuData.Cpu, query: string, other: string)
    requires SameIgnoringCase(query, other) && ContainsIC(cpu.name, query)
    ensures CpuMatches(cpu, other)
  {
    assert StartsWithIC(query, other);
    ContainsICTransitive(cpu.name, query, other);
  }
}
