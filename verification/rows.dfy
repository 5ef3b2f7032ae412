/** What the two comparators and the two comparison screens share: a comparison table is an
    ordered list of rows `key -> [label, first value, second value, delta]`; the delta of a row
    is a signed text, and a screen tallies the rows whose delta starts with '+' (the first
    component won) or '-' (the second won) and names a winner. */
module Comparison {
  import opened Numeric
  import opened Text
  import opened Wrappers

  /** One entry of the comparison map: its key and its four-element value list. */
  datatype Row = Row(key: string, caption: string, first: string, second: string, delta: string)

  /** `delta.startsWith("+")`. */
  predicate FavorsFirst(delta: string)
  {
    |delta| > 0 && delta[0] == '+'
  }

  /** `delta.startsWith("-")`. */
  predicate FavorsSecond(delta: string)
  {
    |delta| > 0 && delta[0] == '-'
  }

  function Keys(rows: seq<Row>): (keys: seq<string>)
    ensures |keys| == |rows|
    ensures forall i :: 0 <= i < |rows| ==> keys[i] == rows[i].key
  {
    if |rows| == 0 then [] else Keys(rows[..|rows| - 1]) + [rows[|rows| - 1].key]
  }

  // ---------------------------------------------------------------------------------------
  // Deltas

  /** A number written with an explicit '+' when positive, as Kotlin's `"+$diff"`. */
  function SignedText(d: int): (s: string)
    ensures FavorsFirst(s) <==> d > 0
    ensures FavorsSecond(s) <==> d < 0
  {
    if d > 0 then "+" + IntToString(d) else IntToString(d)
  }

  /** Reads back a number written with an optional '+' or '-' sign. */
  function ParseSigned(s: string): int
  {
    if |s| > 0 && s[0] == '+' then ParseDigits(s[1..]) else ParseInt(s)
  }

  lemma SignedTextRoundTrip(d: int)
    ensures ParseSigned(SignedText(d)) == d
  {
    IntToStringRoundTrip(d);
    if d > 0 {
      assert SignedText(d)[1..] == IntToString(d);
      assert IntToString(d) == NatToString(d);
    }
  }

  /** `if (a > b) "+${a - b}" else "-${b - a}"`: the sign-and-magnitude part of a difference
      row, before its unit. */
  function SignedMagnitude(a: int, b: int): (s: string)
    ensures FavorsFirst(s) <==> a > b
    ensures FavorsSecond(s) <==> a <= b
  {
    if a > b then "+" + IntToString(a - b) else "-" + IntToString(b - a)
  }

  /** The magnitude text reads back as the signed difference, also when the values are equal
      ("-0"). */
  lemma SignedMagnitudeRoundTrip(a: int, b: int)
    ensures ParseSigned(SignedMagnitude(a, b)) == a - b
  {
    var d: nat := if a > b then a - b else b - a;
    var sign := if a > b then '+' else '-';
    assert IntToString(d) == NatToString(d);
    assert SignedMagnitude(a, b) == [sign] + NatToString(d);
    SignRoundTrip(sign, d);
  }

  /** A sign before the digits of `n` reads back as `n` or `-n`. */
  lemma SignRoundTrip(sign: char, n: nat)
    requires sign == '+' || sign == '-'
    ensures ParseSigned([sign] + NatToString(n)) == if sign == '+' then n else -(n as int)
  {
    var s := [sign] + NatToString(n);
    assert s[0] == sign && s[1..] == NatToString(n);
    NatToStringRoundTrip(n);
  }

  /** A difference row's delta: the signed magnitude followed by its unit. */
  function SignedDelta(a: int, b: int, unit: string): (s: string)
    ensures FavorsFirst(s) <==> a > b
    ensures FavorsSecond(s) <==> a <= b
  {
    SignedMagnitude(a, b) + unit
  }

  /** A difference row as it was evidently meant: equal values give "0" and count for
      neither side. */
  function SignedDeltaCorrected(a: int, b: int, unit: string): (s: string)
    ensures FavorsFirst(s) <==> a > b
    ensures FavorsSecond(s) <==> a < b
    ensures a != b ==> s == SignedDelta(a, b, unit)
  {
    if a == b then IntToString(0) + unit else SignedDelta(a, b, unit)
  }

  /** Which rule a difference row follows for equal values. */
  datatype Signing = AsWritten | EqualNeutral

  /** A difference row's delta under a rule: as written, equal values give "-0" and count
      for the second component; with `EqualNeutral` they give "0" and count for neither. */
  function Signed(rule: Signing, a: int, b: int, unit: string): (s: string)
    ensures FavorsFirst(s) <==> a > b
    ensures FavorsSecond(s) <==> a < b || (rule == AsWritten && a == b)
  {
    if rule == AsWritten then SignedDelta(a, b, unit) else SignedDeltaCorrected(a, b, unit)
  }

  /** Relative difference in whole percent, `((v1 - v2).toDouble() / v2 * 100).toInt()`.
      Dividing by a zero `v2` gives an infinity (or NaN for `0 / 0`), which `toInt`
      saturates (or maps to 0). */
  function PercentDifference(v1: int, v2: int): (d: int)
    ensures v1 == v2 ==> d == 0
    ensures v2 > 0 ==> (d > 0 <==> 100 * (v1 - v2) >= v2)
    ensures v2 > 0 ==> (d < 0 <==> 100 * (v2 - v1) >= v2)
    ensures v2 == 0 ==> (d > 0 <==> v1 > 0) && (d < 0 <==> v1 < 0)
  {
    if v2 == 0 then
      if v1 > 0 then IntMax else if v1 < 0 then IntMin else 0
    else
      var x := (v1 - v2) as real / v2 as real * 100.0;
      QuotientTimesDivisor((v1 - v2) as real, v2 as real, x);
      if v2 > 0 then
        PercentSign(v1, v2, x);
        ToInt(x)
      else
        ToIntOfWhole(0);
        ToInt(x)
  }

  lemma PercentSign(v1: int, v2: int, x: real)
    requires v2 > 0 && x * v2 as real == 100.0 * (v1 - v2) as real
    ensures ToInt(x) > 0 <==> 100 * (v1 - v2) >= v2
    ensures ToInt(x) < 0 <==> 100 * (v2 - v1) >= v2
  {
    var n := 100 * (v1 - v2);
    assert x * v2 as real == n as real;
    UnitBounds(x, v2 as real, n as real);
    ToIntPositive(x);
    ToIntNegative(x);
  }

  /** `n / k * 100` times `k` is `100 * n`; it is 0 when `n` is. */
  lemma QuotientTimesDivisor(n: real, k: real, x: real)
    requires k != 0.0 && x == n / k * 100.0
    ensures x * k == 100.0 * n
    ensures n == 0.0 ==> x == 0.0
  {
  }

  /** For a positive `k` and `n == x * k`, `x` reaches 1 exactly when `n` reaches `k` (and
      likewise for -1). */
  lemma UnitBounds(x: real, k: real, n: real)
    requires k > 0.0 && x * k == n
    ensures x >= 1.0 <==> n >= k
    ensures x <= -1.0 <==> n <= -k
  {
    if x >= 1.0 {
      MulNonNegative(x - 1.0, k);
    } else {
      MulNonNegative(1.0 - x, k);
      assert (1.0 - x) * k > 0.0;
    }
    if x <= -1.0 {
      MulNonNegative(-1.0 - x, k);
    } else {
      MulNonNegative(x + 1.0, k);
      assert (x + 1.0) * k > 0.0;
    }
  }

  /** The text of a percent row's delta, before the "%" sign. */
  function DifferenceText(v1: int, v2: int): (s: string)
    ensures FavorsFirst(s) <==> PercentDifference(v1, v2) > 0
    ensures FavorsSecond(s) <==> PercentDifference(v1, v2) < 0
  {
    SignedText(PercentDifference(v1, v2))
  }

  /** A delta that counts for the side its relative difference favours, and for neither
      when the difference truncates to zero. */
  predicate FollowsPercent(delta: string, v1: int, v2: int)
  {
    && (FavorsFirst(delta) <==> PercentDifference(v1, v2) > 0)
    && (FavorsSecond(delta) <==> PercentDifference(v1, v2) < 0)
  }

  /** A percent row's delta as the table shows it: the difference followed by "%". */
  function PercentDelta(v1: int, v2: int): (s: string)
    ensures FavorsFirst(s) <==> PercentDifference(v1, v2) > 0
    ensures FavorsSecond(s) <==> PercentDifference(v1, v2) < 0
  {
    var d := DifferenceText(v1, v2);
    assert |d| > 0 ==> (d + "%")[0] == d[0];
    d + "%"
  }

  /** Equal values make a percent row neutral: its delta is "0". */
  lemma EqualValuesPercentNeutral(v: int)
    ensures DifferenceText(v, v) == "0"
  {
  }

  /** Rows zipped from equally long columns. */
  function Zip(keys: seq<string>, captions: seq<string>, first: seq<string>, second: seq<string>, deltas: seq<string>): (rows: seq<Row>)
    requires |captions| == |first| == |second| == |deltas| == |keys|
    ensures |rows| == |keys|
    ensures forall i :: 0 <= i < |keys| ==> rows[i] == Row(keys[i], captions[i], first[i], second[i], deltas[i])
    ensures Keys(rows) == keys
  {
    var rows := seq(|keys|, i requires 0 <= i < |keys| => Row(keys[i], captions[i], first[i], second[i], deltas[i]));
    assert forall i :: 0 <= i < |keys| ==> Keys(rows)[i] == keys[i];
    rows
  }

  // ---------------------------------------------------------------------------------------
  // Thermal verdict

  const Equivalent := "≈ Equivalente"

  /** "🏆 " followed by the first `width` characters of a name and "...". */
  function Crowned(name: string, width: nat): (s: string)
    ensures |s| > 0 && s[0] == '🏆'
    ensures |s| <= width + 5
  {
    "🏆 " + Take(name, width) + "..."
  }

  /** The better thermal choice of two named components: a lead of more than `margin`
      points crowns the leader's name cut to `width` characters; otherwise the two are
      equivalent. */
  function Verdict(name1: string, score1: int, name2: string, score2: int, margin: nat, width: nat): (s: string)
    ensures score1 > score2 + margin ==> s == Crowned(name1, width)
    ensures score2 > score1 + margin ==> s == Crowned(name2, width)
    ensures -(margin as int) <= score1 - score2 <= margin <==> s == Equivalent
    ensures !FavorsFirst(s) && !FavorsSecond(s)
  {
    assert Equivalent[0] == '≈';
    if score1 > score2 + margin then Crowned(name1, width)
    else if score2 > score1 + margin then Crowned(name2, width)
    else Equivalent
  }

  /** The verdict does not depend on which component is listed first. */
  lemma VerdictSymmetric(name1: string, score1: int, name2: string, score2: int, margin: nat, width: nat)
    ensures Verdict(name1, score1, name2, score2, margin, width) == Verdict(name2, score2, name1, score1, margin, width)
  {
  }

  // ---------------------------------------------------------------------------------------
  // Tally

  /** Rows won by the first and by the second component; rows with any other delta count for
      neither. */
  function Tally(rows: seq<Row>): (t: (nat, nat))
    ensures t.0 + t.1 <= |rows|
  {
    if |rows| == 0 then (0, 0)
    else
      var t := Tally(rows[..|rows| - 1]);
      var d := rows[|rows| - 1].delta;
      if FavorsFirst(d) then (t.0 + 1, t.1)
      else if FavorsSecond(d) then (t.0, t.1 + 1)
      else t
  }

  /** The tally as the screens compute it, one row at a time in map order. */
  method CountWins(rows: seq<Row>) returns (first: nat, second: nat)
    ensures (first, second) == Tally(rows)
    ensures first + second <= |rows|
  {
    first, second := 0, 0;
    var i := 0;
    while i < |rows|
      invariant 0 <= i <= |rows|
      invariant (first, second) == Tally(rows[..i])
    {
      assert rows[..i + 1][..i] == rows[..i];
      var d := rows[i].delta;
      if FavorsFirst(d) {
        first := first + 1;
      } else if FavorsSecond(d) {
        second := second + 1;
      }
      i := i + 1;
    }
    assert rows[..|rows|] == rows;
  }

  /** The tally of a concatenation is the sum of the tallies. */
  lemma {:induction false} TallyAppend(a: seq<Row>, b: seq<Row>)
    ensures Tally(a + b).0 == Tally(a).0 + Tally(b).0
    ensures Tally(a + b).1 == Tally(a).1 + Tally(b).1
    decreases |b|
  {
    if |b| == 0 {
      assert a + b == a;
    } else {
      assert (a + b)[..|a + b| - 1] == a + b[..|b| - 1];
      TallyAppend(a, b[..|b| - 1]);
    }
  }

  /** Tally of a single row. */
  lemma TallyOne(r: Row)
    ensures Tally([r]) == if FavorsFirst(r.delta) then (1, 0) else if FavorsSecond(r.delta) then (0, 1) else (0, 0)
  {
    assert [r][..0] == [];
  }

  /** A delta that counts for neither side. */
  predicate Neutral(delta: string)
  {
    !FavorsFirst(delta) && !FavorsSecond(delta)
  }

  /** Rows that count for neither side leave the tally at zero. */
  lemma {:induction false} TallyNeutral(rows: seq<Row>)
    requires forall i :: 0 <= i < |rows| ==> Neutral(rows[i].delta)
    ensures Tally(rows) == (0, 0)
    decreases |rows|
  {
    if |rows| > 0 {
      TallyNeutral(rows[..|rows| - 1]);
    }
  }

  /** The tally of a prefix one row longer. */
  lemma TallyStep(rows: seq<Row>, i: nat)
    requires i < |rows|
    ensures Tally(rows[..i + 1]) ==
      var t := Tally(rows[..i]);
      if FavorsFirst(rows[i].delta) then (t.0 + 1, t.1) else if FavorsSecond(rows[i].delta) then (t.0, t.1 + 1) else t
  {
    assert rows[..i + 1][..i] == rows[..i];
  }

  /** Rows that all count for the second side give it every point. */
  lemma {:induction false} TallyAllSecond(rows: seq<Row>)
    requires forall i :: 0 <= i < |rows| ==> FavorsSecond(rows[i].delta) && !FavorsFirst(rows[i].delta)
    ensures Tally(rows) == (0, |rows|)
    decreases |rows|
  {
    if |rows| > 0 {
      TallyAllSecond(rows[..|rows| - 1]);
    }
  }

  /** When only row `k` can count, the tally is that of row `k` alone. */
  lemma {:induction false} TallyOneDecisive(rows: seq<Row>, k: nat)
    requires k < |rows|
    requires forall i :: 0 <= i < |rows| && i != k ==> Neutral(rows[i].delta)
    ensures Tally(rows) == Tally([rows[k]])
    decreases |rows|
  {
    var last := |rows| - 1;
    if k == last {
      assert forall i :: 0 <= i < last ==> rows[..last][i] == rows[i];
      TallyNeutral(rows[..last]);
      TallyOne(rows[k]);
    } else {
      assert forall i :: 0 <= i < last ==> rows[..last][i] == rows[i];
      TallyOneDecisive(rows[..last], k);
      assert rows[..last][k] == rows[k];
    }
  }



  // ---------------------------------------------------------------------------------------
  // Winner

  datatype Side = First | Second

  /** `Winner` / `GpuWinner` without the component records: the winning side (`None` for a
      tie), the score text and the advantage text. */
  datatype Outcome = Outcome(winner: Option<Side>, score: string, advantage: string)

  /** The verdict a tally calls for: the side with more rows wins and its count comes first
      in the score; equal counts are a tie ("EMPATE", "Performance equivalente"). */
  predicate Called(o: Outcome, t: (nat, nat))
  {
    && (o.winner == Some(First) <==> t.0 > t.1)
    && (o.winner == Some(Second) <==> t.0 < t.1)
    && (o.winner == None <==> t.0 == t.1)
    && (t.0 > t.1 ==> o.score == ScoreText(t.0, t.1))
    && (t.0 < t.1 ==> o.score == ScoreText(t.1, t.0))
    && (t.0 == t.1 ==> o.score == "EMPATE" && o.advantage == "Performance equivalente")
  }

  /** "w x l". */
  function ScoreText(w: nat, l: nat): string
  {
    NatToString(w) + " x " + NatToString(l)
  }

  /** The decision on a tally; `advantage` is the text the screen computes from the table. */
  function Decide(t: (nat, nat), advantage: string): (o: Outcome)
    ensures o.winner == None <==> t.0 == t.1
    ensures o.winner == Some(First) <==> t.0 > t.1
    ensures o.winner == Some(Second) <==> t.0 < t.1
    ensures o.winner == None ==> o.score == "EMPATE" && o.advantage == "Performance equivalente"
    ensures o.winner != None ==> o.advantage == advantage
    ensures Called(o, t)
  {
    if t.0 > t.1 then Outcome(Some(First), ScoreText(t.0, t.1), advantage)
    else if t.1 > t.0 then Outcome(Some(Second), ScoreText(t.1, t.0), advantage)
    else Outcome(None, "EMPATE", "Performance equivalente")
  }

  /** The score text of a decided outcome names the winner's count first, and the larger. */
  lemma DecidedScore(t: (nat, nat), advantage: string)
    requires t.0 != t.1
    ensures exists w: nat, l: nat ::
      && w > l && Decide(t, advantage).score == ScoreText(w, l)
      && (w == t.0 || w == t.1) && w + l == t.0 + t.1
  {
    if t.0 > t.1 {
      assert Decide(t, advantage).score == ScoreText(t.0, t.1);
    } else {
      assert Decide(t, advantage).score == ScoreText(t.1, t.0);
    }
  }

  /** Exchanging the two tallies exchanges the winner and keeps the score text. */
  lemma DecideSymmetric(t: (nat, nat), advantage: string)
    ensures Decide((t.1, t.0), advantage).score == Decide(t, advantage).score
    ensures Decide(t, advantage).winner == Some(First) <==> Decide((t.1, t.0), advantage).winner == Some(Second)
  {
  }

  /** Two score texts are equal only for equal counts. */
  lemma ScoreTextInjective(w1: nat, l1: nat, w2: nat, l2: nat)
    requires ScoreText(w1, l1) == ScoreText(w2, l2)
    ensures w1 == w2 && l1 == l2
  {
    var a, b := NatToString(w1), NatToString(w2);
    assert ScoreText(w1, l1) == a + (" x " + NatToString(l1));
    assert ScoreText(w2, l2) == b + (" x " + NatToString(l2));
    SameLeadingDigits(a, b, " x " + NatToString(l1), " x " + NatToString(l2));
    var s := ScoreText(w1, l1);
    assert a == s[..|a|] == b;
    assert NatToString(l1) == s[|a| + 3..] == NatToString(l2);
    NatToStringRoundTrip(w1);
    NatToStringRoundTrip(w2);
    NatToStringRoundTrip(l1);
    NatToStringRoundTrip(l2);
  }

  /** Two digit strings, each followed by text starting with a space, can only give the same
      string if they have the same length. */
  lemma SameLeadingDigits(a: string, b: string, r1: string, r2: string)
    requires forall i :: 0 <= i < |a| ==> '0' <= a[i] <= '9'
    requires forall i :: 0 <= i < |b| ==> '0' <= b[i] <= '9'
    requires |r1| > 0 && r1[0] == ' ' && |r2| > 0 && r2[0] == ' '
    requires a + r1 == b + r2
    ensures |a| == |b|
  {
    var s := a + r1;
    assert s[|a|] == ' ';
    assert forall i :: 0 <= i < |a| ==> s[i] == a[i];
    assert s == b + r2;
    assert s[|b|] == ' ';
    assert forall i :: 0 <= i < |b| ==> s[i] == b[i];
  }
}
