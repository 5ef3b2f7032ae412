/** The Kotlin string operations the app uses: case-insensitive `contains`, `startsWith`,
    `isBlank`, `take`, and `Int.toString()`.

    Case folding is ASCII only: Kotlin folds every Unicode letter, but the names, brands and
    patterns the app compares are ASCII text. */
module Text {

  function Lower(c: char): (r: char)
    ensures 'A' <= c <= 'Z' ==> 'a' <= r <= 'z'
    ensures !('A' <= c <= 'Z') ==> r == c
  {
    if 'A' <= c <= 'Z' then (c as int + 32) as char else c
  }

  /** Two strings of equal length that differ at most in the case of their letters. */
  predicate SameIgnoringCase(s: string, t: string)
  {
    |s| == |t| && forall i :: 0 <= i < |s| ==> Lower(s[i]) == Lower(t[i])
  }

  /** `p` occurs in `s` starting at index `i`. */
  ghost predicate OccursAt(s: string, p: string, i: int)
  {
    0 <= i && i + |p| <= |s| && s[i..i + |p|] == p
  }

  /** Kotlin `s.startsWith(p)`. */
  predicate StartsWith(s: string, p: string)
  {
    |p| <= |s| && s[..|p|] == p
  }

  /** Kotlin `s.contains(p)` (case-sensitive). */
  predicate Contains(s: string, p: string)
  {
    StartsWith(s, p) || (|s| > 0 && Contains(s[1..], p))
  }

  /** Kotlin `s.startsWith(p, ignoreCase = true)`: characters compared after case folding. */
  predicate StartsWithIC(s: string, p: string)
  {
    |p| <= |s| && forall i :: 0 <= i < |p| ==> Lower(s[i]) == Lower(p[i])
  }

  /** Kotlin `s.contains(p, ignoreCase = true)`. */
  predicate ContainsIC(s: string, p: string)
  {
    StartsWithIC(s, p) || (|s| > 0 && ContainsIC(s[1..], p))
  }

  /** `Contains` finds exactly the occurrences of `p` in `s`. */
  lemma {:induction false} ContainsSpec(s: string, p: string)
    ensures Contains(s, p) <==> exists i :: OccursAt(s, p, i)
    decreases |s|
  {
    if StartsWith(s, p) {
      assert OccursAt(s, p, 0);
    } else if |s| > 0 {
      ContainsSpec(s[1..], p);
      if Contains(s[1..], p) {
        var j :| OccursAt(s[1..], p, j);
        assert s[1..][j..j + |p|] == s[j + 1..j + 1 + |p|];
        assert OccursAt(s, p, j + 1);
      } else {
        forall i | OccursAt(s, p, i) && i > 0
          ensures OccursAt(s[1..], p, i - 1)
        {
          assert s[1..][i - 1..i - 1 + |p|] == s[i..i + |p|];
        }
      }
    }
  }

  /** Containment is transitive: a string that contains `q` contains everything `q` contains. */
  lemma {:induction false} ContainsTransitive(s: string, q: string, p: string)
    requires Contains(s, q) && Contains(q, p)
    ensures Contains(s, p)
  {
    ContainsSpec(s, q);
    ContainsSpec(q, p);
    var i :| OccursAt(s, q, i);
    var j :| OccursAt(q, p, j);
    forall k | 0 <= k < |q|
      ensures s[i + k] == q[k]
    {
      assert s[i..i + |q|][k] == q[k];
    }
    assert s[i + j..i + j + |p|] == p by {
      forall m | 0 <= m < |p|
        ensures s[i + j..i + j + |p|][m] == p[m]
      {
        assert q[j..j + |p|][m] == p[m];
      }
    }
    assert OccursAt(s, p, i + j);
    ContainsSpec(s, p);
  }

  /** `ContainsIC` finds exactly the case-insensitive occurrences of `p` in `s`. */
  lemma {:induction false} ContainsICSpec(s: string, p: string)
    ensures ContainsIC(s, p) <==> exists i :: 0 <= i <= |s| && StartsWithIC(s[i..], p)
    decreases |s|
  {
    if StartsWithIC(s, p) {
      assert s[0..] == s;
    } else if |s| > 0 {
      ContainsICSpec(s[1..], p);
      if ContainsIC(s[1..], p) {
        var j :| 0 <= j <= |s[1..]| && StartsWithIC(s[1..][j..], p);
        assert s[1..][j..] == s[j + 1..];
      } else {
        forall i | 0 < i <= |s| && StartsWithIC(s[i..], p)
          ensures StartsWithIC(s[1..][i - 1..], p)
        {
          assert s[1..][i - 1..] == s[i..];
        }
        assert s[0..] == s;
      }
    } else {
      assert s[0..] == s;
    }
  }

  /** Case-insensitive containment is transitive. */
  lemma {:induction false} ContainsICTransitive(s: string, q: string, p: string)
    requires ContainsIC(s, q) && ContainsIC(q, p)
    ensures ContainsIC(s, p)
  {
    ContainsICSpec(s, q);
    ContainsICSpec(q, p);
    var i :| 0 <= i <= |s| && StartsWithIC(s[i..], q);
    var j :| 0 <= j <= |q| && StartsWithIC(q[j..], p);
    forall k | 0 <= k < |p|
      ensures Lower(s[i + j..][k]) == Lower(p[k])
    {
      assert s[i + j..][k] == s[i..][j + k];
      assert q[j..][k] == q[j + k];
    }
    assert StartsWithIC(s[i + j..], p);
    ContainsICSpec(s, p);
  }

  /** A string in which the first two characters of `p` never appear side by side (ignoring
      case) does not contain `p`. */
  lemma {:induction false} MissingLeadingPair(s: string, p: string)
    requires |p| >= 2
    requires forall i :: 0 <= i < |s| - 1 ==> !(Lower(s[i]) == Lower(p[0]) && Lower(s[i + 1]) == Lower(p[1]))
    ensures !ContainsIC(s, p)
    decreases |s|
  {
    if |p| <= |s| {
      assert !(Lower(s[0]) == Lower(p[0]) && Lower(s[1]) == Lower(p[1]));
    }
    if |s| > 0 {
      forall i | 0 <= i < |s[1..]| - 1
        ensures !(Lower(s[1..][i]) == Lower(p[0]) && Lower(s[1..][i + 1]) == Lower(p[1]))
      {
        assert s[1..][i] == s[i + 1] && s[1..][i + 1] == s[i + 2];
      }
      MissingLeadingPair(s[1..], p);
    }
  }

  /** Case-insensitive containment does not see the case of the searched string. */
  lemma {:induction false} ContainsICIgnoresCase(s: string, t: string, p: string)
    requires SameIgnoringCase(s, t)
    ensures ContainsIC(s, p) == ContainsIC(t, p)
    decreases |s|
  {
    if |s| > 0 {
      ContainsICIgnoresCase(s[1..], t[1..], p);
    }
  }

  /** Kotlin `Char.isWhitespace()`: Java's `isWhitespace` or `isSpaceChar`. */
  predicate IsWhitespace(c: char)
  {
    || '\U{9}' <= c <= '\U{D}'
    || '\U{1C}' <= c <= '\U{20}'
    || c == '\U{A0}' || c == '\U{1680}'
    || '\U{2000}' <= c <= '\U{200A}'
    || c == '\U{2028}' || c == '\U{2029}' || c == '\U{202F}' || c == '\U{205F}' || c == '\U{3000}'
  }

  /** Kotlin `isBlank()`: empty or whitespace only. */
  predicate IsBlank(s: string)
  {
    forall i :: 0 <= i < |s| ==> IsWhitespace(s[i])
  }

  /** Kotlin `take(n)`. */
  function Take(s: string, n: nat): (r: string)
    ensures |r| == if n < |s| then n else |s|
    ensures StartsWith(s, r)
  {
    if n < |s| then s[..n] else s
  }

  function DigitChar(d: int): (c: char)
    requires 0 <= d < 10
    ensures '0' <= c <= '9'
  {
    ('0' as int + d) as char
  }

  function DigitValue(c: char): int
  {
    c as int - '0' as int
  }

  /** Decimal digits of a natural number, most significant first, without leading zeros. */
  function NatToString(n: nat): (r: string)
    ensures |r| >= 1
    ensures forall i :: 0 <= i < |r| ==> '0' <= r[i] <= '9'
    ensures n > 0 ==> r[0] != '0'
    decreases n
  {
    if n < 10 then [DigitChar(n)] else NatToString(n / 10) + [DigitChar(n % 10)]
  }

  /** Kotlin `Int.toString()`. */
  function IntToString(n: int): (r: string)
    ensures |r| >= 1
    ensures r[0] == '-' <==> n < 0
    ensures '0' <= r[0] <= '9' <==> n >= 0
  {
    if n < 0 then "-" + NatToString(-n) else NatToString(n)
  }

  /** Reads a string of decimal digits back as a number. */
  function ParseDigits(s: string): int
  {
    if |s| == 0 then 0 else ParseDigits(s[..|s| - 1]) * 10 + DigitValue(s[|s| - 1])
  }

  /** Reads an optional minus sign followed by decimal digits. */
  function ParseInt(s: string): int
  {
    if |s| > 0 && s[0] == '-' then -ParseDigits(s[1..]) else ParseDigits(s)
  }

  /** The digits written for `n` read back as `n`. */
  lemma {:induction false} NatToStringRoundTrip(n: nat)
    ensures ParseDigits(NatToString(n)) == n
    decreases n
  {
    if n >= 10 {
      var s := NatToString(n);
      NatToStringRoundTrip(n / 10);
      assert s[..|s| - 1] == NatToString(n / 10);
    }
  }

  /** `Int.toString()` read back gives the same number. */
  lemma IntToStringRoundTrip(n: int)
    ensures ParseInt(IntToString(n)) == n
  {
    if n < 0 {
      NatToStringRoundTrip(-n);
      assert IntToString(n)[1..] == NatToString(-n);
    } else {
      NatToStringRoundTrip(n);
    }
  }

  /** Distinct numbers are written differently. */
  lemma IntToStringInjective(m: int, n: int)
    requires IntToString(m) == IntToString(n)
    ensures m == n
  {
    IntToStringRoundTrip(m);
    IntToStringRoundTrip(n);
  }
}
