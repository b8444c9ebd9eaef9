/**
 * The JavaScript string operations the journal relies on, stated over
 * `string` (a sequence of Unicode characters):
 * `includes`, `toLowerCase`, `trim`, `join`, `padStart`, `replace(/c/g, …)`
 * and the decimal rendering of integers.
 */
module Text {

  // ---------------------------------------------------------------------------
  // s.includes(p)
  // ---------------------------------------------------------------------------

  /** `p` occurs in `s` starting at index `i` (the reference definition). */
  ghost predicate OccursAt(s: string, p: string, i: int)
  {
    0 <= i && i + |p| <= |s| && s[i..i + |p|] == p
  }

  /** Characters `j..` of `p` agree with `s` from `i + j` on; compared one by one. */
  predicate MatchesFrom(s: string, p: string, i: nat, j: nat)
    requires i + |p| <= |s| && j <= |p|
    decreases |p| - j
  {
    j == |p| || (s[i + j] == p[j] && MatchesFrom(s, p, i, j + 1))
  }

  /** `p` occurs in `s` at some index `>= i`. */
  predicate ContainsFrom(s: string, p: string, i: nat)
    decreases |s| - i
  {
    i + |p| <= |s| && (MatchesFrom(s, p, i, 0) || ContainsFrom(s, p, i + 1))
  }

  /** JavaScript's `s.includes(p)`. */
  predicate Contains(s: string, p: string)
  {
    ContainsFrom(s, p, 0)
  }

  lemma {:induction false} MatchesFromIff(s: string, p: string, i: nat, j: nat)
    requires i + |p| <= |s| && j <= |p|
    ensures MatchesFrom(s, p, i, j) <==> forall k :: j <= k < |p| ==> s[i + k] == p[k]
    decreases |p| - j
  {
    if j < |p| {
      MatchesFromIff(s, p, i, j + 1);
    }
  }

  lemma {:induction false} ContainsFromIff(s: string, p: string, i: nat)
    ensures ContainsFrom(s, p, i) <==> exists k :: i <= k && OccursAt(s, p, k)
    decreases |s| - i
  {
    if i + |p| <= |s| {
      MatchesFromIff(s, p, i, 0);
      assert MatchesFrom(s, p, i, 0) <==> OccursAt(s, p, i) by {
        if MatchesFrom(s, p, i, 0) {
          assert s[i..i + |p|] == p;
        }
        if OccursAt(s, p, i) {
          forall k | 0 <= k < |p| ensures s[i + k] == p[k] {
            assert s[i..i + |p|][k] == s[i + k];
          }
        }
      }
      ContainsFromIff(s, p, i + 1);
      if exists k :: i <= k && OccursAt(s, p, k) {
        var k :| i <= k && OccursAt(s, p, k);
        assert k == i || (i + 1 <= k && OccursAt(s, p, k));
      }
    }
  }

  /** `Contains` is exactly "occurs at some index". */
  lemma ContainsIff(s: string, p: string)
    ensures Contains(s, p) <==> exists k :: OccursAt(s, p, k)
  {
    ContainsFromIff(s, p, 0);
  }

  /** A pattern with a letter the text does not have does not occur in it. */
  lemma MissingLetter(s: string, p: string, k: nat)
    requires k < |p| && p[k] !in s
    ensures !Contains(s, p)
  {
    ContainsIff(s, p);
    forall i | 0 <= i && i + |p| <= |s|
      ensures !OccursAt(s, p, i)
    {
      assert s[i..i + |p|][k] == s[i + k];
    }
  }

  /** Every string contains itself and the empty string; a longer string never fits. */
  lemma ContainsBasics(s: string, p: string)
    ensures Contains(s, s) && Contains(s, "")
    ensures |p| > |s| ==> !Contains(s, p)
  {
    ContainsIff(s, s);
    ContainsIff(s, "");
    ContainsIff(s, p);
    assert OccursAt(s, s, 0);
    assert OccursAt(s, "", 0);
  }

  // ---------------------------------------------------------------------------
  // toLowerCase
  // ---------------------------------------------------------------------------

  function LowerChar(c: char): char
  {
    if 'A' <= c <= 'Z' then (c as int + 32) as char else c
  }

  /** `s.toLowerCase()` on the ASCII letters; every other character is kept. */
  function ToLower(s: string): (r: string)
    ensures |r| == |s|
    ensures forall i :: 0 <= i < |s| ==> r[i] == LowerChar(s[i])
  {
    seq(|s|, i requires 0 <= i < |s| => LowerChar(s[i]))
  }

  lemma ToLowerIdempotent(s: string)
    ensures ToLower(ToLower(s)) == ToLower(s)
  {
  }

  // ---------------------------------------------------------------------------
  // trim
  // ---------------------------------------------------------------------------

  /** The characters `String.prototype.trim` strips: WhiteSpace and LineTerminator. */
  predicate IsSpace(c: char)
  {
    || c == '\t' || c == '\n' || c == '\U{000B}' || c == '\U{000C}' || c == '\r' || c == ' '
    || c == '\U{00A0}' || c == '\U{1680}' || ('\U{2000}' <= c <= '\U{200A}')
    || c == '\U{2028}' || c == '\U{2029}' || c == '\U{202F}' || c == '\U{205F}'
    || c == '\U{3000}' || c == '\U{FEFF}'
  }

  /** Index of the first non-space character at or after `i` (or `|s|`). */
  function SkipSpaces(s: string, i: nat): (k: nat)
    requires i <= |s|
    ensures i <= k <= |s|
    ensures forall m :: i <= m < k ==> IsSpace(s[m])
    ensures k < |s| ==> !IsSpace(s[k])
    decreases |s| - i
  {
    if i == |s| || !IsSpace(s[i]) then i else SkipSpaces(s, i + 1)
  }

  /** End of `s[..j]` once trailing spaces (not below `lo`) are dropped. */
  function DropTrailingSpaces(s: string, lo: nat, j: nat): (k: nat)
    requires lo <= j <= |s|
    ensures lo <= k <= j
    ensures forall m :: k <= m < j ==> IsSpace(s[m])
    ensures k > lo ==> !IsSpace(s[k - 1])
    decreases j
  {
    if j == lo || !IsSpace(s[j - 1]) then j else DropTrailingSpaces(s, lo, j - 1)
  }

  /** Where `s.trim()` starts: the first non-space character. */
  function TrimStart(s: string): (i: nat)
    ensures i <= |s|
  {
    SkipSpaces(s, 0)
  }

  /** Where `s.trim()` ends: just after the last non-space character. */
  function TrimEnd(s: string): (j: nat)
    ensures TrimStart(s) <= j <= |s|
  {
    DropTrailingSpaces(s, TrimStart(s), |s|)
  }

  /** `s.trim()`. */
  function Trim(s: string): (r: string)
    ensures |r| <= |s|
    ensures r != [] ==> !IsSpace(r[0]) && !IsSpace(r[|r| - 1])
    ensures r == [] <==> forall m :: 0 <= m < |s| ==> IsSpace(s[m])
  {
    s[TrimStart(s)..TrimEnd(s)]
  }

  /** Trimming removes only spaces, and only at the two ends. */
  lemma TrimRemovesOnlyEdgeSpaces(s: string)
    ensures Trim(s) == s[TrimStart(s)..TrimEnd(s)]
    ensures forall m :: 0 <= m < TrimStart(s) ==> IsSpace(s[m])
    ensures forall m :: TrimEnd(s) <= m < |s| ==> IsSpace(s[m])
  {
  }

  lemma {:induction false} TrimIdempotent(s: string)
    ensures Trim(Trim(s)) == Trim(s)
  {
    var t := Trim(s);
    if t != [] {
      assert SkipSpaces(t, 0) == 0;
      assert DropTrailingSpaces(t, 0, |t|) == |t|;
      assert t[0..|t|] == t;
    }
  }

  // ---------------------------------------------------------------------------
  // join, padStart, replace, counting
  // ---------------------------------------------------------------------------

  /** `parts.join(sep)`. */
  function Join(parts: seq<string>, sep: string): string
  {
    if |parts| == 0 then ""
    else if |parts| == 1 then parts[0]
    else parts[0] + sep + Join(parts[1..], sep)
  }

  /** Number of occurrences of `c` in `s`. */
  function CountChar(s: string, c: char): nat
  {
    if s == [] then 0 else (if s[0] == c then 1 else 0) + CountChar(s[1..], c)
  }

  lemma {:induction false} CountCharAppend(s: string, t: string, c: char)
    ensures CountChar(s + t, c) == CountChar(s, c) + CountChar(t, c)
  {
    if s != [] {
      assert (s + t)[1..] == s[1..] + t;
      CountCharAppend(s[1..], t, c);
    } else {
      assert s + t == t;
    }
  }

  /** Sum of the per-part counts. */
  function CountCharAll(parts: seq<string>, c: char): nat
  {
    if parts == [] then 0 else CountChar(parts[0], c) + CountCharAll(parts[1..], c)
  }

  /**
   * Joining `n` parts with a one-character separator adds exactly `n - 1`
   * occurrences of that character to those already in the parts.
   */
  lemma {:induction false} CountCharJoin(parts: seq<string>, c: char)
    requires |parts| > 0
    ensures CountChar(Join(parts, [c]), c) == |parts| - 1 + CountCharAll(parts, c)
  {
    if |parts| == 1 {
      assert parts[1..] == [];
    } else {
      CountCharJoin(parts[1..], c);
      CountCharAppend(parts[0] + [c], Join(parts[1..], [c]), c);
      CountCharAppend(parts[0], [c], c);
      assert CountChar([c], c) == 1 by {
        assert [c][1..] == [];
      }
    }
  }

  /** `s.padStart(len, [c])`. */
  function PadStart(s: string, len: nat, c: char): (r: string)
    ensures |r| == if |s| >= len then |s| else len
    ensures r[|r| - |s|..] == s
    ensures forall i :: 0 <= i < |r| - |s| ==> r[i] == c
  {
    if |s| >= len then s else seq(len - |s|, _ => c) + s
  }

  /** `s.replace(/c/g, rep)`: every occurrence of `c` replaced by `rep`. */
  function ReplaceAll(s: string, c: char, rep: string): (r: string)
    ensures c !in rep ==> c !in r
  {
    if s == [] then ""
    else (if s[0] == c then rep else [s[0]]) + ReplaceAll(s[1..], c, rep)
  }

  // ---------------------------------------------------------------------------
  // Decimal rendering of integers: String(n) for integral n
  // ---------------------------------------------------------------------------

  predicate IsDigit(c: char)
  {
    '0' <= c <= '9'
  }

  function DigitChar(d: nat): (c: char)
    requires d < 10
    ensures IsDigit(c)
  {
    ('0' as int + d) as char
  }

  function DigitValue(c: char): (d: nat)
    requires IsDigit(c)
    ensures d < 10
  {
    c as int - '0' as int
  }

  /** Decimal digits of `n`, without leading zeros. */
  function NatToString(n: nat): (r: string)
    ensures |r| > 0
    ensures forall i :: 0 <= i < |r| ==> IsDigit(r[i])
    ensures n < 10 <==> |r| == 1
  {
    if n < 10 then [DigitChar(n)] else NatToString(n / 10) + [DigitChar(n % 10)]
  }

  /** `String(i)` for an integer `i`. */
  function IntToString(i: int): string
  {
    if i < 0 then "-" + NatToString(-i) else NatToString(i)
  }

  /** Value of a string of decimal digits, most significant first. */
  function DigitsValue(s: string): nat
    requires forall i :: 0 <= i < |s| ==> IsDigit(s[i])
  {
    if s == [] then 0 else DigitsValue(s[..|s| - 1]) * 10 + DigitValue(s[|s| - 1])
  }

  /** Reads a non-empty string of decimal digits; anything else is `None`. */
  function ParseNat(s: string): (r: Option<nat>)
    ensures r.Some? <==> |s| > 0 && forall i :: 0 <= i < |s| ==> IsDigit(s[i])
  {
    if |s| > 0 && forall i :: 0 <= i < |s| ==> IsDigit(s[i]) then Some(DigitsValue(s)) else None
  }

  lemma {:induction false} DigitsValueOfNatToString(n: nat)
    ensures DigitsValue(NatToString(n)) == n
  {
    var s := NatToString(n);
    if n >= 10 {
      DigitsValueOfNatToString(n / 10);
      assert s[..|s| - 1] == NatToString(n / 10);
    }
  }

  /** Reading back a rendered natural number gives the number. */
  lemma ParseNatToString(n: nat)
    ensures ParseNat(NatToString(n)) == Some(n)
  {
    DigitsValueOfNatToString(n);
  }

  /** A leading zero does not change the value of a digit string. */
  lemma {:induction false} DigitsValueLeadingZero(s: string)
    requires forall i :: 0 <= i < |s| ==> IsDigit(s[i])
    ensures DigitsValue("0" + s) == DigitsValue(s)
  {
    if s != [] {
      assert ("0" + s)[..|"0" + s| - 1] == "0" + s[..|s| - 1];
      DigitsValueLeadingZero(s[..|s| - 1]);
    } else {
      assert ("0" + s)[..0] == [];
    }
  }

  datatype Option<+T> = None | Some(value: T)
}
