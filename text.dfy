/**
 * String helpers the page's scripts lean on: `toLowerCase` (on ASCII letters),
 * `String.prototype.includes`, and the decimal rendering of an integer that a
 * template literal such as `${temp}` performs.
 */
module Text {

  /** `toLowerCase` on one character: A-Z map to a-z, everything else is kept. */
  function LowerChar(c: char): char
  {
    if 'A' <= c <= 'Z' then (c as int + 32) as char else c
  }

  /** `s.toLowerCase()`, character by character. */
  function Lower(s: string): string
  {
    seq(|s|, i requires 0 <= i < |s| => LowerChar(s[i]))
  }

  lemma LowerAppend(s: string, t: string)
    ensures Lower(s + t) == Lower(s) + Lower(t)
  {
    var l, r := Lower(s + t), Lower(s) + Lower(t);
    forall i | 0 <= i < |l| ensures l[i] == r[i] {
      if i < |s| { assert (s + t)[i] == s[i]; } else { assert (s + t)[i] == t[i - |s|]; }
    }
  }

  /** Two strings that differ only in the case of their letters lower-case alike. */
  lemma LowerIgnoresCase(s: string, t: string)
    requires |s| == |t|
    requires forall i :: 0 <= i < |s| ==> LowerChar(s[i]) == LowerChar(t[i])
    ensures Lower(s) == Lower(t)
  {
    var l, r := Lower(s), Lower(t);
    assert forall i :: 0 <= i < |l| ==> l[i] == r[i];
  }

  /** `w` occurs in `s` starting at index `i`. */
  predicate OccursAt(s: string, w: string, i: nat)
  {
    i + |w| <= |s| && s[i..i + |w|] == w
  }

  /** `s.includes(w)`: `w` occurs in `s` at some start position. */
  predicate Contains(s: string, w: string)
  {
    exists i: nat | i <= |s| :: OccursAt(s, w, i)
  }

  /** The search `includes` performs: try the start of `s`, then move one position right. */
  predicate Scan(s: string, w: string)
    decreases |s|
  {
    (|w| <= |s| && s[..|w|] == w) || (|s| > 0 && Scan(s[1..], w))
  }

  /** The left-to-right search finds `w` exactly when `w` occurs somewhere in `s`. */
  lemma {:induction false} ScanIff(s: string, w: string)
    ensures Scan(s, w) <==> Contains(s, w)
    decreases |s|
  {
    if Scan(s, w) {
      if |w| <= |s| && s[..|w|] == w {
        assert OccursAt(s, w, 0);
      } else {
        ScanIff(s[1..], w);
        var j: nat :| j <= |s[1..]| && OccursAt(s[1..], w, j);
        assert s[1..][j..j + |w|] == s[j + 1..j + 1 + |w|];
        assert OccursAt(s, w, j + 1);
      }
    }
    if Contains(s, w) {
      var i: nat :| i <= |s| && OccursAt(s, w, i);
      if i == 0 {
        assert s[..|w|] == w;
      } else {
        assert s[1..][i - 1..i - 1 + |w|] == s[i..i + |w|];
        assert OccursAt(s[1..], w, i - 1);
        ScanIff(s[1..], w);
      }
    }
  }

  /** Text around an occurrence never hides it. */
  lemma ContainsInContext(before: string, s: string, after: string, w: string)
    requires Contains(s, w)
    ensures Contains(before + s + after, w)
  {
    var i: nat :| i <= |s| && OccursAt(s, w, i);
    var whole := before + s + after;
    assert whole[|before| + i..|before| + i + |w|] == s[i..i + |w|];
    assert OccursAt(whole, w, |before| + i);
  }

  /** A string lacking some character of `w` cannot contain `w`. */
  lemma MissingCharExcludes(s: string, w: string, c: char)
    requires c in w && c !in s
    ensures !Contains(s, w)
  {
    forall i: nat | i <= |s| ensures !OccursAt(s, w, i) {
      OccurrenceChars(s, w, i);
    }
  }

  /** Every character of an occurrence is a character of the text. */
  lemma OccurrenceChars(s: string, w: string, i: nat)
    ensures OccursAt(s, w, i) ==> forall c :: c in w ==> c in s
  {
    if OccursAt(s, w, i) {
      forall c | c in w ensures c in s {
        var j :| 0 <= j < |w| && w[j] == c;
        assert s[i + j] == s[i..i + |w|][j];
      }
    }
  }

  function DigitChar(d: nat): char
    requires d < 10
  {
    "0123456789"[d]
  }

  function DigitValue(c: char): nat
  {
    if '0' <= c <= '9' then c as int - '0' as int else 0
  }

  /** Decimal digits of a natural number, most significant first, no leading zero. */
  function NatToString(n: nat): (r: string)
    ensures |r| > 0
    decreases n
  {
    if n < 10 then [DigitChar(n)] else NatToString(n / 10) + [DigitChar(n % 10)]
  }

  /** The rendering is all decimal digits, with no leading zero. */
  lemma {:induction false} NatToStringDigits(n: nat)
    ensures forall i :: 0 <= i < |NatToString(n)| ==> '0' <= NatToString(n)[i] <= '9'
    ensures NatToString(n)[0] == '0' ==> n == 0
    decreases n
  {
    if n >= 10 {
      NatToStringDigits(n / 10);
    }
  }

  /**
   * `String(n)` for an integer `n` below 10^21 in magnitude (beyond that
   * JavaScript switches to exponent form): a minus sign, then the digits of `|n|`.
   */
  function IntToString(n: int): string
  {
    if n < 0 then "-" + NatToString(-n) else NatToString(n)
  }

  /** Reads decimal digits back, most significant first. */
  function ParseNat(s: string): nat
  {
    if s == [] then 0 else ParseNat(s[..|s| - 1]) * 10 + DigitValue(s[|s| - 1])
  }

  function ParseInt(s: string): int
  {
    if |s| > 0 && s[0] == '-' then -(ParseNat(s[1..]) as int) else ParseNat(s)
  }

  lemma {:induction false} NatToStringRoundTrip(n: nat)
    ensures ParseNat(NatToString(n)) == n
    decreases n
  {
    var s := NatToString(n);
    if n < 10 {
      assert s[..|s| - 1] == [];
    } else {
      NatToStringRoundTrip(n / 10);
      assert s[..|s| - 1] == NatToString(n / 10);
    }
  }

  /** The rendered integer determines the integer: `ParseInt` inverts `IntToString`. */
  lemma IntToStringRoundTrip(n: int)
    ensures ParseInt(IntToString(n)) == n
  {
    var s := IntToString(n);
    if n < 0 {
      var digits := NatToString(-n);
      assert s[0] == '-' && s[1..] == digits;
      NatToStringRoundTrip(-n);
      assert ParseInt(s) == -(ParseNat(digits) as int);
    } else {
      NatToStringDigits(n);
      assert s[0] != '-';
      NatToStringRoundTrip(n);
      assert ParseInt(s) == ParseNat(s);
    }
  }
}
