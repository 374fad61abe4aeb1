/** The JavaScript string built-ins the handlers rely on: `split` on one
    separator character, `trim`, and `Number()` restricted to optionally signed
    decimal integers. */
module Text {
  import opened Types

  // ---------------------------------------------------------------------------
  // String.prototype.split with a one-character separator
  // ---------------------------------------------------------------------------

  /** `s.split(sep)`: the maximal separator-free pieces, in order. The result is
      never empty: `"".split(",")` is `[""]`. */
  function Split(s: string, sep: char): (r: seq<string>)
    ensures |r| >= 1
    decreases |s|
  {
    if s == [] then [[]]
    else
      var rest := Split(s[1..], sep);
      if s[0] == sep then [[]] + rest
      else [[s[0]] + rest[0]] + rest[1..]
  }

  /** `parts.join(sep)`, the inverse of `Split`. */
  function Join(parts: seq<string>, sep: char): string
    requires |parts| >= 1
    decreases |parts|
  {
    if |parts| == 1 then parts[0] else parts[0] + [sep] + Join(parts[1..], sep)
  }

  /** Number of occurrences of `c` in `s`. */
  function Occurrences(s: string, c: char): nat
    decreases |s|
  {
    if s == [] then 0 else (if s[0] == c then 1 else 0) + Occurrences(s[1..], c)
  }

  /** Joining the pieces with the separator gives the string back. */
  lemma {:induction false} SplitJoin(s: string, sep: char)
    ensures Join(Split(s, sep), sep) == s
    decreases |s|
  {
    if s != [] {
      var rest := Split(s[1..], sep);
      SplitJoin(s[1..], sep);
      if s[0] == sep {
        assert Join(Split(s, sep), sep) == [] + [sep] + Join(rest, sep);
      } else if |rest| == 1 {
        assert Split(s, sep) == [[s[0]] + rest[0]];
      } else {
        assert Join(rest, sep) == rest[0] + [sep] + Join(rest[1..], sep);
        assert Split(s, sep)[1..] == rest[1..];
      }
    }
  }

  /** No piece contains the separator, and there is one piece more than there are
      separators. */
  lemma {:induction false} SplitPieces(s: string, sep: char)
    ensures forall i :: 0 <= i < |Split(s, sep)| ==> sep !in Split(s, sep)[i]
    ensures |Split(s, sep)| == Occurrences(s, sep) + 1
    decreases |s|
  {
    if s != [] {
      SplitPieces(s[1..], sep);
      var rest := Split(s[1..], sep);
      var r := Split(s, sep);
      if s[0] != sep {
        forall i | 0 <= i < |r| ensures sep !in r[i] {
          if i == 0 {
            assert r[0] == [s[0]] + rest[0];
          } else {
            assert r[i] == rest[i];
          }
        }
      }
    }
  }

  /** A string without the separator splits into itself. */
  lemma {:induction false} SplitWithoutSeparator(t: string, sep: char)
    requires sep !in t
    ensures Split(t, sep) == [t]
    decreases |t|
  {
    if t != [] {
      SplitWithoutSeparator(t[1..], sep);
      assert [t[0]] + t[1..] == t;
    }
  }

  /** A separator-free prefix followed by the separator is split off as the
      first piece. */
  lemma {:induction false} SplitAfterPrefix(p: string, sep: char, rest: string)
    requires sep !in p
    ensures Split(p + [sep] + rest, sep) == [p] + Split(rest, sep)
    decreases |p|
  {
    if p == [] {
      assert p + [sep] + rest == [sep] + rest;
    } else {
      var s := p + [sep] + rest;
      assert s[1..] == p[1..] + [sep] + rest;
      SplitAfterPrefix(p[1..], sep, rest);
      assert [p[0]] + p[1..] == p;
    }
  }

  // ---------------------------------------------------------------------------
  // String.prototype.trim
  // ---------------------------------------------------------------------------

  /** The white-space characters `trim` removes (the ASCII ones and two common
      Unicode ones; see README for the rest). */
  predicate IsSpace(c: char)
  {
    c == ' ' || c == '\t' || c == '\n' || c == '\r' || c == '\U{000B}' || c == '\U{000C}'
      || c == '\U{00A0}' || c == '\U{FEFF}'
  }

  function TrimStart(s: string): (r: string)
    ensures |r| <= |s| && r == s[|s| - |r|..]
    ensures r == [] || !IsSpace(r[0])
    ensures forall j :: 0 <= j < |s| - |r| ==> IsSpace(s[j])
    decreases |s|
  {
    if s != [] && IsSpace(s[0]) then TrimStart(s[1..]) else s
  }

  function TrimEnd(s: string): (r: string)
    ensures |r| <= |s| && r == s[..|r|]
    ensures r == [] || !IsSpace(r[|r| - 1])
    ensures forall j :: |r| <= j < |s| ==> IsSpace(s[j])
    decreases |s|
  {
    if s != [] && IsSpace(s[|s| - 1]) then TrimEnd(s[..|s| - 1]) else s
  }

  /** `s.trim()`: the string without its leading and trailing white space. It
      neither starts nor ends with white space; `TrimCutsWhiteSpace` shows it is
      the slice of `s` left after cutting only white space off both ends. */
  function Trim(s: string): (r: string)
    ensures |r| <= |s|
    ensures r == [] || (!IsSpace(r[0]) && !IsSpace(r[|r| - 1]))
  {
    var t := TrimStart(s);
    var r := TrimEnd(t);
    assert r != [] ==> r[0] == t[0];
    r
  }

  /** `r` is `s[i..j]`, and everything cut off on either side is white space. */
  ghost predicate CutAt(s: string, r: string, i: int, j: int)
  {
    && 0 <= i <= j <= |s| && r == s[i..j]
    && (forall k :: 0 <= k < i ==> IsSpace(s[k]))
    && (forall k :: j <= k < |s| ==> IsSpace(s[k]))
  }

  /** `r` is what is left of `s` after cutting white space off both ends. */
  ghost predicate TrimmedFrom(s: string, r: string)
  {
    exists i, j :: CutAt(s, r, i, j)
  }

  /** `trim` removes white space from both ends and nothing else: its result is
      a slice of `s`, and everything cut off on either side is white space. */
  lemma TrimCutsWhiteSpace(s: string)
    ensures TrimmedFrom(s, Trim(s))
  {
    var t := TrimStart(s);
    var r := TrimEnd(t);
    var i := |s| - |t|;
    CutEnd(s, t, r, i);
    assert CutAt(s, Trim(s), i, i + |r|);
  }

  /** Cutting a suffix of white space off the tail `s[i..]` of `s` leaves a
      slice of `s`, and what was cut is white space in `s` too. */
  lemma CutEnd(s: string, t: string, r: string, i: nat)
    requires i <= |s| && t == s[i..]
    requires |r| <= |t| && r == t[..|r|]
    requires forall k :: |r| <= k < |t| ==> IsSpace(t[k])
    ensures i + |r| <= |s| && r == s[i..i + |r|]
    ensures forall k :: i + |r| <= k < |s| ==> IsSpace(s[k])
  {
    forall k | i + |r| <= k < |s|
      ensures IsSpace(s[k])
    {
      assert s[k] == t[k - i];
    }
  }

  lemma TrimIdempotent(s: string)
    ensures Trim(Trim(s)) == Trim(s)
  {
    var r := Trim(s);
    assert TrimStart(r) == r;
    assert TrimEnd(r) == r;
  }

  // ---------------------------------------------------------------------------
  // Decimal digits
  // ---------------------------------------------------------------------------

  predicate IsDigit(c: char)
  {
    '0' <= c <= '9'
  }

  predicate AllDigits(s: string)
  {
    forall i :: 0 <= i < |s| ==> IsDigit(s[i])
  }

  /** The value of a string of decimal digits, most significant first. */
  function DigitsValue(s: string): nat
    requires AllDigits(s)
    decreases |s|
  {
    if s == [] then 0 else DigitsValue(s[..|s| - 1]) * 10 + (s[|s| - 1] as int - '0' as int)
  }

  /** The decimal spelling of a natural number, without leading zeros. */
  function ShowNat(n: nat): (s: string)
    ensures |s| >= 1 && AllDigits(s)
    ensures |s| > 1 ==> s[0] != '0'
    decreases n
  {
    var d := ['0' + (n % 10) as char];
    if n < 10 then d else ShowNat(n / 10) + d
  }

  /** Reading back a spelled-out number gives the number. */
  lemma {:induction false} ShowNatRoundTrip(n: nat)
    ensures DigitsValue(ShowNat(n)) == n
    decreases n
  {
    if n >= 10 {
      ShowNatRoundTrip(n / 10);
      var s := ShowNat(n);
      assert s[..|s| - 1] == ShowNat(n / 10);
    }
  }

  // ---------------------------------------------------------------------------
  // Number(), on the decimal-integer fragment
  // ---------------------------------------------------------------------------

  /** The shape `Number()` accepts in this model: an empty string, or decimal
      digits with an optional leading sign. */
  predicate Numeric(t: string)
  {
    t == [] || AllDigits(t) || (|t| > 1 && (t[0] == '+' || t[0] == '-') && AllDigits(t[1..]))
  }

  /** `Number` on text already stripped of surrounding white space: the empty
      string is 0, a digit string with an optional sign is its signed decimal
      value, and anything else is NaN (`None`). */
  function NumberOfTrimmed(t: string): (r: Option<int>)
    ensures r.Some? <==> Numeric(t)
    ensures t == [] ==> r == Some(0)
  {
    if t == [] then Some(0)
    else if AllDigits(t) then Some(DigitsValue(t))
    else if |t| > 1 && t[0] == '-' && AllDigits(t[1..]) then Some(-(DigitsValue(t[1..]) as int))
    else if |t| > 1 && t[0] == '+' && AllDigits(t[1..]) then Some(DigitsValue(t[1..]))
    else None
  }

  /** `Number(s)` on decimal integers: surrounding white space is ignored, the
      empty string is 0, anything else that is not a signed digit string is
      NaN (`None`). */
  function JsNumber(s: string): (r: Option<int>)
    ensures r.Some? <==> Numeric(Trim(s))
    ensures Trim(s) == [] ==> r == Some(0)
  {
    NumberOfTrimmed(Trim(s))
  }

  /** A digit string does not change under `trim`. */
  lemma TrimDigits(s: string)
    requires |s| >= 1 && AllDigits(s)
    ensures Trim(s) == s
  {
    assert !IsSpace(s[0]);
    assert TrimStart(s) == s;
    assert !IsSpace(s[|s| - 1]);
  }

  /** `Number` reads the decimal spelling of n as n. */
  lemma JsNumberShowNat(n: nat)
    ensures JsNumber(ShowNat(n)) == Some(n)
  {
    TrimDigits(ShowNat(n));
    ShowNatRoundTrip(n);
  }

  /** A string that starts and ends with a non-space character does not change
      under `trim`. */
  lemma TrimUnspaced(s: string)
    requires |s| >= 1 && !IsSpace(s[0]) && !IsSpace(s[|s| - 1])
    ensures Trim(s) == s
  {
    assert TrimStart(s) == s;
  }

  /** A leading zero does not change the value of a digit string. */
  lemma {:induction false} LeadingZeroValue(d: string)
    requires AllDigits(d)
    ensures AllDigits(['0'] + d) && DigitsValue(['0'] + d) == DigitsValue(d)
    decreases |d|
  {
    var z := ['0'] + d;
    assert forall i :: 0 <= i < |z| ==> z[i] == '0' || z[i] == d[i - 1];
    if d != [] {
      var init := d[..|d| - 1];
      assert AllDigits(init) by {
        assert forall i :: 0 <= i < |init| ==> init[i] == d[i];
      }
      LeadingZeroValue(init);
      assert z[..|z| - 1] == ['0'] + init;
      assert z[|z| - 1] == d[|d| - 1];
    }
  }

  /** A sign followed by digits does not change under `trim`. */
  lemma SignedUntrimmed(sign: char, d: string)
    requires sign == '+' || sign == '-'
    requires |d| >= 1 && AllDigits(d)
    ensures Trim([sign] + d) == [sign] + d
  {
    var t := [sign] + d;
    assert t[|t| - 1] == d[|d| - 1];
    TrimUnspaced(t);
  }

  /** On trimmed text, a sign followed by digits is read as the signed value of
      the digits. */
  lemma NumberOfSigned(sign: char, d: string)
    requires sign == '+' || sign == '-'
    requires |d| >= 1 && AllDigits(d)
    ensures NumberOfTrimmed([sign] + d) == Some(if sign == '-' then -(DigitsValue(d) as int) else DigitsValue(d))
  {
    var t := [sign] + d;
    assert t[1..] == d;
    assert !IsDigit(t[0]);
  }

  /** `Number` reads a plus sign followed by digits as their value. */
  lemma JsNumberPlus(d: string)
    requires |d| >= 1 && AllDigits(d)
    ensures JsNumber(['+'] + d) == Some(DigitsValue(d))
  {
    SignedUntrimmed('+', d);
    NumberOfSigned('+', d);
  }

  /** `Number` reads a minus sign followed by digits as their negated value. */
  lemma JsNumberMinus(d: string)
    requires |d| >= 1 && AllDigits(d)
    ensures JsNumber(['-'] + d) == Some(-(DigitsValue(d) as int))
  {
    SignedUntrimmed('-', d);
    NumberOfSigned('-', d);
  }

  /** `Number` reads a digit string, with or without a sign in front and with
      any number of leading zeros, as its decimal value. */
  lemma JsNumberDigits(d: string)
    requires |d| >= 1 && AllDigits(d)
    ensures JsNumber(d) == Some(DigitsValue(d))
    ensures JsNumber("+" + d) == Some(DigitsValue(d))
    ensures JsNumber("-" + d) == Some(-(DigitsValue(d) as int))
  {
    TrimDigits(d);
    JsNumberPlus(d);
    JsNumberMinus(d);
  }

  /** Leading zeros do not change the number: "05" and "+05" read as 5. */
  lemma JsNumberLeadingZero(d: string)
    requires |d| >= 1 && AllDigits(d)
    ensures JsNumber(['0'] + d) == JsNumber(d)
    ensures JsNumber("+" + (['0'] + d)) == JsNumber(d)
  {
    LeadingZeroValue(d);
    JsNumberDigits(d);
    JsNumberDigits(['0'] + d);
  }

  /** A leading minus sign never yields a positive number. */
  lemma JsNumberMinusNotPositive(s: string)
    requires |Trim(s)| > 1 && Trim(s)[0] == '-'
    ensures JsNumber(s) == None || JsNumber(s).value <= 0
  {
  }

  /** Trimming first does not change the number. */
  lemma JsNumberTrim(s: string)
    ensures JsNumber(Trim(s)) == JsNumber(s)
  {
    var t := Trim(s);
    TrimIdempotent(s);
    assert Trim(t) == t;
  }
}
