/** Vocabulary shared by the modules: optional values, and integers as Python prints and reads them. */
module Options {
  datatype Option<+T> = None | Some(value: T)
}

/** Small functions on strings and numbers that several modules use. */
module Text {
  predicate StartsWith(s: string, prefix: string) { |prefix| <= |s| && s[..|prefix|] == prefix }

  predicate EndsWith(s: string, suffix: string) { |suffix| <= |s| && s[|s| - |suffix|..] == suffix }

  function Max(a: real, b: real): real { if a < b then b else a }
}

/** `str(n)` for a Python integer, and the part of `int(s)` that accepts ASCII text. */
module Decimal {
  import opened Options

  function Digit(d: nat): char
    requires d < 10
  {
    ('0' as int + d) as char
  }

  predicate IsDigit(c: char) { '0' <= c <= '9' }

  /** The ASCII characters that Python takes for blanks. */
  predicate IsSpace(c: char) { c == ' ' || '\t' <= c <= '\r' || '\U{1C}' <= c <= '\U{1F}' }

  function RenderNat(n: nat): string {
    if n < 10 then [Digit(n)] else RenderNat(n / 10) + [Digit(n % 10)]
  }

  function Render(n: int): string {
    if n < 0 then "-" + RenderNat(-n) else RenderNat(n)
  }

  /** Digits, with single underscores allowed between two digits. */
  function ParseNat(s: string): Option<nat> {
    if s == [] || !IsDigit(s[|s| - 1]) then None
    else
      var d := s[|s| - 1] as int - '0' as int;
      if |s| == 1 then Some(d)
      else
        var rest := if s[|s| - 2] == '_' then s[..|s| - 2] else s[..|s| - 1];
        match ParseNat(rest)
        case None => None
        case Some(v) => Some(10 * v + d)
  }

  function StripLeft(s: string): string {
    if s != [] && IsSpace(s[0]) then StripLeft(s[1..]) else s
  }

  function StripRight(s: string): string {
    if s != [] && IsSpace(s[|s| - 1]) then StripRight(s[..|s| - 1]) else s
  }

  function Strip(s: string): string { StripRight(StripLeft(s)) }

  /** `int(s)`: surrounding blanks and one sign are accepted, anything else is an error. */
  function ParseInt(s: string): Option<int> {
    var t := Strip(s);
    if t != [] && t[0] == '-' then
      match ParseNat(t[1..])
      case None => None
      case Some(v) => var n: int := v; Some(-n)
    else
      ParseNat(if t != [] && t[0] == '+' then t[1..] else t)
  }

  lemma {:induction false} RenderNatShape(n: nat)
    ensures RenderNat(n) != []
    ensures forall i :: 0 <= i < |RenderNat(n)| ==> IsDigit(RenderNat(n)[i])
    ensures ParseNat(RenderNat(n)) == Some(n)
  {
    if n >= 10 {
      RenderNatShape(n / 10);
      var s := RenderNat(n);
      assert s[..|s| - 1] == RenderNat(n / 10);
      assert IsDigit(s[|s| - 2]);
    }
  }

  /** Reading back a printed integer gives that integer. */
  lemma RenderRoundTrip(n: int)
    ensures ParseInt(Render(n)) == Some(n)
    ensures forall c :: c in Render(n) ==> IsDigit(c) || c == '-'
  {
    var m := if n < 0 then -n else n;
    RenderNatShape(m);
    var s := Render(n);
    assert !IsSpace(s[0]) && !IsSpace(s[|s| - 1]);
    if n < 0 {
      assert s[1..] == RenderNat(m);
    }
  }

  // ---- What stripping and reading mean ----

  lemma {:induction false} StripLeftMeans(s: string) returns (i: nat)
    ensures i <= |s| && StripLeft(s) == s[i..] && (forall k :: 0 <= k < i ==> IsSpace(s[k])) && (i < |s| ==> !IsSpace(s[i]))
  {
    if s != [] && IsSpace(s[0]) {
      i := StripLeftMeans(s[1..]);
      assert forall k :: 0 < k < |s| ==> s[k] == s[1..][k - 1];
      i := i + 1;
    } else {
      i := 0;
    }
  }

  lemma {:induction false} StripRightMeans(s: string) returns (j: nat)
    ensures j <= |s| && StripRight(s) == s[..j] && (forall k :: j <= k < |s| ==> IsSpace(s[k])) && (j > 0 ==> !IsSpace(s[j - 1]))
  {
    if s != [] && IsSpace(s[|s| - 1]) {
      j := StripRightMeans(s[..|s| - 1]);
    } else {
      j := |s|;
    }
  }

  /** Stripping cuts the blanks off both ends, all of them and nothing else. */
  lemma StripMeans(s: string) returns (i: nat, j: nat)
    ensures i <= j <= |s| && Strip(s) == s[i..j]
    ensures forall k :: 0 <= k < i || j <= k < |s| ==> IsSpace(s[k])
    ensures i < j ==> !IsSpace(s[i]) && !IsSpace(s[j - 1])
  {
    i := StripLeftMeans(s);
    var t := s[i..];
    j := StripRightMeans(t);
    assert forall k :: 0 <= k < |t| ==> t[k] == s[i + k];
    assert forall k :: i <= k < |s| ==> s[k] == t[k - i];
    j := i + j;
  }

  /** Digits, with single underscores between two digits. */
  predicate Readable(s: string) {
    && s != "" && IsDigit(s[0]) && IsDigit(s[|s| - 1])
    && (forall i :: 0 <= i < |s| ==> IsDigit(s[i]) || s[i] == '_')
    && (forall i :: 0 <= i < |s| - 1 && s[i] == '_' ==> s[i + 1] != '_')
  }

  function Digits(s: string): string {
    if s == "" then "" else Digits(s[..|s| - 1]) + if s[|s| - 1] == '_' then "" else [s[|s| - 1]]
  }

  function Power(n: nat): nat { if n == 0 then 1 else 10 * Power(n - 1) }

  /** The number that decimal digits write, place by place. */
  function Value(digits: string): nat
    requires forall i :: 0 <= i < |digits| ==> IsDigit(digits[i])
  {
    if digits == "" then 0
    else
      assert IsDigit(digits[0]);
      var d: nat := digits[0] as int - '0' as int;
      d * Power(|digits| - 1) + Value(digits[1..])
  }

  lemma {:induction false} ValueAppend(digits: string, c: char)
    requires IsDigit(c) && forall i :: 0 <= i < |digits| ==> IsDigit(digits[i])
    ensures Value(digits + [c]) == 10 * Value(digits) + (c as int - '0' as int)
  {
    if digits == "" {
      assert digits + [c] == [c] && [c][1..] == "";
      assert Power(0) == 1;
    } else {
      assert (digits + [c])[1..] == digits[1..] + [c];
      ValueAppend(digits[1..], c);
      var d, p := digits[0] as int - '0' as int, Power(|digits| - 1);
      assert d * (10 * p) == 10 * (d * p);
    }
  }

  lemma {:induction false} DigitsAreDigits(s: string)
    requires forall i :: 0 <= i < |s| ==> IsDigit(s[i]) || s[i] == '_'
    ensures forall i :: 0 <= i < |Digits(s)| ==> IsDigit(Digits(s)[i])
  {
    if s != "" { DigitsAreDigits(s[..|s| - 1]); }
  }

  /** A text is read as a natural number exactly if it is readable, and then as the number its digits write. */
  lemma {:induction false} ParseNatExactly(s: string)
    ensures ParseNat(s).Some? <==> Readable(s)
    ensures Readable(s) ==> (forall i :: 0 <= i < |Digits(s)| ==> IsDigit(Digits(s)[i])) && ParseNat(s) == Some(Value(Digits(s)))
  {
    if s != "" && IsDigit(s[|s| - 1]) {
      var n, c := |s| - 1, s[|s| - 1];
      if n == 0 {
        assert Digits(s[..0]) == "" && Digits(s) == [c] && [c][1..] == "";
        assert Value([c]) == c as int - '0' as int by { assert Power(0) == 1; }
      } else if s[n - 1] == '_' {
        var rest := s[..n - 1];
        ParseNatExactly(rest);
        assert s[..n][..n - 1] == rest && Digits(s[..n]) == Digits(rest);
        ReadableUnderscore(s);
        if Readable(rest) { ValueAppend(Digits(rest), c); }
      } else {
        ParseNatExactly(s[..n]);
        ReadableDigit(s);
        if Readable(s[..n]) { ValueAppend(Digits(s[..n]), c); }
      }
    }
    if Readable(s) { DigitsAreDigits(s); }
  }

  lemma ReadableUnderscore(s: string)
    requires |s| > 1 && IsDigit(s[|s| - 1]) && s[|s| - 2] == '_'
    ensures Readable(s) <==> Readable(s[..|s| - 2])
  {
    var rest := s[..|s| - 2];
    assert forall i :: 0 <= i < |rest| ==> s[i] == rest[i];
    if Readable(s) && |s| > 2 { assert s[|s| - 3] != '_'; }
  }

  lemma ReadableDigit(s: string)
    requires |s| > 1 && IsDigit(s[|s| - 1]) && s[|s| - 2] != '_'
    ensures Readable(s) <==> Readable(s[..|s| - 1])
  {
    var rest := s[..|s| - 1];
    assert forall i :: 0 <= i < |rest| ==> s[i] == rest[i];
  }

  /** A text is read as an integer exactly if, its blanks cut off, it is a readable number with at most one sign before it. */
  lemma ParseIntExactly(s: string, n: int)
    ensures ParseInt(s) == Some(n) <==>
              var t := Strip(s);
              || (Readable(t) && n == Reading(t))
              || (t != "" && t[0] == '+' && Readable(t[1..]) && n == Reading(t[1..]))
              || (t != "" && t[0] == '-' && Readable(t[1..]) && n == 0 - Reading(t[1..]))
  {
    hide Strip, Digits, Value, ParseNat;
    var t := Strip(s);
    ParseNatExactly(t);
    if t != "" { ParseNatExactly(t[1..]); }
  }

  function Reading(s: string): nat
    requires Readable(s)
  {
    DigitsAreDigits(s);
    Value(Digits(s))
  }
}
