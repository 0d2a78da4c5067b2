/**
 * String operations the front end relies on, with JavaScript's meaning:
 * `String.prototype.split` with a non-empty separator, `includes`, ASCII
 * `toLowerCase`, lodash `trim`, `Number.prototype.toString` for integers,
 * `padStart(2, '0')`, and Python's `int(s)` for decimal strings.
 */
module Text {
  import opened Js

  /** `s.includes(d)`. */
  predicate Contains(s: string, d: string)
  {
    exists i :: 0 <= i <= |s| && MatchesAt(s, d, i)
  }

  predicate MatchesAt(s: string, d: string, i: nat)
  {
    i + |d| <= |s| && s[i..i + |d|] == d
  }

  predicate StartsWith(s: string, p: string)
  {
    |p| <= |s| && s[..|p|] == p
  }

  /** `s.split(d)` for a non-empty separator `d`: the pieces between the
      non-overlapping occurrences of `d`, found left to right. */
  function Split(s: string, d: string): (parts: seq<string>)
    requires |d| > 0
    ensures |parts| >= 1
    decreases |s|
  {
    if |s| < |d| then [s]
    else if s[..|d|] == d then [""] + Split(s[|d|..], d)
    else
      var rest := Split(s[1..], d);
      [[s[0]] + rest[0]] + rest[1..]
  }

  /** `parts.join(d)`. */
  function Join(parts: seq<string>, d: string): string
  {
    if parts == [] then ""
    else if |parts| == 1 then parts[0]
    else parts[0] + d + Join(parts[1..], d)
  }

  lemma {:induction false} JoinCons(p: string, parts: seq<string>, d: string)
    requires |parts| >= 1
    ensures Join([p] + parts, d) == p + d + Join(parts, d)
  {
    assert ([p] + parts)[1..] == parts;
  }

  lemma {:induction false} JoinPrefix(c: char, parts: seq<string>, d: string)
    requires |parts| >= 1
    ensures Join([[c] + parts[0]] + parts[1..], d) == [c] + Join(parts, d)
  {
    if |parts| > 1 {
      JoinCons([c] + parts[0], parts[1..], d);
      JoinCons(parts[0], parts[1..], d);
      assert [parts[0]] + parts[1..] == parts;
    }
  }

  /** Splitting and joining with the same separator gives the string back. */
  lemma {:induction false} JoinSplit(s: string, d: string)
    requires |d| > 0
    ensures Join(Split(s, d), d) == s
    decreases |s|
  {
    if |s| < |d| {
    } else if s[..|d|] == d {
      var rest := Split(s[|d|..], d);
      assert Split(s, d) == [""] + rest;
      assert Join([""] + rest, d) == "" + d + Join(rest, d) by {
        JoinCons("", rest, d);
      }
      JoinSplit(s[|d|..], d);
      assert s == s[..|d|] + s[|d|..];
    } else {
      var rest := Split(s[1..], d);
      assert Split(s, d) == [[s[0]] + rest[0]] + rest[1..];
      assert Join([[s[0]] + rest[0]] + rest[1..], d) == [s[0]] + Join(rest, d) by {
        JoinPrefix(s[0], rest, d);
      }
      JoinSplit(s[1..], d);
      assert s == [s[0]] + s[1..];
    }
  }

  /** Past a first character that does not start `d`, `s` contains `d`
      exactly when its tail does. */
  lemma ContainsPastFirst(s: string, d: string)
    requires |d| > 0 && |s| >= |d| && s[..|d|] != d
    ensures Contains(s, d) <==> Contains(s[1..], d)
  {
    if Contains(s, d) {
      var i :| 0 <= i <= |s| && MatchesAt(s, d, i);
      assert i != 0;
      assert i - 1 + |d| <= |s[1..]|;
      assert s[1..][i - 1..i - 1 + |d|] == s[i..i + |d|];
      assert MatchesAt(s[1..], d, i - 1);
    }
    if Contains(s[1..], d) {
      var i :| 0 <= i <= |s[1..]| && MatchesAt(s[1..], d, i);
      assert s[i + 1..i + 1 + |d|] == s[1..][i..i + |d|];
      assert MatchesAt(s, d, i + 1);
    }
  }

  /** A string splits into more than one piece exactly when it contains the separator. */
  lemma {:induction false} SplitOnePieceIff(s: string, d: string)
    requires |d| > 0
    ensures |Split(s, d)| == 1 <==> !Contains(s, d)
    ensures |Split(s, d)| == 1 ==> Split(s, d) == [s]
    decreases |s|
  {
    if |s| < |d| {
    } else if s[..|d|] == d {
      assert MatchesAt(s, d, 0);
    } else {
      SplitOnePieceIff(s[1..], d);
      ContainsPastFirst(s, d);
      if |Split(s[1..], d)| == 1 {
        assert [s[0]] + s[1..] == s;
      }
    }
  }

  function ToLowerChar(c: char): char
  {
    if 'A' <= c <= 'Z' then (c as int - 'A' as int + 'a' as int) as char else c
  }

  /** `s.toLowerCase()` on ASCII letters. */
  function ToLower(s: string): (r: string)
    ensures |r| == |s|
    ensures forall i :: 0 <= i < |s| ==> r[i] == ToLowerChar(s[i])
  {
    if s == [] then [] else [ToLowerChar(s[0])] + ToLower(s[1..])
  }

  /** The characters lodash's `trim` removes. */
  predicate IsSpace(c: char)
  {
    c == ' ' || c == '\t' || c == '\n' || c == '\r' || c == '\U{000B}' || c == '\U{000C}'
    || c == '\U{00A0}' || c == '\U{1680}' || ('\U{2000}' <= c <= '\U{200A}')
    || c == '\U{2028}' || c == '\U{2029}' || c == '\U{202F}' || c == '\U{205F}'
    || c == '\U{3000}' || c == '\U{FEFF}'
  }

  /** `s` without its leading white space. */
  function TrimStart(s: string): string
  {
    if s != [] && IsSpace(s[0]) then TrimStart(s[1..]) else s
  }

  /** `s` without its trailing white space. */
  function TrimEnd(s: string): string
  {
    if s != [] && IsSpace(s[|s| - 1]) then TrimEnd(s[..|s| - 1]) else s
  }

  /** `TrimStart` drops exactly the leading white space: a suffix is left
      that is empty or starts with something else. */
  lemma {:induction false} TrimStartSkipsSpace(s: string)
    ensures var r := TrimStart(s);
            && |r| <= |s| && r == s[|s| - |r|..]
            && (r == [] || !IsSpace(r[0]))
            && forall i {:trigger IsSpace(s[i])} :: 0 <= i < |s| - |r| ==> IsSpace(s[i])
  {
    if s != [] && IsSpace(s[0]) {
      TrimStartSkipsSpace(s[1..]);
      var r := TrimStart(s);
      assert s[1..][|s| - 1 - |r|..] == s[|s| - |r|..];
      forall i | 0 <= i < |s| - |r| ensures IsSpace(s[i]) {
        if i > 0 {
          assert s[i] == s[1..][i - 1];
        }
      }
    }
  }

  /** `TrimEnd` drops exactly the trailing white space: a prefix is left
      that is empty or ends with something else. */
  lemma {:induction false} TrimEndSkipsSpace(s: string)
    ensures var r := TrimEnd(s);
            && |r| <= |s| && r == s[..|r|]
            && (r == [] || !IsSpace(r[|r| - 1]))
            && forall i {:trigger IsSpace(s[i])} :: |r| <= i < |s| ==> IsSpace(s[i])
  {
    if s != [] && IsSpace(s[|s| - 1]) {
      TrimEndSkipsSpace(s[..|s| - 1]);
      var r := TrimEnd(s);
      assert s[..|s| - 1][..|r|] == s[..|r|];
      forall i | |r| <= i < |s| ensures IsSpace(s[i]) {
        if i < |s| - 1 {
          assert s[i] == s[..|s| - 1][i];
        }
      }
    }
  }

  /** `_.trim(s)`: `s` without leading and trailing whitespace. */
  function Trim(s: string): (r: string)
    ensures r == [] || (!IsSpace(r[0]) && !IsSpace(r[|r| - 1]))
  {
    TrimStartSkipsSpace(s);
    TrimEndSkipsSpace(TrimStart(s));
    var r := TrimEnd(TrimStart(s));
    assert r != [] ==> r[0] == TrimStart(s)[0];
    r
  }

  /** `String(n)` for an integer. */
  function IntToString(n: int): string
  {
    if n < 0 then "-" + NatToString(-n) else NatToString(n)
  }

  /** `String(n).padStart(2, '0')`. */
  function PadStart2(s: string): (r: string)
    ensures |r| == if |s| < 2 then 2 else |s|
    ensures r[|r| - |s|..] == s
  {
    if |s| == 0 then "00" else if |s| == 1 then "0" + s else s
  }

  function DigitsValue(s: string): nat
    requires forall i :: 0 <= i < |s| ==> '0' <= s[i] <= '9'
  {
    if s == [] then 0 else DigitsValue(s[..|s| - 1]) * 10 + (s[|s| - 1] as int - '0' as int)
  }

  predicate AllDigits(s: string)
  {
    forall i :: 0 <= i < |s| ==> '0' <= s[i] <= '9'
  }

  /** Whether `s` starts with a sign character. */
  predicate Signed(s: string)
  {
    s != [] && (s[0] == '+' || s[0] == '-')
  }

  /** What follows the sign, if there is one. */
  function Magnitude(s: string): string
  {
    if Signed(s) then s[1..] else s
  }

  /** Python's `int(s)` on a decimal string with an optional sign: it accepts
      exactly a sign or none followed by at least one digit, and gives the
      digits' value, negated after a minus; anything else is a `ValueError`. */
  function ParseInt(s: string): (r: Result<int>)
    ensures r.Ok? <==> Magnitude(s) != [] && AllDigits(Magnitude(s))
    ensures r.Ok? ==> r.value == if s[0] == '-' then -(DigitsValue(Magnitude(s)) as int) else DigitsValue(Magnitude(s))
    ensures r.Err? ==> r == Err(ValueError(s))
  {
    if |s| >= 2 && s[0] == '-' && AllDigits(s[1..]) then Ok(-(DigitsValue(s[1..]) as int))
    else if |s| >= 2 && s[0] == '+' && AllDigits(s[1..]) then Ok(DigitsValue(s[1..]))
    else if |s| >= 1 && AllDigits(s) then Ok(DigitsValue(s))
    else Err(ValueError(s))
  }

  lemma {:induction false} DigitsOfNat(n: nat)
    ensures DigitsValue(NatToString(n)) == n
    decreases n
  {
    if n >= 10 {
      DigitsOfNat(n / 10);
      var s := NatToString(n / 10) + [DigitChar(n % 10)];
      assert s[..|s| - 1] == NatToString(n / 10);
    }
  }

  lemma ParseNegative(m: nat)
    requires m > 0
    ensures ParseInt(IntToString(-(m as int))) == Ok(-(m as int))
  {
    var t := NatToString(m);
    DigitsOfNat(m);
    var s := "-" + t;
    assert IntToString(-(m as int)) == s;
    assert s[0] == '-' && s[1..] == t;
  }

  lemma ParseNonNegative(m: nat)
    ensures ParseInt(IntToString(m)) == Ok(m)
  {
    var t := NatToString(m);
    DigitsOfNat(m);
    assert IntToString(m) == t;
    assert !Signed(t);
  }

  /** Printing an integer and parsing it back gives the integer. */
  lemma ParseIntToString(n: int)
    ensures ParseInt(IntToString(n)) == Ok(n)
  {
    if n < 0 {
      ParseNegative(-n);
    } else {
      ParseNonNegative(n);
    }
  }

  /** The longest prefix of `s` made of decimal digits. */
  function LeadingDigits(s: string): string
  {
    if s != [] && '0' <= s[0] <= '9' then [s[0]] + LeadingDigits(s[1..]) else ""
  }

  /** The digits read are a prefix of `s`, and whatever follows them is not a
      digit. */
  lemma {:induction false} LeadingDigitsStop(s: string)
    ensures var d := LeadingDigits(s);
            && AllDigits(d) && StartsWith(s, d)
            && (|d| < |s| ==> !('0' <= s[|d|] <= '9'))
  {
    if s != [] && '0' <= s[0] <= '9' {
      LeadingDigitsStop(s[1..]);
      var d := LeadingDigits(s);
      assert d == [s[0]] + LeadingDigits(s[1..]);
      assert s[..|d|] == [s[0]] + s[1..][..|d| - 1];
      if |d| < |s| {
        assert s[|d|] == s[1..][|d| - 1];
      }
    }
  }

  lemma {:induction false} LeadingDigitsOfDigits(s: string)
    requires AllDigits(s)
    ensures LeadingDigits(s) == s
  {
    if s != [] {
      LeadingDigitsOfDigits(s[1..]);
    }
  }

  /** What `parseInt` reads digits from: `s` past leading white space and one sign. */
  function Unsigned(s: string): string
  {
    var t := TrimStart(s);
    if t != [] && (t[0] == '+' || t[0] == '-') then t[1..] else t
  }

  /** Whether `parseInt` reads a minus sign before the digits. */
  predicate Negative(s: string)
  {
    TrimStart(s) != [] && TrimStart(s)[0] == '-'
  }

  /** Whether `u` starts with `0x` or `0X`, which `parseInt` without a radix
      reads as the start of a hexadecimal number. */
  predicate HexPrefixed(u: string)
  {
    |u| >= 2 && u[0] == '0' && (u[1] == 'x' || u[1] == 'X')
  }

  /** The value of a hexadecimal digit of either case; `None` for any other
      character. */
  function HexDigit(c: char): (d: Option<nat>)
    ensures d.Some? ==> d.value < 16
    ensures '0' <= c <= '9' ==> d == Some(c as int - '0' as int)
  {
    if '0' <= c <= '9' then Some(c as int - '0' as int)
    else if 'a' <= c <= 'f' then Some(c as int - 'a' as int + 10)
    else if 'A' <= c <= 'F' then Some(c as int - 'A' as int + 10)
    else None
  }

  predicate AllHex(s: string)
  {
    forall i :: 0 <= i < |s| ==> HexDigit(s[i]).Some?
  }

  function HexValue(s: string): nat
    requires AllHex(s)
  {
    if s == [] then 0 else HexValue(s[..|s| - 1]) * 16 + HexDigit(s[|s| - 1]).value
  }

  /** The longest prefix of `s` made of hexadecimal digits. */
  function LeadingHex(s: string): (d: string)
    ensures AllHex(d) && |d| <= |s| && d == s[..|d|]
    ensures |d| < |s| ==> HexDigit(s[|d|]).None?
  {
    if s != [] && HexDigit(s[0]).Some? then
      var rest := LeadingHex(s[1..]);
      assert forall i :: 1 <= i < |rest| + 1 ==> ([s[0]] + rest)[i] == rest[i - 1];
      [s[0]] + rest
    else ""
  }

  /** JavaScript's `parseInt(s)` with no radix: leading white space, an
      optional sign, then either `0x`/`0X` and as many hexadecimal digits as
      there are, or as many decimal digits as there are. `None` is `NaN`: no
      digit was read. */
  function JsParseInt(s: string): (r: Option<int>)
    ensures HexPrefixed(Unsigned(s)) ==> (r.None? <==> LeadingHex(Unsigned(s)[2..]) == [])
    ensures !HexPrefixed(Unsigned(s)) ==> (r.None? <==> LeadingDigits(Unsigned(s)) == [])
    ensures r.Some? ==> (r.value > 0 ==> !Negative(s)) && (r.value < 0 ==> Negative(s))
  {
    var u := Unsigned(s);
    if HexPrefixed(u) then
      var h := LeadingHex(u[2..]);
      if h == [] then None
      else Some(if Negative(s) then -(HexValue(h) as int) else HexValue(h))
    else
      LeadingDigitsStop(u);
      var d := LeadingDigits(u);
      if d == [] then None
      else Some(if Negative(s) then -(DigitsValue(d) as int) else DigitsValue(d))
  }

  /** `0x` followed by hexadecimal digits is read in base 16, and `0x` with no
      digit after it is `NaN`. */
  lemma HexParses(t: string)
    requires AllHex(t)
    ensures JsParseInt("0x" + t) == if t == [] then None else Some(HexValue(t))
  {
    var s := "0x" + t;
    assert s[0] == '0' && !IsSpace(s[0]);
    assert TrimStart(s) == s && Unsigned(s) == s && !Negative(s);
    assert s[2..] == t;
    LeadingHexOfHex(t);
  }

  lemma {:induction false} LeadingHexOfHex(s: string)
    requires AllHex(s)
    ensures LeadingHex(s) == s
  {
    if s != [] {
      LeadingHexOfHex(s[1..]);
    }
  }

  lemma {:induction false} LeadingDigitsOfDigitsIf(s: string)
    requires AllDigits(s) && s != []
    ensures LeadingDigits(Unsigned(s)) == s && !Negative(s)
  {
    assert !IsSpace(s[0]) && s[0] != '+' && s[0] != '-';
    assert TrimStart(s) == s;
    assert Unsigned(s) == s;
    LeadingDigitsOfDigits(s);
  }

  /** `parseInt(String(n)) == n` for every integer `n`. */
  lemma {:induction false} JsParseIntToString(n: int)
    ensures JsParseInt(IntToString(n)) == Some(n)
  {
    var m := if n < 0 then -n else n;
    var t := NatToString(m);
    DigitsOfNat(m);
    if n < 0 {
      assert IntToString(n) == "-" + t;
      SignedParses(t, m);
    } else {
      assert IntToString(n) == t;
      UnsignedParses(t, m);
    }
  }

  lemma SignedParses(t: string, m: nat)
    requires t != [] && AllDigits(t) && DigitsValue(t) == m
    ensures JsParseInt("-" + t) == Some(-(m as int))
  {
    NegativeParses(t);
  }

  lemma UnsignedParses(t: string, m: nat)
    requires t != [] && AllDigits(t) && DigitsValue(t) == m
    ensures JsParseInt(t) == Some(m)
  {
    LeadingDigitsOfDigitsIf(t);
    ParsesDigits(t, t);
  }

  /** `parseInt` reads a minus sign followed by digits as the negated digits. */
  lemma NegativeParses(t: string)
    requires t != [] && AllDigits(t)
    ensures JsParseInt("-" + t) == Some(-(DigitsValue(t) as int))
  {
    MinusSign(t);
    LeadingDigitsOfDigits(t);
    ParsesDigits("-" + t, t);
  }

  /** `parseInt` on a string whose digits past the sign are `t`. */
  lemma ParsesDigits(s: string, t: string)
    requires !HexPrefixed(Unsigned(s))
    requires LeadingDigits(Unsigned(s)) == t && t != [] && AllDigits(t)
    ensures JsParseInt(s) == Some(if Negative(s) then -(DigitsValue(t) as int) else DigitsValue(t))
  {
  }

  /** A minus sign before digits is read as the sign. */
  lemma MinusSign(t: string)
    ensures Unsigned("-" + t) == t && Negative("-" + t)
  {
    var s := "-" + t;
    assert s[0] == '-' && !IsSpace(s[0]);
    assert TrimStart(s) == s;
    assert s[1..] == t;
  }
}
