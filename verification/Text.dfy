/** The text layer that client and server share: `split`, which is strtok in a
    loop, and the decimal conversions to_string, stoi and stod.  Strings contain
    no NUL, and numbers fit the target type. */
module Text {
  import opened Wrappers

  // ---------------------------------------------------------------- split

  /** The length of the leading run of characters other than sep. */
  function RunLength(s: string, sep: char): (n: nat)
    ensures n <= |s|
    ensures forall k | 0 <= k < n :: s[k] != sep
    ensures n < |s| ==> s[n] == sep
  {
    if s == "" || s[0] == sep then 0 else 1 + RunLength(s[1..], sep)
  }

  /** The tokens of s: its maximal runs of characters other than sep. */
  function Split(s: string, sep: char): seq<string>
    decreases |s|
  {
    if s == "" then []
    else if s[0] == sep then Split(s[1..], sep)
    else
      var n := RunLength(s, sep);
      [s[..n]] + Split(s[n..], sep)
  }

  lemma {:induction false} SplitSkips(s: string, i: nat, sep: char)
    requires i < |s| && s[i] == sep
    ensures Split(s[i..], sep) == Split(s[i + 1..], sep)
  {
  }

  lemma {:induction false} SplitTakes(s: string, i: nat, j: nat, sep: char)
    requires i < j <= |s| && (forall k | i <= k < j :: s[k] != sep) && (j < |s| ==> s[j] == sep)
    ensures Split(s[i..], sep) == [s[i..j]] + Split(s[j..], sep)
  {
    assert s[i..] == s[i..j] + s[j..];
    RunWhole(s[i..j], s[j..], sep);
    assert s[i..][..j - i] == s[i..j] && s[i..][j - i..] == s[j..];
  }

  /** strtok: skip separators, then the token up to the next separator, or NULL. */
  method Strtok(s: string, from: nat, sep: char) returns (current: Option<string>, next: nat)
    requires from <= |s|
    ensures from <= next <= |s|
    ensures current.None? ==> Split(s[from..], sep) == []
    ensures current.Some? ==> from < next && Split(s[from..], sep) == [current.value] + Split(s[next..], sep)
  {
    var start := from;
    while start < |s| && s[start] == sep
      invariant from <= start <= |s|
      invariant Split(s[from..], sep) == Split(s[start..], sep)
    {
      SplitSkips(s, start, sep);
      start := start + 1;
    }
    if start == |s| {
      return None, start;
    }
    next := start + 1;
    while next < |s| && s[next] != sep
      invariant start < next <= |s|
      invariant forall k | start <= k < next :: s[k] != sep
    {
      next := next + 1;
    }
    SplitTakes(s, start, next, sep);
    current := Some(s[start..next]);
  }

  /** split of both programs: strtok until it returns NULL. */
  method SplitLoop(str: string, sep: char) returns (arr: seq<string>)
    ensures arr == Split(str, sep)
  {
    arr := [];
    var current, next := Strtok(str, 0, sep);
    assert str[0..] == str;
    while current.Some?
      invariant next <= |str|
      invariant current.Some? ==> Split(str, sep) == arr + [current.value] + Split(str[next..], sep)
      invariant current.None? ==> Split(str, sep) == arr
      decreases |str| - next, current.Some?
    {
      arr := arr + [current.value];
      current, next := Strtok(str, next, sep);
    }
  }

  /** A string that split gives back whole. */
  predicate IsToken(t: string, sep: char) {
    t != "" && sep !in t
  }

  lemma {:induction false} RunWhole(t: string, rest: string, sep: char)
    requires sep !in t && (rest == "" || rest[0] == sep)
    ensures RunLength(t + rest, sep) == |t|
  {
    if t != "" {
      assert (t + rest)[1..] == t[1..] + rest;
      RunWhole(t[1..], rest, sep);
    }
  }

  lemma {:induction false} SplitToken(t: string, sep: char)
    requires IsToken(t, sep)
    ensures Split(t, sep) == [t]
  {
    RunWhole(t, "", sep);
    assert t + "" == t && t[..|t|] == t && t[|t|..] == "";
  }

  /** Splitting is a homomorphism at a separator. */
  lemma {:induction false} SplitAtSeparator(a: string, b: string, sep: char)
    ensures Split(a + [sep] + b, sep) == Split(a, sep) + Split(b, sep)
    decreases |a|
  {
    var s := a + [sep] + b;
    if a == "" {
      assert s == [sep] + b && s[1..] == b;
    } else if a[0] == sep {
      assert s[1..] == a[1..] + [sep] + b;
      SplitAtSeparator(a[1..], b, sep);
    } else {
      var n := RunLength(a, sep);
      assert a == a[..n] + a[n..];
      assert s == a[..n] + (a[n..] + [sep] + b);
      RunWhole(a[..n], a[n..] + [sep] + b, sep);
      assert s[..n] == a[..n] && s[n..] == a[n..] + [sep] + b;
      SplitAtSeparator(a[n..], b, sep);
    }
  }

  function Without(s: string, sep: char): string {
    if s == "" then "" else (if s[0] == sep then "" else [s[0]]) + Without(s[1..], sep)
  }

  function Flatten(ts: seq<string>): string {
    if ts == [] then "" else ts[0] + Flatten(ts[1..])
  }

  lemma {:induction false} WithoutRun(t: string, rest: string, sep: char)
    requires sep !in t
    ensures Without(t + rest, sep) == t + Without(rest, sep)
  {
    if t == "" {
      assert t + rest == rest;
    } else {
      assert (t + rest)[1..] == t[1..] + rest;
      WithoutRun(t[1..], rest, sep);
    }
  }

  /** Every token is nonempty and free of the separator, and the tokens together
      are the string without its separators. */
  lemma {:induction false} SplitCharacterised(s: string, sep: char)
    ensures forall t | t in Split(s, sep) :: IsToken(t, sep)
    ensures Flatten(Split(s, sep)) == Without(s, sep)
    decreases |s|
  {
    if s == "" {
    } else if s[0] == sep {
      SplitCharacterised(s[1..], sep);
    } else {
      var n := RunLength(s, sep);
      assert s == s[..n] + s[n..];
      WithoutRun(s[..n], s[n..], sep);
      SplitCharacterised(s[n..], sep);
      var ts := Split(s, sep);
      assert ts[0] == s[..n] && ts[1..] == Split(s[n..], sep);
    }
  }

  function Join(ts: seq<string>, sep: char): string {
    if ts == [] then "" else if |ts| == 1 then ts[0] else ts[0] + [sep] + Join(ts[1..], sep)
  }

  /** split undoes join on nonempty separator-free tokens. */
  lemma {:induction false} SplitJoin(ts: seq<string>, sep: char)
    requires forall i | 0 <= i < |ts| :: IsToken(ts[i], sep)
    ensures Split(Join(ts, sep), sep) == ts
  {
    if |ts| == 1 {
      SplitToken(ts[0], sep);
    } else if |ts| > 1 {
      SplitAtSeparator(ts[0], Join(ts[1..], sep), sep);
      SplitToken(ts[0], sep);
      SplitJoin(ts[1..], sep);
    }
  }

  // ---------------------------------------------------------------- decimals

  const DIGITS := "0123456789"

  predicate IsDigit(c: char) {
    '0' <= c <= '9'
  }

  function DigitValue(c: char): (d: nat)
    requires IsDigit(c)
    ensures d < 10 && DIGITS[d] == c
  {
    c as int - '0' as int
  }

  function NatToString(n: nat): (s: string)
    ensures s != "" && forall c | c in s :: IsDigit(c)
  {
    if n < 10 then [DIGITS[n]] else NatToString(n / 10) + [DIGITS[n % 10]]
  }

  /** std::to_string on int and long. */
  function ToString(n: int): (s: string)
    ensures s != ""
  {
    if n < 0 then "-" + NatToString(-n) else NatToString(n)
  }

  /** The value of a string of digits. */
  function DigitsValue(s: string): nat
    requires forall c | c in s :: IsDigit(c)
  {
    if s == "" then 0 else 10 * DigitsValue(s[..|s| - 1]) + DigitValue(s[|s| - 1])
  }

  /** The length of the leading run of digits. */
  function DigitRun(s: string): (n: nat)
    ensures n <= |s|
    ensures forall c | c in s[..n] :: IsDigit(c)
    ensures n < |s| ==> !IsDigit(s[n])
  {
    if s == "" || !IsDigit(s[0]) then 0
    else
      var n := DigitRun(s[1..]);
      assert s[..n + 1] == [s[0]] + s[1..][..n];
      n + 1
  }

  predicate IsSpace(c: char) {
    c == ' ' || '\t' <= c <= '\r'
  }

  function SkipSpace(s: string): string {
    if s != "" && IsSpace(s[0]) then SkipSpace(s[1..]) else s
  }

  /** A number after its sign: digits up to the first other character; without a
      digit the conversion throws. */
  function Unsigned(s: string): Option<int> {
    var n := DigitRun(s);
    if n == 0 then None else Some(DigitsValue(s[..n]) as int)
  }

  /** std::stoi in base ten. */
  function Stoi(str: string): Option<int> {
    var s := SkipSpace(str);
    if s != "" && s[0] == '-' then
      var u := Unsigned(s[1..]);
      if u.Some? then Some(-u.value) else None
    else if s != "" && s[0] == '+' then
      var u := Unsigned(s[1..]);
      if u.Some? then Some(u.value) else None
    else
      var u := Unsigned(s);
      if u.Some? then Some(u.value) else None
  }

  function Power(n: nat): (p: nat)
    ensures p > 0
  {
    if n == 0 then 1 else 10 * Power(n - 1)
  }

  /** The unsigned part of std::stod on digits and points. */
  function UnsignedReal(s: string): Option<real> {
    var n := DigitRun(s);
    var whole := DigitsValue(s[..n]) as real;
    if n < |s| && s[n] == '.' then
      var f := DigitRun(s[n + 1..]);
      if n + f == 0 then None
      else Some(whole + DigitsValue(s[n + 1..][..f]) as real / Power(f) as real)
    else if n == 0 then None
    else Some(whole)
  }

  /** std::stod on the strings that is_number(_, true) accepts. */
  function Stod(s: string): Option<real> {
    if s != "" && s[0] == '-' then
      var u := UnsignedReal(s[1..]);
      if u.Some? then Some(-u.value) else None
    else UnsignedReal(s)
  }

  lemma {:induction false} NatRoundTrip(n: nat)
    ensures DigitsValue(NatToString(n)) == n
  {
    if n >= 10 {
      NatRoundTrip(n / 10);
      var s := NatToString(n);
      assert s[..|s| - 1] == NatToString(n / 10);
    } else {
      assert [DIGITS[n]][..0] == "";
    }
  }

  lemma {:induction false} DigitRunWhole(s: string)
    requires forall c | c in s :: IsDigit(c)
    ensures DigitRun(s) == |s|
  {
  }

  lemma {:induction false} UnsignedDigits(s: string)
    requires s != "" && forall c | c in s :: IsDigit(c)
    ensures Unsigned(s) == Some(DigitsValue(s) as int)
    ensures UnsignedReal(s) == Some(DigitsValue(s) as real)
  {
    hide DigitsValue, DigitRun;
    DigitRunWhole(s);
    assert s[..|s|] == s;
  }

  /** A digit is neither a space nor a sign. */
  lemma {:induction false} FirstDigit(s: string)
    requires s != "" && forall c | c in s :: IsDigit(c)
    ensures s[0] != '-' && s[0] != '+'
    ensures SkipSpace(s) == s && SkipSpace("-" + s) == "-" + s && ("-" + s)[1..] == s
  {
    assert IsDigit(s[0]);
  }

  /** stoi and stod undo to_string. */
  lemma IntRoundTrip(n: int)
    ensures Stoi(ToString(n)) == Some(n)
    ensures Stod(ToString(n)) == Some(n as real)
  {
    hide NatToString, DigitsValue, Unsigned, UnsignedReal, SkipSpace, IsDigit;
    var m: nat := if n < 0 then -n else n;
    var s := NatToString(m);
    NatRoundTrip(m);
    FirstDigit(s);
    UnsignedDigits(s);
  }

  lemma {:induction false} DigitRunStops(x: string, rest: string)
    requires (forall c | c in x :: IsDigit(c)) && (rest == "" || !IsDigit(rest[0]))
    ensures DigitRun(x + rest) == |x|
  {
    if x != "" {
      assert (x + rest)[0] == x[0] && (x + rest)[1..] == x[1..] + rest;
      DigitRunStops(x[1..], rest);
    }
  }

  lemma PointSplits(x: string, y: string)
    ensures var s := x + "." + y;
      && s == x + ("." + y) && s[..|x|] == x && s[|x|] == '.' && s[|x| + 1..] == y && (x != "" ==> s[0] == x[0])
  {
  }

  /** The value of a decimal fraction. */
  function Decimal(x: string, y: string): real
    requires (forall c | c in x :: IsDigit(c)) && (forall c | c in y :: IsDigit(c))
  {
    DigitsValue(x) as real + DigitsValue(y) as real / Power(|y|) as real
  }

  lemma UnsignedDecimal(x: string, y: string)
    requires x != "" && (forall c | c in x :: IsDigit(c)) && (forall c | c in y :: IsDigit(c))
    ensures UnsignedReal(x + "." + y) == Some(Decimal(x, y))
  {
    hide DigitsValue, DigitRun, Power, IsDigit;
    PointSplits(x, y);
    assert !IsDigit('.') by { PointIsNoDigit(); }
    DigitRunStops(x, "." + y);
    DigitRunWhole(y);
    var s := x + "." + y;
    assert DigitRun(s) == |x| && DigitRun(s[|x| + 1..]) == |y|;
    assert s[|x| + 1..][..|y|] == y;
  }

  lemma PointIsNoDigit()
    ensures !IsDigit('.') && !IsDigit('-')
  {
  }

  /** stod reads a decimal fraction exactly. */
  lemma DecimalIs(x: string, y: string)
    requires x != "" && (forall c | c in x :: IsDigit(c)) && (forall c | c in y :: IsDigit(c))
    ensures Stod(x + "." + y) == Some(Decimal(x, y))
  {
    hide UnsignedReal, Decimal, IsDigit;
    PointSplits(x, y);
    PointIsNoDigit();
    UnsignedDecimal(x, y);
    assert IsDigit(x[0]);
  }
}
