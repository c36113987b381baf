/**
 Decimal numbers and whitespace, as the programs at both ends of a channel
 print and read them.  Byte strings are strings of characters below 256.
 */
module Text {
  import opened Wrappers

  // ---- printing ---------------------------------------------------------------

  function Digit(d: nat): char
    requires d < 10
  {
    ('0' as int + d) as char
  }

  function Dec(n: nat): string {
    if n < 10 then [Digit(n)] else Dec(n / 10) + [Digit(n % 10)]
  }

  /** What `{}` and `f"{}"` print for an integer. */
  function DecInt(n: int): string {
    if n < 0 then "-" + Dec(-n) else Dec(n)
  }

  // ---- reading ----------------------------------------------------------------

  predicate IsDigit(c: char) {
    '0' <= c <= '9'
  }

  predicate AllDigits(s: string) {
    forall i :: 0 <= i < |s| ==> IsDigit(s[i])
  }

  function DigitsValue(s: string): nat
    requires AllDigits(s)
  {
    if s == "" then 0 else 10 * DigitsValue(s[..|s| - 1]) + (s[|s| - 1] as int - '0' as int)
  }

  lemma {:induction false} DecReadsBack(n: nat)
    ensures AllDigits(Dec(n)) && Dec(n) != "" && DigitsValue(Dec(n)) == n
  {
    if n >= 10 {
      DecReadsBack(n / 10);
      assert Dec(n)[..|Dec(n)| - 1] == Dec(n / 10);
    } else {
      assert Dec(n)[..0] == "";
      assert DigitsValue("") == 0;
    }
  }

  function Pow10(k: nat): nat {
    if k == 0 then 1 else 10 * Pow10(k - 1)
  }

  lemma {:induction false} DecLength(n: nat, k: nat)
    requires k > 0 && n < Pow10(k)
    ensures |Dec(n)| <= k
  {
    if n >= 10 {
      assert k > 1;
      DecLength(n / 10, k - 1);
    }
  }

  /** The longest run of digits Python's `int` accepts, since 3.11. */
  const MAX_INT_DIGITS: nat := 4300

  /** Digits with single underscores between them. */
  predicate Grouped(s: string) {
    && s != "" && IsDigit(s[0]) && IsDigit(s[|s| - 1])
    && (forall i :: 0 <= i < |s| ==> IsDigit(s[i]) || s[i] == '_')
    && (forall i :: 0 < i < |s| ==> s[i - 1] != '_' || s[i] != '_')
  }

  function Ungroup(s: string): (digits: string)
    requires forall i :: 0 <= i < |s| ==> IsDigit(s[i]) || s[i] == '_'
    ensures AllDigits(digits)
  {
    if s == "" then "" else (if s[0] == '_' then "" else [s[0]]) + Ungroup(s[1..])
  }

  /** Unsigned digits as Python's `int` reads them. */
  function PyNat(body: string): Option<int> {
    if !Grouped(body) || |Ungroup(body)| > MAX_INT_DIGITS then None else Some(DigitsValue(Ungroup(body)))
  }

  /** Python's `int` on text that has no whitespace around it; nothing is returned for a ValueError. */
  function PyInt(s: string): Option<int> {
    if s != "" && s[0] == '+' then PyNat(s[1..])
    else if s != "" && s[0] == '-' then
      match PyNat(s[1..])
      case Some(n) => Some(-n)
      case None => None
    else PyNat(s)
  }

  lemma {:induction false} UngroupDigits(s: string)
    requires AllDigits(s)
    ensures Ungroup(s) == s
  {
    if s != "" {
      UngroupDigits(s[1..]);
    }
  }

  lemma PyNatReadsBack(n: nat)
    ensures PyNat(Dec(n)) == if |Dec(n)| <= MAX_INT_DIGITS then Some(n) else None
    ensures Dec(n) != "" && IsDigit(Dec(n)[0])
  {
    DecReadsBack(n);
    var d := Dec(n);
    UngroupDigits(d);
    assert IsDigit(d[0]) && IsDigit(d[|d| - 1]);
  }

  /** Every printed integer of at most `MAX_INT_DIGITS` digits is read back, and any longer one is refused. */
  lemma PyIntReadsBack(n: int)
    ensures PyInt(DecInt(n)) ==
      if |Dec(if n < 0 then -n else n)| <= 4300 then Some(n) else None
  {
    PyNatReadsBack(if n < 0 then -n else n);
    if n < 0 {
      assert DecInt(n)[1..] == Dec(-n);
    }
  }

  lemma {:induction false} UngroupJoined(s: string, t: string)
    requires forall i :: 0 <= i < |s| ==> IsDigit(s[i]) || s[i] == '_'
    requires forall i :: 0 <= i < |t| ==> IsDigit(t[i]) || t[i] == '_'
    ensures Ungroup(s + t) == Ungroup(s) + Ungroup(t)
  {
    if s == "" {
      assert s + t == t;
    } else {
      assert (s + t)[1..] == s[1..] + t;
      UngroupJoined(s[1..], t);
    }
  }

  lemma PlainDigits(a: string)
    requires AllDigits(a) && a != "" && |a| <= MAX_INT_DIGITS
    ensures PyNat(a) == PyInt(a) == Some(DigitsValue(a))
  {
    UngroupDigits(a);
  }

  lemma GroupedJoined(a: string, u: string, b: string)
    requires AllDigits(a) && a != "" && AllDigits(b) && b != "" && u == "_"
    ensures Grouped(a + u + b)
  {
    var s := a + u + b;
    assert s[0] == a[0] && s[|s| - 1] == b[|b| - 1];
    assert forall i :: 0 <= i < |s| ==> s[i] == if i < |a| then a[i] else if i == |a| then '_' else b[i - |a| - 1];
  }

  lemma UngroupOne(u: string)
    requires u == "_"
    ensures Ungroup(u) == ""
  {
    assert u[1..] == "";
  }

  lemma UngroupedJoined(a: string, u: string, b: string)
    requires AllDigits(a) && AllDigits(b) && u == "_"
    ensures Ungroup(a + u + b) == a + b
  {
    UngroupDigits(a);
    UngroupDigits(b);
    UngroupOne(u);
    UngroupJoined(a, u);
    UngroupJoined(a + u, b);
    assert a + "" == a;
  }

  lemma JoinedDigits(a: string, u: string, b: string)
    requires AllDigits(a) && a != "" && AllDigits(b) && b != "" && |a| + |b| <= MAX_INT_DIGITS && u == "_"
    ensures PyInt(a + u + b) == Some(DigitsValue(a + b)) && PyNat(a + u + b) == Some(DigitsValue(a + b))
  {
    GroupedJoined(a, u, b);
    UngroupedJoined(a, u, b);
    assert (a + u + b)[0] == a[0];
  }

  lemma Signed(sign: string, s: string)
    requires PyNat(s).Some? && (sign == "+" || sign == "-")
    ensures PyInt(sign + s) == if sign == "-" then Some(-PyNat(s).value) else PyNat(s)
  {
    assert (sign + s)[1..] == s;
  }

  /** Digits count with a single underscore between them, and with one sign in front. */
  lemma SignsAndGroups(a: string, u: string, b: string, sign: string)
    requires AllDigits(a) && a != "" && AllDigits(b) && b != "" && |a| + |b| <= 4300
    requires u == "_" && (sign == "+" || sign == "-")
    ensures PyInt(a + u + b) == PyInt(a + b) == Some(DigitsValue(a + b))
    ensures PyInt(sign + (a + u + b)) == Some(if sign == "-" then -(DigitsValue(a + b) as int) else DigitsValue(a + b))
  {
    JoinedDigits(a, u, b);
    PlainDigits(a + b);
    Signed(sign, a + u + b);
  }

  /** Underscores anywhere else, a second sign, and nothing at all are refused. */
  lemma StraysAreNoInt(a: string, b: string)
    requires AllDigits(a) && a != ""
    ensures PyInt(a + "__" + b).None? && PyInt("_" + a).None? && PyInt(a + "_").None?
    ensures PyInt("").None? && PyInt("-").None? && PyInt("+").None? && PyInt("+-" + a).None?
  {
    assert (a + "__" + b)[|a|] == '_' && (a + "__" + b)[|a| + 1] == '_';
    assert ("+-" + a)[1..][0] == '-';
  }

  /** Text with anything but digits and underscores behind the sign is no integer. */
  lemma OthersAreNoInt(s: string, k: nat)
    requires k < |s| && !IsDigit(s[k]) && s[k] != '_' && (k == 0 ==> s[0] != '+' && s[0] != '-')
    ensures PyInt(s).None?
  {
    assert k > 0 ==> s[1..][k - 1] == s[k];
  }

  // ---- whitespace ---------------------------------------------------------------

  /** Whose idea of whitespace applies: Python bytes, Python text, or Rust text. */
  datatype Space = AsciiSpace | PythonSpace | RustSpace

  predicate IsSpace(k: Space, c: char) {
    var n := c as int;
    match k
    case AsciiSpace => 9 <= n <= 13 || n == 32
    case PythonSpace => 9 <= n <= 13 || 28 <= n <= 32 || n == 0x85 || n == 0xa0 || WideSpace(n)
    case RustSpace => 9 <= n <= 13 || n == 32 || n == 0x85 || n == 0xa0 || WideSpace(n)
  }

  predicate WideSpace(n: int) {
    n == 0x1680 || 0x2000 <= n <= 0x200a || n == 0x2028 || n == 0x2029 || n == 0x202f || n == 0x205f || n == 0x3000
  }

  predicate Solid(k: Space, s: string) {
    forall i :: 0 <= i < |s| ==> !IsSpace(k, s[i])
  }

  function WordEnd(k: Space, s: string): (n: nat)
    ensures n <= |s| && Solid(k, s[..n]) && (n < |s| ==> IsSpace(k, s[n]))
  {
    if s == "" || IsSpace(k, s[0]) then 0
    else
      assert forall m: nat :: m <= |s| - 1 ==> s[..m + 1] == [s[0]] + s[1..][..m];
      1 + WordEnd(k, s[1..])
  }

  /** `split()`: the maximal runs without whitespace. */
  function Words(k: Space, s: string): seq<string>
    decreases |s|
  {
    if s == "" then []
    else if IsSpace(k, s[0]) then Words(k, s[1..])
    else [s[..WordEnd(k, s)]] + Words(k, s[WordEnd(k, s)..])
  }

  lemma {:induction false} WordEndAt(k: Space, w: string, rest: string)
    requires Solid(k, w) && (rest != "" ==> IsSpace(k, rest[0]))
    ensures WordEnd(k, w + rest) == |w|
  {
    if w == "" {
      assert w + rest == rest;
    } else {
      assert (w + rest)[1..] == w[1..] + rest;
      WordEndAt(k, w[1..], rest);
    }
  }

  lemma WordsOfWord(k: Space, w: string, rest: string)
    requires w != "" && Solid(k, w) && (rest != "" ==> IsSpace(k, rest[0]))
    ensures Words(k, w + rest) == [w] + Words(k, if rest == "" then "" else rest[1..])
  {
    WordEndAt(k, w, rest);
    assert (w + rest)[..|w|] == w && (w + rest)[|w|..] == rest;
  }

  const SP: string := " "

  lemma NextWord(k: Space, w: string, rest: string)
    requires w != "" && Solid(k, w)
    ensures Words(k, w + SP + rest) == [w] + Words(k, rest)
  {
    assert w + SP + rest == w + (SP + rest) && (SP + rest)[1..] == rest;
    WordsOfWord(k, w, SP + rest);
  }

  lemma LastWord(k: Space, w: string)
    requires w != "" && Solid(k, w)
    ensures Words(k, w) == [w]
  {
    assert w + "" == w;
    WordsOfWord(k, w, "");
  }

  predicate AllSpace(k: Space, s: string) {
    forall i :: 0 <= i < |s| ==> IsSpace(k, s[i])
  }

  /** Any amount of whitespace separates words as one space does, and in front of the first it does not count. */
  lemma {:induction false} GapsAreSkipped(k: Space, gap: string, rest: string)
    requires AllSpace(k, gap)
    ensures Words(k, gap + rest) == Words(k, rest)
  {
    if gap == "" {
      assert gap + rest == rest;
    } else {
      assert (gap + rest)[1..] == gap[1..] + rest;
      GapsAreSkipped(k, gap[1..], rest);
    }
  }

  /** What the three call whitespace: Rust and Python differ by four control characters, and bytes know ASCII only. */
  lemma SpacesCompared(c: char)
    ensures IsSpace(PythonSpace, c) <==> IsSpace(RustSpace, c) || '\U{1c}' <= c <= '\U{1f}'
    ensures IsSpace(AsciiSpace, c) <==> IsSpace(RustSpace, c) && c < '\U{80}'
    ensures IsSpace(AsciiSpace, c) <==> c in " \t\n\U{0b}\U{0c}\r"
    ensures c < '\U{100}' ==> (IsSpace(RustSpace, c) <==> IsSpace(AsciiSpace, c) || c == '\U{85}' || c == '\U{a0}')
  {
  }

  function TrimLeft(k: Space, s: string): string {
    if s != "" && IsSpace(k, s[0]) then TrimLeft(k, s[1..]) else s
  }

  function TrimRight(k: Space, s: string): string {
    if s != "" && IsSpace(k, s[|s| - 1]) then TrimRight(k, s[..|s| - 1]) else s
  }

  /** `strip()`. */
  function Strip(k: Space, s: string): string {
    TrimRight(k, TrimLeft(k, s))
  }

  predicate Stripped(k: Space, s: string) {
    s != "" ==> !IsSpace(k, s[0]) && !IsSpace(k, s[|s| - 1])
  }

  lemma {:induction false} TrimsLeft(k: Space, gap: string, s: string)
    requires AllSpace(k, gap) && (s != "" ==> !IsSpace(k, s[0]))
    ensures TrimLeft(k, gap + s) == s
  {
    if gap == "" {
      assert gap + s == s;
    } else {
      assert (gap + s)[1..] == gap[1..] + s;
      TrimsLeft(k, gap[1..], s);
    }
  }

  lemma {:induction false} TrimsRight(k: Space, s: string, gap: string)
    requires AllSpace(k, gap) && (s != "" ==> !IsSpace(k, s[|s| - 1]))
    ensures TrimRight(k, s + gap) == s
  {
    if gap == "" {
      assert s + gap == s;
    } else {
      assert (s + gap)[..|s + gap| - 1] == s + gap[..|gap| - 1];
      TrimsRight(k, s, gap[..|gap| - 1]);
    }
  }

  /** Stripping takes away exactly the whitespace around. */
  lemma StripsAround(k: Space, before: string, s: string, after: string)
    requires AllSpace(k, before) && AllSpace(k, after) && Stripped(k, s)
    ensures Strip(k, before + s + after) == s
  {
    if s == "" {
      TrimsLeft(k, before + after, "");
      assert before + s + after == before + after + "";
    } else {
      TrimsLeft(k, before, s + after);
      assert before + s + after == before + (s + after);
      TrimsRight(k, s, after);
    }
  }

  lemma DecIsSolid(k: Space, n: int)
    ensures DecInt(n) != "" && Solid(k, DecInt(n))
  {
    DecReadsBack(if n < 0 then -n else n);
  }

  // ---- finding a character --------------------------------------------------------

  /** The index of the first `c`, or the length. */
  function Find(c: char, s: string): (n: nat)
    ensures n <= |s| && (n < |s| ==> s[n] == c) && (forall i :: 0 <= i < n ==> s[i] != c)
  {
    if s == "" || s[0] == c then 0 else 1 + Find(c, s[1..])
  }

  lemma {:induction false} FindAt(c: char, head: string, rest: string)
    requires c !in head
    ensures Find(c, head + [c] + rest) == |head|
  {
    var s := head + [c] + rest;
    assert s[|head|] == c;
    assert forall i :: 0 <= i < |head| ==> s[i] == head[i];
  }
}
