/** The pieces of Go's text handling the parsers and printers rely on: white space, fields,
    lines, trimming and unsigned decimals. */
module Text {
  import opened Base

  const MAX_UINT64: nat := 0xFFFF_FFFF_FFFF_FFFF

  // ------------------------------------------------------------------ white space and fields

  /** Unicode white space. */
  predicate IsSpace(c: char) {
    || '\t' <= c <= '\r' || c == ' ' || c == '\U{0085}' || c == '\U{00A0}' || c == '\U{1680}'
    || '\U{2000}' <= c <= '\U{200A}' || c == '\U{2028}' || c == '\U{2029}' || c == '\U{202F}'
    || c == '\U{205F}' || c == '\U{3000}'
  }

  predicate Blank(s: string) {
    forall i :: 0 <= i < |s| ==> IsSpace(s[i])
  }

  /** A non-empty run without white space. */
  predicate Word(s: string) {
    s != "" && forall i :: 0 <= i < |s| ==> !IsSpace(s[i])
  }

  function WordLength(s: string): (n: nat)
    ensures n <= |s|
    ensures forall i :: 0 <= i < n ==> !IsSpace(s[i])
    ensures n < |s| ==> IsSpace(s[n])
  {
    if s == "" || IsSpace(s[0]) then 0 else 1 + WordLength(s[1..])
  }

  /** The maximal words of a line. */
  function Fields(s: string): seq<string>
    decreases |s|
  {
    if s == "" then []
    else if IsSpace(s[0]) then Fields(s[1..])
    else
      var n := WordLength(s);
      [s[..n]] + Fields(s[n..])
  }

  lemma {:induction false} FieldsSkip(gap: string, s: string)
    requires Blank(gap)
    ensures Fields(gap + s) == Fields(s)
  {
    if gap == "" {
      assert gap + s == s;
    } else {
      assert (gap + s)[1..] == gap[1..] + s;
      FieldsSkip(gap[1..], s);
    }
  }

  lemma FieldsWord(w: string, s: string)
    requires Word(w) && (s == "" || IsSpace(s[0]))
    ensures Fields(w + s) == [w] + Fields(s)
  {
    assert forall i :: 0 <= i < |w| ==> (w + s)[i] == w[i];
    assert s != "" ==> (w + s)[|w|] == s[0];
    assert WordLength(w + s) == |w|;
    assert (w + s)[..|w|] == w && (w + s)[|w|..] == s;
  }

  /** White space at the end of a line changes none of its fields. */
  lemma {:induction false} FieldsTrailing(s: string, c: char)
    requires IsSpace(c)
    ensures Fields(s + [c]) == Fields(s)
    decreases |s|
  {
    if s == "" {
      assert (s + [c])[1..] == "";
    } else if IsSpace(s[0]) {
      assert (s + [c])[1..] == s[1..] + [c];
      FieldsTrailing(s[1..], c);
    } else {
      var n := WordLength(s);
      var w, rest := s[..n], s[n..];
      assert s == w + rest && s + [c] == w + (rest + [c]);
      FieldsWord(w, rest + [c]);
      FieldsWord(w, rest);
      FieldsTrailing(rest, c);
    }
  }

  // ------------------------------------------------------------------ trimming and lines

  function TrimLeft(s: string): string {
    if s != "" && IsSpace(s[0]) then TrimLeft(s[1..]) else s
  }

  function TrimRight(s: string): string {
    if s != "" && IsSpace(s[|s| - 1]) then TrimRight(s[..|s| - 1]) else s
  }

  function TrimSpace(s: string): string {
    TrimRight(TrimLeft(s))
  }

  lemma {:induction false} TrimLeftPart(s: string) returns (a: string)
    ensures s == a + TrimLeft(s) && Blank(a)
    ensures TrimLeft(s) != "" ==> !IsSpace(TrimLeft(s)[0])
  {
    a := "";
    if s != "" && IsSpace(s[0]) {
      var rest := TrimLeftPart(s[1..]);
      a := [s[0]] + rest;
      assert s == [s[0]] + s[1..];
    }
  }

  lemma {:induction false} TrimRightPart(s: string) returns (b: string)
    ensures s == TrimRight(s) + b && Blank(b)
    ensures TrimRight(s) != "" ==> !IsSpace(TrimRight(s)[|TrimRight(s)| - 1])
  {
    b := "";
    if s != "" && IsSpace(s[|s| - 1]) {
      var rest := TrimRightPart(s[..|s| - 1]);
      b := rest + [s[|s| - 1]];
      assert s == s[..|s| - 1] + [s[|s| - 1]];
    }
  }

  /** Trimming cuts white space off both ends, and all of it. */
  lemma TrimParts(s: string) returns (a: string, b: string)
    ensures s == a + TrimSpace(s) + b && Blank(a) && Blank(b)
    ensures var t := TrimSpace(s); t != "" ==> !IsSpace(t[0]) && !IsSpace(t[|t| - 1])
  {
    a := TrimLeftPart(s);
    b := TrimRightPart(TrimLeft(s));
    assert TrimLeft(s) == TrimSpace(s) + b;
  }

  function LineLength(s: string): (n: nat)
    ensures n <= |s|
    ensures forall i :: 0 <= i < n ==> s[i] != '\n'
    ensures n < |s| ==> s[n] == '\n'
  {
    if s == "" || s[0] == '\n' then 0 else 1 + LineLength(s[1..])
  }

  /** The pieces between newlines, at least one. */
  function Lines(s: string): (r: seq<string>)
    ensures r != []
    decreases |s|
  {
    var n := LineLength(s);
    if n == |s| then [s] else [s[..n]] + Lines(s[n + 1..])
  }

  predicate OneLine(s: string) {
    '\n' !in s
  }

  function Join(lines: seq<string>): string
    requires lines != []
  {
    if |lines| == 1 then lines[0] else lines[0] + "\n" + Join(lines[1..])
  }

  lemma LinesHead(line: string, rest: string)
    requires OneLine(line)
    ensures Lines(line + "\n" + rest) == [line] + Lines(rest)
  {
    var s := line + "\n" + rest;
    assert forall i :: 0 <= i < |line| ==> s[i] == line[i] && line[i] in line;
    assert s[|line|] == '\n';
    var n := LineLength(s);
    assert n == |line|;
    assert s[..n] == line && s[n + 1..] == rest;
  }

  lemma LinesOne(line: string)
    requires OneLine(line)
    ensures Lines(line) == [line]
  {
    assert forall i :: 0 <= i < |line| ==> line[i] in line;
    assert LineLength(line) == |line|;
  }

  lemma {:induction false} LinesOfJoin(lines: seq<string>)
    requires lines != [] && forall i :: 0 <= i < |lines| ==> OneLine(lines[i])
    ensures Lines(Join(lines)) == lines
  {
    if |lines| == 1 {
      LinesOne(lines[0]);
    } else {
      LinesOfJoin(lines[1..]);
      LinesHead(lines[0], Join(lines[1..]));
    }
  }

  lemma GrowCons(line: string, l: seq<string>, c: char)
    requires l != []
    ensures [line] + (l + [""]) == ([line] + l) + [""]
    ensures [line] + (l[..|l| - 1] + [l[|l| - 1] + [c]]) == ([line] + l)[..|l|] + [([line] + l)[|l|] + [c]]
  {
  }

  /** A further character either opens an empty line or extends the last one. */
  lemma {:induction false} LinesGrow(s: string, c: char)
    ensures var l := Lines(s);
      Lines(s + [c]) == if c == '\n' then l + [""] else l[..|l| - 1] + [l[|l| - 1] + [c]]
    decreases |s|
  {
    var n := LineLength(s);
    if n < |s| {
      var line, rest := s[..n], s[n + 1..];
      assert s == line + "\n" + rest && s + [c] == line + "\n" + (rest + [c]);
      LinesHead(line, rest);
      LinesHead(line, rest + [c]);
      LinesGrow(rest, c);
      GrowCons(line, Lines(rest), c);
    } else if c == '\n' {
      assert s + [c] == s + "\n" + "";
      LinesHead(s, "");
      LinesOne("");
    } else {
      LinesOne(s + [c]);
    }
  }

  // ------------------------------------------------------------------ decimals

  predicate IsDigit(c: char) {
    '0' <= c <= '9'
  }

  function DigitValue(c: char): nat
    requires IsDigit(c)
  {
    c as int - '0' as int
  }

  predicate Digits(s: string) {
    s != "" && forall i :: 0 <= i < |s| ==> IsDigit(s[i])
  }

  function Value(s: string): nat
    requires forall i :: 0 <= i < |s| ==> IsDigit(s[i])
  {
    if s == "" then 0 else 10 * Value(s[..|s| - 1]) + DigitValue(s[|s| - 1])
  }

  function Decimal(n: nat): string {
    if n < 10 then [('0' as nat + n) as char]
    else Decimal(n / 10) + [('0' as nat + n % 10) as char]
  }

  lemma {:induction false} DecimalValue(n: nat)
    ensures Digits(Decimal(n)) && Value(Decimal(n)) == n && Word(Decimal(n))
  {
    if n >= 10 {
      DecimalValue(n / 10);
      var s := Decimal(n);
      assert s[..|s| - 1] == Decimal(n / 10);
    } else {
      assert Decimal(n)[..0] == "";
    }
  }

  /** An unsigned 64-bit decimal: digits only, and nothing beyond the range. */
  function ParseUint64(s: string): Option<nat> {
    if Digits(s) && Value(s) <= MAX_UINT64 then Some(Value(s)) else None
  }

  /** A 64-bit signed decimal with an optional sign. */
  predicate IsInt64(s: string) {
    if s != "" && s[0] == '-' then Digits(s[1..]) && Value(s[1..]) <= MAX_UINT64 / 2 + 1
    else if s != "" && s[0] == '+' then Digits(s[1..]) && Value(s[1..]) <= MAX_UINT64 / 2
    else Digits(s) && Value(s) <= MAX_UINT64 / 2
  }

  // ------------------------------------------------------------------ which texts they are

  /** White space, code point by code point. */
  lemma SpaceExactly(c: char)
    ensures var u := c as int;
      IsSpace(c) <==>
        || 9 <= u <= 13 || u == 32 || u == 0x85 || u == 0xA0 || u == 0x1680 || 0x2000 <= u <= 0x200A
        || u == 0x2028 || u == 0x2029 || u == 0x202F || u == 0x205F || u == 0x3000
  {
  }

  /** A letter, a digit or an underscore. */
  predicate PlainChar(c: char) {
    'a' <= c <= 'z' || 'A' <= c <= 'Z' || '0' <= c <= '9' || c == '_'
  }

  predicate PlainWord(s: string) {
    s != "" && forall i :: 0 <= i < |s| ==> PlainChar(s[i])
  }

  /** Spaces and tabs. */
  predicate Spaces(s: string) {
    forall i :: 0 <= i < |s| ==> s[i] == ' ' || s[i] == '\t'
  }

  lemma PlainIsWord(s: string)
    ensures PlainWord(s) ==> Word(s) && OneLine(s)
    ensures Spaces(s) ==> Blank(s) && OneLine(s)
  {
  }

  function Zeros(k: nat): string {
    if k == 0 then "" else Zeros(k - 1) + "0"
  }

  lemma {:induction false} ZerosDigits(k: nat)
    ensures |Zeros(k)| == k && (forall i :: 0 <= i < k ==> Zeros(k)[i] == '0') && Value(Zeros(k)) == 0
  {
    if k > 0 {
      ZerosDigits(k - 1);
      assert Zeros(k)[..k - 1] == Zeros(k - 1);
    }
  }

  lemma {:induction false} ValueAfterZeros(k: nat, s: string)
    requires forall i :: 0 <= i < |s| ==> IsDigit(s[i])
    ensures forall i :: 0 <= i < |Zeros(k) + s| ==> IsDigit((Zeros(k) + s)[i])
    ensures Value(Zeros(k) + s) == Value(s)
    decreases |s|
  {
    ZerosDigits(k);
    if s == "" {
      assert Zeros(k) + s == Zeros(k);
    } else {
      var front := s[..|s| - 1];
      ValueAfterZeros(k, front);
      assert (Zeros(k) + s)[..|Zeros(k) + s| - 1] == Zeros(k) + front;
    }
  }

  lemma {:induction false} DigitsAreZerosAndDecimal(s: string) returns (k: nat)
    requires Digits(s)
    ensures s == Zeros(k) + Decimal(Value(s))
  {
    var front, last := s[..|s| - 1], s[|s| - 1];
    assert s == front + [last];
    if front == "" {
      k := 0;
      assert Value(s) == DigitValue(last);
      assert Zeros(0) + [last] == [last];
    } else {
      k := DigitsAreZerosAndDecimal(front);
      if Value(front) == 0 {
        k := k + 1;
        assert Decimal(0) == "0";
      } else {
        assert Value(s) / 10 == Value(front);
        assert Zeros(k) + Decimal(Value(s)) == Zeros(k) + Decimal(Value(front)) + [last];
      }
    }
  }

  /** The decimal digits in order, and no leading zero. */
  lemma {:induction false} DecimalShape(n: nat)
    ensures n < 10 ==> Decimal(n) == "0123456789"[n..n + 1]
    ensures Decimal(10 * n + 7) == (if n == 0 then "" else Decimal(n)) + "7"
    ensures Decimal(n) != "" && (Decimal(n)[0] == '0' ==> n == 0)
    ensures PlainWord(Decimal(n))
    decreases n
  {
    if n < 10 {
      assert "0123456789"[n..n + 1] == ["0123456789"[n]];
    } else {
      DecimalShape(n / 10);
    }
  }

  /** The unsigned 64-bit decimals are exactly the decimals below 2^64, with leading zeros. */
  lemma Uint64Exactly(s: string, v: nat)
    ensures ParseUint64(s) == Some(v) <==> v < 0x1_0000_0000_0000_0000 && exists k :: s == Zeros(k) + Decimal(v)
  {
    if k: nat :| s == Zeros(k) + Decimal(v) {
      DecimalValue(v);
      ValueAfterZeros(k, Decimal(v));
      assert Digits(s);
    }
    if Digits(s) {
      var k := DigitsAreZerosAndDecimal(s);
    }
  }

  /** A decimal is read as its number below 2^64 and refused from there on. */
  lemma ParseDecimal(v: nat)
    ensures ParseUint64(Decimal(v)) == if v < 0x1_0000_0000_0000_0000 then Some(v) else None
  {
    DecimalValue(v);
  }

  /** `sign`, leading zeros and a decimal, within the range of a signed 64-bit integer. */
  predicate Int64Text(s: string, sign: string, k: nat, n: nat) {
    && (sign == "" || sign == "+" || sign == "-")
    && s == sign + (Zeros(k) + Decimal(n))
    && n <= if sign == "-" then 0x8000_0000_0000_0000 else 0x7FFF_FFFF_FFFF_FFFF
  }

  lemma DigitsOf(k: nat, n: nat)
    ensures Digits(Zeros(k) + Decimal(n)) && Value(Zeros(k) + Decimal(n)) == n
  {
    DecimalValue(n);
    ValueAfterZeros(k, Decimal(n));
  }

  lemma Int64IsText(s: string)
    requires IsInt64(s)
    ensures exists sign, k, n :: Int64Text(s, sign, k, n)
  {
    var signed := s[0] == '-' || s[0] == '+';
    var sign, digits := if signed then s[..1] else "", if signed then s[1..] else s;
    var k := DigitsAreZerosAndDecimal(digits);
    assert s == sign + digits;
    assert Int64Text(s, sign, k, Value(digits));
  }

  lemma TextIsInt64(s: string, sign: string, k: nat, n: nat)
    requires Int64Text(s, sign, k, n)
    ensures IsInt64(s)
  {
    var digits := Zeros(k) + Decimal(n);
    DigitsOf(k, n);
    if sign == "" {
      assert s == digits && IsDigit(s[0]);
    } else {
      assert s[0] == sign[0] && s[1..] == digits;
    }
  }

  /** The signed 64-bit integers are exactly these texts. */
  lemma Int64Exactly(s: string)
    ensures IsInt64(s) <==> exists sign, k, n :: Int64Text(s, sign, k, n)
  {
    if IsInt64(s) {
      Int64IsText(s);
    } else if sign, k: nat, n: nat :| Int64Text(s, sign, k, n) {
      TextIsInt64(s, sign, k, n);
    }
  }

  lemma DecimalIsInt64(k: nat)
    ensures IsInt64(Decimal(k)) <==> k <= 0x7FFF_FFFF_FFFF_FFFF
  {
    DecimalValue(k);
  }
}
