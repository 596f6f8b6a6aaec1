/** The uptime printer of sysinfo.go and the reader that inverts it. */
module Uptime {
  import opened Base
  import opened Text

  /** The text of `n` whole seconds, unit by unit as the printer appends it. */
  function Format(n: nat): string {
    var d, h, m, s := n / 86400, n % 86400 / 3600, n % 3600 / 60, n % 60;
    (if d > 0 then Decimal(d) + "d " else "")
    + (if h > 0 || d > 0 then Decimal(h) + "h " else "")
    + (if m > 0 || h > 0 || d > 0 then Decimal(m) + "m " else "")
    + (Decimal(s) + "s")
  }

  /** Go leaves it to the platform what a value of 2^64 or more converts to; `beyond` is that
      unsigned 64-bit integer. */
  method FormatUptime(sec: real, beyond: nat) returns (text: string)
    requires beyond < 0x1_0000_0000_0000_0000
    ensures sec < 1.0 ==> text == "—"
    ensures sec >= 1.0 ==>
      var n := if sec.Floor < 0x1_0000_0000_0000_0000 then sec.Floor else beyond;
      text == Format(n) && Read(text) == Some(n)
  {
    if sec < 1.0 {
      return "—";
    }
    var n: nat := if sec.Floor < 0x1_0000_0000_0000_0000 then sec.Floor else beyond;
    var d, h, m, s := n / 86400, n % 86400 / 3600, n % 3600 / 60, n % 60;
    text := "";
    if d > 0 {
      text := text + (Decimal(d) + "d ");
    }
    assert text == if d > 0 then Decimal(d) + "d " else "";
    if h > 0 || d > 0 {
      text := text + (Decimal(h) + "h ");
    }
    if m > 0 || h > 0 || d > 0 {
      text := text + (Decimal(m) + "m ");
    }
    text := text + (Decimal(s) + "s");
    ReadInvertsFormat(n);
  }

  // ------------------------------------------------------------------ reading it back

  /** Seconds per unit letter. */
  function UnitOf(c: char): nat {
    match c
    case 'd' => 24 * 60 * 60
    case 'h' => 60 * 60
    case 'm' => 60
    case 's' => 1
    case _ => 0
  }

  /** The seconds a list of words like "3h" stands for, if they are all of that form. */
  function Total(words: seq<string>): Option<nat> {
    if words == [] then Some(0)
    else
      var w := words[0];
      var n := |w| - 1;
      match Total(words[1..])
      case Some(rest) =>
        if n > 0 && Digits(w[..n]) && UnitOf(w[n]) > 0 then Some(Value(w[..n]) * UnitOf(w[n]) + rest) else None
      case None => None
  }

  function Read(text: string): Option<nat> {
    Total(Fields(text))
  }

  // ------------------------------------------------------------------ main results

  /** The mixed-radix digits of a time in days, hours, minutes and seconds. */
  datatype Clock = Clock(d: nat, h: nat, m: nat, s: nat) {
    predicate Valid() {
      h < 24 && m < 60 && s < 60
    }

    function Seconds(): nat {
      86400 * d + 3600 * h + 60 * m + s
    }

    /** Its words with the leading zero units left out; the seconds always stay. */
    function Words(): seq<string> {
      var dw, hw, mw, sw := Decimal(d) + "d", Decimal(h) + "h", Decimal(m) + "m", Decimal(s) + "s";
      if d > 0 then [dw, hw, mw, sw] else if h > 0 then [hw, mw, sw] else if m > 0 then [mw, sw] else [sw]
    }
  }

  /** Words with one space between neighbours. */
  function Spaced(words: seq<string>): string {
    if words == [] then ""
    else if |words| == 1 then words[0]
    else words[0] + (" " + Spaced(words[1..]))
  }

  lemma UnitWord(n: nat, unit: char, rest: string)
    requires !IsSpace(unit) && !IsDigit(unit)
    ensures var w := Decimal(n) + [unit];
      && Word(w) && Fields(w + (" " + rest)) == [w] + Fields(rest) && Fields(w) == [w]
      && w[|w| - 1] == unit && Digits(w[..|w| - 1]) && Value(w[..|w| - 1]) == n
  {
    DecimalValue(n);
    var w := Decimal(n) + [unit];
    assert w[..|w| - 1] == Decimal(n);
    FieldsWord(w, " " + rest);
    FieldsSkip(" ", rest);
    FieldsWord(w, "");
    assert w + "" == w;
  }

  function SecondsText(s: nat): string {
    Decimal(s) + "s"
  }

  function MinutesText(show: bool, m: nat, s: nat): string {
    if show then Decimal(m) + "m" + (" " + SecondsText(s)) else SecondsText(s)
  }

  function HoursText(show: bool, h: nat, m: nat, s: nat): string {
    if show then Decimal(h) + "h" + (" " + MinutesText(true, m, s)) else MinutesText(m > 0, m, s)
  }

  lemma Rebracket(n: nat)
    ensures var d, h, m, s := n / 86400, n % 86400 / 3600, n % 3600 / 60, n % 60;
      Format(n) == if d > 0 then Decimal(d) + "d" + (" " + HoursText(true, h, m, s)) else HoursText(h > 0, h, m, s)
  {
    var d, h, m, s := n / 86400, n % 86400 / 3600, n % 3600 / 60, n % 60;
    var dw, hw, mw, sw := Decimal(d), Decimal(h), Decimal(m), Decimal(s);
    Glue(dw, hw, mw, sw, d > 0, h > 0, m > 0);
  }

  lemma Glue(dw: string, hw: string, mw: string, sw: string, d: bool, h: bool, m: bool)
    ensures
      (if d then dw + "d " else "") + (if h || d then hw + "h " else "")
      + (if m || h || d then mw + "m " else "") + (sw + "s")
      == if d then dw + "d" + (" " + (hw + "h" + (" " + (mw + "m" + (" " + (sw + "s"))))))
         else if h then hw + "h" + (" " + (mw + "m" + (" " + (sw + "s"))))
         else if m then mw + "m" + (" " + (sw + "s"))
         else sw + "s"
  {
  }

  lemma MinutesFields(show: bool, m: nat, s: nat)
    ensures Fields(MinutesText(show, m, s)) ==
      if show then [Decimal(m) + "m", Decimal(s) + "s"] else [Decimal(s) + "s"]
  {
    UnitWord(s, 's', "");
    UnitWord(m, 'm', SecondsText(s));
  }

  lemma HoursFields(show: bool, h: nat, m: nat, s: nat)
    ensures Fields(HoursText(show, h, m, s)) ==
      if show then [Decimal(h) + "h", Decimal(m) + "m", Decimal(s) + "s"]
      else if m > 0 then [Decimal(m) + "m", Decimal(s) + "s"] else [Decimal(s) + "s"]
  {
    UnitWord(h, 'h', MinutesText(true, m, s));
    MinutesFields(show || m > 0, m, s);
  }

  lemma TextFields(c: Clock)
    ensures Fields(if c.d > 0 then Decimal(c.d) + "d" + (" " + HoursText(true, c.h, c.m, c.s))
                   else HoursText(c.h > 0, c.h, c.m, c.s)) == c.Words()
  {
    HoursFields(c.d > 0 || c.h > 0, c.h, c.m, c.s);
    UnitWord(c.d, 'd', HoursText(true, c.h, c.m, c.s));
  }

  lemma SpacedCons(w: string, rest: seq<string>)
    requires rest != []
    ensures Spaced([w] + rest) == w + (" " + Spaced(rest))
  {
    assert ([w] + rest)[1..] == rest;
  }

  lemma TextSpaced(c: Clock)
    ensures (if c.d > 0 then Decimal(c.d) + "d" + (" " + HoursText(true, c.h, c.m, c.s))
             else HoursText(c.h > 0, c.h, c.m, c.s)) == Spaced(c.Words())
  {
    var dw, hw, mw, sw := Decimal(c.d) + "d", Decimal(c.h) + "h", Decimal(c.m) + "m", Decimal(c.s) + "s";
    assert [mw] + [sw] == [mw, sw] && [hw] + [mw, sw] == [hw, mw, sw] && [dw] + [hw, mw, sw] == [dw, hw, mw, sw];
    SpacedCons(mw, [sw]);
    SpacedCons(hw, [mw, sw]);
    SpacedCons(dw, [hw, mw, sw]);
  }

  lemma FormatFields(n: nat)
    ensures var c := Clock(n / 86400, n % 86400 / 3600, n % 3600 / 60, n % 60);
      Fields(Format(n)) == c.Words()
  {
    Rebracket(n);
    TextFields(Clock(n / 86400, n % 86400 / 3600, n % 3600 / 60, n % 60));
  }

  lemma ClockExact(n: nat)
    ensures var c := Clock(n / 86400, n % 86400 / 3600, n % 3600 / 60, n % 60);
      c.Valid() && c.Seconds() == n
  {
    assert n % 3600 == n % 86400 % 3600;
    assert n % 60 == n % 3600 % 60;
  }

  /** The text is the one clock reading that stands for `n`, its words a space apart. */
  lemma FormatShowsClock(n: nat)
    ensures exists c: Clock :: c.Valid() && c.Seconds() == n && Format(n) == Spaced(c.Words())
    ensures forall c: Clock :: c.Valid() && c.Seconds() == n ==> Format(n) == Spaced(c.Words())
  {
    var clock := Clock(n / 86400, n % 86400 / 3600, n % 3600 / 60, n % 60);
    Rebracket(n);
    TextSpaced(clock);
    ClockExact(n);
    forall c: Clock | c.Valid() && c.Seconds() == n ensures Format(n) == Spaced(c.Words()) {
      ClockUnique(c, clock);
    }
  }

  lemma ClockUnique(a: Clock, b: Clock)
    requires a.Valid() && b.Valid() && a.Seconds() == b.Seconds()
    ensures a == b
  {
    assert 0 <= 3600 * a.h + 60 * a.m + a.s < 86400 && 0 <= 3600 * b.h + 60 * b.m + b.s < 86400;
    assert a.d == b.d;
    assert 0 <= 60 * a.m + a.s < 3600 && 0 <= 60 * b.m + b.s < 3600;
    assert a.h == b.h;
  }

  lemma TotalCons(w: string, n: nat, unit: char, rest: seq<string>, t: nat)
    requires w == Decimal(n) + [unit] && UnitOf(unit) > 0 && Total(rest) == Some(t)
    ensures Total([w] + rest) == Some(n * UnitOf(unit) + t)
  {
    DecimalValue(n);
    assert w[..|w| - 1] == Decimal(n);
    assert ([w] + rest)[1..] == rest;
  }

  lemma Total2(c: Clock)
    ensures Total([Decimal(c.s) + "s"]) == Some(c.s)
    ensures Total([Decimal(c.m) + "m", Decimal(c.s) + "s"]) == Some(60 * c.m + c.s)
  {
    var mw, sw := Decimal(c.m) + "m", Decimal(c.s) + "s";
    assert [sw] + [] == [sw] && [mw] + [sw] == [mw, sw];
    TotalCons(sw, c.s, 's', [], 0);
    TotalCons(mw, c.m, 'm', [sw], c.s);
  }

  lemma Total3(c: Clock)
    ensures Total([Decimal(c.h) + "h", Decimal(c.m) + "m", Decimal(c.s) + "s"]) == Some(3600 * c.h + 60 * c.m + c.s)
  {
    var hw, mw, sw := Decimal(c.h) + "h", Decimal(c.m) + "m", Decimal(c.s) + "s";
    Total2(c);
    assert [hw] + [mw, sw] == [hw, mw, sw];
    TotalCons(hw, c.h, 'h', [mw, sw], 60 * c.m + c.s);
  }

  lemma Total4(c: Clock)
    ensures Total([Decimal(c.d) + "d", Decimal(c.h) + "h", Decimal(c.m) + "m", Decimal(c.s) + "s"])
            == Some(c.Seconds())
  {
    var dw, hw, mw, sw := Decimal(c.d) + "d", Decimal(c.h) + "h", Decimal(c.m) + "m", Decimal(c.s) + "s";
    Total3(c);
    assert [dw] + [hw, mw, sw] == [dw, hw, mw, sw];
    TotalCons(dw, c.d, 'd', [hw, mw, sw], 3600 * c.h + 60 * c.m + c.s);
  }

  lemma WordsTotal(c: Clock)
    ensures Total(c.Words()) == Some(c.Seconds())
  {
    Total2(c);
    Total3(c);
    Total4(c);
  }

  /** Printing is invertible: reading the text gives back the whole seconds. */
  lemma ReadInvertsFormat(n: nat)
    ensures Read(Format(n)) == Some(n)
  {
    FormatFields(n);
    ClockExact(n);
    WordsTotal(Clock(n / 86400, n % 86400 / 3600, n % 3600 / 60, n % 60));
  }

  /** Different whole seconds never print alike. */
  lemma FormatInjective(a: nat, b: nat)
    requires Format(a) == Format(b)
    ensures a == b
  {
    ReadInvertsFormat(a);
    ReadInvertsFormat(b);
  }
}
