/** The ARC kstat parser of arc.go: rows "<name> <type> <value>" below two header lines. */
module ArcStats {
  import opened Base
  import opened Text

  datatype Metrics = Metrics(
    hits: nat, iohits: nat, misses: nat, mruHits: nat, mruGhostHits: nat, mfuHits: nat, mfuGhostHits: nat,
    demandDataHits: nat, demandDataMisses: nat, demandMetadataHits: nat, demandMetadataMisses: nat,
    prefetchDataHits: nat, prefetchDataMisses: nat, prefetchMetaHits: nat, prefetchMetaMisses: nat,
    size: nat, targetSize: nat, minSize: nat, maxSize: nat, dataSize: nat, metadataSize: nat,
    dbufSize: nat, dnodeSize: nat, hdrSize: nat, deleted: nat, l2Size: nat, l2Asize: nat, l2Ndev: nat,
    l2Hits: nat, l2Misses: nat, memoryAllBytes: nat, memoryFreeBytes: nat, memoryAvailableBytes: nat)

  /** A counter that is not published reads as zero. */
  function OrZero(value: Option<nat>): nat {
    if value.Some? then value.value else 0
  }

  // Which name each counter is published under; the kstat file uses the same names.

  predicate PublishesAccesses(m: Metrics, value: string -> Option<nat>) {
    && m.hits == OrZero(value("hits")) && m.iohits == OrZero(value("iohits"))
    && m.misses == OrZero(value("misses")) && m.mruHits == OrZero(value("mru_hits"))
    && m.mruGhostHits == OrZero(value("mru_ghost_hits")) && m.mfuHits == OrZero(value("mfu_hits"))
    && m.mfuGhostHits == OrZero(value("mfu_ghost_hits")) && m.demandDataHits == OrZero(value("demand_data_hits"))
    && m.demandDataMisses == OrZero(value("demand_data_misses"))
    && m.demandMetadataHits == OrZero(value("demand_metadata_hits"))
    && m.demandMetadataMisses == OrZero(value("demand_metadata_misses"))
    && m.prefetchDataHits == OrZero(value("prefetch_data_hits"))
    && m.prefetchDataMisses == OrZero(value("prefetch_data_misses"))
    && m.prefetchMetaHits == OrZero(value("prefetch_metadata_hits"))
    && m.prefetchMetaMisses == OrZero(value("prefetch_metadata_misses"))
  }

  predicate PublishesSizes(m: Metrics, value: string -> Option<nat>) {
    && m.size == OrZero(value("size")) && m.targetSize == OrZero(value("c"))
    && m.minSize == OrZero(value("c_min")) && m.maxSize == OrZero(value("c_max"))
    && m.dataSize == OrZero(value("data_size")) && m.metadataSize == OrZero(value("metadata_size"))
    && m.dbufSize == OrZero(value("dbuf_size")) && m.dnodeSize == OrZero(value("arc_dnode_size"))
    && m.hdrSize == OrZero(value("hdr_size")) && m.deleted == OrZero(value("deleted"))
  }

  predicate PublishesDevices(m: Metrics, value: string -> Option<nat>) {
    && m.l2Size == OrZero(value("l2_size")) && m.l2Asize == OrZero(value("l2_asize"))
    && m.l2Ndev == OrZero(value("l2_ndev")) && m.l2Hits == OrZero(value("l2_hits"))
    && m.l2Misses == OrZero(value("l2_misses")) && m.memoryAllBytes == OrZero(value("memory_all_bytes"))
    && m.memoryFreeBytes == OrZero(value("memory_free_bytes"))
    && m.memoryAvailableBytes == OrZero(value("memory_available_bytes"))
  }

  predicate Publishes(m: Metrics, value: string -> Option<nat>) {
    PublishesAccesses(m, value) && PublishesSizes(m, value) && PublishesDevices(m, value)
  }

  /** A missing key reads as zero. */
  function Get(kv: map<string, nat>, name: string): nat {
    if name in kv then kv[name] else 0
  }

  function FromKV(kv: map<string, nat>): Metrics {
    Metrics(
      Get(kv, "hits"), Get(kv, "iohits"), Get(kv, "misses"), Get(kv, "mru_hits"), Get(kv, "mru_ghost_hits"),
      Get(kv, "mfu_hits"), Get(kv, "mfu_ghost_hits"), Get(kv, "demand_data_hits"),
      Get(kv, "demand_data_misses"), Get(kv, "demand_metadata_hits"), Get(kv, "demand_metadata_misses"),
      Get(kv, "prefetch_data_hits"), Get(kv, "prefetch_data_misses"), Get(kv, "prefetch_metadata_hits"),
      Get(kv, "prefetch_metadata_misses"), Get(kv, "size"), Get(kv, "c"), Get(kv, "c_min"), Get(kv, "c_max"),
      Get(kv, "data_size"), Get(kv, "metadata_size"), Get(kv, "dbuf_size"), Get(kv, "arc_dnode_size"),
      Get(kv, "hdr_size"), Get(kv, "deleted"), Get(kv, "l2_size"), Get(kv, "l2_asize"), Get(kv, "l2_ndev"),
      Get(kv, "l2_hits"), Get(kv, "l2_misses"), Get(kv, "memory_all_bytes"), Get(kv, "memory_free_bytes"),
      Get(kv, "memory_available_bytes"))
  }

  /** The counter a line defines: at least three fields, an integer type, a 64-bit value. */
  function RowOf(line: string): Option<(string, nat)> {
    var fields := Fields(line);
    if |fields| < 3 || !IsInt64(fields[1]) then None
    else
      match ParseUint64(fields[2])
      case Some(v) => Some((fields[0], v))
      case None => None
  }

  /** The counters of a run of lines; a later row overwrites an earlier one. */
  function KV(lines: seq<string>): map<string, nat> {
    if lines == [] then map[]
    else
      var kv := KV(lines[..|lines| - 1]);
      match RowOf(lines[|lines| - 1])
      case Some((name, v)) => kv[name := v]
      case None => kv
  }

  function DataLines(lines: seq<string>): seq<string> {
    if |lines| <= 2 then [] else lines[2..]
  }

  function ParsedARCStats(raw: string): Option<Metrics> {
    var lines := Lines(TrimSpace(raw));
    if |lines| < 2 then None else Some(FromKV(KV(DataLines(lines))))
  }

  method ParseARCStats(raw: string) returns (m: Option<Metrics>)
    ensures m == ParsedARCStats(raw)
  {
    var lines := Lines(TrimSpace(raw));
    if |lines| < 2 {
      return None;
    }
    var kv: map<string, nat> := map[];
    var i := 2;
    while i < |lines|
      invariant 2 <= i <= |lines|
      invariant kv == KV(lines[2..i])
    {
      assert lines[2..i + 1][..|lines[2..i + 1]| - 1] == lines[2..i];
      var fields := Fields(lines[i]);
      i := i + 1;
      if |fields| < 3 {
        continue;
      }
      if !IsInt64(fields[1]) {
        continue;
      }
      var v := ParseUint64(fields[2]);
      if v.None? {
        continue;
      }
      kv := kv[fields[0] := v.value];
    }
    assert lines[2..i] == DataLines(lines);
    return Some(FromKV(kv));
  }

  // ------------------------------------------------------------------ the documented layout

  /** A line of the file: a counter row, or anything the parser is to skip. */
  datatype Row =
    | Counter(lead: string, name: string, gap1: string, kind: string, gap2: string, value: nat, rest: string)
    | Other(line: string)

  function Print(row: Row): string {
    match row
    case Counter(lead, name, gap1, kind, gap2, value, rest) =>
      lead + (name + (gap1 + (kind + (gap2 + (Decimal(value) + rest)))))
    case Other(line) => line
  }

  predicate Gap(s: string) {
    s != "" && Blank(s)
  }

  /** Counter rows have the documented shape; other rows are too short, carry no integer type or
      no 64-bit value. */
  predicate RowOK(row: Row) {
    OneLine(Print(row)) &&
    match row
    case Counter(lead, name, gap1, kind, gap2, value, rest) =>
      && Blank(lead) && Word(name) && Gap(gap1) && Word(kind) && IsInt64(kind) && Gap(gap2)
      && value <= MAX_UINT64 && (rest == "" || IsSpace(rest[0]))
    case Other(line) =>
      var f := Fields(line);
      |f| < 3 || !IsInt64(f[1]) || !Digits(f[2]) || Value(f[2]) > MAX_UINT64
  }

  /** The value of the last counter row of that name. */
  function LastValue(rows: seq<Row>, name: string): Option<nat> {
    if rows == [] then None
    else
      match rows[|rows| - 1]
      case Counter(_, n, _, _, _, value, _) =>
        if n == name then Some(value) else LastValue(rows[..|rows| - 1], name)
      case Other(_) => LastValue(rows[..|rows| - 1], name)
  }

  function PrintAll(rows: seq<Row>): seq<string> {
    seq(|rows|, i requires 0 <= i < |rows| => Print(rows[i]))
  }

  lemma FieldAfterGap(gap: string, w: string, s: string)
    requires Blank(gap) && Word(w) && (s == "" || IsSpace(s[0]))
    ensures Fields(gap + (w + s)) == [w] + Fields(s)
  {
    FieldsSkip(gap, w + s);
    FieldsWord(w, s);
  }

  lemma {:induction false} FieldsOfCounter(
    lead: string, name: string, gap1: string, kind: string, gap2: string, digits: string, rest: string)
    requires Blank(lead) && Word(name) && Gap(gap1) && Word(kind) && Gap(gap2) && Word(digits)
    requires rest == "" || IsSpace(rest[0])
    ensures Fields(lead + (name + (gap1 + (kind + (gap2 + (digits + rest)))))) == [name, kind, digits] + Fields(rest)
  {
    var t1 := gap2 + (digits + rest);
    var t2 := gap1 + (kind + t1);
    assert t1[0] == gap2[0] && t2[0] == gap1[0];
    FieldAfterGap(gap2, digits, rest);
    FieldAfterGap(gap1, kind, t1);
    FieldAfterGap(lead, name, t2);
  }

  lemma RowOfPrint(row: Row)
    requires RowOK(row)
    ensures RowOf(Print(row)) == if row.Counter? then Some((row.name, row.value)) else None
  {
    match row
    case Counter(lead, name, gap1, kind, gap2, value, rest) =>
      DecimalValue(value);
      FieldsOfCounter(lead, name, gap1, kind, gap2, Decimal(value), rest);
    case Other(_) =>
  }

  /** A value beyond 64 bits is skipped, never wrapped. */
  lemma OverflowIsSkipped(name: string, kind: string, value: nat)
    requires Word(name) && Word(kind) && value >= 0x1_0000_0000_0000_0000
    ensures RowOf(name + (" " + (kind + (" " + Decimal(value))))) == None
  {
    DecimalValue(value);
    var row := name + (" " + (kind + (" " + Decimal(value))));
    assert row == "" + (name + (" " + (kind + (" " + (Decimal(value) + "")))));
    FieldsOfCounter("", name, " ", kind, " ", Decimal(value), "");
  }

  lemma {:induction false} KVOfPrint(rows: seq<Row>, name: string)
    requires forall i :: 0 <= i < |rows| ==> RowOK(rows[i])
    ensures var kv := KV(PrintAll(rows));
      (name in kv <==> LastValue(rows, name).Some?) && (name in kv ==> Some(kv[name]) == LastValue(rows, name))
  {
    if rows != [] {
      var n := |rows| - 1;
      assert PrintAll(rows)[..n] == PrintAll(rows[..n]);
      KVOfPrint(rows[..n], name);
      RowOfPrint(rows[n]);
    }
  }

  // ------------------------------------------------------------------ surrounding white space

  lemma RowTrailing(line: string, c: char)
    requires IsSpace(c)
    ensures RowOf(line + [c]) == RowOf(line)
  {
    FieldsTrailing(line, c);
  }

  lemma LastRow(lines: seq<string>, a: string, b: string)
    ensures RowOf(a) == RowOf(b) ==> KV(lines + [a]) == KV(lines + [b])
    ensures RowOf(a) == None ==> KV(lines + [a]) == KV(lines)
  {
    assert (lines + [a])[..|lines|] == lines && (lines + [b])[..|lines|] == lines;
  }

  lemma TrailingNewline(l: seq<string>)
    requires l != []
    ensures KV(DataLines(l + [""])) == KV(DataLines(l))
  {
    if |l| >= 2 {
      assert DataLines(l + [""]) == DataLines(l) + [""];
      assert Fields("") == [];
      LastRow(DataLines(l), "", "");
    }
  }

  lemma TrailingBlank(l: seq<string>, c: char)
    requires l != [] && IsSpace(c)
    ensures KV(DataLines(l[..|l| - 1] + [l[|l| - 1] + [c]])) == KV(DataLines(l))
  {
    var last := |l| - 1;
    if |l| > 2 {
      assert DataLines(l) == l[2..last] + [l[last]];
      assert DataLines(l[..last] + [l[last] + [c]]) == l[2..last] + [l[last] + [c]];
      RowTrailing(l[last], c);
      LastRow(l[2..last], l[last], l[last] + [c]);
    }
  }

  /** White space at the end of the file defines no counter. */
  lemma TrailingSpace(s: string, c: char)
    requires IsSpace(c)
    ensures KV(DataLines(Lines(s + [c]))) == KV(DataLines(Lines(s)))
  {
    LinesGrow(s, c);
    if c == '\n' {
      TrailingNewline(Lines(s));
    } else {
      TrailingBlank(Lines(s), c);
    }
  }

  lemma {:induction false} TrimmedTail(s: string)
    ensures KV(DataLines(Lines(TrimRight(s)))) == KV(DataLines(Lines(s)))
  {
    if s != "" && IsSpace(s[|s| - 1]) {
      var front := s[..|s| - 1];
      assert s == front + [s[|s| - 1]];
      TrailingSpace(front, s[|s| - 1]);
      TrimmedTail(front);
    }
  }

  lemma {:induction false} TrimKeeps(a: string, b: string)
    requires a != "" && !IsSpace(a[|a| - 1])
    ensures exists rest :: TrimRight(a + b) == a + rest
  {
    var s := a + b;
    if b == "" || !IsSpace(s[|s| - 1]) {
      assert TrimRight(s) == a + b;
    } else {
      assert s[..|s| - 1] == a + b[..|b| - 1];
      TrimKeeps(a, b[..|b| - 1]);
    }
  }

  // ------------------------------------------------------------------ main results

  /** Some newline of the file stands between two characters that are not white space. */
  predicate HasInnerNewline(raw: string) {
    exists i, j, k :: 0 <= i < j < k < |raw| && !IsSpace(raw[i]) && raw[j] == '\n' && !IsSpace(raw[k])
  }

  /** The parser fails exactly on a file with text on one line only. */
  lemma TruncatedExactly(raw: string)
    ensures ParsedARCStats(raw).None? <==> !HasInnerNewline(raw)
  {
    var a, b := TrimParts(raw);
    var s := TrimSpace(raw);
    var n := LineLength(s);
    assert forall i :: 0 <= i < |s| ==> raw[|a| + i] == s[i];
    if n < |s| {
      assert !IsSpace(raw[|a|]) && raw[|a| + n] == '\n' && !IsSpace(raw[|a| + |s| - 1]);
    }
  }

  function File(header1: string, header2: string, rows: seq<Row>, tail: string): string {
    Join([header1, header2] + PrintAll(rows)) + tail
  }

  predicate HeaderOK(line: string) {
    OneLine(line) && line != "" && !IsSpace(line[0]) && !IsSpace(line[|line| - 1])
  }

  lemma {:induction false} BlankTail(s: string, tail: string)
    requires Blank(tail)
    ensures KV(DataLines(Lines(s + tail))) == KV(DataLines(Lines(s)))
    decreases |tail|
  {
    if tail == "" {
      assert s + tail == s;
    } else {
      var front := tail[..|tail| - 1];
      assert s + tail == (s + front) + [tail[|tail| - 1]];
      TrailingSpace(s + front, tail[|tail| - 1]);
      BlankTail(s, front);
    }
  }

  lemma FileStart(header1: string, header2: string, rows: seq<Row>, tail: string) returns (b: string)
    ensures File(header1, header2, rows, tail) == header1 + "\n" + (header2 + b)
  {
    var lines := [header1, header2] + PrintAll(rows);
    assert lines[1..] == [header2] + PrintAll(rows);
    assert Join(lines) == header1 + "\n" + Join(lines[1..]);
    if rows == [] {
      assert Join(lines[1..]) == header2;
      b := tail;
    } else {
      assert lines[1..][1..] == PrintAll(rows);
      assert Join(lines[1..]) == header2 + "\n" + Join(PrintAll(rows));
      b := "\n" + Join(PrintAll(rows)) + tail;
    }
    assert File(header1, header2, rows, tail) == header1 + "\n" + (header2 + b);
  }

  /** Trimming a file never costs it its two header lines. */
  lemma HeadersSurvive(header1: string, header2: string, b: string)
    requires HeaderOK(header1) && HeaderOK(header2)
    ensures var file := header1 + "\n" + (header2 + b);
      TrimSpace(file) == TrimRight(file) && |Lines(TrimSpace(file))| >= 2
  {
    var file := header1 + "\n" + (header2 + b);
    var a := header1 + "\n" + header2;
    assert file == a + b;
    assert file[0] == header1[0];
    assert a[|a| - 1] == header2[|header2| - 1];
    TrimKeeps(a, b);
    var rest :| TrimRight(a + b) == a + rest;
    assert a + rest == header1 + "\n" + (header2 + rest);
    LinesHead(header1, header2 + rest);
  }

  lemma FileParses(header1: string, header2: string, rows: seq<Row>, tail: string)
    requires HeaderOK(header1) && HeaderOK(header2) && Blank(tail)
    requires forall i :: 0 <= i < |rows| ==> RowOK(rows[i])
    ensures ParsedARCStats(File(header1, header2, rows, tail)) == Some(FromKV(KV(PrintAll(rows))))
  {
    var lines := [header1, header2] + PrintAll(rows);
    var file := File(header1, header2, rows, tail);
    forall i | 0 <= i < |lines| ensures OneLine(lines[i]) {
      if i >= 2 { assert RowOK(rows[i - 2]); }
    }
    LinesOfJoin(lines);
    assert DataLines(lines) == PrintAll(rows);
    BlankTail(Join(lines), tail);
    TrimmedTail(file);
    var b := FileStart(header1, header2, rows, tail);
    HeadersSurvive(header1, header2, b);
  }

  /** The map holds exactly the published values. */
  ghost predicate Holds(kv: map<string, nat>, value: string -> Option<nat>) {
    forall name :: Get(kv, name) == OrZero(value(name))
  }

  lemma FromAccesses(kv: map<string, nat>, m: Metrics, value: string -> Option<nat>)
    requires PublishesAccesses(m, value) && Holds(kv, value)
    ensures
      && Get(kv, "hits") == m.hits && Get(kv, "iohits") == m.iohits && Get(kv, "misses") == m.misses
      && Get(kv, "mru_hits") == m.mruHits && Get(kv, "mru_ghost_hits") == m.mruGhostHits
      && Get(kv, "mfu_hits") == m.mfuHits && Get(kv, "mfu_ghost_hits") == m.mfuGhostHits
      && Get(kv, "demand_data_hits") == m.demandDataHits && Get(kv, "demand_data_misses") == m.demandDataMisses
      && Get(kv, "demand_metadata_hits") == m.demandMetadataHits
      && Get(kv, "demand_metadata_misses") == m.demandMetadataMisses
      && Get(kv, "prefetch_data_hits") == m.prefetchDataHits
      && Get(kv, "prefetch_data_misses") == m.prefetchDataMisses
      && Get(kv, "prefetch_metadata_hits") == m.prefetchMetaHits
      && Get(kv, "prefetch_metadata_misses") == m.prefetchMetaMisses
  {
  }

  lemma FromSizes(kv: map<string, nat>, m: Metrics, value: string -> Option<nat>)
    requires PublishesSizes(m, value) && Holds(kv, value)
    ensures
      && Get(kv, "size") == m.size && Get(kv, "c") == m.targetSize && Get(kv, "c_min") == m.minSize
      && Get(kv, "c_max") == m.maxSize && Get(kv, "data_size") == m.dataSize
      && Get(kv, "metadata_size") == m.metadataSize && Get(kv, "dbuf_size") == m.dbufSize
      && Get(kv, "arc_dnode_size") == m.dnodeSize && Get(kv, "hdr_size") == m.hdrSize
      && Get(kv, "deleted") == m.deleted
  {
  }

  lemma FromDevices(kv: map<string, nat>, m: Metrics, value: string -> Option<nat>)
    requires PublishesDevices(m, value) && Holds(kv, value)
    ensures
      && Get(kv, "l2_size") == m.l2Size && Get(kv, "l2_asize") == m.l2Asize && Get(kv, "l2_ndev") == m.l2Ndev
      && Get(kv, "l2_hits") == m.l2Hits && Get(kv, "l2_misses") == m.l2Misses
      && Get(kv, "memory_all_bytes") == m.memoryAllBytes && Get(kv, "memory_free_bytes") == m.memoryFreeBytes
      && Get(kv, "memory_available_bytes") == m.memoryAvailableBytes
  {
  }

  lemma FromPublished(kv: map<string, nat>, m: Metrics, value: string -> Option<nat>)
    requires Publishes(m, value) && Holds(kv, value)
    ensures FromKV(kv) == m
  {
    FromAccesses(kv, m, value);
    FromSizes(kv, m, value);
    FromDevices(kv, m, value);
  }

  function LastValues(rows: seq<Row>): string -> Option<nat> {
    name => LastValue(rows, name)
  }

  /** Parsing inverts the documented layout: if every counter is the value of the last counter row
      of its name, or zero if there is no such row, the file parses back to exactly those counters,
      in whatever order the rows come and whatever else stands between them. */
  lemma ParseInvertsLayout(m: Metrics, header1: string, header2: string, rows: seq<Row>, tail: string)
    requires HeaderOK(header1) && HeaderOK(header2) && Blank(tail)
    requires forall i :: 0 <= i < |rows| ==> RowOK(rows[i])
    requires Publishes(m, LastValues(rows))
    ensures ParsedARCStats(File(header1, header2, rows, tail)) == Some(m)
  {
    FileParses(header1, header2, rows, tail);
    var kv := KV(PrintAll(rows));
    var value := LastValues(rows);
    forall name ensures Get(kv, name) == OrZero(value(name)) {
      KVOfPrint(rows, name);
    }
    FromPublished(kv, m, value);
  }

  // ------------------------------------------------------------------ the file, character by character

  /** A line of the file: a counter; three words that are none; or at most two words. */
  datatype Line =
    | Data(lead: string, name: string, gap1: string, kind: nat, gap2: string, value: nat, rest: string)
    | Odd(lead: string, name: string, gap1: string, kindWord: string, gap2: string, valueWord: string, rest: string)
    | Short(lead: string, first: string, gap1: string, second: string)

  function LineText(line: Line): string {
    match line
    case Data(lead, name, gap1, kind, gap2, value, rest) =>
      lead + (name + (gap1 + (Decimal(kind) + (gap2 + (Decimal(value) + rest)))))
    case Odd(lead, name, gap1, kind, gap2, value, rest) =>
      lead + (name + (gap1 + (kind + (gap2 + (value + rest)))))
    case Short(lead, first, gap1, second) => lead + (first + (gap1 + second))
  }

  predicate HasLetter(w: string) {
    exists i :: 0 <= i < |w| && !('0' <= w[i] <= '9')
  }

  predicate SpacesBetween(s: string) {
    s != "" && Spaces(s)
  }

  predicate RestOK(rest: string) {
    '\n' !in rest && (rest == "" || rest[0] == ' ' || rest[0] == '\t')
  }

  /** Names are letters, digits and underscores, gaps spaces and tabs; a counter has a signed
      64-bit type and an unsigned 64-bit value; odd lines have a letter in the type or the value,
      or too large a value. */
  ghost predicate LineOK(line: Line) {
    Spaces(line.lead) &&
    match line
    case Data(_, name, gap1, kind, gap2, value, rest) =>
      && PlainWord(name) && SpacesBetween(gap1) && SpacesBetween(gap2) && RestOK(rest)
      && kind <= 0x7FFF_FFFF_FFFF_FFFF && value < 0x1_0000_0000_0000_0000
    case Odd(_, name, gap1, kind, gap2, value, rest) =>
      && PlainWord(name) && SpacesBetween(gap1) && PlainWord(kind) && SpacesBetween(gap2) && PlainWord(value)
      && RestOK(rest)
      && (HasLetter(kind) || HasLetter(value) || exists v: nat :: v >= 0x1_0000_0000_0000_0000 && value == Decimal(v))
    case Short(_, first, gap1, second) =>
      && (first == "" || PlainWord(first)) && (second == "" || PlainWord(second)) && SpacesBetween(gap1)
  }

  function AsRow(line: Line): Row {
    match line
    case Data(lead, name, gap1, kind, gap2, value, rest) =>
      Counter(lead, name, gap1, Decimal(kind), gap2, value, rest)
    case _ => Other(LineText(line))
  }

  lemma OneLineJoin(a: string, b: string)
    requires OneLine(a) && OneLine(b)
    ensures OneLine(a + b)
  {
  }

  lemma ThreeWordsOneLine(lead: string, a: string, gap1: string, b: string, gap2: string, c: string, rest: string)
    requires OneLine(lead) && OneLine(a) && OneLine(gap1) && OneLine(b) && OneLine(gap2) && OneLine(c) && OneLine(rest)
    ensures OneLine(lead + (a + (gap1 + (b + (gap2 + (c + rest))))))
  {
    OneLineJoin(c, rest);
    OneLineJoin(gap2, c + rest);
    OneLineJoin(b, gap2 + (c + rest));
    OneLineJoin(gap1, b + (gap2 + (c + rest)));
    OneLineJoin(a, gap1 + (b + (gap2 + (c + rest))));
    OneLineJoin(lead, a + (gap1 + (b + (gap2 + (c + rest)))));
  }

  lemma DataIsRow(line: Line)
    requires line.Data? && LineOK(line)
    ensures RowOK(AsRow(line))
  {
    var kind, value := Decimal(line.kind), Decimal(line.value);
    PlainIsWord(line.lead);
    PlainIsWord(line.name);
    PlainIsWord(line.gap1);
    PlainIsWord(line.gap2);
    DecimalShape(line.kind);
    DecimalShape(line.value);
    PlainIsWord(kind);
    PlainIsWord(value);
    DecimalIsInt64(line.kind);
    ThreeWordsOneLine(line.lead, line.name, line.gap1, kind, line.gap2, value, line.rest);
  }

  lemma LetterIsNoNumber(w: string)
    requires PlainWord(w) && HasLetter(w)
    ensures !Digits(w) && !IsInt64(w)
  {
  }

  lemma OddIsRow(line: Line)
    requires line.Odd? && LineOK(line)
    ensures RowOK(AsRow(line))
  {
    var kind, value := line.kindWord, line.valueWord;
    PlainIsWord(line.lead);
    PlainIsWord(line.name);
    PlainIsWord(line.gap1);
    PlainIsWord(line.gap2);
    PlainIsWord(kind);
    PlainIsWord(value);
    ThreeWordsOneLine(line.lead, line.name, line.gap1, kind, line.gap2, value, line.rest);
    FieldsOfCounter(line.lead, line.name, line.gap1, kind, line.gap2, value, line.rest);
    if HasLetter(kind) {
      LetterIsNoNumber(kind);
    } else if HasLetter(value) {
      LetterIsNoNumber(value);
    } else {
      var v: nat :| v >= 0x1_0000_0000_0000_0000 && value == Decimal(v);
      DecimalValue(v);
    }
  }

  /** A blank start, at most one word, and what follows it. */
  lemma FewFields(lead: string, w: string, s: string)
    requires Blank(lead) && (w == "" || Word(w)) && (s == "" || IsSpace(s[0]))
    ensures |Fields(lead + (w + s))| <= 1 + |Fields(s)|
  {
    FieldsSkip(lead, w + s);
    if w == "" { assert w + s == s; } else { FieldsWord(w, s); }
  }

  lemma ShortIsRow(line: Line)
    requires line.Short? && LineOK(line)
    ensures RowOK(AsRow(line))
  {
    var first, gap1, second := line.first, line.gap1, line.second;
    PlainIsWord(line.lead);
    PlainIsWord(first);
    PlainIsWord(gap1);
    PlainIsWord(second);
    OneLineJoin(gap1, second);
    OneLineJoin(first, gap1 + second);
    OneLineJoin(line.lead, first + (gap1 + second));
    assert second + "" == second && Fields("") == [];
    FewFields(gap1, second, "");
    FewFields(line.lead, first, gap1 + second);
  }

  lemma LineIsRow(line: Line)
    requires LineOK(line)
    ensures RowOK(AsRow(line)) && Print(AsRow(line)) == LineText(line)
  {
    match line
    case Data(_, _, _, _, _, _, _) => DataIsRow(line);
    case Odd(_, _, _, _, _, _, _) => OddIsRow(line);
    case Short(_, _, _, _) => ShortIsRow(line);
  }

  function AsRows(lines: seq<Line>): seq<Row> {
    seq(|lines|, i requires 0 <= i < |lines| => AsRow(lines[i]))
  }

  /** The value of the last counter line of that name. */
  function LastData(lines: seq<Line>, name: string): Option<nat> {
    if lines == [] then None
    else
      var last := lines[|lines| - 1];
      if last.Data? && last.name == name then Some(last.value) else LastData(lines[..|lines| - 1], name)
  }

  lemma {:induction false} LastDataIsLastValue(lines: seq<Line>, name: string)
    ensures LastValue(AsRows(lines), name) == LastData(lines, name)
  {
    if lines != [] {
      var n := |lines| - 1;
      assert AsRows(lines)[..n] == AsRows(lines[..n]);
      LastDataIsLastValue(lines[..n], name);
    }
  }

  /** The lines after the headers, each on its own line. */
  function Body(lines: seq<Line>): string {
    if lines == [] then "" else "\n" + LineText(lines[0]) + Body(lines[1..])
  }

  function Texts(lines: seq<Line>): seq<string> {
    seq(|lines|, i requires 0 <= i < |lines| => LineText(lines[i]))
  }

  lemma PrintIsTexts(lines: seq<Line>)
    ensures PrintAll(AsRows(lines)) == Texts(lines)
  {
    forall i | 0 <= i < |lines| ensures PrintAll(AsRows(lines))[i] == Texts(lines)[i] {
      assert Print(AsRow(lines[i])) == LineText(lines[i]);
    }
  }

  lemma JoinCons(head: string, rest: seq<string>)
    requires rest != []
    ensures Join([head] + rest) == head + "\n" + Join(rest)
  {
    assert ([head] + rest)[1..] == rest;
  }

  lemma TextsCons(lines: seq<Line>)
    requires lines != []
    ensures Texts(lines) == [LineText(lines[0])] + Texts(lines[1..])
  {
  }

  lemma {:induction false} JoinIsBody(head: string, lines: seq<Line>)
    ensures Join([head] + Texts(lines)) == head + Body(lines)
    decreases |lines|
  {
    if lines == [] {
      assert [head] + Texts(lines) == [head] && head + "" == head;
    } else {
      var first := LineText(lines[0]);
      TextsCons(lines);
      JoinCons(head, [first] + Texts(lines[1..]));
      JoinIsBody(first, lines[1..]);
      Regroup(head, first, Body(lines[1..]));
    }
  }

  lemma Regroup(a: string, b: string, c: string)
    ensures a + "\n" + (b + c) == a + ("\n" + b + c)
  {
  }

  function KstatFile(header1: string, header2: string, lines: seq<Line>, tail: string): string {
    header1 + "\n" + (header2 + Body(lines)) + tail
  }

  lemma KstatIsFile(header1: string, header2: string, lines: seq<Line>, tail: string)
    ensures File(header1, header2, AsRows(lines), tail) == KstatFile(header1, header2, lines, tail)
  {
    PrintIsTexts(lines);
    JoinIsBody(header2, lines);
    assert ([header1, header2] + Texts(lines))[1..] == [header2] + Texts(lines);
  }

  predicate HeaderText(line: string) {
    '\n' !in line && line != "" && PlainChar(line[0]) && PlainChar(line[|line| - 1])
  }

  predicate TailText(tail: string) {
    forall i :: 0 <= i < |tail| ==> tail[i] == ' ' || tail[i] == '\t' || tail[i] == '\n' || tail[i] == '\r'
  }

  /** What each name was last given in the file, if anything. */
  function LastDataOf(lines: seq<Line>): string -> Option<nat> {
    name => LastData(lines, name)
  }

  lemma LinesHold(lines: seq<Line>)
    requires forall i :: 0 <= i < |AsRows(lines)| ==> RowOK(AsRows(lines)[i])
    ensures Holds(KV(PrintAll(AsRows(lines))), LastDataOf(lines))
  {
    forall name ensures Get(KV(PrintAll(AsRows(lines))), name) == OrZero(LastDataOf(lines)(name)) {
      KVOfPrint(AsRows(lines), name);
      LastDataIsLastValue(lines, name);
    }
  }

  lemma LinesAreRows(lines: seq<Line>)
    requires forall i :: 0 <= i < |lines| ==> LineOK(lines[i])
    ensures forall i :: 0 <= i < |AsRows(lines)| ==> RowOK(AsRows(lines)[i])
  {
    forall i | 0 <= i < |lines| ensures RowOK(AsRows(lines)[i]) { LineIsRow(lines[i]); }
  }

  lemma KstatFileParses(header1: string, header2: string, lines: seq<Line>, tail: string)
    requires HeaderText(header1) && HeaderText(header2) && TailText(tail)
    requires forall i :: 0 <= i < |lines| ==> LineOK(lines[i])
    ensures ParsedARCStats(KstatFile(header1, header2, lines, tail)) == Some(FromKV(KV(PrintAll(AsRows(lines)))))
  {
    LinesAreRows(lines);
    KstatIsFile(header1, header2, lines, tail);
    FileParses(header1, header2, AsRows(lines), tail);
  }

  /** A kstat file, character by character, parses to the counters it shows: each counter is the
      value of its last line, zero if it has none, for any value of 64 bits, any order of the
      lines and any odd and short lines among them. */
  lemma KstatParses(m: Metrics, header1: string, header2: string, lines: seq<Line>, tail: string)
    requires HeaderText(header1) && HeaderText(header2) && TailText(tail)
    requires forall i :: 0 <= i < |lines| ==> LineOK(lines[i])
    requires Publishes(m, LastDataOf(lines))
    ensures ParsedARCStats(KstatFile(header1, header2, lines, tail)) == Some(m)
  {
    KstatFileParses(header1, header2, lines, tail);
    LinesAreRows(lines);
    LinesHold(lines);
    FromPublished(KV(PrintAll(AsRows(lines))), m, LastDataOf(lines));
  }
}
