/** Source maps: base64 variable-length quantities and the delta-coded list of mappings (ECMA-426, sections 6 and 9). */
module SourceMap {
  import opened Syntax

  // ---- The alphabet ----

  const UPPER := "ABCDEFGHIJKLMNOPQRSTUVWXYZ"
  const LOWER := "abcdefghijklmnopqrstuvwxyz"
  const OTHER := "0123456789+/"
  const BASE64 := UPPER + LOWER + OTHER

  /** The value of a base64 character. */
  function DigitOf(c: char): Option<nat> {
    if 'A' <= c <= 'Z' then Some(c as nat - 'A' as nat)
    else if 'a' <= c <= 'z' then Some(26 + c as nat - 'a' as nat)
    else if '0' <= c <= '9' then Some(52 + c as nat - '0' as nat)
    else if c == '+' then Some(62)
    else if c == '/' then Some(63)
    else None
  }

  lemma AlphabetReadsBack(d: nat)
    requires d < 64
    ensures |BASE64| == 64 && DigitOf(BASE64[d]) == Some(d) && BASE64[d] != ',' && BASE64[d] != ';'
  {
    hide DigitOf, UPPER, LOWER, OTHER;
    AlphabetParts();
    if d < 26 {
      UpperReadsBack(d);
    } else if d < 52 {
      LowerReadsBack(d - 26);
    } else {
      OtherReadsBack(d - 52);
    }
  }

  lemma AlphabetParts()
    ensures |UPPER| == 26 && |LOWER| == 26 && |OTHER| == 12
  {
  }

  lemma UpperReadsBack(d: nat)
    requires d < 26
    ensures |UPPER| == 26 && DigitOf(UPPER[d]) == Some(d) && UPPER[d] != ',' && UPPER[d] != ';'
  {
    assert UPPER[d] as nat == 'A' as nat + d;
  }

  lemma LowerReadsBack(d: nat)
    requires d < 26
    ensures |LOWER| == 26 && DigitOf(LOWER[d]) == Some(26 + d) && LOWER[d] != ',' && LOWER[d] != ';'
  {
    assert LOWER[d] as nat == 'a' as nat + d;
  }

  lemma OtherReadsBack(d: nat)
    requires d < 12
    ensures |OTHER| == 12 && DigitOf(OTHER[d]) == Some(52 + d) && OTHER[d] != ',' && OTHER[d] != ';'
  {
  }

  // ---- Variable-length quantities ----

  /** The sign goes to the lowest bit. */
  function Unsigned(n: int): nat {
    if n >= 0 then 2 * n else 2 * -n + 1
  }

  function Signed(v: nat): int {
    if v % 2 == 0 then v / 2 else -(v / 2)
  }

  /** The shifted magnitude of a 64-bit integer other than the least one fits 64 bits. */
  lemma NoOverflow(n: int)
    requires -0x8000_0000_0000_0000 < n < 0x8000_0000_0000_0000
    ensures Unsigned(n) < 0x1_0000_0000_0000_0000 && Signed(Unsigned(n)) == n
  {
  }

  /** Five bits at a time, lowest first; all but the last marked with the sixth bit. */
  function Vlq(v: nat): (r: string)
    ensures |r| > 0
    decreases v
  {
    if v / 32 > 0 then [BASE64[v % 32 + 32]] + Vlq(v / 32) else [BASE64[v % 32]]
  }

  function VlqEncode(n: int): (r: string)
    ensures |r| > 0
  {
    Vlq(Unsigned(n))
  }

  datatype Decoded = Decoded(value: int, rest: string) | Malformed

  function VlqRead(s: string): (r: Decoded)
    ensures r.Decoded? ==> |r.rest| < |s| && r.value >= 0
  {
    if s == "" || DigitOf(s[0]).None? then Malformed
    else
      var d := DigitOf(s[0]).value;
      if d < 32 then Decoded(d, s[1..])
      else
        var more := VlqRead(s[1..]);
        if more.Malformed? then Malformed else Decoded(d - 32 + 32 * more.value, more.rest)
  }

  function VlqDecode(s: string): (r: Decoded)
    ensures r.Decoded? ==> |r.rest| < |s|
  {
    var r := VlqRead(s);
    if r.Malformed? then Malformed else Decoded(Signed(r.value), r.rest)
  }

  lemma {:induction false} VlqReadsBack(v: nat, rest: string)
    ensures VlqRead(Vlq(v) + rest) == Decoded(v, rest)
    decreases v
  {
    hide BASE64, DigitOf;
    var s := Vlq(v) + rest;
    if v / 32 > 0 {
      AlphabetReadsBack(v % 32 + 32);
      VlqReadsBack(v / 32, rest);
      assert s[1..] == Vlq(v / 32) + rest;
    } else {
      AlphabetReadsBack(v % 32);
      assert s[1..] == rest;
    }
  }

  /** Decoding gives the number back and leaves what follows: no code is the beginning of another. */
  lemma VlqRoundTrip(n: int, rest: string)
    ensures VlqDecode(VlqEncode(n) + rest) == Decoded(n, rest)
  {
    hide Vlq, VlqRead;
    VlqReadsBack(Unsigned(n), rest);
  }

  /** No two numbers' codes are one a prefix of the other. */
  lemma VlqIsPrefixFree(m: int, n: int, rest: string)
    requires VlqEncode(m) + rest == VlqEncode(n)
    ensures m == n && rest == ""
  {
    hide VlqEncode, VlqDecode;
    VlqRoundTrip(m, rest);
    VlqRoundTrip(n, "");
    assert VlqEncode(n) + "" == VlqEncode(n);
  }

  /** The code ends where the digits end: every other text that is read as the same number is at least as long. */
  lemma {:induction false} VlqReadLength(s: string)
    requires VlqRead(s).Decoded?
    ensures |Vlq(VlqRead(s).value)| + |VlqRead(s).rest| <= |s|
    decreases |s|
  {
    hide BASE64, DigitOf;
    DigitIsSmall(s[0]);
    var d := DigitOf(s[0]).value;
    if d >= 32 {
      VlqReadLength(s[1..]);
    }
  }

  lemma DigitIsSmall(c: char)
    ensures DigitOf(c).Some? ==> DigitOf(c).value < 64
  {
  }

  lemma VlqIsShortest(n: int, s: string)
    requires VlqDecode(s).Decoded? && VlqDecode(s).value == n
    ensures |VlqEncode(n)| + |VlqDecode(s).rest| <= |s|
  {
    hide Vlq, VlqRead;
    var v := VlqRead(s).value;
    VlqReadLength(s);
    if Unsigned(n) != v {
      assert v == 1 && n == 0;
      ZeroIsA();
    }
  }

  /** What the alphabet and the sign bit come to. */
  lemma KnownCodes()
    ensures VlqEncode(0) == "A" && VlqEncode(1) == "C" && VlqEncode(-1) == "D" && VlqEncode(13) == "a"
    ensures VlqEncode(15) == "e" && VlqEncode(16) == "gB" && VlqEncode(-16) == "hB" && VlqEncode(511) == "+f"
  {
    KnownDigits();
    hide BASE64;
  }

  lemma KnownDigits()
    ensures |BASE64| == 64
    ensures BASE64[0] == 'A' && BASE64[1] == 'B' && BASE64[2] == 'C' && BASE64[3] == 'D' && BASE64[26] == 'a'
    ensures BASE64[30] == 'e' && BASE64[31] == 'f' && BASE64[32] == 'g' && BASE64[33] == 'h' && BASE64[62] == '+'
  {
  }

  lemma VlqStarts(n: int)
    ensures VlqEncode(n)[0] != ',' && VlqEncode(n)[0] != ';'
  {
    var v := Unsigned(n);
    AlphabetReadsBack(v % 32);
    AlphabetReadsBack(v % 32 + 32);
  }

  method EncodeVlq(n: int) returns (out: string)
    requires -0x8000_0000_0000_0000 < n < 0x8000_0000_0000_0000
    ensures out == VlqEncode(n)
  {
    var vlq: nat := if n >= 0 then 2 * n else 2 * -n + 1;
    out := "";
    while true
      invariant out + Vlq(vlq) == VlqEncode(n)
      decreases vlq
    {
      var digit := vlq % 32;
      ghost var before := vlq;
      vlq := vlq / 32;
      if vlq > 0 {
        assert out + Vlq(before) == out + [BASE64[digit + 32]] + Vlq(vlq);
        out := out + [BASE64[digit + 32]];
      } else {
        out := out + [BASE64[digit]];
        break;
      }
    }
  }

  // ---- Mappings ----

  const U32 := 0x1_0000_0000

  datatype Mapping = Mapping(genLine: nat, genCol: nat, srcLine: nat, srcCol: nat) {
    predicate Fits() {
      genLine < U32 - 1 && genCol < U32 && srcLine < U32 && srcCol < U32
    }
  }

  predicate AllFit(ms: seq<Mapping>) {
    forall i :: 0 <= i < |ms| ==> ms[i].Fits()
  }

  /** The mappings of one generated line, in their order. */
  function OnLine(ms: seq<Mapping>, l: nat): (r: seq<Mapping>)
    ensures forall i :: 0 <= i < |r| ==> r[i].genLine == l
  {
    if ms == [] then []
    else
      var last := ms[|ms| - 1];
      OnLine(ms[..|ms| - 1], l) + if last.genLine == l then [last] else []
  }

  /** The mappings of lines `from` to `end - 1`, line by line. */
  function Grouped(ms: seq<Mapping>, from: nat, end: nat): seq<Mapping>
    decreases end - from
  {
    if from >= end then [] else OnLine(ms, from) + Grouped(ms, from + 1, end)
  }

  function LineCount(ms: seq<Mapping>): (n: nat)
    ensures forall i :: 0 <= i < |ms| ==> ms[i].genLine < n
  {
    if ms == [] then 0
    else
      var n := LineCount(ms[..|ms| - 1]);
      if ms[|ms| - 1].genLine < n then n else ms[|ms| - 1].genLine + 1
  }

  /** What the next mapping is given relative to. */
  datatype Origin = Origin(genCol: int, srcLine: int, srcCol: int)

  function At(m: Mapping): Origin {
    Origin(m.genCol, m.srcLine, m.srcCol)
  }

  function Segment(o: Origin, m: Mapping): string {
    VlqEncode(m.genCol - o.genCol) + "A" + VlqEncode(m.srcLine - o.srcLine) + VlqEncode(m.srcCol - o.srcCol)
  }

  /** The segments of a line; those after the first follow a comma. */
  function Segments(o: Origin, ms: seq<Mapping>, first: bool): string
    decreases |ms|
  {
    if ms == [] then ""
    else (if first then "" else ",") + Segment(o, ms[0]) + Segments(At(ms[0]), ms[1..], false)
  }

  function Final(o: Origin, ms: seq<Mapping>): Origin {
    if ms == [] then o else At(ms[|ms| - 1])
  }

  /** Lines `from` to `end - 1`; those after line 0 follow a semicolon, and each begins at column 0. */
  function Lines(o: Origin, ms: seq<Mapping>, from: nat, end: nat): string
    decreases end - from
  {
    if from >= end then ""
    else
      var start := o.(genCol := 0);
      (if from > 0 then ";" else "") + Segments(start, OnLine(ms, from), true)
      + Lines(Final(start, OnLine(ms, from)), ms, from + 1, end)
  }

  function Encoded(ms: seq<Mapping>): string {
    Lines(Origin(0, 0, 0), ms, 0, LineCount(ms))
  }

  // ---- Decoding ----

  /** A decoded segment, with the source it refers to. */
  datatype Entry = Entry(mapping: Mapping, source: int)

  /** Where the decoder stands. */
  datatype Cursor = Cursor(genLine: nat, source: int, origin: Origin)

  datatype Entries = Entries(all: seq<Entry>) | Invalid

  datatype Field = Field(cursor: Cursor, rest: string) | Broken

  function ReadSegment(c: Cursor, s: string): (r: Field)
    ensures r.Field? ==> |r.rest| < |s|
  {
    var col := VlqDecode(s);
    if col.Malformed? then Broken
    else
      var source := VlqDecode(col.rest);
      if source.Malformed? then Broken
      else
        var line := VlqDecode(source.rest);
        if line.Malformed? then Broken
        else
          var srcCol := VlqDecode(line.rest);
          if srcCol.Malformed? then Broken
          else
            var o := Origin(c.origin.genCol + col.value, c.origin.srcLine + line.value, c.origin.srcCol + srcCol.value);
            Field(Cursor(c.genLine, c.source + source.value, o), srcCol.rest)
  }

  /** What the decoder has just read: a line's begin, a segment or a comma. */
  datatype Place = LineStart | AfterSegment | AfterComma

  /** Lines are divided by semicolons and may be empty; segments of a line are divided by commas and may not. */
  function Decode(c: Cursor, s: string, p: Place): Entries
    decreases |s|
  {
    if s == "" then (if p.AfterComma? then Invalid else Entries([]))
    else if s[0] == ';' then
      if p.AfterComma? then Invalid
      else Decode(Cursor(c.genLine + 1, c.source, c.origin.(genCol := 0)), s[1..], LineStart)
    else if s[0] == ',' then (if p.AfterSegment? then Decode(c, s[1..], AfterComma) else Invalid)
    else if p.AfterSegment? then Invalid
    else
      var f := ReadSegment(c, s);
      if f.Broken? then Invalid
      else
        var o := f.cursor.origin;
        if o.genCol < 0 || o.srcLine < 0 || o.srcCol < 0 then Invalid
        else
          var more := Decode(f.cursor, f.rest, AfterSegment);
          if more.Invalid? then Invalid
          else Entries([Entry(Mapping(c.genLine, o.genCol, o.srcLine, o.srcCol), f.cursor.source)] + more.all)
  }

  /** The line ends here. */
  predicate LineEnds(s: string) {
    s == "" || s[0] == ';'
  }

  lemma PlaceAtEnd(c: Cursor, s: string)
    requires LineEnds(s)
    ensures Decode(c, s, AfterSegment) == Decode(c, s, LineStart)
  {
  }

  function Entries0(ms: seq<Mapping>): (r: seq<Entry>)
    ensures |r| == |ms| && forall i :: 0 <= i < |r| ==> r[i] == Entry(ms[i], 0)
  {
    seq(|ms|, i requires 0 <= i < |ms| => Entry(ms[i], 0))
  }

  /** `es` before what the rest of the text decodes to. */
  function Before(es: seq<Entry>, r: Entries): Entries {
    if r.Invalid? then Invalid else Entries(es + r.all)
  }

  lemma SegmentReadsBack(o: Origin, l: nat, m: Mapping, rest: string)
    requires m.genLine == l
    ensures ReadSegment(Cursor(l, 0, o), Segment(o, m) + rest) == Field(Cursor(l, 0, At(m)), rest)
    ensures Segment(o, m) != "" && Segment(o, m)[0] != ',' && Segment(o, m)[0] != ';'
  {
    hide VlqEncode, VlqDecode;
    var a, b, c := VlqEncode(m.genCol - o.genCol), VlqEncode(m.srcLine - o.srcLine), VlqEncode(m.srcCol - o.srcCol);
    FourParts(a, "A", b, c, rest);
    VlqRoundTrip(m.genCol - o.genCol, "A" + (b + (c + rest)));
    ZeroIsA();
    VlqRoundTrip(0, b + (c + rest));
    VlqRoundTrip(m.srcLine - o.srcLine, c + rest);
    VlqRoundTrip(m.srcCol - o.srcCol, rest);
    VlqStarts(m.genCol - o.genCol);
  }

  lemma FourParts(a: string, b: string, c: string, d: string, rest: string)
    ensures a + b + c + d + rest == a + (b + (c + (d + rest)))
  {
  }

  lemma ZeroIsA()
    ensures VlqEncode(0) == "A"
  {
  }

  /** A line's segments are read back, and decoding goes on where the last one left the running positions. */
  lemma {:induction false} SegmentsReadBack(o: Origin, l: nat, ms: seq<Mapping>, first: bool, rest: string)
    requires (forall i :: 0 <= i < |ms| ==> ms[i].genLine == l) && LineEnds(rest)
    ensures Decode(Cursor(l, 0, o), Segments(o, ms, first) + rest, if first then LineStart else AfterSegment)
         == Before(Entries0(ms), Decode(Cursor(l, 0, Final(o, ms)), rest, LineStart))
    decreases |ms|
  {
    if ms == [] {
      assert Segments(o, ms, first) + rest == rest;
      PlaceAtEnd(Cursor(l, 0, o), rest);
      BeforeNothing(Decode(Cursor(l, 0, o), rest, LineStart));
    } else {
      hide Decode, Segment, ReadSegment;
      var m, more := ms[0], Segments(At(ms[0]), ms[1..], false) + rest;
      SegmentsReadBack(At(m), l, ms[1..], false, rest);
      OneSegment(o, l, m, more, first);
      ThreeParts(if first then "" else ",", Segment(o, m), Segments(At(m), ms[1..], false), rest);
      BeforeMore(m, ms, Decode(Cursor(l, 0, Final(o, ms)), rest, LineStart));
    }
  }

  lemma ThreeParts(a: string, b: string, c: string, rest: string)
    ensures a + b + c + rest == a + (b + (c + rest))
  {
  }

  lemma BeforeNothing(r: Entries)
    ensures Before(Entries0([]), r) == r
  {
    if r.Entries? {
      assert Entries0([]) + r.all == r.all;
    }
  }

  lemma BeforeMore(m: Mapping, ms: seq<Mapping>, r: Entries)
    requires ms != [] && ms[0] == m
    ensures Before([Entry(m, 0)], Before(Entries0(ms[1..]), r)) == Before(Entries0(ms), r)
  {
    assert Entries0(ms) == [Entry(m, 0)] + Entries0(ms[1..]);
    if r.Entries? {
      assert [Entry(m, 0)] + (Entries0(ms[1..]) + r.all) == [Entry(m, 0)] + Entries0(ms[1..]) + r.all;
    }
  }

  lemma OneSegment(o: Origin, l: nat, m: Mapping, more: string, first: bool)
    requires m.genLine == l
    ensures Decode(Cursor(l, 0, o), (if first then "" else ",") + (Segment(o, m) + more),
                   if first then LineStart else AfterSegment)
         == Before([Entry(m, 0)], Decode(Cursor(l, 0, At(m)), more, AfterSegment))
  {
    hide ReadSegment, Segment;
    SegmentReadsBack(o, l, m, more);
    var s := Segment(o, m) + more;
    assert s[0] == Segment(o, m)[0];
    if first {
      assert "" + s == s;
    } else {
      assert ("," + s)[1..] == s;
    }
  }

  lemma {:induction false} LinesReadBack(o: Origin, ms: seq<Mapping>, from: nat, end: nat)
    requires from <= end
    ensures Decode(if from == 0 then Cursor(0, 0, o.(genCol := 0)) else Cursor(from - 1, 0, o),
                   Lines(o, ms, from, end), LineStart)
         == Entries(Entries0(Grouped(ms, from, end)))
    decreases end - from
  {
    hide *;
    if from < end {
      var start, line := o.(genCol := 0), OnLine(ms, from);
      LinesUnfold(o, ms, from, end);
      LinesReadBack(Final(start, line), ms, from + 1, end);
      var rest := Lines(Final(start, line), ms, from + 1, end);
      OnLineBelongs(ms, from);
      LinesEndLine(Final(start, line), ms, from + 1, end);
      SegmentsReadBack(start, from, line, true, rest);
      LineStarts(o, from, Segments(start, line, true), rest);
      EntriesJoin(line, Grouped(ms, from + 1, end));
    } else {
      NoLines(o, ms, from);
    }
  }

  lemma LinesEndLine(o: Origin, ms: seq<Mapping>, from: nat, end: nat)
    requires from > 0
    ensures LineEnds(Lines(o, ms, from, end))
  {
  }

  lemma OnLineBelongs(ms: seq<Mapping>, l: nat)
    ensures forall i :: 0 <= i < |OnLine(ms, l)| ==> OnLine(ms, l)[i].genLine == l
  {
  }

  lemma {:induction false} OnLineIn(ms: seq<Mapping>, l: nat, i: nat)
    requires i < |OnLine(ms, l)|
    ensures OnLine(ms, l)[i] in ms
    decreases |ms|
  {
    var before := ms[..|ms| - 1];
    if i < |OnLine(before, l)| {
      OnLineIn(before, l, i);
    }
  }

  lemma OnLineFits(ms: seq<Mapping>, l: nat)
    requires AllFit(ms)
    ensures AllFit(OnLine(ms, l))
  {
    forall i | 0 <= i < |OnLine(ms, l)|
      ensures OnLine(ms, l)[i].Fits()
    {
      OnLineIn(ms, l, i);
    }
  }

  lemma LinesUnfold(o: Origin, ms: seq<Mapping>, from: nat, end: nat)
    requires from < end
    ensures var start, line := o.(genCol := 0), OnLine(ms, from);
            && Lines(o, ms, from, end) == (if from > 0 then ";" else "") + Segments(start, line, true)
                                          + Lines(Final(start, line), ms, from + 1, end)
            && Grouped(ms, from, end) == line + Grouped(ms, from + 1, end)
  {
  }

  lemma NoLines(o: Origin, ms: seq<Mapping>, from: nat)
    ensures Decode(if from == 0 then Cursor(0, 0, o.(genCol := 0)) else Cursor(from - 1, 0, o),
                   Lines(o, ms, from, from), LineStart)
         == Entries(Entries0(Grouped(ms, from, from)))
  {
    assert Entries0(Grouped(ms, from, from)) == [];
  }

  lemma EntriesJoin(a: seq<Mapping>, b: seq<Mapping>)
    ensures Before(Entries0(a), Entries(Entries0(b))) == Entries(Entries0(a + b))
  {
    assert Entries0(a + b) == Entries0(a) + Entries0(b);
  }

  /** A semicolon takes the decoder to the next line, at column 0. */
  lemma LineStarts(o: Origin, from: nat, line: string, rest: string)
    ensures Decode(if from == 0 then Cursor(0, 0, o.(genCol := 0)) else Cursor(from - 1, 0, o),
                   (if from > 0 then ";" else "") + line + rest, LineStart)
         == Decode(Cursor(from, 0, o.(genCol := 0)), line + rest, LineStart)
  {
    if from == 0 {
      assert "" + line + rest == line + rest;
    } else {
      assert (";" + line + rest)[1..] == line + rest;
    }
  }

  /** Decoding the encoded list gives the mappings, all of source 0, grouped by generated line. */
  lemma DecodesGrouped(ms: seq<Mapping>)
    ensures Decode(Cursor(0, 0, Origin(0, 0, 0)), Encoded(ms), LineStart)
              == Entries(Entries0(Grouped(ms, 0, LineCount(ms))))
  {
    LinesReadBack(Origin(0, 0, 0), ms, 0, LineCount(ms));
  }

  // ---- The shortest encoding ----

  function SegmentLength(o: Origin, m: Mapping): nat {
    |VlqEncode(m.genCol - o.genCol)| + 1 + |VlqEncode(m.srcLine - o.srcLine)| + |VlqEncode(m.srcCol - o.srcCol)|
  }

  predicate Ahead(l: nat, ms: seq<Mapping>) {
    ms != [] ==> l <= ms[0].genLine
  }

  /** Semicolons up to each mapping's line, commas between mappings of a line, and the shortest code of each. */
  function Cost(l: nat, o: Origin, ms: seq<Mapping>, p: Place): nat
    decreases |ms|
  {
    if ms == [] then 0
    else
      var m := ms[0];
      (if m.genLine > l then m.genLine - l + SegmentLength(o.(genCol := 0), m)
       else (if p.AfterSegment? then 1 else 0) + SegmentLength(o, m))
      + Cost(m.genLine, At(m), ms[1..], AfterSegment)
  }

  lemma FieldLengths(c: Cursor, s: string)
    requires ReadSegment(c, s).Field? && c.source == 0 && ReadSegment(c, s).cursor.source == 0
    ensures var f := ReadSegment(c, s);
            var o := f.cursor.origin;
            |VlqEncode(o.genCol - c.origin.genCol)| + 1 + |VlqEncode(o.srcLine - c.origin.srcLine)|
            + |VlqEncode(o.srcCol - c.origin.srcCol)| + |f.rest| <= |s|
  {
    hide VlqEncode, VlqDecode;
    var col := VlqDecode(s);
    var source := VlqDecode(col.rest);
    var line := VlqDecode(source.rest);
    var srcCol := VlqDecode(line.rest);
    VlqIsShortest(col.value, s);
    VlqIsShortest(line.value, source.rest);
    VlqIsShortest(srcCol.value, line.rest);
  }

  /** Whatever decodes to mappings of source 0 is at least as long as they cost. */
  lemma {:induction false} DecodedCosts(c: Cursor, s: string, p: Place, ms: seq<Mapping>)
    requires Decode(c, s, p) == Entries(Entries0(ms)) && c.source == 0
    ensures Ahead(c.genLine, ms) && Cost(c.genLine, c.origin, ms, p) <= |s|
    decreases |s|
  {
    hide ReadSegment, VlqEncode;
    if s != "" {
      if s[0] == ';' {
        var next := Cursor(c.genLine + 1, c.source, c.origin.(genCol := 0));
        DecodedCosts(next, s[1..], LineStart, ms);
        NextLineCosts(c.genLine, c.origin, ms, p);
      } else if s[0] == ',' {
        DecodedCosts(c, s[1..], AfterComma, ms);
        CommaCosts(c.genLine, c.origin, ms);
      } else {
        SegmentCosts(c, s, p, ms);
      }
    } else {
      assert |Entries0(ms)| == 0;
    }
  }

  lemma NextLineCosts(l: nat, o: Origin, ms: seq<Mapping>, p: Place)
    requires Ahead(l + 1, ms)
    ensures Cost(l, o, ms, p) <= Cost(l + 1, o.(genCol := 0), ms, LineStart) + 1
  {
    hide SegmentLength;
  }

  lemma CommaCosts(l: nat, o: Origin, ms: seq<Mapping>)
    ensures Cost(l, o, ms, AfterSegment) <= Cost(l, o, ms, AfterComma) + 1
  {
    hide SegmentLength;
  }

  lemma {:induction false} SegmentCosts(c: Cursor, s: string, p: Place, ms: seq<Mapping>)
    requires Decode(c, s, p) == Entries(Entries0(ms)) && c.source == 0 && s != "" && s[0] != ';' && s[0] != ','
    ensures Ahead(c.genLine, ms) && Cost(c.genLine, c.origin, ms, p) <= |s|
    decreases |s|, 0
  {
    hide ReadSegment, VlqEncode;
    var f := ReadSegment(c, s);
    var o, more := f.cursor.origin, Decode(f.cursor, f.rest, AfterSegment);
    var e := Entry(Mapping(c.genLine, o.genCol, o.srcLine, o.srcCol), f.cursor.source);
    assert Entries0(ms) == [e] + more.all;
    assert |ms| == 1 + |more.all| && Entries0(ms)[0] == e && ms[0] == e.mapping && f.cursor.source == 0;
    assert more.all == Entries0(ms)[1..] == Entries0(ms[1..]);
    CursorLine(c, s);
    DecodedCosts(f.cursor, f.rest, AfterSegment, ms[1..]);
    FieldLengths(c, s);
  }

  lemma CursorLine(c: Cursor, s: string)
    requires ReadSegment(c, s).Field?
    ensures ReadSegment(c, s).cursor.genLine == c.genLine
  {
    hide VlqDecode;
  }

  lemma SegmentsLength(o: Origin, m: Mapping)
    ensures |Segment(o, m)| == SegmentLength(o, m)
  {
    hide VlqEncode;
  }

  /** The segments of a line cost what they are long, and what follows goes on from the last. */
  lemma {:induction false} LineCosts(o: Origin, l: nat, line: seq<Mapping>, first: bool, rest: seq<Mapping>)
    requires (forall i :: 0 <= i < |line| ==> line[i].genLine == l) && Ahead(l + 1, rest)
    ensures Cost(l, o, line + rest, if first then LineStart else AfterSegment)
         == |Segments(o, line, first)| + Cost(l, Final(o, line), rest, LineStart)
    decreases |line|
  {
    hide SegmentLength, Segment;
    if line == [] {
      assert line + rest == rest;
    } else {
      assert (line + rest)[0] == line[0] && (line + rest)[1..] == line[1..] + rest;
      SegmentsLength(o, line[0]);
      LineCosts(At(line[0]), l, line[1..], false, rest);
    }
  }

  /** There is a mapping on the last line. */
  lemma {:induction false} LastLineUsed(ms: seq<Mapping>)
    requires ms != []
    ensures LineCount(ms) > 0 && OnLine(ms, LineCount(ms) - 1) != []
  {
    var n := |ms| - 1;
    if n > 0 && ms[n].genLine < LineCount(ms[..n]) {
      LastLineUsed(ms[..n]);
    }
  }

  lemma {:induction false} GroupedAhead(ms: seq<Mapping>, from: nat, end: nat)
    requires from < end && OnLine(ms, end - 1) != []
    ensures Grouped(ms, from, end) != [] && Ahead(from, Grouped(ms, from, end))
    decreases end - from
  {
    hide Grouped, OnLine;
    GroupedUnfold(ms, from, end);
    OnLineBelongs(ms, from);
    if from + 1 < end {
      GroupedAhead(ms, from + 1, end);
    }
  }

  lemma GroupedUnfold(ms: seq<Mapping>, from: nat, end: nat)
    requires from < end
    ensures Grouped(ms, from, end) == OnLine(ms, from) + Grouped(ms, from + 1, end)
  {
  }

  lemma {:induction false} LinesCost(o: Origin, ms: seq<Mapping>, from: nat, end: nat)
    requires 0 < from <= end && (from < end ==> OnLine(ms, end - 1) != [])
    ensures |Lines(o, ms, from, end)| == Cost(from - 1, o, Grouped(ms, from, end), LineStart)
    decreases end - from
  {
    hide SegmentLength, Segments, OnLine;
    if from < end {
      var start, line, rest := o.(genCol := 0), OnLine(ms, from), Grouped(ms, from + 1, end);
      LinesUnfold(o, ms, from, end);
      LinesCost(Final(start, line), ms, from + 1, end);
      OnLineBelongs(ms, from);
      if from + 1 < end {
        GroupedAhead(ms, from + 1, end);
      }
      LineCosts(start, from, line, true, rest);
      GroupedAhead(ms, from, end);
      SemicolonCosts(from - 1, o, line + rest);
    }
  }

  lemma SemicolonCosts(l: nat, o: Origin, ms: seq<Mapping>)
    requires ms != [] && Ahead(l + 1, ms)
    ensures Cost(l, o, ms, LineStart) == 1 + Cost(l + 1, o.(genCol := 0), ms, LineStart)
  {
    hide SegmentLength;
  }

  /** The encoded text is the shortest that decodes to the mappings. */
  lemma EncodedIsShortest(ms: seq<Mapping>, s: string)
    requires Decode(Cursor(0, 0, Origin(0, 0, 0)), s, LineStart) == Entries(Entries0(Grouped(ms, 0, LineCount(ms))))
    ensures |Encoded(ms)| <= |s|
  {
    var o, n := Origin(0, 0, 0), LineCount(ms);
    DecodedCosts(Cursor(0, 0, o), s, LineStart, Grouped(ms, 0, n));
    hide Decode, SegmentLength, Segments, OnLine;
    if ms != [] {
      LastLineUsed(ms);
      var line, rest := OnLine(ms, 0), Grouped(ms, 1, n);
      LinesUnfold(o, ms, 0, n);
      OnLineBelongs(ms, 0);
      LinesCost(Final(o, line), ms, 1, n);
      if 1 < n {
        GroupedAhead(ms, 1, n);
      }
      LineCosts(o, 0, line, true, rest);
    }
  }

  // ---- Grouping is a stable sort ----

  predicate Sorted(ms: seq<Mapping>) {
    forall i, j :: 0 <= i < j < |ms| ==> ms[i].genLine <= ms[j].genLine
  }

  ghost predicate SameLines(a: seq<Mapping>, b: seq<Mapping>) {
    forall l: nat :: OnLine(a, l) == OnLine(b, l)
  }

  lemma {:induction false} OnLineJoin(a: seq<Mapping>, b: seq<Mapping>, l: nat)
    ensures OnLine(a + b, l) == OnLine(a, l) + OnLine(b, l)
    decreases |b|
  {
    if b == [] {
      assert a + b == a;
    } else {
      assert (a + b)[..|a + b| - 1] == a + b[..|b| - 1];
      OnLineJoin(a, b[..|b| - 1], l);
    }
  }

  lemma {:induction false} OnLineOfLine(ms: seq<Mapping>, k: nat, l: nat)
    ensures OnLine(OnLine(ms, k), l) == if k == l then OnLine(ms, l) else []
    decreases |ms|
  {
    if ms != [] {
      var n := |ms| - 1;
      OnLineOfLine(ms[..n], k, l);
      if ms[n].genLine == k {
        OnLineJoin(OnLine(ms[..n], k), [ms[n]], l);
        assert [ms[n]][..0] == [];
      } else {
        assert OnLine(ms, k) == OnLine(ms[..n], k);
      }
    }
  }

  /** Grouping keeps each line's mappings in their order. */
  lemma {:induction false} GroupedOnLine(ms: seq<Mapping>, from: nat, end: nat, l: nat)
    ensures OnLine(Grouped(ms, from, end), l) == if from <= l < end then OnLine(ms, l) else []
    decreases end - from
  {
    hide *;
    if from < end {
      GroupedUnfold(ms, from, end);
      GroupedOnLine(ms, from + 1, end, l);
      OnLineOfLine(ms, from, l);
      OnLineJoin(OnLine(ms, from), Grouped(ms, from + 1, end), l);
    } else {
      GroupedNothing(ms, from, end, l);
    }
  }

  lemma GroupedNothing(ms: seq<Mapping>, from: nat, end: nat, l: nat)
    requires from >= end
    ensures OnLine(Grouped(ms, from, end), l) == []
  {
  }

  lemma {:induction false} GroupedSorted(ms: seq<Mapping>, from: nat, end: nat)
    ensures Sorted(Grouped(ms, from, end))
    ensures forall i :: 0 <= i < |Grouped(ms, from, end)| ==> from <= Grouped(ms, from, end)[i].genLine < end
    decreases end - from
  {
    if from < end {
      GroupedSorted(ms, from + 1, end);
    }
  }

  /** Grouping sorts by generated line and keeps every line's mappings, in their order. */
  lemma GroupedIsStableSort(ms: seq<Mapping>)
    ensures Sorted(Grouped(ms, 0, LineCount(ms))) && SameLines(Grouped(ms, 0, LineCount(ms)), ms)
  {
    var n := LineCount(ms);
    GroupedSorted(ms, 0, n);
    forall l: nat
      ensures OnLine(Grouped(ms, 0, n), l) == OnLine(ms, l)
    {
      GroupedOnLine(ms, 0, n, l);
      if l >= n {
        NothingBeyond(ms, l);
      }
    }
  }

  lemma {:induction false} NothingBeyond(ms: seq<Mapping>, l: nat)
    requires forall i :: 0 <= i < |ms| ==> ms[i].genLine != l
    ensures OnLine(ms, l) == []
    decreases |ms|
  {
    if ms != [] {
      NothingBeyond(ms[..|ms| - 1], l);
    }
  }

  lemma LastOfLine(a: seq<Mapping>)
    requires a != []
    ensures var s := OnLine(a, a[|a| - 1].genLine);
            s != [] && s[|s| - 1] == a[|a| - 1] && s[..|s| - 1] == OnLine(a[..|a| - 1], a[|a| - 1].genLine)
  {
  }

  /** Sorted lists with the same lines end with the same mapping. */
  lemma SameLast(a: seq<Mapping>, b: seq<Mapping>)
    requires Sorted(a) && Sorted(b) && SameLines(a, b) && a != []
    ensures b != [] && a[|a| - 1] == b[|b| - 1]
  {
    var l := a[|a| - 1].genLine;
    LastOfLine(a);
    assert OnLine(b, l) == OnLine(a, l);
    OnLineIn(b, l, |OnLine(b, l)| - 1);
    var k := b[|b| - 1].genLine;
    LastOfLine(b);
    assert OnLine(a, k) == OnLine(b, k);
    OnLineIn(a, k, |OnLine(a, k)| - 1);
  }

  lemma SameWithoutLast(a: seq<Mapping>, b: seq<Mapping>)
    requires SameLines(a, b) && a != [] && b != [] && a[|a| - 1] == b[|b| - 1]
    ensures SameLines(a[..|a| - 1], b[..|b| - 1])
  {
    LastOfLine(a);
    LastOfLine(b);
    var a', b' := a[..|a| - 1], b[..|b| - 1];
    forall l: nat
      ensures OnLine(a', l) == OnLine(b', l)
    {
      assert OnLine(a, l) == OnLine(b, l);
      if l != a[|a| - 1].genLine {
        assert OnLine(a, l) == OnLine(a', l) && OnLine(b, l) == OnLine(b', l);
      }
    }
  }

  /** Two sorted lists with the same mappings on every line are the same list. */
  lemma {:induction false} SortedByLines(a: seq<Mapping>, b: seq<Mapping>)
    requires Sorted(a) && Sorted(b) && SameLines(a, b)
    ensures a == b
    decreases |a|
  {
    hide SameLines, OnLine;
    if a != [] {
      SameLast(a, b);
      SameWithoutLast(a, b);
      SortedByLines(a[..|a| - 1], b[..|b| - 1]);
      assert a == a[..|a| - 1] + [a[|a| - 1]] && b == b[..|b| - 1] + [b[|b| - 1]];
    } else if b != [] {
      SameFlip(a, b);
      SameLast(b, a);
      assert false;
    }
  }

  lemma SameFlip(a: seq<Mapping>, b: seq<Mapping>)
    requires SameLines(a, b)
    ensures SameLines(b, a)
  {
  }

  /** A list already sorted by generated line comes back as it was. */
  lemma SortedRoundTrip(ms: seq<Mapping>)
    requires Sorted(ms)
    ensures Decode(Cursor(0, 0, Origin(0, 0, 0)), Encoded(ms), LineStart) == Entries(Entries0(ms))
  {
    hide Decode, Encoded;
    GroupedIsStableSort(ms);
    SortedByLines(Grouped(ms, 0, LineCount(ms)), ms);
    DecodesGrouped(ms);
  }

  // ---- The encoder as it runs ----

  method EncodeMappings(ms: seq<Mapping>) returns (result: string)
    requires AllFit(ms)
    ensures result == Encoded(ms)
  {
    hide OnLine, AllFit;
    var lines := CollectLines(ms);
    result := "";
    var prevSrcLine: int, prevSrcCol: int := 0, 0;
    ghost var o := Origin(0, 0, 0);
    for li := 0 to |lines|
      invariant o.srcLine == prevSrcLine && o.srcCol == prevSrcCol
      invariant -U32 < prevSrcLine < U32 && -U32 < prevSrcCol < U32
      invariant Encoded(ms) == result + Lines(o, ms, li, |lines|)
    {
      ghost var before := result;
      LinesUnfold(o, ms, li, |lines|);
      if li > 0 {
        result := result + ";";
      }
      ghost var start := o.(genCol := 0);
      OnLineFits(ms, li);
      result, prevSrcLine, prevSrcCol := EncodeLine(result, lines[li], prevSrcLine, prevSrcCol);
      o := Final(start, lines[li]);
      LineEmitted(before, li > 0, Segments(start, lines[li], true), Lines(o, ms, li + 1, |lines|));
    }
    assert result + "" == result;
  }

  lemma LineEmitted(before: string, later: bool, line: string, rest: string)
    ensures before + ((if later then ";" else "") + line + rest)
         == (if later then before + ";" else before) + line + rest
  {
  }

  /** The bucket of every line that has a mapping or precedes one that has. */
  method CollectLines(ms: seq<Mapping>) returns (lines: seq<seq<Mapping>>)
    ensures |lines| == LineCount(ms)
    ensures forall l :: 0 <= l < |lines| ==> lines[l] == OnLine(ms, l)
  {
    var count := 0;
    for i := 0 to |ms|
      invariant count == LineCount(ms[..i])
    {
      assert ms[..i + 1][..i] == ms[..i];
      if ms[i].genLine >= count {
        count := ms[i].genLine + 1;
      }
    }
    assert ms[..|ms|] == ms;
    lines := seq(count, _ => []);
    for i := 0 to |ms|
      invariant |lines| == count
      invariant forall l :: 0 <= l < count ==> lines[l] == OnLine(ms[..i], l)
    {
      assert ms[..i + 1][..i] == ms[..i];
      var l := ms[i].genLine;
      lines := lines[l := lines[l] + [ms[i]]];
    }
  }

  method EncodeLine(prefix: string, segs: seq<Mapping>, prevLine: int, prevCol: int)
    returns (result: string, srcLine: int, srcCol: int)
    requires AllFit(segs) && -U32 < prevLine < U32 && -U32 < prevCol < U32
    ensures var o := Origin(0, prevLine, prevCol);
            && result == prefix + Segments(o, segs, true)
            && srcLine == Final(o, segs).srcLine && srcCol == Final(o, segs).srcCol
    ensures -U32 < srcLine < U32 && -U32 < srcCol < U32
  {
    hide VlqEncode;
    var genCol: int := 0;
    result, srcLine, srcCol := prefix, prevLine, prevCol;
    ghost var o := Origin(0, prevLine, prevCol);
    for si := 0 to |segs|
      invariant o == Origin(genCol, srcLine, srcCol) && o == Final(Origin(0, prevLine, prevCol), segs[..si])
      invariant -U32 < genCol < U32 && -U32 < srcLine < U32 && -U32 < srcCol < U32
      invariant prefix + Segments(Origin(0, prevLine, prevCol), segs, true)
             == result + Segments(o, segs[si..], si == 0)
    {
      var m := segs[si];
      ghost var before := result;
      if si > 0 {
        result := result + ",";
      }
      var col := EncodeVlq(m.genCol - genCol);
      var line := EncodeVlq(m.srcLine - srcLine);
      var src := EncodeVlq(m.srcCol - srcCol);
      result := result + col + "A" + line + src;
      SegmentsUnfold(o, segs, si);
      SegmentEmitted(before, si > 0, col, line, src, Segments(At(m), segs[si + 1..], false));
      genCol, srcLine, srcCol := m.genCol, m.srcLine, m.srcCol;
      o := At(m);
    }
    assert segs[..|segs|] == segs && result + "" == result;
  }

  lemma SegmentsUnfold(o: Origin, segs: seq<Mapping>, si: nat)
    requires si < |segs|
    ensures Segments(o, segs[si..], si == 0)
         == (if si == 0 then "" else ",") + Segment(o, segs[si]) + Segments(At(segs[si]), segs[si + 1..], false)
    ensures segs[..si + 1] == segs[..si] + [segs[si]]
  {
    assert segs[si..][1..] == segs[si + 1..];
  }

  lemma SegmentEmitted(before: string, later: bool, a: string, b: string, c: string, rest: string)
    ensures before + ((if !later then "" else ",") + (a + "A" + b + c) + rest)
         == (if later then before + "," else before) + a + "A" + b + c + rest
  {
  }
}
