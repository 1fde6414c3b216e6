/** The checkpoint body: one serialised record per line (`_compact_body` writes it, `read_current` reads it). */
module Codec {
  import opened Text
  import opened Folding

  /** `serialize_record` and `deserialize_record`; `None` stands for the exception on a bad line. */
  datatype Codec = Codec(ser: Record -> string, de: string -> Option<Record>)

  predicate EndsLine(c: char) {
    c == '\n' || c == '\r'
  }

  function LineLength(raw: string): (n: nat)
    ensures n <= |raw|
    ensures forall i | 0 <= i < n :: !EndsLine(raw[i])
    ensures n < |raw| ==> EndsLine(raw[n])
  {
    if raw == "" || EndsLine(raw[0]) then 0 else 1 + LineLength(raw[1..])
  }

  /** `bytes.splitlines`: lines end at CR, LF or CRLF; a trailing terminator opens no further line. */
  function SplitLines(raw: string): (lines: seq<string>)
    ensures forall l | l in lines :: forall i | 0 <= i < |l| :: !EndsLine(l[i])
    decreases |raw|
  {
    if raw == "" then []
    else
      var n := LineLength(raw);
      var next := if n == |raw| then n else if raw[n] == '\r' && n + 1 < |raw| && raw[n + 1] == '\n' then n + 2 else n + 1;
      [raw[..n]] + SplitLines(raw[next..])
  }

  /** The characters `bytes.strip` removes. */
  predicate IsSpace(c: char): (space: bool)
    ensures space <==> c == ' ' || 9 <= c as int <= 13
  {
    c == ' ' || c == '\t' || c == '\n' || c == '\r' || c == 11 as char || c == 12 as char
  }

  predicate Blank(line: string) {
    forall i | 0 <= i < |line| :: IsSpace(line[i])
  }

  function NonBlank(lines: seq<string>): (kept: seq<string>)
    ensures forall l | l in kept :: l in lines && !Blank(l)
  {
    if lines == [] then []
    else (if Blank(lines[0]) then [] else [lines[0]]) + NonBlank(lines[1..])
  }

  function JoinLines(lines: seq<string>): string {
    if lines == [] then "" else lines[0] + "\n" + JoinLines(lines[1..])
  }

  predicate CleanLine(line: string) {
    !Blank(line) && forall i | 0 <= i < |line| :: !EndsLine(line[i])
  }

  /** Splitting the joined body and dropping blank lines gives back exactly the lines that were written,
      if and only if every one of them is non-blank and free of CR and LF. */
  lemma {:induction false} LinesRoundTripExactly(lines: seq<string>)
    ensures NonBlank(SplitLines(JoinLines(lines))) == lines <==> forall l | l in lines :: CleanLine(l)
  {
    if forall l | l in lines :: CleanLine(l) { CleanLinesRoundTrip(lines); }
  }

  /** The body is the lines one after the other, each with one LF behind it. */
  lemma {:induction false} JoinInTurn(a: seq<string>, b: seq<string>)
    ensures JoinLines(a + b) == JoinLines(a) + JoinLines(b)
    ensures forall l :: JoinLines([l]) == l + "\n"
  {
    if a == [] {
      assert a + b == b;
    } else {
      assert (a + b)[1..] == a[1..] + b;
      JoinInTurn(a[1..], b);
    }
    forall l ensures JoinLines([l]) == l + "\n" { assert [l][1..] == []; }
  }

  predicate OneLine(line: string) {
    forall i | 0 <= i < |line| :: !EndsLine(line[i])
  }

  /** And it splits into those very lines, blank ones included, if and only if none of them has a CR or LF in it. */
  lemma SplitJoinExactly(lines: seq<string>)
    ensures SplitLines(JoinLines(lines)) == lines <==> forall l | l in lines :: OneLine(l)
  {
    hide JoinLines;
    if SplitLines(JoinLines(lines)) == lines {
      forall l | l in lines ensures OneLine(l) {}
    }
    if forall l | l in lines :: OneLine(l) { SplitJoin(lines); }
  }

  lemma {:induction false} SplitJoin(lines: seq<string>)
    requires forall l | l in lines :: OneLine(l)
    ensures SplitLines(JoinLines(lines)) == lines
  {
    if lines != [] {
      var l, rest := lines[0], JoinLines(lines[1..]);
      assert OneLine(l);
      SplitFirst(l, rest);
      SplitJoin(lines[1..]);
    }
  }

  lemma SplitFirst(l: string, rest: string)
    requires OneLine(l)
    ensures SplitLines(l + "\n" + rest) == [l] + SplitLines(rest)
  {
    var raw := l + "\n" + rest;
    FirstLine(l, rest);
    assert raw[..|l|] == l && raw[|l| + 1..] == rest;
  }

  lemma {:induction false} FirstLine(l: string, rest: string)
    requires forall i | 0 <= i < |l| :: !EndsLine(l[i])
    ensures LineLength(l + "\n" + rest) == |l|
  {
    var raw := l + "\n" + rest;
    assert raw[|l|] == '\n';
    if l != "" {
      assert raw[1..] == l[1..] + "\n" + rest;
      assert raw[0] == l[0];
      FirstLine(l[1..], rest);
    }
  }

  lemma {:induction false} CleanLinesRoundTrip(lines: seq<string>)
    requires forall l | l in lines :: CleanLine(l)
    ensures NonBlank(SplitLines(JoinLines(lines))) == lines
  {
    forall l | l in lines ensures OneLine(l) { assert CleanLine(l); }
    SplitJoin(lines);
    NoneBlank(lines);
  }

  lemma {:induction false} NoneBlank(lines: seq<string>)
    requires forall l | l in lines :: CleanLine(l)
    ensures NonBlank(lines) == lines
  {
    if lines != [] {
      assert CleanLine(lines[0]);
      NoneBlank(lines[1..]);
    }
  }

  /* ---- Records ---- */

  function Lines(codec: Codec, records: seq<Record>): (lines: seq<string>)
    ensures |lines| == |records|
    ensures forall i | 0 <= i < |lines| :: lines[i] == codec.ser(records[i])
  {
    seq(|records|, i requires 0 <= i < |records| => codec.ser(records[i]))
  }

  /** The checkpoint body written for a folded list. */
  function Encode(codec: Codec, records: seq<Record>): string {
    JoinLines(Lines(codec, records))
  }

  /** Checkpoints concatenate: a record adds its own line and nothing else. */
  lemma EncodeInTurn(codec: Codec, a: seq<Record>, b: seq<Record>, r: Record)
    ensures Encode(codec, a + b) == Encode(codec, a) + Encode(codec, b)
    ensures Encode(codec, [r]) == codec.ser(r) + "\n" && Encode(codec, []) == ""
  {
    hide JoinLines;
    assert Lines(codec, a + b) == Lines(codec, a) + Lines(codec, b);
    JoinInTurn(Lines(codec, a), Lines(codec, b));
    assert Lines(codec, [r]) == [codec.ser(r)];
    JoinNothing();
  }

  lemma JoinNothing()
    ensures JoinLines([]) == ""
  {}

  function ParseAll(codec: Codec, lines: seq<string>): Option<seq<Record>> {
    if lines == [] then Some([])
    else
      var first := codec.de(lines[0]);
      var rest := ParseAll(codec, lines[1..]);
      if first.None? || rest.None? then None else Some([first.value] + rest.value)
  }

  /** What `read_current` makes of a checkpoint body. */
  function Decode(codec: Codec, raw: string): Option<seq<Record>> {
    ParseAll(codec, NonBlank(SplitLines(raw)))
  }

  /** The record serialises to one non-blank line that reads back as the record. */
  predicate RoundTrips(codec: Codec, r: Record) {
    CleanLine(codec.ser(r)) && codec.de(codec.ser(r)) == Some(r)
  }

  lemma {:induction false} ParseLines(codec: Codec, records: seq<Record>)
    requires forall r | r in records :: RoundTrips(codec, r)
    ensures ParseAll(codec, Lines(codec, records)) == Some(records)
  {
    if records != [] {
      ParseLines(codec, records[1..]);
      assert Lines(codec, records)[1..] == Lines(codec, records[1..]);
      assert RoundTrips(codec, records[0]);
      assert records == [records[0]] + records[1..];
    }
  }

  /** A checkpoint reads back as exactly the list that was folded into it. */
  lemma DecodeEncode(codec: Codec, records: seq<Record>)
    requires forall r | r in records :: RoundTrips(codec, r)
    ensures Decode(codec, Encode(codec, records)) == Some(records)
  {
    forall l | l in Lines(codec, records) ensures CleanLine(l) {
      var i :| 0 <= i < |records| && Lines(codec, records)[i] == l;
      assert RoundTrips(codec, records[i]);
    }
    CleanLinesRoundTrip(Lines(codec, records));
    ParseLines(codec, records);
  }
}
