/** Server-sent event framing: the printer of BridgeStream and the line parser of sse.Client.
    Characters stand for bytes. */
module Sse {

  datatype Frame = Connected | Data(payload: string) | Heartbeat

  const PREFIX := "data: "
  /** bufio.MaxScanTokenSize: a longer line ends the scan with an error. */
  const LINE_LIMIT := 65536

  function Line(f: Frame): string {
    match f
    case Connected => ": connected"
    case Data(p) => PREFIX + p
    case Heartbeat => ": heartbeat"
  }

  function Printed(frames: seq<Frame>): string {
    if frames == [] then [] else Line(frames[0]) + ['\n', '\n'] + Printed(frames[1..])
  }

  function Payloads(frames: seq<Frame>): seq<string> {
    if frames == [] then []
    else (if frames[0].Data? then [frames[0].payload] else []) + Payloads(frames[1..])
  }

  /** Where the first line ends: the first newline, or the end of the text. */
  function LineLength(text: string): (k: nat)
    ensures k <= |text|
    ensures forall i :: 0 <= i < k ==> text[i] != '\n'
    ensures k < |text| ==> text[k] == '\n'
  {
    if text == [] || text[0] == '\n' then 0 else 1 + LineLength(text[1..])
  }

  /** bufio.ScanLines drops one trailing carriage return. */
  function DropCR(line: string): string {
    if line != [] && line[|line|-1] == '\r' then line[..|line|-1] else line
  }

  function PayloadOf(line: string): seq<string> {
    if PREFIX <= line then [line[|PREFIX|..]] else []
  }

  /** The text after the first line. */
  function Rest(text: string): (rest: string)
    ensures text != [] ==> |rest| < |text|
  {
    if LineLength(text) < |text| then text[LineLength(text)+1..] else []
  }

  /** What the client extracts from a stream. */
  function Scanned(text: string): seq<string>
    decreases |text|
  {
    if text == [] then []
    else
      var k := LineLength(text);
      if k >= LINE_LIMIT then []
      else PayloadOf(DropCR(text[..k])) + Scanned(Rest(text))
  }

  lemma ScannedStep(text: string)
    requires text != []
    ensures LineLength(text) >= LINE_LIMIT ==> Scanned(text) == []
    ensures LineLength(text) < LINE_LIMIT ==>
              Scanned(text) == PayloadOf(DropCR(text[..LineLength(text)])) + Scanned(Rest(text))
  {
  }

  /** The payloads that survive. */
  predicate Clean(p: string) {
    '\n' !in p && (p != [] ==> p[|p|-1] != '\r') && |PREFIX| + |p| < LINE_LIMIT
  }

  predicate AllClean(frames: seq<Frame>) {
    forall i :: 0 <= i < |frames| && frames[i].Data? ==> Clean(frames[i].payload)
  }

  lemma Assoc<T>(a: seq<T>, b: seq<T>, c: seq<T>)
    ensures a + (b + c) == (a + b) + c
  {
  }

  method BridgeStream(frames: seq<Frame>) returns (written: string)
    ensures written == Printed(frames)
  {
    hide Line;
    written := [];
    var i := 0;
    assert frames[0..] == frames && written + Printed(frames) == Printed(frames);
    while i < |frames|
      invariant 0 <= i <= |frames|
      invariant Printed(frames) == written + Printed(frames[i..])
    {
      var frame := Line(frames[i]) + ['\n', '\n'];
      assert frames[i..][1..] == frames[i+1..];
      assert Printed(frames[i..]) == frame + Printed(frames[i+1..]);
      Assoc(written, frame, Printed(frames[i+1..]));
      written := written + frame;
      i := i + 1;
    }
    assert frames[i..] == [] && written + [] == written;
  }

  method StreamEvents(text: string) returns (payloads: seq<string>)
    ensures payloads == Scanned(text)
  {
    assert Scanned([]) == [];
    hide Scanned, LineLength, Rest, PayloadOf, DropCR;
    payloads := [];
    var rest := text;
    assert payloads + Scanned(rest) == Scanned(rest);
    while rest != []
      invariant Scanned(text) == payloads + Scanned(rest)
      decreases |rest|
    {
      ScannedStep(rest);
      var k := LineLength(rest);
      if k >= LINE_LIMIT {
        assert payloads + [] == payloads;
        return;
      }
      var found := PayloadOf(DropCR(rest[..k]));
      Assoc(payloads, found, Scanned(Rest(rest)));
      payloads := payloads + found;
      rest := Rest(rest);
    }
    assert payloads + [] == payloads;
  }

  // ---- reading one frame back ----

  lemma {:induction false} LineLengthOf(line: string, rest: string)
    requires '\n' !in line
    ensures LineLength(line + ['\n'] + rest) == |line|
  {
    var text := line + ['\n'] + rest;
    var k := LineLength(text);
    assert text[|line|] == '\n';
    assert forall i :: 0 <= i < |line| ==> text[i] == line[i];
  }

  lemma ScanLine(line: string, rest: string)
    requires '\n' !in line && |line| < LINE_LIMIT
    ensures Scanned(line + ['\n'] + rest) == PayloadOf(DropCR(line)) + Scanned(rest)
  {
    var text := line + ['\n'] + rest;
    LineLengthOf(line, rest);
    assert text[..|line|] == line;
    assert text[|line|+1..] == rest;
  }

  lemma ScanBlank(rest: string)
    ensures Scanned(['\n'] + rest) == Scanned(rest)
  {
    var text := ['\n'] + rest;
    assert LineLength(text) == 0 && text[..0] == [] && text[1..] == rest;
  }

  lemma SplitBreaks(line: string, rest: string)
    ensures line + ['\n', '\n'] + rest == line + ['\n'] + (['\n'] + rest)
  {
  }

  lemma ScanFrame(f: Frame, rest: string)
    requires '\n' !in Line(f) && |Line(f)| < LINE_LIMIT
    ensures Scanned(Line(f) + ['\n', '\n'] + rest) == PayloadOf(DropCR(Line(f))) + Scanned(rest)
  {
    hide Scanned, Line, DropCR, PayloadOf;
    SplitBreaks(Line(f), rest);
    ScanLine(Line(f), ['\n'] + rest);
    ScanBlank(rest);
  }

  lemma CommentLines(f: Frame)
    requires !f.Data?
    ensures '\n' !in Line(f) && |Line(f)| < LINE_LIMIT && PayloadOf(DropCR(Line(f))) == []
  {
    var line := Line(f);
    assert |line| == 11 && line[0] == ':';
    assert forall i :: 0 <= i < |line| ==> line[i] != '\n' && line[i] != '\r';
    assert DropCR(line) == line;
    assert PREFIX[0] == 'd';
  }

  lemma DataLine(p: string)
    requires '\n' !in p && |PREFIX| + |p| < LINE_LIMIT
    ensures '\n' !in Line(Data(p))
    ensures PayloadOf(DropCR(Line(Data(p)))) == [if p != [] && p[|p|-1] == '\r' then p[..|p|-1] else p]
  {
    var line := PREFIX + p;
    if p != [] {
      assert line[|line|-1] == p[|p|-1];
      if p[|p|-1] == '\r' {
        assert line[..|line|-1] == PREFIX + p[..|p|-1];
      }
    } else {
      assert line == PREFIX;
    }
  }

  /** A newline-free frame short enough for the scanner is read back as one payload or none. */
  lemma ReadFrame(f: Frame, rest: string)
    requires f.Data? ==> '\n' !in f.payload && |PREFIX| + |f.payload| < LINE_LIMIT
    ensures Scanned(Line(f) + ['\n', '\n'] + rest) ==
              (if f.Data? then [DropCR(f.payload)] else []) + Scanned(rest)
  {
    if f.Data? { DataLine(f.payload); } else { CommentLines(f); }
    ScanFrame(f, rest);
  }

  // ---- the round trip ----

  lemma {:induction false} RoundTripIf(frames: seq<Frame>)
    requires AllClean(frames)
    ensures Scanned(Printed(frames)) == Payloads(frames)
  {
    if frames != [] {
      assert frames[0].Data? ==> Clean(frames[0].payload);
      RoundTripIf(frames[1..]);
      ReadFrame(frames[0], Printed(frames[1..]));
    }
  }

  lemma {:induction false} ScannedNoNewline(text: string)
    ensures forall i :: 0 <= i < |Scanned(text)| ==> '\n' !in Scanned(text)[i]
    decreases |text|
  {
    if text != [] {
      var k := LineLength(text);
      if k < LINE_LIMIT {
        ScannedNoNewline(Rest(text));
        assert '\n' !in text[..k];
      }
    }
  }

  lemma {:induction false} PayloadsMember(frames: seq<Frame>, i: nat)
    requires i < |frames| && frames[i].Data?
    ensures frames[i].payload in Payloads(frames)
  {
    if i > 0 { PayloadsMember(frames[1..], i - 1); }
  }

  lemma TooLongEndsScan(f: Frame, rest: string)
    requires f.Data? && '\n' !in f.payload && |PREFIX| + |f.payload| >= LINE_LIMIT
    ensures Scanned(Line(f) + ['\n', '\n'] + rest) == []
  {
    SplitBreaks(Line(f), rest);
    assert '\n' !in PREFIX;
    LineLengthOf(Line(f), ['\n'] + rest);
  }

  /** If a whole stream is read back, its first frame is clean and the rest is read back. */
  lemma PeelFrame(frames: seq<Frame>)
    requires frames != [] && Scanned(Printed(frames)) == Payloads(frames)
    requires frames[0].Data? ==> '\n' !in frames[0].payload
    ensures frames[0].Data? ==> Clean(frames[0].payload)
    ensures Scanned(Printed(frames[1..])) == Payloads(frames[1..])
  {
    hide Scanned, Line, LineLength;
    var f, rest := frames[0], frames[1..];
    if f.Data? && |PREFIX| + |f.payload| >= LINE_LIMIT {
      TooLongEndsScan(f, Printed(rest));
      assert false;
    } else {
      ReadFrame(f, Printed(rest));
      var head := if f.Data? then [DropCR(f.payload)] else [];
      assert head + Scanned(Printed(rest)) == Payloads(frames);
      if f.Data? {
        assert (head + Scanned(Printed(rest)))[0] == f.payload;
        assert (head + Scanned(Printed(rest)))[1..] == Scanned(Printed(rest));
        assert Payloads(frames)[1..] == Payloads(rest);
      } else {
        assert Payloads(frames) == [] + Payloads(rest) == Payloads(rest);
        assert [] + Scanned(Printed(rest)) == Scanned(Printed(rest));
      }
    }
  }

  lemma {:induction false} RoundTripOnlyIf(frames: seq<Frame>)
    requires forall i :: 0 <= i < |frames| && frames[i].Data? ==> '\n' !in frames[i].payload
    requires Scanned(Printed(frames)) == Payloads(frames)
    ensures AllClean(frames)
  {
    hide Scanned, Printed, Payloads, Clean;
    if frames != [] {
      PeelFrame(frames);
      RoundTripOnlyIf(frames[1..]);
      forall i | 0 <= i < |frames| && frames[i].Data? ensures Clean(frames[i].payload) {
        if i > 0 { assert frames[i] == frames[1..][i-1]; }
      }
    }
  }

  /** With comments and heartbeats interleaved anywhere, the client reads back exactly the payloads
      that were printed if and only if every payload is free of newlines, does not end in a
      carriage return and fits the scanner's line limit. */
  lemma RoundTripIff(frames: seq<Frame>)
    ensures Scanned(Printed(frames)) == Payloads(frames) <==> AllClean(frames)
  {
    if AllClean(frames) {
      RoundTripIf(frames);
    } else if Scanned(Printed(frames)) == Payloads(frames) {
      ScannedNoNewline(Printed(frames));
      forall i | 0 <= i < |frames| && frames[i].Data? ensures '\n' !in frames[i].payload {
        PayloadsMember(frames, i);
        var k :| 0 <= k < |Payloads(frames)| && Payloads(frames)[k] == frames[i].payload;
        assert '\n' !in Scanned(Printed(frames))[k];
      }
      RoundTripOnlyIf(frames);
      assert false;
    }
  }

  // ---- what the client reads from any stream ----

  /** The client's whole reading, line by line: a line too long for the scanner ends it, a line that
      begins with the prefix yields what follows it, less a trailing carriage return, and any other
      line yields nothing. */
  lemma ScannedExactly(line: string, rest: string)
    requires '\n' !in line
    ensures var l := if line != [] && line[|line|-1] == '\r' then line[..|line|-1] else line;
            var found := if |l| >= 6 && l[..6] == "data: " then [l[6..]] else [];
            && (|line| < 65536 ==> Scanned(line + ['\n'] + rest) == found + Scanned(rest))
            && (|line| >= 65536 ==> Scanned(line + ['\n'] + rest) == [])
            && Scanned(line) == if |line| < 65536 then found else []
    ensures Scanned([]) == []
  {
    LineLengthOf(line, rest);
    assert DropCR(line) == if line != [] && line[|line|-1] == '\r' then line[..|line|-1] else line;
    if |line| < LINE_LIMIT { ScanLine(line, rest); }
    ScannedUnended(line);
    assert PREFIX <= DropCR(line) <==> |DropCR(line)| >= 6 && DropCR(line)[..6] == PREFIX;
  }

  lemma ScannedUnended(line: string)
    requires '\n' !in line
    ensures Scanned(line) == if |line| < LINE_LIMIT then PayloadOf(DropCR(line)) else []
  {
    assert LineLength(line) == |line| && line[..|line|] == line && Rest(line) == [];
    assert line == [] ==> PayloadOf(DropCR(line)) == [];
    hide PayloadOf, DropCR, LineLength;
    if line != [] { ScannedStep(line); }
    assert PayloadOf(DropCR(line)) + [] == PayloadOf(DropCR(line)) && Scanned([]) == [];
  }

  // ---- what a standard reader gets: section 9.2.6 of the WHATWG HTML Standard ----

  /** Lines end at a line feed, a carriage return, or the two together. */
  function BreakAt(text: string): (k: nat)
    ensures k <= |text|
    ensures forall i :: 0 <= i < k ==> text[i] != '\n' && text[i] != '\r'
    ensures k < |text| ==> text[k] == '\n' || text[k] == '\r'
  {
    if text == [] || text[0] == '\n' || text[0] == '\r' then 0 else 1 + BreakAt(text[1..])
  }

  function AfterBreak(text: string, k: nat): (rest: string)
    requires k < |text|
    ensures |rest| < |text|
  {
    if text[k] == '\r' && k + 1 < |text| && text[k+1] == '\n' then text[k+2..] else text[k+1..]
  }

  /** What a line adds to the data buffer: the value of a data field, less one leading space, and a
      line feed. Comments and other fields add nothing. */
  function DataOf(line: string): string {
    if line == "data" then ['\n']
    else if |line| >= 5 && line[..5] == "data:" then
      (if |line| >= 6 && line[5] == ' ' then line[6..] else line[5..]) + ['\n']
    else []
  }

  /** The data of the events dispatched: at every blank line, unless the buffer is empty, without
      the buffer's last line feed. A block that the stream does not finish is discarded. */
  function Dispatched(text: string, data: string): seq<string>
    decreases |text|
  {
    var k := BreakAt(text);
    if k == |text| then []
    else if k == 0 then
      (if data == [] then [] else [data[..|data|-1]]) + Dispatched(AfterBreak(text, k), [])
    else Dispatched(AfterBreak(text, k), data + DataOf(text[..k]))
  }

  predicate NoBreaks(line: string) { '\n' !in line && '\r' !in line }

  lemma ReadLine(line: string, rest: string, data: string)
    requires NoBreaks(line)
    ensures Dispatched(line + ['\n'] + rest, data) ==
              if line == [] then (if data == [] then [] else [data[..|data|-1]]) + Dispatched(rest, [])
              else Dispatched(rest, data + DataOf(line))
  {
    var text := line + ['\n'] + rest;
    assert text[|line|] == '\n' && forall i :: 0 <= i < |line| ==> text[i] == line[i];
    assert BreakAt(text) == |line| && AfterBreak(text, |line|) == rest && text[..|line|] == line;
  }

  lemma FrameData(f: Frame)
    requires f.Data? ==> NoBreaks(f.payload)
    ensures NoBreaks(Line(f)) && Line(f) != []
    ensures DataOf(Line(f)) == if f.Data? then f.payload + ['\n'] else []
  {
    var line := Line(f);
    if f.Data? {
      assert line[..5] == "data:" && line[5] == ' ' && line[6..] == f.payload;
      assert NoBreaks(PREFIX);
    } else {
      assert |line| == 11 && line[0] == ':';
      assert forall i :: 0 <= i < |line| ==> line[i] != '\n' && line[i] != '\r';
      assert line[..5][0] == ':' && "data:"[0] == 'd';
    }
  }

  lemma ReadBlock(f: Frame, rest: string)
    requires f.Data? ==> NoBreaks(f.payload)
    ensures Dispatched(Line(f) + ['\n', '\n'] + rest, []) ==
              (if f.Data? then [f.payload] else []) + Dispatched(rest, [])
  {
    FrameData(f);
    hide Line, DataOf, Dispatched;
    SplitBreaks(Line(f), rest);
    ReadLine(Line(f), ['\n'] + rest, []);
    var data := [] + DataOf(Line(f));
    assert data == DataOf(Line(f));
    ReadLine([], rest, data);
    assert [] + ['\n'] + rest == ['\n'] + rest;
    if f.Data? { assert data[..|data|-1] == f.payload; }
  }

  /** A standard reader dispatches exactly the printed payloads, one event each, for all payloads
      without line breaks and with comments and heartbeats anywhere. */
  lemma {:induction false} StandardReader(frames: seq<Frame>)
    requires forall i :: 0 <= i < |frames| && frames[i].Data? ==> NoBreaks(frames[i].payload)
    ensures Dispatched(Printed(frames), []) == Payloads(frames)
  {
    if frames != [] {
      StandardReader(frames[1..]);
      ReadBlock(frames[0], Printed(frames[1..]));
    }
  }
}
