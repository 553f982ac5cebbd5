/** Server-sent events: the frames the gateway writes and the client's parser, as section 9.2.6 of the WHATWG
    HTML standard describes it (ids and retry times, which the gateway never sends, are skipped). */
module Sse {
  import opened Prelude

  /** A frame has a payload and, in the Claude protocol, an event name. */
  datatype Frame = Frame(name: Option<string>, payload: string)

  function Render(f: Frame): string {
    (if f.name.Some? then "event: " + f.name.value + "\n" else "") + "data: " + f.payload + "\n\n"
  }

  function RenderAll(frames: seq<Frame>): string {
    if frames == [] then "" else Render(frames[0]) + RenderAll(frames[1..])
  }

  // ---------- The parser ----------

  datatype Event = Event(kind: string, data: string)

  predicate IsBreak(c: char) {
    c == '\n' || c == '\r'
  }

  function FirstBreak(s: string): (i: nat)
    ensures i <= |s|
    ensures forall j :: 0 <= j < i ==> !IsBreak(s[j])
    ensures i < |s| ==> IsBreak(s[i])
  {
    if s == [] || IsBreak(s[0]) then 0 else 1 + FirstBreak(s[1..])
  }

  /** What follows a line break; a carriage return and a line feed together are one break. */
  function AfterBreak(s: string, i: nat): (r: string)
    requires i < |s|
    ensures |r| < |s|
  {
    if s[i] == '\r' && i + 1 < |s| && s[i + 1] == '\n' then s[i + 2..] else s[i + 1..]
  }

  /** The data buffer and the event type buffer. */
  datatype Buffers = Buffers(data: string, kind: string)

  const EMPTY := Buffers("", "")

  function Dispatch(b: Buffers): seq<Event> {
    if b.data == "" then [] else [Event(if b.kind == "" then "message" else b.kind, b.data[..|b.data| - 1])]
  }

  function Field(b: Buffers, name: string, value: string): Buffers {
    if name == "event" then b.(kind := value)
    else if name == "data" then b.(data := b.data + value + "\n")
    else b
  }

  function FieldLine(b: Buffers, line: string): Buffers
    requires line != ""
  {
    var colon := FirstColon(line);
    if colon == 0 && line[0] == ':' then b
    else if colon == |line| then Field(b, line, "")
    else
      var value := line[colon + 1..];
      Field(b, line[..colon], if value != "" && value[0] == ' ' then value[1..] else value)
  }

  /** Lines are taken one by one; what is left without a line break or a closing blank line is dropped. */
  function Run(b: Buffers, s: string): seq<Event>
    decreases |s|
  {
    var i := FirstBreak(s);
    if i == |s| then []
    else if i == 0 then Dispatch(b) + Run(EMPTY, AfterBreak(s, 0))
    else Run(FieldLine(b, s[..i]), AfterBreak(s, i))
  }

  function Parse(s: string): seq<Event> {
    Run(EMPTY, s)
  }

  // ---------- Round trip ----------

  ghost predicate OneLine(s: string) {
    forall i :: 0 <= i < |s| ==> !IsBreak(s[i])
  }

  ghost predicate Clean(f: Frame) {
    OneLine(f.payload) && (f.name.Some? ==> OneLine(f.name.value) && f.name.value != "")
  }

  function Meaning(f: Frame): Event {
    Event(if f.name.Some? then f.name.value else "message", f.payload)
  }

  function Meanings(frames: seq<Frame>): seq<Event> {
    seq(|frames|, i requires 0 <= i < |frames| => Meaning(frames[i]))
  }

  lemma {:induction false} BreakAfter(line: string, rest: string)
    requires OneLine(line)
    ensures FirstBreak(line + "\n" + rest) == |line|
    ensures (line + "\n" + rest)[..|line|] == line && AfterBreak(line + "\n" + rest, |line|) == rest
  {
    var s := line + "\n" + rest;
    assert s[|line|] == '\n';
    assert forall j :: 0 <= j < |line| ==> s[j] == line[j];
    assert s[|line| + 1..] == rest;
  }

  /** A line with a break after it is taken off the front. */
  lemma {:induction false} TakeLine(b: Buffers, line: string, rest: string)
    requires OneLine(line)
    ensures Run(b, line + "\n" + rest) ==
      if line == "" then Dispatch(b) + Run(EMPTY, rest) else Run(FieldLine(b, line), rest)
  {
    BreakAfter(line, rest);
  }

  lemma {:induction false} NoLine(b: Buffers, s: string)
    requires OneLine(s)
    ensures Run(b, s) == []
  {
  }

  lemma NamedField(b: Buffers, name: string, value: string)
    requires name != "" && ':' !in name
    ensures FieldLine(b, name + ": " + value) == Field(b, name, value)
  {
    var line := name + ": " + value;
    assert line[|name|] == ':';
    assert forall j :: 0 <= j < |name| ==> line[j] == name[j];
    assert line[..|name|] == name && line[|name| + 1..] == " " + value;
    assert (" " + value)[1..] == value;
  }

  function EventLine(name: string): string {
    "event" + ": " + name
  }

  function DataLine(payload: string): string {
    "data" + ": " + payload
  }

  lemma FrameLines(f: Frame)
    ensures Render(f) ==
      (if f.name.Some? then EventLine(f.name.value) + "\n" else "") + (DataLine(f.payload) + "\n" + ("" + "\n" + ""))
  {
    assert "event: " == "event" + ": " && "data: " == "data" + ": ";
    assert Render(f) == (if f.name.Some? then EventLine(f.name.value) + "\n" else "")
      + (DataLine(f.payload) + "\n" + "\n");
  }

  lemma LinesAreOneLine(f: Frame)
    requires Clean(f)
    ensures OneLine(DataLine(f.payload)) && (f.name.Some? ==> OneLine(EventLine(f.name.value)))
  {
  }

  /** The data line and the blank line after it, with whatever kind has been set. */
  lemma {:induction false} DataBlock(kind: string, payload: string, rest: string)
    requires OneLine(payload)
    ensures Run(Buffers("", kind), DataLine(payload) + "\n" + ("" + "\n" + rest)) ==
      [Event(if kind == "" then "message" else kind, payload)] + Run(EMPTY, rest)
  {
    var b := Buffers("", kind);
    LinesAreOneLine(Frame(None, payload));
    TakeLine(b, DataLine(payload), "" + "\n" + rest);
    NamedField(b, "data", payload);
    var filled := Field(b, "data", payload);
    assert filled == Buffers("" + payload + "\n", kind);
    assert filled.data[..|filled.data| - 1] == payload;
    TakeLine(filled, "", rest);
  }

  lemma {:induction false} OneFrame(f: Frame, rest: string)
    requires Clean(f)
    ensures Run(EMPTY, Render(f) + rest) == [Meaning(f)] + Run(EMPTY, rest)
  {
    FrameLines(f);
    LinesAreOneLine(f);
    var tail := DataLine(f.payload) + "\n" + ("" + "\n" + rest);
    if f.name.Some? {
      assert Render(f) + rest == EventLine(f.name.value) + "\n" + tail;
      TakeLine(EMPTY, EventLine(f.name.value), tail);
      NamedField(EMPTY, "event", f.name.value);
      DataBlock(f.name.value, f.payload, rest);
    } else {
      assert Render(f) + rest == tail;
      DataBlock("", f.payload, rest);
    }
  }

  /** A frame that was cut off before its end tells the client nothing. */
  lemma CutFrame(f: Frame, cut: nat)
    requires Clean(f) && cut < |Render(f)|
    ensures Run(EMPTY, Render(f)[..cut]) == []
  {
    FrameLines(f);
    LinesAreOneLine(f);
    if f.name.Some? {
      var line := EventLine(f.name.value);
      var s := line + "\n" + (DataLine(f.payload) + "\n" + "\n");
      assert Render(f) == s;
      if cut <= |line| {
        assert s[..cut] == line[..cut];
        NoLine(EMPTY, s[..cut]);
      } else {
        var more := cut - |line| - 1;
        assert s[..cut] == line + "\n" + (DataLine(f.payload) + "\n" + "\n")[..more];
        TakeLine(EMPTY, line, (DataLine(f.payload) + "\n" + "\n")[..more]);
        CutDataBlock(FieldLine(EMPTY, line), f.payload, more);
      }
    } else {
      assert Render(f) == DataLine(f.payload) + "\n" + "\n";
      CutDataBlock(EMPTY, f.payload, cut);
    }
  }

  lemma {:induction false} CutDataBlock(b: Buffers, payload: string, cut: nat)
    requires OneLine(payload) && cut < |DataLine(payload) + "\n" + "\n"|
    ensures Run(b, (DataLine(payload) + "\n" + "\n")[..cut]) == []
  {
    var line := DataLine(payload);
    LinesAreOneLine(Frame(None, payload));
    var s := line + "\n" + "\n";
    if cut <= |line| {
      assert s[..cut] == line[..cut];
      NoLine(b, s[..cut]);
    } else {
      assert s[..cut] == line + "\n" + "";
      TakeLine(b, line, "");
      NoLine(FieldLine(b, line), "");
    }
  }

  lemma {:induction false} FramesThen(frames: seq<Frame>, rest: string)
    requires forall f :: f in frames ==> Clean(f)
    ensures Run(EMPTY, RenderAll(frames) + rest) == Meanings(frames) + Run(EMPTY, rest)
  {
    if frames == [] {
      assert RenderAll(frames) + rest == rest;
    } else {
      assert frames[0] in frames;
      FirstRendered(frames, rest);
      FirstMeaning(frames, Run(EMPTY, rest));
      OneFrame(frames[0], RenderAll(frames[1..]) + rest);
      FramesThen(frames[1..], rest);
    }
  }

  lemma {:induction false} FirstRendered(frames: seq<Frame>, rest: string)
    requires frames != []
    ensures RenderAll(frames) + rest == Render(frames[0]) + (RenderAll(frames[1..]) + rest)
  {
    Regroup(Render(frames[0]), RenderAll(frames[1..]), rest);
  }

  lemma Regroup(a: string, b: string, c: string)
    ensures a + b + c == a + (b + c)
  {
  }

  lemma FirstMeaning(frames: seq<Frame>, more: seq<Event>)
    requires frames != []
    ensures Meanings(frames) + more == [Meaning(frames[0])] + (Meanings(frames[1..]) + more)
  {
    assert Meanings(frames) == [Meaning(frames[0])] + Meanings(frames[1..]);
  }

  /** As long as payloads contain no line breaks, the client reads exactly the frames that were written, and
      nothing of a last one that was cut short. */
  lemma {:induction false} ClientReadsFrames(frames: seq<Frame>, last: Frame, cut: nat)
    requires forall f :: f in frames ==> Clean(f)
    requires Clean(last) && cut < |Render(last)|
    ensures Parse(RenderAll(frames)) == Meanings(frames)
    ensures Parse(RenderAll(frames) + Render(last)[..cut]) == Meanings(frames)
  {
    FramesThen(frames, Render(last)[..cut]);
    CutFrame(last, cut);
    FramesThen(frames, "");
    NoLine(EMPTY, "");
    assert RenderAll(frames) + "" == RenderAll(frames);
  }
}
