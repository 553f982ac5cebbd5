/** Streaming an answer: what the session's events come to, which frames they become in each protocol, and what
    of that reaches a client whose connection may break at any point. */
module Stream {
  import opened Prelude
  import opened Weaving

  datatype Usage = Usage(input: int, output: int, cacheRead: int, cacheWrite: int)

  const NO_USAGE := Usage(0, 0, 0, 0)

  function TotalTokens(u: Usage): int {
    u.input + u.output
  }

  // ---------- The session's events, and what Send makes of them ----------

  datatype SdkEvent =
    | MessageDelta(text: string) | FullMessage(text: string)
    | ReasoningDelta(text: string) | FullReasoning(text: string)
    | UsageReport(usage: Usage) | SessionError(message: string) | SessionIdle
    | Note(body: string) | Silent

  datatype Kind = KMessageDelta | KMessage | KReasoningDelta | KReasoning | KUsage | KError | KNote

  /** An event as the stream handler gets it. Reasoning carries its text in the runtime part, not in delta. */
  datatype Event = Event(kind: Kind, delta: string, usage: Usage, runtime: Option<string>)

  /** A runtime event as it is collected for the answer. */
  datatype Runtime = Runtime(reasoning: bool, body: string)

  datatype Buffers = Buffers(
    content: string, reasoning: string, finalText: string, finalReasoning: string,
    usage: Usage, runtimeEvents: seq<Runtime>)

  const NOTHING := Buffers("", "", "", "", NO_USAGE, [])

  function ReasoningText(b: Buffers, text: string): string {
    if text == "" then b.reasoning else text
  }

  function Absorbed(b: Buffers, e: SdkEvent): Buffers {
    match e
    case MessageDelta(text) => b.(content := b.content + text)
    case FullMessage(text) => if text == "" then b else b.(finalText := text)
    case ReasoningDelta(text) =>
      if text == "" then b
      else b.(reasoning := b.reasoning + text, runtimeEvents := b.runtimeEvents + [Runtime(true, text)])
    case FullReasoning(text) =>
      var full := ReasoningText(b, text);
      if full == "" then b else b.(finalReasoning := full, runtimeEvents := b.runtimeEvents + [Runtime(true, full)])
    case Note(body) => b.(runtimeEvents := b.runtimeEvents + [Runtime(false, body)])
    case UsageReport(usage) => b.(usage := usage)
    case _ => b
  }

  function Dispatched(b: Buffers, e: SdkEvent): Option<Event> {
    match e
    case MessageDelta(text) => if text == "" then None else Some(Event(KMessageDelta, text, NO_USAGE, None))
    case FullMessage(text) => if text == "" then None else Some(Event(KMessage, "", NO_USAGE, None))
    case ReasoningDelta(text) => if text == "" then None else Some(Event(KReasoningDelta, "", NO_USAGE, Some(text)))
    case FullReasoning(text) =>
      if ReasoningText(b, text) == "" then None else Some(Event(KReasoning, "", NO_USAGE, Some(ReasoningText(b, text))))
    case UsageReport(usage) => Some(Event(KUsage, "", usage, None))
    case SessionError(_) => Some(Event(KError, "", NO_USAGE, None))
    case Note(body) => Some(Event(KNote, "", NO_USAGE, Some(body)))
    case _ => None
  }

  function Folded(events: seq<SdkEvent>): Buffers {
    if events == [] then NOTHING else Absorbed(Folded(events[..|events| - 1]), events[|events| - 1])
  }

  datatype Answer = Answer(content: string, reasoning: string, usage: Usage, runtimeEvents: seq<Runtime>)

  /** A complete message replaces the collected deltas. */
  function AnswerOf(b: Buffers): Answer {
    Answer(if b.finalText == "" then b.content else b.finalText,
           if b.finalReasoning == "" then b.reasoning else b.finalReasoning, b.usage, b.runtimeEvents)
  }

  /** Which of its waits Send finds ready: it could not hand over the prompt, an error, the session being idle,
      or the end of its context. When several are ready, any of them may be taken. */
  datatype Outcome = NotSent | ErrorFirst | IdleFirst | ContextEnded

  datatype SendError = HandlerFailed | RuntimeFailed

  // ---------- Frames ----------

  datatype Protocol = OpenAI | Claude

  datatype Options = Options(protocol: Protocol, includeReasoning: bool, includeRuntimeEvents: bool, includeUsage: bool)

  datatype Chunk =
    | Text(text: string) | Extension(body: string) | Failure
    | Role | Reasoning(text: string) | Finish | UsageChunk(usage: Usage) | DoneMark
    | MessageStart | BlockStart | BlockStop | MessageEnd(usage: Usage) | MessageStop

  function ExtensionOf(o: Options, e: Event): seq<Chunk> {
    if e.runtime == None then []
    else if e.kind == KReasoning || e.kind == KReasoningDelta
    then if o.includeReasoning || o.includeRuntimeEvents then [Extension(e.runtime.value)] else []
    else if o.includeRuntimeEvents then [Extension(e.runtime.value)] else []
  }

  /** What the handler writes for one event. */
  function ChunksFor(o: Options, e: Event): seq<Chunk> {
    match e.kind
    case KMessageDelta => [Text(e.delta)]
    case KUsage => []
    case KReasoningDelta =>
      (if o.protocol == OpenAI && TrimSpace(e.delta) != "" then [Reasoning(e.delta)] else []) + ExtensionOf(o, e)
    case _ => ExtensionOf(o, e)
  }

  function ChunksOf(o: Options, e: Option<Event>): seq<Chunk> {
    if e.Some? then ChunksFor(o, e.value) else []
  }

  /** What the handler is called with for each event, if it is called. */
  function Calls(events: seq<SdkEvent>): seq<Option<Event>> {
    seq(|events|, i requires 0 <= i < |events| => Dispatched(Folded(events[..i]), events[i]))
  }

  /** What the handler writes, event by event. */
  function Parts(o: Options, events: seq<SdkEvent>): seq<seq<Chunk>> {
    seq(|events|, i requires 0 <= i < |events| => ChunksOf(o, Calls(events)[i]))
  }

  function Opening(o: Options): seq<Chunk> {
    if o.protocol == OpenAI then [Role] else [MessageStart, BlockStart]
  }

  function Ending(o: Options, usage: Usage): seq<Chunk> {
    if o.protocol == OpenAI then [Finish] + (if o.includeUsage then [UsageChunk(usage)] else []) + [DoneMark]
    else [BlockStop, MessageEnd(usage), MessageStop]
  }

  function FailureEnding(o: Options): seq<Chunk> {
    if o.protocol == OpenAI then [Failure, DoneMark] else [Failure, BlockStop, MessageStop]
  }

  // ---------- Handler calls beside the ending ----------

  /** The session calls the handler beside Send, one event after the other, and does not stop when Send does: how many
      events it had taken in, and how many handler calls were over, when Send made up its mind; how many were over
      when the last usage the handler had been told was read; and how many more are over before each ending frame. */
  datatype Overlap = Overlap(absorbed: nat, written: nat, read: nat, pace: seq<nat>)

  /** Every handler call is over before Send makes up its mind. */
  function NoOverlap(events: seq<SdkEvent>): Overlap {
    Overlap(|events|, |events|, |events|, [])
  }

  /** Events are taken in before they are handled, and the usage is read before the first ending frame. */
  predicate Fits(events: seq<SdkEvent>, x: Overlap) {
    && x.written <= x.absorbed <= |events|
    && x.written <= x.read <= Passed(|events|, x.written, x.pace, 1)
  }

  /** What is out when Send makes up its mind. */
  function Head(o: Options, events: seq<SdkEvent>, x: Overlap): seq<Chunk>
    requires Fits(events, x)
  {
    Opening(o) + Flat(Parts(o, events)[..x.written])
  }

  /** The usage of the answer; in the OpenAI protocol the last one the handler was told, if that says more. */
  function FinalUsage(o: Options, events: seq<SdkEvent>, x: Overlap): Usage
    requires Fits(events, x)
  {
    var answered, told := Folded(events[..x.absorbed]).usage, Folded(events[..x.read]).usage;
    if o.protocol == OpenAI && TotalTokens(answered) == 0 && TotalTokens(told) > 0 then told else answered
  }

  function EndingOf(o: Options, events: seq<SdkEvent>, x: Overlap, outcome: Outcome): seq<Chunk>
    requires Fits(events, x)
  {
    if outcome == IdleFirst then Ending(o, FinalUsage(o, events, x)) else FailureEnding(o)
  }

  /** A head, ending frames among the parts that overlap them, and the parts after the last frame. */
  function Ended(head: seq<Chunk>, parts: seq<seq<Chunk>>, start: nat, pace: seq<nat>, ending: seq<Chunk>): seq<Chunk>
    requires start <= |parts|
  {
    head + Woven(parts, start, pace, ending) + Rest(parts, start, pace, |ending|)
  }

  /** The stream as a client with an unbreakable connection would get it. */
  function Whole(o: Options, events: seq<SdkEvent>, x: Overlap, outcome: Outcome): seq<Chunk>
    requires Fits(events, x)
  {
    Ended(Head(o, events, x), Parts(o, events), x.written, x.pace, EndingOf(o, events, x, outcome))
  }

  // ---------- A connection that may break ----------

  /** What arrives of the chunks when only so many writes succeed. */
  function Reached(budget: nat, chunks: seq<Chunk>): (r: seq<Chunk>)
    ensures r <= chunks && |r| <= budget
    ensures |chunks| <= budget ==> r == chunks
  {
    if |chunks| <= budget then chunks else chunks[..budget]
  }

  lemma ReachedMore(budget: nat, a: seq<Chunk>, b: seq<Chunk>)
    ensures |a| >= budget ==> Reached(budget, a + b) == Reached(budget, a)
    ensures |Reached(budget, a)| == if |a| <= budget then |a| else budget
  {
    if |a| >= budget {
      assert (a + b)[..budget] == a[..budget];
    }
  }

  /** After the first failed write no other one succeeds. */
  class Writer {
    const budget: nat
    var out: seq<Chunk>

    constructor (budget: nat)
      ensures this.budget == budget && out == []
    {
      this.budget, out := budget, [];
    }

    method Write(c: Chunk, ghost before: seq<Chunk>) returns (ok: bool)
      requires out == Reached(budget, before)
      modifies this`out
      ensures out == Reached(budget, before + [c]) && (ok <==> |before + [c]| <= budget)
    {
      ReachedMore(budget, before, [c]);
      ok := |out| < budget;
      if ok {
        out := out + [c];
      }
    }

    /** Writes one chunk after the other until one fails. */
    method WriteEach(chunks: seq<Chunk>, ghost before: seq<Chunk>) returns (ok: bool)
      requires out == Reached(budget, before)
      modifies this`out
      ensures out == Reached(budget, before + chunks) && (ok <==> |before + chunks| <= budget || chunks == [])
    {
      var i := 0;
      assert before + chunks[..0] == before;
      while i < |chunks|
        invariant 0 <= i <= |chunks| && out == Reached(budget, before + chunks[..i])
        invariant i > 0 ==> |before + chunks[..i]| <= budget
      {
        assert before + chunks[..i] + [chunks[i]] == before + chunks[..i + 1];
        var written := Write(chunks[i], before + chunks[..i]);
        if !written {
          ReachedMore(budget, before + chunks[..i + 1], chunks[i + 1..]);
          assert before + chunks[..i + 1] + chunks[i + 1..] == before + chunks;
          return false;
        }
        i := i + 1;
      }
      assert chunks[..i] == chunks;
      return true;
    }
  }

  /** Once the connection is broken, what is written afterwards makes no difference. */
  lemma ReachedPrefix(budget: nat, a: seq<Chunk>, b: seq<Chunk>)
    requires a <= b && |a| >= budget
    ensures Reached(budget, b) == Reached(budget, a)
  {
    assert b == a + b[|a|..];
    ReachedMore(budget, a, b[|a|..]);
  }

  lemma {:induction false} BrokenWhileEnding(budget: nat, head: seq<Chunk>, parts: seq<seq<Chunk>>, start: nat,
      pace: seq<nat>, ending: seq<Chunk>, k: nat)
    requires start <= |parts| && k <= |ending| && |head + Woven(parts, start, pace, ending[..k])| >= budget
    ensures Reached(budget, Ended(head, parts, start, pace, ending))
      == Reached(budget, head + Woven(parts, start, pace, ending[..k]))
  {
    WovenStarts(parts, start, pace, ending, k);
    ReachedPrefix(budget, head + Woven(parts, start, pace, ending[..k]), Ended(head, parts, start, pace, ending));
  }

  // ---------- The callback ----------

  /** The handler remembers the last usage it was told. */
  function LatestUsage(latest: Usage, event: Option<Event>): Usage {
    if event.Some? && event.value.kind == KUsage then event.value.usage else latest
  }

  lemma FoldedNext(events: seq<SdkEvent>, i: nat)
    requires i < |events|
    ensures Folded(events[..i + 1]) == Absorbed(Folded(events[..i]), events[i])
  {
    assert events[..i + 1][..i] == events[..i];
  }

  lemma UsageNext(events: seq<SdkEvent>, i: nat)
    requires i < |events|
    ensures Folded(events[..i + 1]).usage
      == LatestUsage(Folded(events[..i]).usage, Dispatched(Folded(events[..i]), events[i]))
  {
    FoldedNext(events, i);
  }

  /** Marks the number of an event one looks at. */
  predicate At(i: int) {
    true
  }

  /** What the handler is called with for each event, and what it writes. */
  ghost predicate Describe(o: Options, events: seq<SdkEvent>, calls: seq<Option<Event>>, parts: seq<seq<Chunk>>) {
    && |calls| == |parts| == |events|
    && forall i {:trigger At(i)} :: 0 <= i < |events| && At(i) ==>
         calls[i] == Dispatched(Folded(events[..i]), events[i]) && parts[i] == ChunksOf(o, calls[i])
  }

  lemma DescribedByParts(o: Options, events: seq<SdkEvent>, calls: seq<Option<Event>>, parts: seq<seq<Chunk>>)
    ensures Describe(o, events, calls, parts) <==> calls == Calls(events) && parts == Parts(o, events)
  {
    if Describe(o, events, calls, parts) {
      forall i | 0 <= i < |events| ensures calls[i] == Calls(events)[i] && parts[i] == Parts(o, events)[i] {
        assert At(i);
      }
    }
  }

  /** The callback that the session is given: it takes an event in, and then calls the handler, which writes what the
      event comes to. Calls may still be under way when Send goes on. */
  class Callback {
    const w: Writer
    const o: Options
    const events: seq<SdkEvent>
    ghost const calls: seq<Option<Event>>
    ghost const parts: seq<seq<Chunk>>
    var absorbed: nat
    var handled: nat
    var collected: Buffers
    var underWay: seq<Option<Event>>
    var latest: Usage
    var failed: bool

    ghost predicate Valid()
      reads this
    {
      && Describe(o, events, calls, parts)
      && handled <= absorbed <= |events| && underWay == calls[handled..absorbed]
      && collected == Folded(events[..absorbed]) && latest == Folded(events[..handled]).usage
    }

    constructor (w: Writer, o: Options, events: seq<SdkEvent>)
      ensures Valid() && this.w == w && this.o == o && this.events == events && parts == Parts(o, events)
      ensures absorbed == handled == 0 && !failed
    {
      this.w, this.o, this.events, this.calls, this.parts := w, o, events, Calls(events), Parts(o, events);
      absorbed, handled, collected, underWay, latest, failed := 0, 0, NOTHING, [], NO_USAGE, false;
      new;
      DescribedByParts(o, events, calls, parts);
    }

    method Absorb()
      requires Valid() && absorbed < |events|
      modifies this`absorbed, this`collected, this`underWay
      ensures Valid() && absorbed == old(absorbed) + 1
    {
      FoldedNext(events, absorbed);
      assert At(absorbed) && calls[handled..absorbed] + [calls[absorbed]] == calls[handled..absorbed + 1];
      var e := events[absorbed];
      underWay, collected, absorbed := underWay + [Dispatched(collected, e)], Absorbed(collected, e), absorbed + 1;
    }

    method AbsorbUpTo(n: nat)
      requires Valid() && absorbed <= n <= |events|
      modifies this`absorbed, this`collected, this`underWay
      ensures Valid() && absorbed == n
    {
      while absorbed < n
        invariant Valid() && absorbed <= n
      {
        Absorb();
      }
    }

    /** Ends the handler call of the oldest event under way: what it writes arrives as far as the connection lasts, and
        a failure is remembered. */
    method EndCall(ghost before: seq<Chunk>)
      requires Valid() && handled < absorbed && w.out == Reached(w.budget, before)
      modifies this`handled, this`underWay, this`latest, this`failed, w`out
      ensures Valid() && handled == old(handled) + 1 && handled <= |parts|
      ensures Carried(w.out, failed, old(failed), w.budget, before, parts[handled - 1])
    {
      UsageNext(events, handled);
      assert At(handled);
      var e := underWay[0];
      var ok := w.WriteEach(ChunksOf(o, e), before);
      latest := LatestUsage(latest, e);
      failed := failed || !ok;
      underWay := underWay[1..];
      handled := handled + 1;
    }

    method Handle(ghost before: seq<Chunk>)
      requires Valid() && handled < |events| && w.out == Reached(w.budget, before)
      modifies this, w`out
      ensures Valid() && handled == old(handled) + 1 && handled <= |parts|
      ensures absorbed == if old(absorbed) < handled then handled else old(absorbed)
      ensures Carried(w.out, failed, old(failed), w.budget, before, parts[handled - 1])
    {
      if underWay == [] {
        Absorb();
      }
      EndCall(before);
    }

    /** Ends the handler calls up to number n. */
    method HandleUpTo(n: nat, ghost before: seq<Chunk>)
      requires Valid() && handled <= n <= |events| && w.out == Reached(w.budget, before)
      modifies this, w`out
      ensures Valid() && handled == n && |parts| == |events|
      ensures absorbed == if old(absorbed) < n then n else old(absorbed)
      ensures Carried(w.out, failed, old(failed), w.budget, before, Flat(parts[old(handled)..n]))
    {
      ghost var start := handled;
      assert before + Flat(parts[start..start]) == before;
      while handled < n
        invariant Valid() && start <= handled <= n && |parts| == |events|
        invariant absorbed == if old(absorbed) < handled then handled else old(absorbed)
        invariant Carried(w.out, failed, old(failed), w.budget, before, Flat(parts[start..handled]))
      {
        ghost var i, failedBefore := handled, failed;
        Handle(before + Flat(parts[start..i]));
        CarriedOn(w.out, failed, failedBefore, old(failed), w.budget, before, parts, start, i, handled);
      }
    }

    /** Writes the ending frames one by one until one fails, while handler calls go on; done is the number of frames
        written. */
    method Conclude(frames: seq<Chunk>, x: Overlap, ghost before: seq<Chunk>) returns (done: nat)
      requires Valid() && Fits(events, x) && x.written <= handled <= Passed(|events|, x.written, x.pace, 1)
      requires w.out == Reached(w.budget, before + Flat(parts[x.written..handled]))
      modifies this, w`out
      ensures w.out == Reached(w.budget, Ended(before, parts, x.written, x.pace, frames))
      ensures done <= |frames| && (done > 0 ==> |before + Woven(parts, x.written, x.pace, frames[..done])| <= w.budget)
      ensures done < |frames| ==> |before + Woven(parts, x.written, x.pace, frames[..done + 1])| > w.budget
    {
      done := 0;
      assert before + Woven(parts, x.written, x.pace, frames[..0]) == before;
      while done < |frames|
        invariant Valid() && done <= |frames| && |parts| == |events|
        invariant Passed(|events|, x.written, x.pace, done) <= handled <= Passed(|events|, x.written, x.pace, done + 1)
        invariant done > 0 ==> |before + Woven(parts, x.written, x.pace, frames[..done])| <= w.budget
        invariant w.out == Reached(w.budget, before + Woven(parts, x.written, x.pace, frames[..done])
          + Flat(parts[Passed(|events|, x.written, x.pace, done)..handled]))
      {
        var ok := WriteFrame(frames, x, done, before);
        if !ok {
          BrokenWhileEnding(w.budget, before, parts, x.written, x.pace, frames, done + 1);
          return;
        }
        done := done + 1;
      }
      assert frames[..done] == frames;
      HandleRest(Passed(|events|, x.written, x.pace, done), before + Woven(parts, x.written, x.pace, frames));
    }

    /** Ends all handler calls; those from number from on come after the log. */
    method HandleRest(ghost from: nat, ghost log: seq<Chunk>)
      requires Valid() && from <= handled && |parts| == |events|
      requires w.out == Reached(w.budget, log + Flat(parts[from..handled]))
      modifies this, w`out
      ensures w.out == Reached(w.budget, log + Flat(parts[from..]))
    {
      FlatSplit(log, parts, from, handled, |events|);
      HandleUpTo(|events|, log + Flat(parts[from..handled]));
      assert parts[from..|events|] == parts[from..];
    }

    /** Writes frame number k after the handler calls that are over before it. */
    method WriteFrame(frames: seq<Chunk>, x: Overlap, k: nat, ghost before: seq<Chunk>) returns (ok: bool)
      requires Valid() && Fits(events, x) && k < |frames| && |parts| == |events|
      requires Passed(|events|, x.written, x.pace, k) <= handled <= Passed(|events|, x.written, x.pace, k + 1)
      requires w.out == Reached(w.budget, before + Woven(parts, x.written, x.pace, frames[..k])
        + Flat(parts[Passed(|events|, x.written, x.pace, k)..handled]))
      modifies this, w`out
      ensures Valid() && handled == Passed(|events|, x.written, x.pace, k + 1)
      ensures handled <= Passed(|events|, x.written, x.pace, k + 2)
      ensures Flat(parts[Passed(|events|, x.written, x.pace, k + 1)..handled]) == []
      ensures w.out == Reached(w.budget, before + Woven(parts, x.written, x.pace, frames[..k + 1]))
      ensures ok <==> |before + Woven(parts, x.written, x.pace, frames[..k + 1])| <= w.budget
    {
      ghost var log := before + Woven(parts, x.written, x.pace, frames[..k]);
      ghost var from, now := Passed(|events|, x.written, x.pace, k), handled;
      var next := Passed(|events|, x.written, x.pace, k + 1);
      HandleUpTo(next, log + Flat(parts[from..now]));
      FlatSplit(log, parts, from, now, next);
      ok := w.Write(frames[k], log + Flat(parts[from..next]));
      WovenNext(before, parts, x.written, x.pace, frames, k);
      PassedMore(|events|, x.written, x.pace, k + 1);
    }
  }

  /** Writing the chunks after what is already out is more than the connection lasts for. */
  predicate Overflows(before: seq<Chunk>, chunks: seq<Chunk>, budget: nat) {
    chunks != [] && |before + chunks| > budget
  }

  /** What arrives, and whether a failure is remembered, after the chunks were handed to the connection. */
  predicate Carried(out: seq<Chunk>, failed: bool, failedAtFirst: bool, budget: nat, before: seq<Chunk>,
      chunks: seq<Chunk>)
  {
    out == Reached(budget, before + chunks) && (failed <==> failedAtFirst || Overflows(before, chunks, budget))
  }

  lemma CarriedOn(out: seq<Chunk>, failed: bool, failedBefore: bool, failedAtFirst: bool, budget: nat,
      before: seq<Chunk>, parts: seq<seq<Chunk>>, i: nat, j: nat, k: nat)
    requires i <= j < k == j + 1 <= |parts|
    requires failedBefore <==> failedAtFirst || Overflows(before, Flat(parts[i..j]), budget)
    requires Carried(out, failed, failedBefore, budget, before + Flat(parts[i..j]), parts[k - 1])
    ensures Carried(out, failed, failedAtFirst, budget, before, Flat(parts[i..k]))
  {
    FlatOne(before, parts, i, j);
  }

  // ---------- Sending and streaming ----------

  /** Collects the events of one send and lets the handler write what each comes to, until it makes up its mind. A
      write that has failed by then is the end of it: however Send comes out of its waits, it reports the failure.
      Handler calls that are over later do not matter to it. */
  method Send(c: Callback, x: Overlap, outcome: Outcome, ghost before: seq<Chunk>)
    returns (result: Result<Answer, SendError>)
    requires c.Valid() && c.absorbed == c.handled == 0 && !c.failed && Fits(c.events, x)
    requires c.w.out == Reached(c.w.budget, before) && |before| <= c.w.budget
    modifies c, c.w`out
    ensures c.Valid() && c.handled == x.written && c.absorbed == x.absorbed && |c.parts| == |c.events|
    ensures c.w.out == Reached(c.w.budget, before + Flat(c.parts[..x.written]))
    ensures result.Ok? <==> outcome == IdleFirst && |before + Flat(c.parts[..x.written])| <= c.w.budget
    ensures result.Ok? ==> result.value == AnswerOf(Folded(c.events[..x.absorbed]))
  {
    c.HandleUpTo(x.written, before);
    c.AbsorbUpTo(x.absorbed);
    if outcome != IdleFirst {
      result := Err(RuntimeFailed);
    } else if c.failed {
      result := Err(HandlerFailed);
    } else {
      result := Ok(AnswerOf(c.collected));
    }
  }

  datatype Status = Success | WriteFailed | SendFailed

  /** The OpenAI stream: whatever breaks and whichever handler calls overlap the ending, the client has as much of the
      whole stream as the connection lasts for; only the success of the very last write makes no difference to the
      server. */
  method StreamOpenAI(w: Writer, o: Options, events: seq<SdkEvent>, x: Overlap, outcome: Outcome)
    returns (status: Status, usage: Usage)
    requires o.protocol == OpenAI && w.out == [] && Fits(events, x)
    modifies w`out
    ensures w.out == Reached(w.budget, Whole(o, events, x, outcome))
    ensures status == Success <==> outcome == IdleFirst && |Checked(o, events, x)| <= w.budget
    ensures status == SendFailed <==>
      |Opening(o)| <= w.budget && (outcome != IdleFirst || |Head(o, events, x)| > w.budget)
    ensures status == Success ==> usage == FinalUsage(o, events, x)
  {
    ghost var head := Head(o, events, x);
    var ok := w.Write(Role, []);
    assert [] + [Role] == [Role];
    if !ok {
      BrokenAtOnce(w.budget, o, events, x, outcome);
      return WriteFailed, NO_USAGE;
    }
    var c := new Callback(w, o, events);
    var result := Send(c, x, outcome, [Role]);
    NothingYet(head, c.parts, x.written);
    if result.Err? {
      var _ := c.Conclude([Failure, DoneMark], x, head);
      EndingReached(w.budget, o, events, x, outcome);
      return SendFailed, c.latest;
    }
    usage := UsageToReport(c, x, result.value.usage, head);
    var done := c.Conclude(Ending(o, usage), x, head);
    LastIsUnchecked(w.budget, head, c.parts, x, Ending(o, usage), done);
    status := if done >= |Ending(o, usage)| - 1 then Success else WriteFailed;
  }

  /** The answer's usage, unless it says nothing and the handler has been told more. */
  method UsageToReport(c: Callback, x: Overlap, answered: Usage, ghost head: seq<Chunk>) returns (usage: Usage)
    requires c.Valid() && Fits(c.events, x) && c.handled == x.written && c.o.protocol == OpenAI
    requires answered == Folded(c.events[..x.absorbed]).usage && c.w.out == Reached(c.w.budget, head)
    modifies c, c.w`out
    ensures c.Valid() && c.handled == x.read && usage == FinalUsage(c.o, c.events, x) && |c.parts| == |c.events|
    ensures c.w.out == Reached(c.w.budget, head + Flat(c.parts[x.written..x.read]))
  {
    c.HandleUpTo(x.read, head);
    usage := answered;
    if TotalTokens(usage) == 0 && TotalTokens(c.latest) > 0 {
      usage := c.latest;
    }
  }

  /** The Claude stream: likewise, but here a failure of the last write is reported. */
  method StreamClaude(w: Writer, o: Options, events: seq<SdkEvent>, x: Overlap, outcome: Outcome)
    returns (status: Status, usage: Usage)
    requires o.protocol == Claude && w.out == [] && Fits(events, x)
    modifies w`out
    ensures w.out == Reached(w.budget, Whole(o, events, x, outcome))
    ensures status == Success <==> outcome == IdleFirst && |Checked(o, events, x)| <= w.budget
    ensures status == SendFailed <==>
      |Opening(o)| <= w.budget && (outcome != IdleFirst || |Head(o, events, x)| > w.budget)
    ensures status == Success ==> usage == FinalUsage(o, events, x)
  {
    ghost var head := Head(o, events, x);
    var ok := w.WriteEach([MessageStart, BlockStart], []);
    assert [] + [MessageStart, BlockStart] == [MessageStart, BlockStart];
    if !ok {
      BrokenAtOnce(w.budget, o, events, x, outcome);
      return WriteFailed, NO_USAGE;
    }
    var c := new Callback(w, o, events);
    var result := Send(c, x, outcome, [MessageStart, BlockStart]);
    NothingYet(head, c.parts, x.written);
    if result.Err? {
      var _ := c.Conclude([Failure, BlockStop, MessageStop], x, head);
      EndingReached(w.budget, o, events, x, outcome);
      return SendFailed, c.latest;
    }
    usage := result.value.usage;
    var done := c.Conclude(Ending(o, usage), x, head);
    AllAreChecked(w.budget, head, c.parts, x, Ending(o, usage), done);
    status := if done == |Ending(o, usage)| then Success else WriteFailed;
  }

  /** The part of a successful stream whose writes the server looks at. */
  function Checked(o: Options, events: seq<SdkEvent>, x: Overlap): seq<Chunk>
    requires Fits(events, x)
  {
    var ending := Ending(o, FinalUsage(o, events, x));
    var checked := if o.protocol == OpenAI then ending[..|ending| - 1] else ending;
    Head(o, events, x) + Woven(Parts(o, events), x.written, x.pace, checked)
  }

  lemma {:induction false} AllAreChecked(budget: nat, head: seq<Chunk>, parts: seq<seq<Chunk>>, x: Overlap,
      ending: seq<Chunk>, done: nat)
    requires x.written <= |parts| && ending != [] && done <= |ending|
    requires done > 0 ==> |head + Woven(parts, x.written, x.pace, ending[..done])| <= budget
    requires done < |ending| ==> |head + Woven(parts, x.written, x.pace, ending[..done + 1])| > budget
    ensures done == |ending| <==> |head + Woven(parts, x.written, x.pace, ending)| <= budget
  {
    if done < |ending| {
      WovenStarts(parts, x.written, x.pace, ending, done + 1);
    } else {
      assert ending[..done] == ending;
    }
  }

  lemma NothingYet(head: seq<Chunk>, parts: seq<seq<Chunk>>, i: nat)
    requires i <= |parts|
    ensures head + Flat(parts[i..i]) == head
  {
  }

  lemma {:induction false} LastIsUnchecked(budget: nat, head: seq<Chunk>, parts: seq<seq<Chunk>>, x: Overlap,
      ending: seq<Chunk>, done: nat)
    requires x.written <= |parts| && ending != [] && done <= |ending|
    requires done > 0 ==> |head + Woven(parts, x.written, x.pace, ending[..done])| <= budget
    requires done < |ending| ==> |head + Woven(parts, x.written, x.pace, ending[..done + 1])| > budget
    requires |head| <= budget
    ensures done >= |ending| - 1 <==> |head + Woven(parts, x.written, x.pace, ending[..|ending| - 1])| <= budget
  {
    var last := |ending| - 1;
    if done > last {
      WovenStarts(parts, x.written, x.pace, ending, last);
      assert ending[..done] == ending;
    } else if done < last {
      WovenStarts(parts, x.written, x.pace, ending[..last], done + 1);
      assert ending[..last][..done + 1] == ending[..done + 1];
    }
  }

  /** If not even the opening arrives, nothing does. */
  lemma BrokenAtOnce(budget: nat, o: Options, events: seq<SdkEvent>, x: Overlap, outcome: Outcome)
    requires Fits(events, x) && |Opening(o)| > budget
    ensures Reached(budget, Opening(o)) == Reached(budget, Whole(o, events, x, outcome))
    ensures |Checked(o, events, x)| > budget
  {
    ReachedPrefix(budget, Opening(o), Whole(o, events, x, outcome));
  }

  /** When Send has failed, the failure frames of the actual run and the frames of the whole stream agree on all
      that the connection can still carry. */
  lemma EndingReached(budget: nat, o: Options, events: seq<SdkEvent>, x: Overlap, outcome: Outcome)
    requires Fits(events, x) && (outcome != IdleFirst || |Head(o, events, x)| > budget)
    ensures Reached(budget, Ended(Head(o, events, x), Parts(o, events), x.written, x.pace, FailureEnding(o)))
      == Reached(budget, Whole(o, events, x, outcome))
  {
    var head, parts := Head(o, events, x), Parts(o, events);
    if |head| > budget {
      BrokenWhileEnding(budget, head, parts, x.written, x.pace, FailureEnding(o), 0);
      BrokenWhileEnding(budget, head, parts, x.written, x.pace, EndingOf(o, events, x, outcome), 0);
    }
  }
}
