/** What an answer says, told from the list of the session's events alone. */
module AnswerContent {
  import opened Prelude
  import opened Stream

  // ---------- Text ----------

  /** The text of the deltas among the events. */
  function Deltas(events: seq<SdkEvent>): string {
    if events == [] then ""
    else
      var last := events[|events| - 1];
      Deltas(events[..|events| - 1]) + if last.MessageDelta? then last.text else ""
  }

  lemma {:induction false} DeltasSplit(a: seq<SdkEvent>, b: seq<SdkEvent>)
    ensures Deltas(a + b) == Deltas(a) + Deltas(b)
  {
    if b == [] {
      assert a + b == a;
    } else {
      assert (a + b)[..|a + b| - 1] == a + b[..|b| - 1];
      DeltasSplit(a, b[..|b| - 1]);
    }
  }

  /** A complete message that says something. */
  predicate Speaks(e: SdkEvent) {
    e.FullMessage? && e.text != ""
  }

  /** The last complete message that says something; nothing if there is none. */
  function LastMessage(events: seq<SdkEvent>): string {
    if events == [] then ""
    else
      var front, last := events[..|events| - 1], events[|events| - 1];
      if Speaks(last) then last.text else LastMessage(front)
  }

  predicate NoneAfter(events: seq<SdkEvent>, i: nat) {
    forall j :: i < j < |events| ==> !Speaks(events[j])
  }

  /** It is the message that says something and that no other such message follows. */
  lemma {:induction false} LastMessageIs(events: seq<SdkEvent>, i: nat)
    requires i < |events| && Speaks(events[i]) && NoneAfter(events, i)
    ensures LastMessage(events) == events[i].text
    decreases |events|
  {
    if i < |events| - 1 {
      var front := events[..|events| - 1];
      assert NoneAfter(front, i);
      LastMessageIs(front, i);
    }
  }

  lemma {:induction false} NoLastMessage(events: seq<SdkEvent>)
    ensures LastMessage(events) == "" <==> forall i :: 0 <= i < |events| ==> !Speaks(events[i])
  {
    if events != [] {
      NoLastMessage(events[..|events| - 1]);
    }
  }

  // ---------- Reasoning ----------

  function ReasoningDeltas(events: seq<SdkEvent>): string {
    if events == [] then ""
    else
      var last := events[|events| - 1];
      ReasoningDeltas(events[..|events| - 1]) + if last.ReasoningDelta? then last.text else ""
  }

  /** What a complete piece of reasoning says: its own text, or, if it has none, the deltas before it. */
  function Says(e: SdkEvent, before: seq<SdkEvent>): string {
    if !e.FullReasoning? then "" else if e.text != "" then e.text else ReasoningDeltas(before)
  }

  /** The last complete piece of reasoning that says something. */
  function LastReasoning(events: seq<SdkEvent>): string {
    if events == [] then ""
    else
      var front, last := events[..|events| - 1], events[|events| - 1];
      if Says(last, front) != "" then Says(last, front) else LastReasoning(front)
  }

  // ---------- Usage and runtime events ----------

  /** The last usage reported. */
  function LastUsage(events: seq<SdkEvent>): Usage {
    if events == [] then NO_USAGE
    else
      var front, last := events[..|events| - 1], events[|events| - 1];
      if last.UsageReport? then last.usage else LastUsage(front)
  }

  /** The runtime event that an event reports, if it reports one. */
  function Report(e: SdkEvent, before: seq<SdkEvent>): seq<Runtime> {
    if e.ReasoningDelta? && e.text != "" then [Runtime(true, e.text)]
    else if Says(e, before) != "" then [Runtime(true, Says(e, before))]
    else if e.Note? then [Runtime(false, e.body)]
    else []
  }

  function Reports(events: seq<SdkEvent>): seq<Runtime> {
    if events == [] then []
    else Reports(events[..|events| - 1]) + Report(events[|events| - 1], events[..|events| - 1])
  }

  // ---------- The answer ----------

  /** What Send collects is what the events say. */
  lemma {:induction false} CollectedIsTold(events: seq<SdkEvent>)
    ensures Folded(events) == Buffers(Deltas(events), ReasoningDeltas(events), LastMessage(events),
      LastReasoning(events), LastUsage(events), Reports(events))
  {
    if events != [] {
      CollectedIsTold(events[..|events| - 1]);
    }
  }

  /** The answer is the last complete message that says something, or the deltas if there is none; its reasoning is the
      last complete piece of reasoning, or the reasoning deltas; its usage is the last one reported; and it carries all
      runtime events in order. */
  lemma {:induction false} AnswerIsTold(events: seq<SdkEvent>)
    ensures AnswerOf(Folded(events)) == Answer(
      if LastMessage(events) != "" then LastMessage(events) else Deltas(events),
      if LastReasoning(events) != "" then LastReasoning(events) else ReasoningDeltas(events),
      LastUsage(events),
      Reports(events))
  {
    CollectedIsTold(events);
  }

  /** The last usage the answer saw; in the OpenAI protocol, if that says nothing, the last one that the handler had
      been told, if that says something. */
  function UsageTold(o: Options, events: seq<SdkEvent>, x: Overlap): Usage
    requires Fits(events, x)
  {
    var answered, told := LastUsage(events[..x.absorbed]), LastUsage(events[..x.read]);
    if o.protocol == OpenAI && answered.input + answered.output == 0 && told.input + told.output > 0 then told
    else answered
  }

  lemma {:induction false} UsageIsLast(events: seq<SdkEvent>)
    ensures Folded(events).usage == LastUsage(events)
  {
    CollectedIsTold(events);
  }

  lemma FinalUsageIsTold(o: Options, events: seq<SdkEvent>, x: Overlap)
    requires Fits(events, x)
    ensures FinalUsage(o, events, x) == UsageTold(o, events, x)
  {
    UsageIsLast(events[..x.absorbed]);
    UsageIsLast(events[..x.read]);
  }

  // ---------- The stream ----------

  /** What the client is shown of one event: the text of a delta, and the runtime event it reports if it was asked for,
      reasoning also if only reasoning was asked for. */
  function Shown(o: Options, e: SdkEvent, before: seq<SdkEvent>): seq<Chunk> {
    var report := Report(e, before);
    if e.MessageDelta? then if e.text == "" then [] else [Text(e.text)]
    else if report != [] && (o.includeRuntimeEvents || (o.includeReasoning && report[0].reasoning))
      then [Extension(report[0].body)]
    else []
  }

  lemma {:induction false} PartsAreShown(o: Options, events: seq<SdkEvent>, i: nat)
    requires i < |events|
    ensures Parts(o, events)[i] == Shown(o, events[i], events[..i])
  {
    CollectedIsTold(events[..i]);
    EventIsShown(o, events[i], events[..i]);
  }

  lemma {:induction false} EventIsShown(o: Options, e: SdkEvent, before: seq<SdkEvent>)
    requires Folded(before).reasoning == ReasoningDeltas(before)
    ensures ChunksOf(o, Dispatched(Folded(before), e)) == Shown(o, e, before)
  {
    assert TrimSpace("") == "";
  }
}
