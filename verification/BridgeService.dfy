/** What the bridge does for those who use it: a request is pending from its announcement until it is completed or Send
    ends, an answer finds exactly the pending request of its id and kind, and reaches the handler that waits for it. */
module BridgeService {
  import opened Prelude
  import opened BridgeModel
  import opened BridgeInvariant
  import opened Continuation
  import opened BridgeRuns

  // ---------- Announcing ----------

  /** Another request of the kind is pending. */
  ghost predicate Another(b: Bridge, kind: Kind) {
    exists id :: id in b.pending && RequestOf(b, id).kind == kind
  }

  /** The only change is that the request has joined the others, pending and not yet popped; its slot is empty, or
      holds the error it was met with. */
  ghost predicate Joined(b: Bridge, b': Bridge, request: Request, error: Option<BridgeError>) {
    && b'.pending == b.pending[request.id := |b.issued|]
    && |b'.issued| == |b.issued| + 1 && b'.issued[..|b.issued|] == b.issued
    && b'.issued[|b.issued|].request == request && !b'.issued[|b.issued|].popped
    && b'.issued[|b.issued|].slot == (if error.Some? then Some(Failed(error.value)) else None)
  }

  lemma AnotherIsOutstanding(b: Bridge, kind: Kind, id: string)
    requires PendingOk(b) && id !in b.pending
    ensures Another(b, kind) <==> Outstanding(b, kind, id)
  {
    if Outstanding(b, kind, id) {
      var x :| x in b.pending && x != id && b.pending[x] < |b.issued| && b.issued[b.pending[x]].request.kind == kind;
      assert RequestOf(b, x).kind == kind;
    }
    if Another(b, kind) {
      var x :| x in b.pending && RequestOf(b, x).kind == kind;
      assert b.issued[b.pending[x]].request.kind == kind;
    }
  }

  /** A request announced under a new id becomes pending as it was announced. Tool calls run beside each other; a
      second question or permission request at a time is told at once which of the two is not supported. */
  lemma AnnouncedIsPending(run: seq<World>, steps: seq<Step>, i: nat, id: string, callID: string, detail: string)
    requires IsRun(run, steps) && i < |run| && id != "" && id !in run[i].bridge.pending
    ensures var b := run[i].bridge;
      && Joined(b, RegisterTool(b, id, callID, detail), Request(id, Tool, callID, detail), None)
      && Joined(b, RegisterUserInput(b, id, detail), Request(id, UserInput, "", detail),
           if Another(b, UserInput) then Some(ConcurrentUserInput) else None)
      && Joined(b, RegisterPermission(b, id, callID, detail), Request(id, Permission, callID, detail),
           if Another(b, Permission) then Some(ConcurrentPermission) else None)
  {
    RunKeepsInv(run, steps, i);
    AnotherIsOutstanding(run[i].bridge, UserInput, id);
    AnotherIsOutstanding(run[i].bridge, Permission, id);
  }

  /** The only change is in what is known of the pending request. */
  predicate Revised(b: Bridge, b': Bridge, id: string, request: Request) {
    && id in b.pending && b'.pending == b.pending && |b'.issued| == |b.issued| && b.pending[id] < |b.issued|
    && b'.issued == b.issued[b.pending[id] := b.issued[b.pending[id]].(request := request)]
    && b'.permissionQueue == b.permissionQueue && b'.userInputQueue == b.userInputQueue
  }

  /** A request announced once more keeps its place, its kind and its slot, and is known by its new call and details;
      a question has no call. */
  lemma ReannouncedIsRevised(run: seq<World>, steps: seq<Step>, i: nat, id: string, callID: string, detail: string)
    requires IsRun(run, steps) && i < |run| && id in run[i].bridge.pending
    ensures var b := run[i].bridge; var kind := RequestOf(b, id).kind;
      && Revised(b, RegisterTool(b, id, callID, detail), id, Request(id, kind, callID, detail))
      && Revised(b, RegisterPermission(b, id, callID, detail), id, Request(id, kind, callID, detail))
      && Revised(b, RegisterUserInput(b, id, detail), id, Request(id, kind, RequestOf(b, id).callID, detail))
  {
    RunKeepsInv(run, steps, i);
  }

  // ---------- Completing and ending ----------

  /** A completion ends the pending of exactly the request it names, between whatever spaces, and changes no slot; when
      Send ends, exactly the pending requests whose slots are empty are told so, and none is pending any more. */
  lemma PendingEndsIff(run: seq<World>, steps: seq<Step>, i: nat, id: string, h: nat)
    requires IsRun(run, steps) && i < |run| && h < |run[i].bridge.issued|
    ensures var b := run[i].bridge;
      Forget(b, id).pending == b.pending - {TrimSpace(id)} && Forget(b, id).issued == b.issued
    ensures var b := run[i].bridge; var r, r' := b.issued[h], CancelAll(b).issued[h];
      && CancelAll(b).pending == map[] && |CancelAll(b).issued| == |b.issued|
      && r'.slot == (if h in b.pending.Values && r.slot == None then Some(Failed(Cancelled)) else r.slot)
      && r'.request == r.request && r'.received == r.received && r'.popped == r.popped
  {
    RunKeepsInv(run, steps, i);
    assert "" !in run[i].bridge.pending;
  }

  // ---------- Looking up ----------

  /** In every reachable bridge, an answer finds a request exactly if one is pending under the trimmed id and is of the
      answer's kind; it is refused as unknown exactly if none is pending, and as of the wrong kind exactly if one of
      another kind is. */
  lemma LookupIff(run: seq<World>, steps: seq<Step>, i: nat, response: PendingResponse, h: nat)
    requires IsRun(run, steps) && i < |run|
    ensures var b := run[i].bridge; var id := TrimSpace(response.requestID);
      && (Lookup(b, response) == Ok(h) <==>
            id in b.pending && b.pending[id] == h && h < |b.issued| && b.issued[h].request.kind == response.kind)
      && (Lookup(b, response) == Err(NotFound) <==> id !in b.pending)
      && (Lookup(b, response) == Err(WrongKind) <==>
            id in b.pending && b.pending[id] < |b.issued| && b.issued[b.pending[id]].request.kind != response.kind)
  {
    RunKeepsInv(run, steps, i);
    assert "" !in run[i].bridge.pending;
  }

  // ---------- Answering ----------

  /** The body answers request h, which is pending in world w. */
  ghost predicate Answers(w: World, q: ContinuationRequest, h: nat) {
    var id := TrimSpace(q.requestID);
    && Parse(Some(q)).Ok? && id in w.bridge.pending && w.bridge.pending[id] == h
    && h < |w.bridge.issued| && MeantFor(q, w.bridge.issued[h].request.kind)
  }

  lemma MeantForOne(q: ContinuationRequest, a: Kind, b: Kind)
    requires MeantFor(q, a) && MeantFor(q, b)
    ensures a == b
  {
  }

  /** Posting a body sets its response on the way to request h exactly if it answers h, and does nothing else. */
  lemma ContinueSetsOffIff(run: seq<World>, steps: seq<Step>, i: nat, q: ContinuationRequest, h: nat)
    requires IsRun(run, steps) && i < |run|
    ensures var w := run[i]; var w' := Apply(w, Continue(Some(q)));
      && w' == w.(resolving := w'.resolving)
      && (Answers(w, q, h) ==> w'.resolving == w.resolving + multiset{(h, Parse(Some(q)).value)})
      && ((forall g :: !Answers(w, q, g)) ==> w'.resolving == w.resolving)
  {
    RunKeepsInv(run, steps, i);
    if Parse(Some(q)).Ok? {
      var r := Parse(Some(q)).value;
      BodyReachesHandler(q, r);
      TrimSpaceTwice(q.requestID);
      LookupIff(run, steps, i, r, h);
      if Answers(run[i], q, h) {
        MeantForOne(q, r.kind, run[i].bridge.issued[h].request.kind);
      }
      if Lookup(run[i].bridge, r).Ok? {
        LookupIff(run, steps, i, r, Lookup(run[i].bridge, r).value);
        assert Answers(run[i], q, Lookup(run[i].bridge, r).value);
      }
    }
  }

  /** The only change to the slots is that of request h. */
  ghost predicate SlotBecomes(b: Bridge, b': Bridge, h: nat, slot: Option<Outcome>) {
    && |b'.issued| == |b.issued| && h < |b.issued| && b'.issued[h].slot == slot
    && b'.pending == b.pending
    && forall g :: 0 <= g < |b.issued| ==>
         b'.issued[g].request == b.issued[g].request && (g != h ==> b'.issued[g] == b.issued[g])
  }

  /** A response that is on its way is there once it is sent, exactly if it finds the slot empty. */
  lemma SentIsThereIff(w: World, h: nat, r: PendingResponse)
    requires Enabled(w, FinishResolve(h, r)) && h < |w.bridge.issued|
    ensures var w' := Apply(w, FinishResolve(h, r)); var slot := w.bridge.issued[h].slot;
      && SlotBecomes(w.bridge, w'.bridge, h, if slot == None then Some(Response(r)) else slot)
      && w'.delivered == w.delivered && w'.waiting == w.waiting
  {
  }

  /** Three steps that serve a waiting handler. */
  function Serving(q: ContinuationRequest, r: PendingResponse, handler: Handler): seq<Step> {
    [Continue(Some(q)), FinishResolve(handler.h, r), HandlerReceives(handler)]
  }

  lemma AnswerIsSent(run: seq<World>, steps: seq<Step>, q: ContinuationRequest, h: nat, r: PendingResponse)
    returns (longer: seq<World>)
    requires IsRun(run, steps) && Answers(run[|steps|], q, h) && run[|steps|].bridge.issued[h].slot == None
    requires Parse(Some(q)) == Ok(r)
    ensures IsRun(longer, steps + [Continue(Some(q))] + [FinishResolve(h, r)]) && run <= longer
    ensures var w, w' := run[|steps|], longer[|steps| + 2];
      && SlotBecomes(w.bridge, w'.bridge, h, Some(Response(r)))
      && w'.delivered == w.delivered && w'.waiting == w.waiting
  {
    ContinueSetsOffIff(run, steps, |steps|, q, h);
    var begun := OneMoreStep(run, steps, Continue(Some(q)));
    assert begun[|steps| + 1] == Apply(run[|steps|], Continue(Some(q)));
    SentIsThereIff(begun[|steps| + 1], h, r);
    longer := OneMoreStep(begun, steps + [Continue(Some(q))], FinishResolve(h, r));
  }

  /** From any reachable world in which a handler waits for a pending request whose slot is empty: posting a body that
      answers the request, sending it, and letting the handler run makes the handler return what stands in the body. */
  lemma AnswerIsServed(run: seq<World>, steps: seq<Step>, q: ContinuationRequest, handler: Handler)
    returns (longer: seq<World>)
    requires IsRun(run, steps) && handler in run[|steps|].waiting
    requires Answers(run[|steps|], q, handler.h) && run[|steps|].bridge.issued[handler.h].slot == None
    ensures var r := Parse(Some(q)).value;
      && IsRun(longer, steps + Serving(q, r, handler)) && run <= longer
      && longer[|steps| + 3].delivered == run[|steps|].delivered + [(handler, Response(r))]
      && longer[|steps| + 3].waiting == run[|steps|].waiting - multiset{handler}
      && Returns(q, Response(r))
  {
    var r := Parse(Some(q)).value;
    BodyReachesHandler(q, r);
    var sent := AnswerIsSent(run, steps, q, handler.h, r);
    var sentSteps := steps + [Continue(Some(q))] + [FinishResolve(handler.h, r)];
    longer := OneMoreStep(sent, sentSteps, HandlerReceives(handler));
    assert sentSteps + [HandlerReceives(handler)] == steps + Serving(q, r, handler);
  }

  // ---------- From the first announcement to the answer ----------

  function Announce(kind: Kind, id: string, callID: string, detail: string): Step {
    match kind
    case Tool => ToolRequested(id, callID, detail)
    case UserInput => UserInputRequested(id, detail)
    case Permission => PermissionRequested(id, callID, detail)
  }

  function Invoke(kind: Kind, callID: string): Step {
    match kind
    case Tool => ToolInvoked(callID)
    case UserInput => UserInputInvoked
    case Permission => PermissionInvoked
  }

  function FirstHandler(kind: Kind, callID: string): Handler {
    Handler(kind, if kind == Tool then callID else "", 0)
  }

  lemma FirstAnnounced(kind: Kind, id: string, callID: string, detail: string)
    requires id != "" && callID != ""
    ensures var b := Apply(START, Announce(kind, id, callID, detail)).bridge;
      && b.pending == map[id := 0] && |b.issued| == 1 && b.issued[0].slot == None && b.issued[0].request.kind == kind
      && (kind == Tool ==> b.toolIndex == map[callID := id])
      && (kind == UserInput ==> b.userInputQueue == [id])
      && (kind == Permission ==> b.permissionQueue == [id])
    ensures var w := Apply(START, Announce(kind, id, callID, detail)); w == START.(bridge := w.bridge)
  {
  }

  lemma FirstInvoked(w: World, kind: Kind, id: string, callID: string)
    requires w == START.(bridge := w.bridge) && w.bridge.pending == map[id := 0] && |w.bridge.issued| == 1
    requires kind == Tool ==> w.bridge.toolIndex == map[callID := id]
    requires kind == UserInput ==> w.bridge.userInputQueue == [id]
    requires kind == Permission ==> w.bridge.permissionQueue == [id]
    ensures var w' := Apply(w, Invoke(kind, callID));
      && w'.waiting == multiset{FirstHandler(kind, callID)} && w'.delivered == []
      && w'.bridge.pending == w.bridge.pending && |w'.bridge.issued| == 1
      && w'.bridge.issued[0].slot == w.bridge.issued[0].slot
      && w'.bridge.issued[0].request == w.bridge.issued[0].request
  {
  }

  /** Announced and asked for: the handler waits for the request, and its slot is empty. */
  lemma AskedFor(kind: Kind, id: string, callID: string, detail: string) returns (run: seq<World>)
    requires id != "" && callID != ""
    ensures IsRun(run, [Announce(kind, id, callID, detail)] + [Invoke(kind, callID)])
    ensures run[2].waiting == multiset{FirstHandler(kind, callID)} && run[2].delivered == []
    ensures var b := run[2].bridge;
      b.pending == map[id := 0] && |b.issued| == 1 && b.issued[0].slot == None && b.issued[0].request.kind == kind
  {
    FirstAnnounced(kind, id, callID, detail);
    var announced := OneMoreStep([START], [], Announce(kind, id, callID, detail));
    assert [] + [Announce(kind, id, callID, detail)] == [Announce(kind, id, callID, detail)];
    FirstInvoked(announced[1], kind, id, callID);
    run := OneMoreStep(announced, [Announce(kind, id, callID, detail)], Invoke(kind, callID));
  }

  /** A question, a permission request or a tool call, asked, answered and told: the handler returns what the client
      has posted for it. */
  lemma AskedAnsweredTold(kind: Kind, id: string, callID: string, detail: string, q: ContinuationRequest)
    returns (run: seq<World>, steps: seq<Step>)
    requires id != "" && callID != "" && TrimSpace(q.requestID) == id && Parse(Some(q)).Ok? && MeantFor(q, kind)
    ensures IsRun(run, steps)
    ensures steps == [Announce(kind, id, callID, detail)] + [Invoke(kind, callID)]
      + Serving(q, Parse(Some(q)).value, FirstHandler(kind, callID))
    ensures run[5].delivered == [(FirstHandler(kind, callID), Response(Parse(Some(q)).value))]
    ensures run[5].waiting == multiset{} && Returns(q, run[5].delivered[0].1)
  {
    steps := [Announce(kind, id, callID, detail)] + [Invoke(kind, callID)];
    var asked := AskedFor(kind, id, callID, detail);
    run := AnswerIsServed(asked, steps, q, FirstHandler(kind, callID));
    steps := steps + Serving(q, Parse(Some(q)).value, FirstHandler(kind, callID));
  }
}
