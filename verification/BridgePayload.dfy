/** From the endpoint to the handlers: when request ids determine kind and tool call, every accepted
    response reaches a handler of its own kind with the payload that handler needs. */
module BridgePayload {
  import opened Prelude
  import opened BridgeModel
  import opened BridgeInvariant
  import opened Continuation
  import opened BridgeRuns

  /** What the session promises about its request ids. */
  datatype Naming = Naming(kindOf: string -> Kind, callOf: string -> string)

  predicate Follows(n: Naming, st: Step) {
    match st
    case ToolRequested(id, callID, _) => n.kindOf(id) == Tool && n.callOf(id) == callID
    case UserInputRequested(id, _) => n.kindOf(id) == UserInput
    case PermissionRequested(id, _, _) => n.kindOf(id) == Permission
    case _ => true
  }

  predicate Named(n: Naming, request: Request) {
    && request.kind == n.kindOf(request.id)
    && (request.kind == Tool ==> request.callID == n.callOf(request.id))
  }

  /** Outcome o is fit for a handler of the given kind. */
  predicate Fits(kind: Kind, o: Outcome) {
    o.Response? ==> WellShaped(o.response) && o.response.kind == kind
  }

  predicate TypedResolution(n: Naming, r: Resolution) {
    && Named(n, r.request)
    && (r.slot.Some? ==> Fits(r.request.kind, r.slot.value))
  }

  ghost predicate IndexTyped(n: Naming, b: Bridge) {
    forall c :: c in b.toolIndex ==> n.kindOf(b.toolIndex[c]) == Tool && n.callOf(b.toolIndex[c]) == c
  }

  ghost predicate TypedBridge(n: Naming, b: Bridge) {
    && (forall h :: 0 <= h < |b.issued| ==> TypedResolution(n, b.issued[h]))
    && IndexTyped(n, b)
  }

  /** Handler and request belong together. */
  predicate Matches(b: Bridge, handler: Handler) {
    && handler.h < |b.issued|
    && b.issued[handler.h].request.kind == handler.kind
    && (handler.kind == Tool ==> b.issued[handler.h].request.callID == handler.callID)
  }

  ghost predicate TypedWorld(n: Naming, w: World) {
    && TypedBridge(n, w.bridge)
    && (forall h, response :: (h, response) in w.resolving ==>
          h < |w.bridge.issued| && Fits(w.bridge.issued[h].request.kind, Response(response)))
    && (forall handler :: handler in w.waiting ==> Matches(w.bridge, handler))
    && (forall i :: 0 <= i < |w.delivered| ==> Fits(w.delivered[i].0.kind, w.delivered[i].1))
  }

  // ---------- The bridge part ----------

  lemma RegisterKeepsTyped(n: Naming, b: Bridge, id: string, callID: string, detail: string)
    requires PendingOk(b) && TypedBridge(n, b)
    ensures n.kindOf(id) == Tool && n.callOf(id) == callID ==> TypedBridge(n, RegisterTool(b, id, callID, detail))
    ensures n.kindOf(id) == UserInput ==> TypedBridge(n, RegisterUserInput(b, id, detail))
    ensures n.kindOf(id) == Permission ==> TypedBridge(n, RegisterPermission(b, id, callID, detail))
  {
  }

  lemma StepKeepsBridgeTyped(n: Naming, w: World, st: Step)
    requires Inv(w.bridge) && TypedWorld(n, w) && Enabled(w, st) && Follows(n, st)
    ensures TypedBridge(n, Apply(w, st).bridge)
  {
    var b := w.bridge;
    match st
    case ToolRequested(id, callID, detail) => RegisterKeepsTyped(n, b, id, callID, detail);
    case UserInputRequested(id, detail) => RegisterKeepsTyped(n, b, id, "", detail);
    case PermissionRequested(id, callID, detail) => RegisterKeepsTyped(n, b, id, callID, detail);
    case PermissionInvoked => PopTakesHead(b, Permission, b.permissionQueue);
    case UserInputInvoked => PopTakesHead(b, UserInput, b.userInputQueue);
    case _ =>
  }

  // ---------- Identities never change ----------

  ghost predicate KeepsNames(b: Bridge, b': Bridge) {
    && |b.issued| <= |b'.issued|
    && forall h :: 0 <= h < |b.issued| ==>
         b'.issued[h].request.id == b.issued[h].request.id && b'.issued[h].request.kind == b.issued[h].request.kind
  }

  predicate Registers(st: Step) {
    st.ToolRequested? || st.UserInputRequested? || st.PermissionRequested?
  }

  lemma RegisteringKeepsNames(w: World, st: Step)
    requires Enabled(w, st) && Registers(st)
    ensures KeepsNames(w.bridge, Apply(w, st).bridge)
  {
  }

  predicate Invokes(st: Step) {
    st.PermissionInvoked? || st.UserInputInvoked? || st.ToolInvoked?
  }

  lemma InvokingKeepsNames(w: World, st: Step)
    requires Enabled(w, st) && Invokes(st)
    ensures KeepsNames(w.bridge, Apply(w, st).bridge)
  {
  }

  predicate Resolves(st: Step) {
    st.FinishResolve? || st.HandlerReceives?
  }

  lemma ResolvingKeepsNames(w: World, st: Step)
    requires Enabled(w, st) && Resolves(st)
    ensures KeepsNames(w.bridge, Apply(w, st).bridge)
  {
  }

  lemma OtherStepsKeepNames(w: World, st: Step)
    requires Enabled(w, st) && !Registers(st) && !Invokes(st) && !Resolves(st)
    ensures KeepsNames(w.bridge, Apply(w, st).bridge)
  {
  }

  lemma StepKeepsNames(w: World, st: Step)
    requires Enabled(w, st)
    ensures KeepsNames(w.bridge, Apply(w, st).bridge)
  {
    if Registers(st) {
      RegisteringKeepsNames(w, st);
    } else if Invokes(st) {
      InvokingKeepsNames(w, st);
    } else if Resolves(st) {
      ResolvingKeepsNames(w, st);
    } else {
      OtherStepsKeepNames(w, st);
    }
  }

  lemma MatchesCarriesOver(n: Naming, b: Bridge, b': Bridge, handler: Handler)
    requires TypedBridge(n, b) && TypedBridge(n, b') && KeepsNames(b, b') && Matches(b, handler)
    ensures Matches(b', handler)
  {
    assert TypedResolution(n, b.issued[handler.h]) && TypedResolution(n, b'.issued[handler.h]);
  }

  // ---------- Handlers and responses on their way ----------

  /** The endpoint sends a response on exactly if a request of its kind is pending under its id, and then to that
      request, with the payload that its handler reads. */
  lemma ResolvedFits(b: Bridge, body: Option<ContinuationRequest>)
    requires PendingOk(b) && Parse(body).Ok?
    ensures var r := Parse(body).value;
      && (Lookup(b, r).Ok? <==>
            r.requestID in b.pending && b.issued[b.pending[r.requestID]].request.kind == r.kind)
      && (Lookup(b, r).Ok? ==>
            && Lookup(b, r).value == b.pending[r.requestID] < |b.issued|
            && Fits(b.issued[Lookup(b, r).value].request.kind, Response(r))
            && b.issued[Lookup(b, r).value].request.id == r.requestID)
  {
    ParsedIsWellShaped(body);
    TrimSpaceIsTrimmed(Parse(body).value.requestID);
  }

  /** A handler only obtains a request of its own kind, and a tool handler one of its own call. */
  lemma ObtainedMatches(n: Naming, b: Bridge, callID: string)
    requires Inv(b) && TypedBridge(n, b)
    ensures FindTool(b, callID).Some? ==> Matches(b, Handler(Tool, callID, FindTool(b, callID).value))
    ensures TakePermission(b).1.Some? ==> Matches(b, Handler(Permission, "", TakePermission(b).1.value))
    ensures TakeUserInput(b).1.Some? ==> Matches(b, Handler(UserInput, "", TakeUserInput(b).1.value))
  {
    PopTakesHead(b, Permission, b.permissionQueue);
    PopTakesHead(b, UserInput, b.userInputQueue);
    HeadIsEarliest(b, Permission, b.permissionQueue);
    HeadIsEarliest(b, UserInput, b.userInputQueue);
    if FindTool(b, callID).Some? {
      assert TypedResolution(n, b.issued[FindTool(b, callID).value]);
    }
  }

  lemma WaitingAfter(w: World, st: Step, handler: Handler)
    requires Enabled(w, st) && handler in Apply(w, st).waiting && handler !in w.waiting
    ensures
      || (st == PermissionInvoked && TakePermission(w.bridge).1 == Some(handler.h)
           && handler == Handler(Permission, "", handler.h))
      || (st == UserInputInvoked && TakeUserInput(w.bridge).1 == Some(handler.h)
           && handler == Handler(UserInput, "", handler.h))
      || (st.ToolInvoked? && FindTool(w.bridge, st.callID) == Some(handler.h)
           && handler == Handler(Tool, st.callID, handler.h))
  {
  }

  lemma StepKeepsWaitingTyped(n: Naming, w: World, st: Step, handler: Handler)
    requires Inv(w.bridge) && TypedWorld(n, w) && Enabled(w, st) && Follows(n, st)
    requires handler in Apply(w, st).waiting
    ensures Matches(Apply(w, st).bridge, handler)
  {
    StepKeepsBridgeTyped(n, w, st);
    StepKeepsNames(w, st);
    if handler !in w.waiting {
      WaitingAfter(w, st, handler);
      ObtainedMatches(n, w.bridge, handler.callID);
    }
    MatchesCarriesOver(n, w.bridge, Apply(w, st).bridge, handler);
  }

  lemma StepKeepsResolvingTyped(n: Naming, w: World, st: Step, h: nat, response: PendingResponse)
    requires Inv(w.bridge) && TypedWorld(n, w) && Enabled(w, st)
    requires (h, response) in Apply(w, st).resolving
    ensures var b := Apply(w, st).bridge; h < |b.issued| && Fits(b.issued[h].request.kind, Response(response))
  {
    StepKeepsNames(w, st);
    if st.Continue? && (h, response) !in w.resolving {
      ResolvedFits(w.bridge, st.body);
    }
  }

  lemma StepKeepsDeliveredTyped(n: Naming, w: World, st: Step, i: nat)
    requires TypedWorld(n, w) && Enabled(w, st) && i < |Apply(w, st).delivered|
    ensures Fits(Apply(w, st).delivered[i].0.kind, Apply(w, st).delivered[i].1)
  {
    if i == |w.delivered| {
      assert st.HandlerReceives? && Matches(w.bridge, st.handler);
      assert TypedResolution(n, w.bridge.issued[st.handler.h]);
    }
  }

  lemma StepKeepsTyped(n: Naming, w: World, st: Step)
    requires Inv(w.bridge) && TypedWorld(n, w) && Enabled(w, st) && Follows(n, st)
    ensures TypedWorld(n, Apply(w, st))
  {
    var w' := Apply(w, st);
    StepKeepsBridgeTyped(n, w, st);
    forall handler | handler in w'.waiting ensures Matches(w'.bridge, handler) {
      StepKeepsWaitingTyped(n, w, st, handler);
    }
    forall h, response | (h, response) in w'.resolving
      ensures h < |w'.bridge.issued| && Fits(w'.bridge.issued[h].request.kind, Response(response))
    {
      StepKeepsResolvingTyped(n, w, st, h, response);
    }
    forall i | 0 <= i < |w'.delivered| ensures Fits(w'.delivered[i].0.kind, w'.delivered[i].1) {
      StepKeepsDeliveredTyped(n, w, st, i);
    }
  }

  lemma {:induction false} RunKeepsTyped(n: Naming, run: seq<World>, steps: seq<Step>, i: nat)
    requires IsRun(run, steps) && i < |run|
    requires forall j: nat :: j < i ==> Follows(n, steps[j])
    ensures TypedWorld(n, run[i])
    decreases i
  {
    if i > 0 {
      RunKeepsTyped(n, run, steps, i - 1);
      RunKeepsInv(run, steps, i - 1);
      assert Linked(run, steps, i - 1);
      StepKeepsTyped(n, run[i - 1], steps[i - 1]);
    }
  }

  // ---------- The result ----------

  /** Whatever response a handler ever received, it is of the handler's kind and carries what the handler reads, and
      the handler returns just that: none of the three "continuation missing" errors can be returned. */
  lemma NoMissingContinuation(n: Naming, run: seq<World>, steps: seq<Step>, i: nat, k: nat)
    requires IsRun(run, steps) && i < |run| && k < |run[i].delivered|
    requires forall j: nat :: j < i ==> Follows(n, steps[j])
    ensures var (handler, o) := run[i].delivered[k];
      && (o.Response? ==> o.response.kind == handler.kind)
      && (handler.kind == Permission ==> HandlePermission(o) != Err(MissingResponse))
      && (handler.kind == UserInput ==> HandleUserInput(o) != Err(MissingResponse))
      && (handler.kind == Tool ==> AwaitToolResult(o) != Err(MissingResponse))
      && (handler.kind == Permission && o.Response? ==>
            o.response.permission.Some? && HandlePermission(o) == Ok(o.response.permission.value))
      && (handler.kind == UserInput && o.Response? ==>
            o.response.userInput.Some? && HandleUserInput(o) == Ok(o.response.userInput.value))
      && (handler.kind == Tool && o.Response? ==>
            AwaitToolResult(o) == if o.response.toolResult.Some? then Ok(o.response.toolResult.value)
                                  else Err(ToolFailure(o.response.toolError)))
  {
    RunKeepsTyped(n, run, steps, i);
    assert Fits(run[i].delivered[k].0.kind, run[i].delivered[k].1);
    TrimmedErrorIsNonempty();
  }

  lemma TrimmedErrorIsNonempty()
    ensures TrimSpace("") == ""
  {
  }

  /** A tool handler waits for a request of the very call it serves. */
  lemma ToolHandlerGetsItsCall(n: Naming, run: seq<World>, steps: seq<Step>, i: nat, handler: Handler)
    requires IsRun(run, steps) && i < |run| && handler in run[i].waiting && handler.kind == Tool
    requires forall j: nat :: j < i ==> Follows(n, steps[j])
    ensures handler.h < |run[i].bridge.issued|
    ensures run[i].bridge.issued[handler.h].request.kind == Tool
    ensures run[i].bridge.issued[handler.h].request.callID == handler.callID
  {
    RunKeepsTyped(n, run, steps, i);
    assert Matches(run[i].bridge, handler);
  }
}
