/** An account of the handlers of each request: every handler that ever obtained it has received one of
    its results or still waits for one. It shows who is served when Send ends, and who never will be. */
module BridgeWaiting {
  import opened Prelude
  import opened BridgeModel
  import opened BridgeInvariant
  import opened BridgeRuns
  import opened BridgePayload

  /** Whether a handler like the given one obtains its request in step st. */
  predicate Obtains(w: World, st: Step, handler: Handler) {
    match st
    case PermissionInvoked => TakePermission(w.bridge).1 == Some(handler.h)
      && handler == Handler(Permission, "", handler.h)
    case UserInputInvoked => TakeUserInput(w.bridge).1 == Some(handler.h)
      && handler == Handler(UserInput, "", handler.h)
    case ToolInvoked(callID) => FindTool(w.bridge, callID) == Some(handler.h)
      && handler == Handler(Tool, callID, handler.h)
    case _ => false
  }

  function AddIf(count: nat, more: bool): nat {
    if more then count + 1 else count
  }

  /** How many handlers like the given one have obtained their request in the first i steps. */
  function Obtained(run: seq<World>, steps: seq<Step>, i: nat, handler: Handler): nat
    requires |run| == |steps| + 1 && i < |run|
  {
    if i == 0 then 0 else AddIf(Obtained(run, steps, i - 1, handler), Obtains(run[i - 1], steps[i - 1], handler))
  }

  /** Only tool handlers serve a call. */
  ghost predicate CallsOfToolsOnly(w: World) {
    forall handler :: handler in w.waiting && handler.kind != Tool ==> handler.callID == ""
  }

  predicate Belongs(b: Bridge, handler: Handler) {
    Matches(b, handler) && (handler.kind != Tool ==> handler.callID == "")
  }

  /** Nobody has obtained a request that does not exist yet. */
  predicate NotYet(w: World, handler: Handler, obtained: nat) {
    handler.h >= |w.bridge.issued| ==> obtained == 0 && w.waiting[handler] == 0
  }

  /** Of the handlers that obtained a request, all have received a result or wait; at most one ever
      obtained a permission request or a question. */
  predicate Balanced(w: World, handler: Handler, obtained: nat)
    requires handler.h < |w.bridge.issued|
  {
    var r := w.bridge.issued[handler.h];
    && w.waiting[handler] + |r.received| == obtained
    && (handler.kind != Tool ==> obtained == if r.popped then 1 else 0)
  }

  predicate Accounted(w: World, handler: Handler, obtained: nat) {
    NotYet(w, handler, obtained) && (Belongs(w.bridge, handler) ==> Balanced(w, handler, obtained))
  }

  // ---------- One step ----------

  lemma StepKeepsCallsOfToolsOnly(w: World, st: Step)
    requires CallsOfToolsOnly(w) && Enabled(w, st)
    ensures CallsOfToolsOnly(Apply(w, st))
  {
    forall handler | handler in Apply(w, st).waiting && handler.kind != Tool ensures handler.callID == "" {
      if handler !in w.waiting {
        WaitingAfter(w, st, handler);
      }
    }
  }

  lemma BelongedBefore(n: Naming, b: Bridge, b': Bridge, handler: Handler)
    requires TypedBridge(n, b) && TypedBridge(n, b') && KeepsNames(b, b')
    requires handler.h < |b.issued| && Belongs(b', handler)
    ensures Belongs(b, handler)
  {
    assert TypedResolution(n, b.issued[handler.h]) && TypedResolution(n, b'.issued[handler.h]);
  }

  lemma RegisteringKeepsAccount(w: World, st: Step, handler: Handler)
    requires PendingOk(w.bridge) && Registers(st) && handler.h < |w.bridge.issued|
    ensures var b' := Apply(w, st).bridge;
      && handler.h < |b'.issued|
      && b'.issued[handler.h].received == w.bridge.issued[handler.h].received
      && b'.issued[handler.h].popped == w.bridge.issued[handler.h].popped
  {
  }

  lemma RegisteringAddsFresh(w: World, st: Step)
    requires PendingOk(w.bridge) && Registers(st)
    ensures var b' := Apply(w, st).bridge;
      && |w.bridge.issued| <= |b'.issued| <= |w.bridge.issued| + 1
      && (|b'.issued| > |w.bridge.issued| ==>
            b'.issued[|w.bridge.issued|].received == [] && !b'.issued[|w.bridge.issued|].popped)
  {
  }

  /** What the account of a request is after one more handler of some request has been invoked. */
  predicate InvocationEntered(w: World, st: Step, w': World, handler: Handler)
    requires handler.h < |w.bridge.issued|
  {
    var r := w.bridge.issued[handler.h];
    && |w'.bridge.issued| == |w.bridge.issued|
    && w'.waiting[handler] == AddIf(w.waiting[handler], Obtains(w, st, handler))
    && w'.bridge.issued[handler.h].received == r.received
    && (handler.kind != Tool ==>
          && (Obtains(w, st, handler) ==> !r.popped)
          && w'.bridge.issued[handler.h].popped == (r.popped || Obtains(w, st, handler)))
  }

  lemma PermissionInvokedEntered(w: World, handler: Handler)
    requires Inv(w.bridge) && Belongs(w.bridge, handler)
    ensures InvocationEntered(w, PermissionInvoked, Apply(w, PermissionInvoked), handler)
  {
    PopTakesHead(w.bridge, Permission, w.bridge.permissionQueue);
    HeadIsEarliest(w.bridge, Permission, w.bridge.permissionQueue);
  }

  lemma UserInputInvokedEntered(w: World, handler: Handler)
    requires Inv(w.bridge) && Belongs(w.bridge, handler)
    ensures InvocationEntered(w, UserInputInvoked, Apply(w, UserInputInvoked), handler)
  {
    PopTakesHead(w.bridge, UserInput, w.bridge.userInputQueue);
    HeadIsEarliest(w.bridge, UserInput, w.bridge.userInputQueue);
  }

  lemma InvokingKeepsAccount(w: World, st: Step, handler: Handler)
    requires Inv(w.bridge) && Invokes(st) && Belongs(w.bridge, handler)
    ensures InvocationEntered(w, st, Apply(w, st), handler)
  {
    match st
    case PermissionInvoked => PermissionInvokedEntered(w, handler);
    case UserInputInvoked => UserInputInvokedEntered(w, handler);
    case _ =>
  }

  lemma OtherStepsKeepAccount(w: World, st: Step, handler: Handler)
    requires CallsOfToolsOnly(w) && Enabled(w, st) && !Registers(st) && !Invokes(st)
    requires handler.h < |w.bridge.issued| && Belongs(w.bridge, handler)
    requires forall other :: other in w.waiting ==> Matches(w.bridge, other)
    ensures var w' := Apply(w, st); var r := w.bridge.issued[handler.h];
      && |w'.bridge.issued| == |w.bridge.issued|
      && w'.waiting[handler] + |w'.bridge.issued[handler.h].received| == w.waiting[handler] + |r.received|
      && w'.bridge.issued[handler.h].popped == r.popped
  {
    if st.HandlerReceives? && st.handler.h == handler.h {
      assert st.handler in w.waiting && Matches(w.bridge, st.handler);
      assert st.handler == handler;
    }
  }

  /** Handlers of requests that do not exist yet. */
  lemma StepKeepsNobodyEarly(w: World, st: Step, handler: Handler)
    requires Inv(w.bridge) && Enabled(w, st) && handler.h >= |w.bridge.issued| && w.waiting[handler] == 0
    ensures Apply(w, st).waiting[handler] == 0 && !Obtains(w, st, handler)
  {
    var b := w.bridge;
    PopTakesHead(b, Permission, b.permissionQueue);
    PopTakesHead(b, UserInput, b.userInputQueue);
  }

  lemma StepOpensAccount(w: World, st: Step, handler: Handler)
    requires Inv(w.bridge) && Enabled(w, st) && NotYet(w, handler, 0) && handler.h >= |w.bridge.issued|
    ensures !Obtains(w, st, handler) && Accounted(Apply(w, st), handler, 0)
  {
    StepKeepsNobodyEarly(w, st, handler);
    if Registers(st) {
      RegisteringAddsFresh(w, st);
    } else if Invokes(st) {
      InvokingIssuesNothing(w, st);
    } else {
      OthersIssueNothing(w, st);
    }
  }

  lemma InvokingIssuesNothing(w: World, st: Step)
    requires Invokes(st)
    ensures |Apply(w, st).bridge.issued| == |w.bridge.issued|
  {
  }

  lemma OthersIssueNothing(w: World, st: Step)
    requires Enabled(w, st) && !Registers(st) && !Invokes(st)
    ensures |Apply(w, st).bridge.issued| == |w.bridge.issued|
  {
  }

  lemma StepKeepsBalance(w: World, st: Step, handler: Handler, obtained: nat)
    requires Inv(w.bridge) && CallsOfToolsOnly(w) && Enabled(w, st)
    requires forall other :: other in w.waiting ==> Matches(w.bridge, other)
    requires Belongs(w.bridge, handler) && Balanced(w, handler, obtained)
    ensures handler.h < |Apply(w, st).bridge.issued|
    ensures Balanced(Apply(w, st), handler, AddIf(obtained, Obtains(w, st, handler)))
  {
    if Registers(st) {
      RegisteringKeepsAccount(w, st, handler);
    } else if Invokes(st) {
      InvokingKeepsAccount(w, st, handler);
    } else {
      OtherStepsKeepAccount(w, st, handler);
    }
  }

  lemma StepKeepsAccount(n: Naming, w: World, st: Step, handler: Handler, obtained: nat)
    requires Inv(w.bridge) && TypedWorld(n, w) && CallsOfToolsOnly(w) && Enabled(w, st) && Follows(n, st)
    requires Accounted(w, handler, obtained)
    ensures Accounted(Apply(w, st), handler, AddIf(obtained, Obtains(w, st, handler)))
  {
    if handler.h >= |w.bridge.issued| {
      StepOpensAccount(w, st, handler);
    } else {
      StepKeepsNames(w, st);
      StepKeepsBridgeTyped(n, w, st);
      if Belongs(Apply(w, st).bridge, handler) {
        BelongedBefore(n, w.bridge, Apply(w, st).bridge, handler);
        StepKeepsBalance(w, st, handler, obtained);
      }
    }
  }

  // ---------- Every run ----------

  ghost predicate FollowsUpTo(n: Naming, steps: seq<Step>, i: nat)
    requires i <= |steps|
  {
    forall j: nat :: j < i ==> Follows(n, steps[j])
  }

  lemma {:induction false} RunKeepsCallsOfToolsOnly(run: seq<World>, steps: seq<Step>, i: nat)
    requires IsRun(run, steps) && i < |run|
    ensures CallsOfToolsOnly(run[i])
    decreases i
  {
    if i > 0 {
      RunKeepsCallsOfToolsOnly(run, steps, i - 1);
      assert Linked(run, steps, i - 1);
      StepKeepsCallsOfToolsOnly(run[i - 1], steps[i - 1]);
    }
  }

  lemma {:induction false} RunKeepsAccount(n: Naming, run: seq<World>, steps: seq<Step>, i: nat, handler: Handler)
    requires IsRun(run, steps) && i < |run| && FollowsUpTo(n, steps, i)
    ensures Accounted(run[i], handler, Obtained(run, steps, i, handler))
    decreases i
  {
    if i > 0 {
      RunKeepsAccount(n, run, steps, i - 1, handler);
      RunKeepsInv(run, steps, i - 1);
      RunKeepsTyped(n, run, steps, i - 1);
      RunKeepsCallsOfToolsOnly(run, steps, i - 1);
      assert Linked(run, steps, i - 1);
      StepKeepsAccount(n, run[i - 1], steps[i - 1], handler, Obtained(run, steps, i - 1, handler));
    }
  }

  /** In every run, the handlers that obtained a request are those that received a result of it and those
      that wait for one; a permission or a question is obtained at most once. */
  lemma {:induction false} HandlersAreAccountedFor(n: Naming, run: seq<World>, steps: seq<Step>, i: nat,
      handler: Handler)
    requires IsRun(run, steps) && i < |run| && FollowsUpTo(n, steps, i)
    requires handler in run[i].waiting
    ensures handler.h < |run[i].bridge.issued|
    ensures run[i].waiting[handler] + |run[i].bridge.issued[handler.h].received| == Obtained(run, steps, i, handler)
    ensures handler.kind != Tool ==> Obtained(run, steps, i, handler) == 1
  {
    RunKeepsAccount(n, run, steps, i, handler);
    RunKeepsTyped(n, run, steps, i);
    RunKeepsCallsOfToolsOnly(run, steps, i);
    assert Matches(run[i].bridge, handler);
    assert Belongs(run[i].bridge, handler);
  }

  // ---------- When Send ends ----------

  /** When Send ends, everybody who waits for a permission or an answer has a result in the slot that
      nobody else can take. */
  lemma EveryAskerIsServed(n: Naming, run: seq<World>, steps: seq<Step>, i: nat, handler: Handler)
    requires IsRun(run, steps) && i < |steps| && steps[i] == SendEnds && FollowsUpTo(n, steps, i)
    requires forall j: nat :: j < i ==> AnsweredFirst(run[j], steps[j])
    requires handler in run[i + 1].waiting && handler.kind != Tool
    ensures handler.h < |run[i + 1].bridge.issued| && run[i + 1].bridge.issued[handler.h].slot.Some?
    ensures run[i + 1].waiting[handler] == 1
  {
    assert FollowsUpTo(n, steps, i + 1);
    HandlersAreAccountedFor(n, run, steps, i + 1, handler);
    NoStrandedHandler(run, steps, i);
  }

  lemma {:induction false} ObtainedStays(run: seq<World>, steps: seq<Step>, i: nat, j: nat, handler: Handler)
    requires IsRun(run, steps) && i <= j < |run| && NothingComing(run[i], handler.h)
    ensures Obtained(run, steps, j, handler) == Obtained(run, steps, i, handler)
    decreases j
  {
    if i < j {
      ObtainedStays(run, steps, i, j - 1, handler);
      RunBringsNothing(run, steps, i, j - 1, handler.h);
      RunKeepsInv(run, steps, j - 1);
      NobodyObtains(run[j - 1], steps[j - 1], handler);
    }
  }

  lemma NobodyObtains(w: World, st: Step, handler: Handler)
    requires Inv(w.bridge) && NothingComing(w, handler.h)
    ensures !Obtains(w, st, handler)
  {
    var b := w.bridge;
    PopTakesHead(b, Permission, b.permissionQueue);
    PopTakesHead(b, UserInput, b.userInputQueue);
  }

  /** A request that is no longer pending, with no response on its way, as every request is once Send has
      ended and the responses looked up before have been sent: at every later time more handlers wait for
      it than its slot can serve if and only if more had obtained it than it was given results. */
  lemma {:induction false} LeftWaitingIff(n: Naming, run: seq<World>, steps: seq<Step>, i: nat, j: nat,
      handler: Handler)
    requires IsRun(run, steps) && i <= j < |run| && FollowsUpTo(n, steps, j)
    requires NothingComing(run[i], handler.h) && Belongs(run[j].bridge, handler)
    ensures run[j].waiting[handler] > (if run[j].bridge.issued[handler.h].slot.Some? then 1 else 0)
      <==> Obtained(run, steps, i, handler) > |run[i].bridge.issued[handler.h].accepted|
  {
    RunBringsNothing(run, steps, i, j, handler.h);
    ObtainedStays(run, steps, i, j, handler);
    RunKeepsAccount(n, run, steps, j, handler);
    RunKeepsInv(run, steps, j);
    assert SlotOk(run[j].bridge.issued[handler.h]);
  }

  // ---------- Two handlers of one call ----------

  /** A world with the one request r, wanted by the given number of handlers of its call. */
  function OneTool(r: Resolution, pending: bool, wanted: nat): World {
    var handler := Handler(Tool, r.request.callID, 0);
    World(
      Bridge([r],
             if pending then map[r.request.id := 0] else map[],
             if pending then map[r.request.callID := r.request.id] else map[],
             [], []),
      multiset{}, multiset{}[handler := wanted], [])
  }

  lemma ToolTold(id: string, callID: string, detail: string)
    requires id != "" && callID != ""
    ensures Apply(START, ToolRequested(id, callID, detail))
      == OneTool(Fresh(Request(id, Tool, callID, detail)), true, 0)
  {
  }

  lemma ToolInvokedOnceMore(request: Request, wanted: nat)
    requires request.id != "" && request.callID != ""
    ensures Apply(OneTool(Fresh(request), true, wanted), ToolInvoked(request.callID))
      == OneTool(Fresh(request), true, wanted + 1)
  {
  }

  lemma SendEndsOnOne(request: Request, wanted: nat)
    requires request.id != "" && request.callID != ""
    ensures Apply(OneTool(Fresh(request), true, wanted), SendEnds)
      == OneTool(Offer(Fresh(request), Failed(Cancelled)), false, wanted)
  {
    var b := OneTool(Fresh(request), true, wanted).bridge;
    assert b.pending[request.id] == 0;
    assert 0 in b.pending.Values;
    assert CancelAll(b).issued == [Offer(Fresh(request), Failed(Cancelled))];
  }

  /** Two handlers wait for the one request of a tool call. */
  lemma TwoHandlersWait(id: string, callID: string, detail: string) returns (run: seq<World>)
    requires id != "" && callID != ""
    ensures IsRun(run, [ToolRequested(id, callID, detail)] + [ToolInvoked(callID)] + [ToolInvoked(callID)])
    ensures run[3] == OneTool(Fresh(Request(id, Tool, callID, detail)), true, 2)
  {
    var request := Request(id, Tool, callID, detail);
    ToolTold(id, callID, detail);
    run := OneMoreStep([START], [], ToolRequested(id, callID, detail));
    assert [] + [ToolRequested(id, callID, detail)] == [ToolRequested(id, callID, detail)];
    ToolInvokedOnceMore(request, 0);
    run := OneMoreStep(run, [ToolRequested(id, callID, detail)], ToolInvoked(callID));
    ToolInvokedOnceMore(request, 1);
    run := OneMoreStep(run, [ToolRequested(id, callID, detail)] + [ToolInvoked(callID)], ToolInvoked(callID));
  }

  lemma OneIsServed(request: Request)
    requires request.id != "" && request.callID != "" && request.kind == Tool
    ensures var w := OneTool(Offer(Fresh(request), Failed(Cancelled)), false, 2);
      var handler := Handler(Tool, request.callID, 0);
      && Enabled(w, HandlerReceives(handler))
      && var w' := Apply(w, HandlerReceives(handler));
         handler in w'.waiting && NothingComing(w', 0) && w'.bridge.issued[0].slot == None
  {
  }

  /** The runtime starts two handlers of one tool call before Send ends, whichever call it is: the one
      cancellation serves one of them, and the other waits for a result that never comes. */
  lemma SecondToolHandlerIsLeft(id: string, callID: string, detail: string) returns (run: seq<World>, steps: seq<Step>)
    requires id != "" && callID != ""
    ensures IsRun(run, steps)
    ensures var handler := Handler(Tool, callID, 0);
      && steps == [ToolRequested(id, callID, detail), ToolInvoked(callID), ToolInvoked(callID), SendEnds,
                   HandlerReceives(handler)]
      && handler in run[5].waiting && NothingComing(run[5], 0) && run[5].bridge.issued[0].slot == None
  {
    var request, handler := Request(id, Tool, callID, detail), Handler(Tool, callID, 0);
    var first := [ToolRequested(id, callID, detail)] + [ToolInvoked(callID)] + [ToolInvoked(callID)];
    var waiting := TwoHandlersWait(id, callID, detail);
    SendEndsOnOne(request, 2);
    var ended := OneMoreStep(waiting, first, SendEnds);
    OneIsServed(request);
    run := OneMoreStep(ended, first + [SendEnds], HandlerReceives(handler));
    steps := first + [SendEnds] + [HandlerReceives(handler)];
  }
}
