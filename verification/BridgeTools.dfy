/** What leads a handler to the request of its tool call, and what leads it astray. */
module BridgeTools {
  import opened Prelude
  import opened BridgeModel
  import opened BridgeInvariant
  import opened BridgeRuns

  /** The index leads from the call to the request id. */
  predicate LeadsTo(b: Bridge, callID: string, id: string) {
    callID in b.toolIndex && b.toolIndex[callID] == id
  }

  /** The step takes the call away from request id: it announces the call for another request, forgets a pending
      request that carries the call, be it a permission request, or ends it all. */
  predicate TakesCall(w: World, st: Step, id: string, callID: string) {
    match st
    case ToolRequested(other, call, _) => other != "" && other != id && call == callID
    case Completed(other) =>
      var forgotten := TrimSpace(other);
      forgotten != "" && forgotten in w.bridge.pending && RequestOf(w.bridge, forgotten).callID == callID
    case SendEnds => true
    case _ => false
  }

  predicate Announces(st: Step, id: string, callID: string) {
    st.ToolRequested? && st.id == id && st.callID == callID
  }

  lemma RegisteringMovesIndex(b: Bridge, id: string, callID: string, detail: string)
    ensures var b' := RegisterTool(b, id, callID, detail);
      b'.toolIndex == if id == "" || callID == "" then b.toolIndex else b.toolIndex[callID := id]
    ensures RegisterUserInput(b, id, detail).toolIndex == b.toolIndex
    ensures RegisterPermission(b, id, callID, detail).toolIndex == b.toolIndex
  {
  }

  lemma StepMovesIndex(w: World, st: Step, id: string, callID: string)
    requires Enabled(w, st) && id != "" && callID != "" && !Announces(st, id, callID)
    ensures LeadsTo(Apply(w, st).bridge, callID, id) <==>
      LeadsTo(w.bridge, callID, id) && !TakesCall(w, st, id, callID)
  {
    var b := w.bridge;
    match st
    case ToolRequested(other, call, detail) => RegisteringMovesIndex(b, other, call, detail);
    case UserInputRequested(other, detail) => RegisteringMovesIndex(b, other, "", detail);
    case PermissionRequested(other, call, detail) => RegisteringMovesIndex(b, other, call, detail);
    case _ =>
  }

  /** From step j, which announces the call for request id, up to step i. */
  ghost predicate AnnouncedLast(steps: seq<Step>, j: nat, i: nat, id: string, callID: string) {
    && j < i <= |steps| && Announces(steps[j], id, callID)
    && forall m :: j < m < i ==> !Announces(steps[m], id, callID)
  }

  ghost predicate CallTaken(run: seq<World>, steps: seq<Step>, j: nat, i: nat, id: string, callID: string)
    requires i <= |steps| && |run| == |steps| + 1
  {
    exists m :: j < m < i && TakesCall(run[m], steps[m], id, callID)
  }

  lemma {:induction false} RunMovesIndex(run: seq<World>, steps: seq<Step>, j: nat, i: nat, id: string, callID: string)
    requires IsRun(run, steps) && id != "" && callID != "" && AnnouncedLast(steps, j, i, id, callID)
    ensures LeadsTo(run[i].bridge, callID, id) <==> !CallTaken(run, steps, j, i, id, callID)
    decreases i
  {
    assert Linked(run, steps, i - 1);
    if i == j + 1 {
      RegisteringMovesIndex(run[j].bridge, id, callID, steps[j].detail);
    } else {
      RunMovesIndex(run, steps, j, i - 1, id, callID);
      StepMovesIndex(run[i - 1], steps[i - 1], id, callID);
    }
  }

  /** In every run, a pending tool request is found by the call it was last announced for if and only if, since that
      announcement, the call has not been announced for another request, no request that carries it has been
      forgotten, and Send has not ended. */
  lemma ToolIsFoundIff(run: seq<World>, steps: seq<Step>, j: nat, i: nat, id: string, callID: string)
    requires IsRun(run, steps) && id != "" && callID != "" && AnnouncedLast(steps, j, i, id, callID)
    requires id in run[i].bridge.pending
    ensures FindTool(run[i].bridge, callID) == Some(run[i].bridge.pending[id]) <==>
      !CallTaken(run, steps, j, i, id, callID)
  {
    RunMovesIndex(run, steps, j, i, id, callID);
    RunKeepsInv(run, steps, i);
    OnlyItsOwn(run[i].bridge, id, callID);
  }

  /** No two pending ids have the same request. */
  lemma OnlyItsOwn(b: Bridge, id: string, callID: string)
    requires PendingOk(b) && id in b.pending
    ensures FindTool(b, callID) == Some(b.pending[id]) <==> LeadsTo(b, callID, id)
  {
    if FindTool(b, callID) == Some(b.pending[id]) {
      assert b.issued[b.pending[id]].request.id == id;
      assert b.issued[b.pending[b.toolIndex[callID]]].request.id == b.toolIndex[callID];
    }
  }

  /** Forgetting one request leaves the pending tool request of another call reachable exactly when the
      forgotten request did not carry the same call id; a permission request of that call does. */
  lemma ForgetKeepsToolReachableIff(b: Bridge, requestID: string, callID: string)
    requires var id := TrimSpace(requestID); id != "" && id in b.pending && callID != ""
    requires FindTool(b, callID).Some? && b.toolIndex[callID] != TrimSpace(requestID)
    ensures FindTool(Forget(b, requestID), callID) == FindTool(b, callID) <==>
      RequestOf(b, TrimSpace(requestID)).callID != callID
    ensures b.toolIndex[callID] in Forget(b, requestID).pending
  {
    assert Forget(b, requestID).pending == b.pending - {TrimSpace(requestID)};
  }

  /** The bridge with a tool request and a permission request of the same call. */
  function ToolAndPermission(id: string, other: string, callID: string): Bridge {
    Bridge([Fresh(Request(id, Tool, callID, "")), Fresh(Request(other, Permission, callID, ""))],
           map[id := 0, other := 1], map[callID := id], [other], [])
  }

  lemma BothAnnounced(id: string, other: string, callID: string)
    requires id != "" && other != "" && id != other && callID != ""
    ensures var b := RegisterTool(Empty(), id, callID, "");
      b == Bridge([Fresh(Request(id, Tool, callID, ""))], map[id := 0], map[callID := id], [], [])
      && RegisterPermission(b, other, callID, "") == ToolAndPermission(id, other, callID)
  {
  }

  /** While a tool request is pending, a permission request of the same call is announced and completed: from then on
      no handler finds the tool request, although it is still pending. */
  lemma PermissionHidesTool(id: string, other: string, callID: string) returns (run: seq<World>, steps: seq<Step>)
    requires id != "" && other != "" && id != other && callID != "" && TrimSpace(other) == other
    ensures IsRun(run, steps)
    ensures steps == [ToolRequested(id, callID, ""), PermissionRequested(other, callID, ""), Completed(other)]
    ensures id in run[3].bridge.pending && FindTool(run[2].bridge, callID) == Some(run[3].bridge.pending[id])
    ensures FindTool(run[3].bridge, callID) == None
  {
    BothAnnounced(id, other, callID);
    run := OneMoreStep([START], [], ToolRequested(id, callID, ""));
    steps := [ToolRequested(id, callID, "")];
    run := OneMoreStep(run, steps, PermissionRequested(other, callID, ""));
    steps := steps + [PermissionRequested(other, callID, "")];
    assert run[2].bridge == ToolAndPermission(id, other, callID);
    run := OneMoreStep(run, steps, Completed(other));
    steps := steps + [Completed(other)];
    assert run[3].bridge == Forget(ToolAndPermission(id, other, callID), other);
  }

  /** A pending tool request that is announced again, for whatever call: a handler of another call obtains it if and
      only if the index led from that call to it before. */
  lemma RenamedCallMisleadsIff(b: Bridge, id: string, oldCall: string, newCall: string, detail: string)
    requires PendingOk(b) && id != "" && id in b.pending && RequestOf(b, id).kind == Tool
    ensures var b' := RegisterTool(b, id, newCall, detail); var h := b.pending[id];
      && b'.pending == b.pending && RequestOf(b', id).callID == newCall
      && (FindTool(b', oldCall) == Some(h) && oldCall != RequestOf(b', id).callID <==>
            FindTool(b, oldCall) == Some(h) && oldCall != newCall)
  {
    var b' := RegisterTool(b, id, newCall, detail);
    assert PendingOk(b');
    OnlyItsOwn(b, id, oldCall);
    OnlyItsOwn(b', id, oldCall);
    RegisteringMovesIndex(b, id, newCall, detail);
  }
}
