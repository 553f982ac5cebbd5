/** Where results come from: whatever a handler is told was posted for its very request, or is an error with a cause. */
module BridgeSources {
  import opened Prelude
  import opened BridgeModel
  import opened BridgeInvariant
  import opened Continuation
  import opened BridgeRuns
  import opened BridgePayload
  import opened BridgeService

  /** Step j posts a body that is parsed to the response, and request h is pending under the id it names and of the
      kind it answers. */
  ghost predicate Posts(run: seq<World>, steps: seq<Step>, j: nat, h: nat, response: PendingResponse)
    requires j < |steps| && |run| == |steps| + 1
  {
    && steps[j].Continue? && Parse(steps[j].body) == Ok(response)
    && var id := TrimSpace(response.requestID);
       && id in run[j].bridge.pending && run[j].bridge.pending[id] == h
       && h < |run[j].bridge.issued| && run[j].bridge.issued[h].request.kind == response.kind
  }

  /** Step j ends Send while request h is pending and its slot empty. */
  ghost predicate Cancels(run: seq<World>, steps: seq<Step>, j: nat, h: nat)
    requires j < |steps| && |run| == |steps| + 1
  {
    && steps[j] == SendEnds && h in run[j].bridge.pending.Values
    && h < |run[j].bridge.issued| && run[j].bridge.issued[h].slot == None
  }

  /** Step j announces request h, of a serialised kind, while another one of the kind is pending. */
  ghost predicate Collides(run: seq<World>, steps: seq<Step>, j: nat, h: nat, e: BridgeError)
    requires j < |steps| && |run| == |steps| + 1
  {
    && h == |run[j].bridge.issued|
    && ((steps[j].UserInputRequested? && e == ConcurrentUserInput && Another(run[j].bridge, UserInput))
         || (steps[j].PermissionRequested? && e == ConcurrentPermission && Another(run[j].bridge, Permission)))
  }

  ghost predicate Fails(run: seq<World>, steps: seq<Step>, j: nat, h: nat, e: BridgeError)
    requires j < |steps| && |run| == |steps| + 1
  {
    if e == Cancelled then Cancels(run, steps, j, h) else Collides(run, steps, j, h, e)
  }

  /** What before step i made outcome o a result of request h. */
  ghost predicate Caused(run: seq<World>, steps: seq<Step>, i: nat, h: nat, o: Outcome)
    requires i <= |steps| && |run| == |steps| + 1
  {
    match o
    case Response(response) => exists j: nat :: j < i && Posts(run, steps, j, h, response)
    case Failed(e) => exists j: nat :: j < i && Fails(run, steps, j, h, e)
  }

  lemma CausedLater(run: seq<World>, steps: seq<Step>, i: nat, h: nat, o: Outcome)
    requires i < |steps| && |run| == |steps| + 1 && Caused(run, steps, i, h, o)
    ensures Caused(run, steps, i + 1, h, o)
  {
  }

  // ---------- One step ----------

  /** A result that request h did not have before step st. */
  predicate NewResult(w: World, st: Step, h: nat, o: Outcome)
    requires Enabled(w, st)
  {
    && h < |Apply(w, st).bridge.issued| && o in Apply(w, st).bridge.issued[h].accepted
    && !(h < |w.bridge.issued| && o in w.bridge.issued[h].accepted)
  }

  lemma NewByRegistering(w: World, st: Step, h: nat, o: Outcome)
    requires Inv(w.bridge) && Enabled(w, st) && Registers(st) && NewResult(w, st, h, o)
    ensures h == |w.bridge.issued|
    ensures || (st.UserInputRequested? && o == Failed(ConcurrentUserInput) && Another(w.bridge, UserInput))
            || (st.PermissionRequested? && o == Failed(ConcurrentPermission) && Another(w.bridge, Permission))
  {
    if st.id !in w.bridge.pending {
      AnotherIsOutstanding(w.bridge, UserInput, st.id);
      AnotherIsOutstanding(w.bridge, Permission, st.id);
    }
  }

  lemma NothingNewByInvoking(w: World, st: Step, h: nat, o: Outcome)
    requires Inv(w.bridge) && Enabled(w, st) && Invokes(st)
    ensures !NewResult(w, st, h, o)
  {
    PopTakesHead(w.bridge, Permission, w.bridge.permissionQueue);
    PopTakesHead(w.bridge, UserInput, w.bridge.userInputQueue);
  }

  lemma NewOtherwise(w: World, st: Step, h: nat, o: Outcome)
    requires Inv(w.bridge) && Enabled(w, st) && !Registers(st) && !Invokes(st) && NewResult(w, st, h, o)
    ensures h < |w.bridge.issued|
    ensures || (st.FinishResolve? && st.h == h && o == Response(st.response))
            || (st.SendEnds? && o == Failed(Cancelled) && h in w.bridge.pending.Values
                  && w.bridge.issued[h].slot == None)
  {
  }

  lemma NewOnItsWay(w: World, st: Step, h: nat, response: PendingResponse)
    requires Enabled(w, st) && (h, response) in Apply(w, st).resolving && (h, response) !in w.resolving
    ensures st.Continue? && Parse(st.body) == Ok(response) && Lookup(w.bridge, response) == Ok(h)
  {
  }

  lemma NewlyDelivered(w: World, st: Step, k: nat)
    requires Inv(w.bridge) && Enabled(w, st) && |w.delivered| <= k < |Apply(w, st).delivered|
    ensures var (handler, o) := Apply(w, st).delivered[k];
      handler.h < |w.bridge.issued| && o in w.bridge.issued[handler.h].accepted
  {
    assert SlotOk(w.bridge.issued[st.handler.h]);
  }

  // ---------- Runs ----------

  ghost predicate ResultsCaused(run: seq<World>, steps: seq<Step>, i: nat)
    requires i <= |steps| && |run| == |steps| + 1
  {
    forall h, o :: 0 <= h < |run[i].bridge.issued| && o in run[i].bridge.issued[h].accepted ==>
      Caused(run, steps, i, h, o)
  }

  ghost predicate ResponsesCaused(run: seq<World>, steps: seq<Step>, i: nat)
    requires i <= |steps| && |run| == |steps| + 1
  {
    forall h, response :: (h, response) in run[i].resolving ==> Caused(run, steps, i, h, Response(response))
  }

  ghost predicate DeliveriesCaused(run: seq<World>, steps: seq<Step>, i: nat)
    requires i <= |steps| && |run| == |steps| + 1
  {
    forall k :: 0 <= k < |run[i].delivered| ==>
      Caused(run, steps, i, run[i].delivered[k].0.h, run[i].delivered[k].1)
  }

  lemma StepCausesResult(run: seq<World>, steps: seq<Step>, i: nat, h: nat, o: Outcome)
    requires IsRun(run, steps) && i < |steps| && ResultsCaused(run, steps, i) && ResponsesCaused(run, steps, i)
    requires h < |run[i + 1].bridge.issued| && o in run[i + 1].bridge.issued[h].accepted
    ensures Caused(run, steps, i + 1, h, o)
  {
    assert Linked(run, steps, i);
    RunKeepsInv(run, steps, i);
    if !NewResult(run[i], steps[i], h, o) {
      CausedLater(run, steps, i, h, o);
    } else if Registers(steps[i]) {
      NewByRegistering(run[i], steps[i], h, o);
      assert Fails(run, steps, i, h, o.error);
    } else if Invokes(steps[i]) {
      NothingNewByInvoking(run[i], steps[i], h, o);
    } else {
      NewOtherwise(run[i], steps[i], h, o);
      if steps[i].FinishResolve? {
        CausedLater(run, steps, i, h, o);
      } else {
        assert Fails(run, steps, i, h, o.error);
      }
    }
  }

  lemma StepCausesResponse(run: seq<World>, steps: seq<Step>, i: nat, h: nat, response: PendingResponse)
    requires IsRun(run, steps) && i < |steps| && ResponsesCaused(run, steps, i)
    requires (h, response) in run[i + 1].resolving
    ensures Caused(run, steps, i + 1, h, Response(response))
  {
    assert Linked(run, steps, i);
    if (h, response) in run[i].resolving {
      CausedLater(run, steps, i, h, Response(response));
    } else {
      NewOnItsWay(run[i], steps[i], h, response);
      LookupIff(run, steps, i, response, h);
      assert Posts(run, steps, i, h, response);
    }
  }

  lemma StepCausesDelivery(run: seq<World>, steps: seq<Step>, i: nat, k: nat)
    requires IsRun(run, steps) && i < |steps| && ResultsCaused(run, steps, i) && DeliveriesCaused(run, steps, i)
    requires k < |run[i + 1].delivered|
    ensures Caused(run, steps, i + 1, run[i + 1].delivered[k].0.h, run[i + 1].delivered[k].1)
  {
    assert Linked(run, steps, i);
    if k < |run[i].delivered| {
      assert run[i + 1].delivered[k] == run[i].delivered[k];
    } else {
      RunKeepsInv(run, steps, i);
      NewlyDelivered(run[i], steps[i], k);
    }
    CausedLater(run, steps, i, run[i + 1].delivered[k].0.h, run[i + 1].delivered[k].1);
  }

  lemma {:induction false} RunKeepsCauses(run: seq<World>, steps: seq<Step>, i: nat)
    requires IsRun(run, steps) && i < |run|
    ensures ResultsCaused(run, steps, i) && ResponsesCaused(run, steps, i) && DeliveriesCaused(run, steps, i)
    decreases i
  {
    if i > 0 {
      RunKeepsCauses(run, steps, i - 1);
      forall h, o | 0 <= h < |run[i].bridge.issued| && o in run[i].bridge.issued[h].accepted
        ensures Caused(run, steps, i, h, o)
      {
        StepCausesResult(run, steps, i - 1, h, o);
      }
      forall h, response | (h, response) in run[i].resolving
        ensures Caused(run, steps, i, h, Response(response))
      {
        StepCausesResponse(run, steps, i - 1, h, response);
      }
      forall k | 0 <= k < |run[i].delivered|
        ensures Caused(run, steps, i, run[i].delivered[k].0.h, run[i].delivered[k].1)
      {
        StepCausesDelivery(run, steps, i - 1, k);
      }
    }
  }

  // ---------- The results ----------

  lemma PostedAnswers(run: seq<World>, steps: seq<Step>, j: nat, h: nat, response: PendingResponse)
    returns (q: ContinuationRequest)
    requires j < |steps| && |run| == |steps| + 1 && Posts(run, steps, j, h, response)
    ensures steps[j] == Continue(Some(q)) && Answers(run[j], q, h) && MeantFor(q, response.kind)
    ensures Returns(q, Response(response))
  {
    q := steps[j].body.value;
    BodyReachesHandler(q, response);
    TrimSpaceTwice(q.requestID);
  }

  /** Every response a handler has received was posted earlier, in a body that names the handler's own request while it
      was pending; and the handler returns what stands in that body. */
  lemma DeliveredWasPosted(n: Naming, run: seq<World>, steps: seq<Step>, i: nat, k: nat)
    returns (j: nat, q: ContinuationRequest)
    requires IsRun(run, steps) && i < |run| && k < |run[i].delivered| && run[i].delivered[k].1.Response?
    requires forall m: nat :: m < i ==> Follows(n, steps[m])
    ensures var (handler, o) := run[i].delivered[k];
      && j < i && steps[j] == Continue(Some(q)) && Answers(run[j], q, handler.h)
      && MeantFor(q, handler.kind) && Returns(q, o)
  {
    var (handler, o) := run[i].delivered[k];
    RunKeepsCauses(run, steps, i);
    j :| j < i && Posts(run, steps, j, handler.h, o.response);
    q := PostedAnswers(run, steps, j, handler.h, o.response);
    RunKeepsTyped(n, run, steps, i);
    assert Fits(handler.kind, o);
  }

  /** Every error a handler has received has its cause: Send had ended while its request was pending, or the request was
      announced while another one of its kind was pending. The handler returns the error. */
  lemma FailureHasCause(run: seq<World>, steps: seq<Step>, i: nat, k: nat) returns (j: nat)
    requires IsRun(run, steps) && i < |run| && k < |run[i].delivered| && run[i].delivered[k].1.Failed?
    ensures var (handler, o) := run[i].delivered[k];
      && j < i
      && (o.error == Cancelled ==> Cancels(run, steps, j, handler.h))
      && (o.error != Cancelled ==> Collides(run, steps, j, handler.h, o.error))
      && HandlePermission(o) == Err(BridgeFailure(o.error)) && HandleUserInput(o) == Err(BridgeFailure(o.error))
      && AwaitToolResult(o) == Err(BridgeFailure(o.error))
  {
    var (handler, o) := run[i].delivered[k];
    RunKeepsCauses(run, steps, i);
    j :| j < i && Fails(run, steps, j, handler.h, o.error);
  }
}
