/** Runs of the bridge: session events, continuation requests and handlers in any order. */
module BridgeRuns {
  import opened Prelude
  import opened BridgeModel
  import opened BridgeInvariant
  import opened Continuation

  /** A handler that obtained request h; callID is the tool call it serves, if any. */
  datatype Handler = Handler(kind: Kind, callID: string, h: nat)

  /** `resolving` are the responses looked up but not yet sent, `waiting` the handlers blocked on a
      result, `delivered` what handlers have received so far. */
  datatype World = World(
    bridge: Bridge,
    resolving: multiset<(nat, PendingResponse)>,
    waiting: multiset<Handler>,
    delivered: seq<(Handler, Outcome)>)

  datatype Step =
    | ToolRequested(id: string, callID: string, detail: string)
    | UserInputRequested(id: string, detail: string)
    | PermissionRequested(id: string, callID: string, detail: string)
    | Completed(id: string)
    | SendEnds
    | Continue(body: Option<ContinuationRequest>)
    | FinishResolve(h: nat, response: PendingResponse)
    | PermissionInvoked
    | UserInputInvoked
    | ToolInvoked(callID: string)
    | HandlerReceives(handler: Handler)

  predicate Enabled(w: World, st: Step) {
    match st
    case FinishResolve(h, response) => (h, response) in w.resolving
    case HandlerReceives(handler) =>
      handler in w.waiting && handler.h < |w.bridge.issued| && w.bridge.issued[handler.h].slot.Some?
    case _ => true
  }

  function Join(w: World, taken: (Bridge, Option<nat>), kind: Kind, callID: string): World {
    var moved := w.(bridge := taken.0);
    if taken.1.Some? then moved.(waiting := w.waiting + multiset{Handler(kind, callID, taken.1.value)}) else moved
  }

  function BeginResolve(w: World, body: Option<ContinuationRequest>): World {
    var parsed := Parse(body);
    if parsed.Err? then w
    else
      var found := Lookup(w.bridge, parsed.value);
      if found.Err? then w else w.(resolving := w.resolving + multiset{(found.value, parsed.value)})
  }

  function Apply(w: World, st: Step): World
    requires Enabled(w, st)
  {
    match st
    case ToolRequested(id, callID, detail) => w.(bridge := RegisterTool(w.bridge, id, callID, detail))
    case UserInputRequested(id, detail) => w.(bridge := RegisterUserInput(w.bridge, id, detail))
    case PermissionRequested(id, callID, detail) => w.(bridge := RegisterPermission(w.bridge, id, callID, detail))
    case Completed(id) => w.(bridge := Forget(w.bridge, id))
    case SendEnds => w.(bridge := CancelAll(w.bridge))
    case Continue(body) => BeginResolve(w, body)
    case FinishResolve(h, response) =>
      w.(bridge := Deliver(w.bridge, h, response), resolving := w.resolving - multiset{(h, response)})
    case PermissionInvoked => Join(w, TakePermission(w.bridge), Permission, "")
    case UserInputInvoked => Join(w, TakeUserInput(w.bridge), UserInput, "")
    case ToolInvoked(callID) => Join(w, (w.bridge, FindTool(w.bridge, callID)), Tool, callID)
    case HandlerReceives(handler) =>
      w.(bridge := Receive(w.bridge, handler.h), waiting := w.waiting - multiset{handler},
         delivered := w.delivered + [(handler, w.bridge.issued[handler.h].slot.value)])
  }

  const START: World := World(Empty(), multiset{}, multiset{}, [])

  ghost predicate Linked(run: seq<World>, steps: seq<Step>, i: nat)
    requires i < |steps| && |run| == |steps| + 1
  {
    Enabled(run[i], steps[i]) && run[i + 1] == Apply(run[i], steps[i])
  }

  ghost predicate IsRun(run: seq<World>, steps: seq<Step>) {
    && |run| == |steps| + 1 && run[0] == START
    && forall i: nat :: i < |steps| ==> Linked(run, steps, i)
  }

  // ---------- Safety of every run ----------

  lemma StepKeepsInv(w: World, st: Step)
    requires Inv(w.bridge) && Enabled(w, st)
    ensures Inv(Apply(w, st).bridge)
  {
    var b := w.bridge;
    match st
    case ToolRequested(id, callID, detail) => RegisterToolKeepsInv(b, id, callID, detail);
    case UserInputRequested(id, detail) => RegisterUserInputKeepsInv(b, id, detail);
    case PermissionRequested(id, callID, detail) => RegisterPermissionKeepsInv(b, id, callID, detail);
    case Completed(id) => ForgetKeepsInv(b, id);
    case SendEnds => CancelAllKeepsInv(b);
    case FinishResolve(h, response) => DeliverKeepsInv(b, h, response);
    case PermissionInvoked => TakePermissionKeepsInv(b);
    case UserInputInvoked => TakeUserInputKeepsInv(b);
    case HandlerReceives(handler) => ReceiveKeepsInv(b, handler.h);
    case _ =>
  }

  lemma {:induction false} RunKeepsInv(run: seq<World>, steps: seq<Step>, i: nat)
    requires IsRun(run, steps) && i < |run|
    ensures Inv(run[i].bridge)
    decreases i
  {
    if i > 0 {
      RunKeepsInv(run, steps, i - 1);
      assert Linked(run, steps, i - 1);
      StepKeepsInv(run[i - 1], steps[i - 1]);
    }
  }

  /** Result slots conserve results: accepted minus received is zero or one, and what a handler
      receives first is the first result accepted. */
  lemma SlotConservation(run: seq<World>, steps: seq<Step>, i: nat, h: nat)
    requires IsRun(run, steps) && i < |run| && h < |run[i].bridge.issued|
    ensures var r := run[i].bridge.issued[h];
      && |r.accepted| - |r.received| == (if r.slot.Some? then 1 else 0)
      && r.received <= r.accepted
      && (r.received != [] ==> r.received[0] == r.accepted[0])
      && (r.slot.Some? ==> r.slot.value == r.accepted[|r.accepted| - 1])
  {
    RunKeepsInv(run, steps, i);
    assert SlotOk(run[i].bridge.issued[h]);
  }

  /** Of each serialised kind at most one pending request was not rejected on arrival, and all other
      pending requests of that kind came later. */
  lemma AtMostOneUnrejected(run: seq<World>, steps: seq<Step>, i: nat, x: string, y: string)
    requires IsRun(run, steps) && i < |run|
    requires var b := run[i].bridge;
      && x in b.pending && y in b.pending && x != y
      && RequestOf(b, x).kind == RequestOf(b, y).kind != Tool
      && b.pending[x] < |b.issued| && !b.issued[b.pending[x]].rejected
    ensures var b := run[i].bridge;
      b.pending[x] < b.pending[y] < |b.issued| && b.issued[b.pending[y]].rejected
  {
    RunKeepsInv(run, steps, i);
    var b := run[i].bridge;
    assert Rivals(b, x, y) || Rivals(b, y, x);
  }

  /** A permission handler obtains the earliest registered request of its kind that no handler has popped
      and that was not forgotten; it gets nothing only when there is none. */
  lemma PermissionsPoppedInOrder(run: seq<World>, steps: seq<Step>, i: nat)
    requires IsRun(run, steps) && i < |run|
    ensures var b := run[i].bridge; var (b', h) := TakePermission(b);
      && (h == None <==> forall id :: !Waits(b, Permission, id))
      && (h.Some? ==> h.value < |b.issued| && Waits(b, Permission, b.issued[h.value].request.id))
      && (h.Some? ==> forall id :: Waits(b, Permission, id) ==> h.value <= b.pending[id])
  {
    RunKeepsInv(run, steps, i);
    var b := run[i].bridge;
    PopTakesHead(b, Permission, b.permissionQueue);
    HeadIsEarliest(b, Permission, b.permissionQueue);
  }

  lemma UserInputsPoppedInOrder(run: seq<World>, steps: seq<Step>, i: nat)
    requires IsRun(run, steps) && i < |run|
    ensures var b := run[i].bridge; var (b', h) := TakeUserInput(b);
      && (h == None <==> forall id :: !Waits(b, UserInput, id))
      && (h.Some? ==> h.value < |b.issued| && Waits(b, UserInput, b.issued[h.value].request.id))
      && (h.Some? ==> forall id :: Waits(b, UserInput, id) ==> h.value <= b.pending[id])
  {
    RunKeepsInv(run, steps, i);
    var b := run[i].bridge;
    PopTakesHead(b, UserInput, b.userInputQueue);
    HeadIsEarliest(b, UserInput, b.userInputQueue);
  }

  lemma HeadIsEarliest(b: Bridge, kind: Kind, q: seq<string>)
    requires PendingOk(b) && QueueOk(b, kind, q)
    ensures q == [] <==> forall id :: !Waits(b, kind, id)
    ensures q != [] ==> Waits(b, kind, q[0]) && forall id :: Waits(b, kind, id) ==> b.pending[q[0]] <= b.pending[id]
  {
    if q != [] {
      assert q[0] in q;
      forall id | Waits(b, kind, id) ensures b.pending[q[0]] <= b.pending[id] {
        assert id in q;
      }
    }
  }

  // ---------- Nobody is left waiting ----------

  /** Completion events arrive for answered requests only. */
  predicate AnsweredFirst(w: World, st: Step) {
    st.Completed? && TrimSpace(st.id) in w.bridge.pending
      && w.bridge.pending[TrimSpace(st.id)] < |w.bridge.issued| ==>
      w.bridge.issued[w.bridge.pending[TrimSpace(st.id)]].accepted != []
  }

  /** Every request is still pending or has been given a result. */
  ghost predicate Answered(b: Bridge) {
    forall h :: 0 <= h < |b.issued| && b.issued[h].accepted == [] ==>
      b.issued[h].request.id in b.pending && b.pending[b.issued[h].request.id] == h
  }

  predicate SameHistory(r: Resolution, r': Resolution) {
    r'.request.id == r.request.id && r'.accepted == r.accepted
  }

  lemma RegisteredIsPending(b: Bridge, b': Bridge, id: string)
    requires Inv(b) && Answered(b)
    requires |b.issued| <= |b'.issued| <= |b.issued| + 1
    requires forall h :: 0 <= h < |b.issued| ==> SameHistory(b.issued[h], b'.issued[h])
    requires |b'.issued| == |b.issued| ==> b'.pending == b.pending
    requires |b'.issued| > |b.issued| ==>
      id !in b.pending && b'.issued[|b.issued|].request.id == id && b'.pending == b.pending[id := |b.issued|]
    ensures Answered(b')
  {
  }

  lemma RegisterKeepsAnswered(b: Bridge, id: string, callID: string, detail: string)
    requires Inv(b) && Answered(b)
    ensures Answered(RegisterTool(b, id, callID, detail))
    ensures Answered(RegisterPermission(b, id, callID, detail))
    ensures Answered(RegisterUserInput(b, id, detail))
  {
    RegisteredIsPending(b, RegisterTool(b, id, callID, detail), id);
    RegisteredIsPending(b, RegisterPermission(b, id, callID, detail), id);
    RegisteredIsPending(b, RegisterUserInput(b, id, detail), id);
  }

  lemma CancelAnswersAll(b: Bridge)
    requires Inv(b) && Answered(b)
    ensures Answered(CancelAll(b))
  {
    forall h | 0 <= h < |b.issued| ensures CancelAll(b).issued[h].accepted != [] {
      assert SlotOk(b.issued[h]);
    }
  }

  lemma CompletionKeepsAnswered(w: World, id: string)
    requires Inv(w.bridge) && Answered(w.bridge) && AnsweredFirst(w, Completed(id))
    ensures Answered(Forget(w.bridge, id))
  {
  }

  lemma StepKeepsAnswered(w: World, st: Step)
    requires Inv(w.bridge) && Answered(w.bridge) && Enabled(w, st) && AnsweredFirst(w, st)
    ensures Answered(Apply(w, st).bridge)
  {
    var b := w.bridge;
    match st
    case ToolRequested(id, callID, detail) => RegisterKeepsAnswered(b, id, callID, detail);
    case UserInputRequested(id, detail) => RegisterKeepsAnswered(b, id, "", detail);
    case PermissionRequested(id, callID, detail) => RegisterKeepsAnswered(b, id, callID, detail);
    case Completed(id) => CompletionKeepsAnswered(w, id);
    case SendEnds => CancelAnswersAll(b);
    case PermissionInvoked => PopTakesHead(b, Permission, b.permissionQueue);
    case UserInputInvoked => PopTakesHead(b, UserInput, b.userInputQueue);
    case _ =>
  }

  ghost predicate HandlersKnown(w: World) {
    forall handler :: handler in w.waiting ==> handler.h < |w.bridge.issued|
  }

  lemma InvokingKeepsHandlersKnown(w: World, st: Step)
    requires Inv(w.bridge) && HandlersKnown(w) && Enabled(w, st) && (st.PermissionInvoked? || st.UserInputInvoked?)
    ensures HandlersKnown(Apply(w, st))
  {
    var b := w.bridge;
    PopTakesHead(b, Permission, b.permissionQueue);
    PopTakesHead(b, UserInput, b.userInputQueue);
  }

  lemma StepKeepsHandlersKnown(w: World, st: Step)
    requires Inv(w.bridge) && HandlersKnown(w) && Enabled(w, st)
    ensures HandlersKnown(Apply(w, st))
  {
    if st.PermissionInvoked? || st.UserInputInvoked? {
      InvokingKeepsHandlersKnown(w, st);
    } else {
      OthersKeepHandlersKnown(w, st);
    }
  }

  lemma OthersKeepHandlersKnown(w: World, st: Step)
    requires Inv(w.bridge) && HandlersKnown(w) && Enabled(w, st) && !st.PermissionInvoked? && !st.UserInputInvoked?
    ensures HandlersKnown(Apply(w, st))
  {
  }

  lemma {:induction false} RunKeepsAnswered(run: seq<World>, steps: seq<Step>, i: nat)
    requires IsRun(run, steps) && i < |run|
    requires forall j: nat :: j < i ==> AnsweredFirst(run[j], steps[j])
    ensures Answered(run[i].bridge) && HandlersKnown(run[i])
    decreases i
  {
    if i > 0 {
      RunKeepsAnswered(run, steps, i - 1);
      RunKeepsInv(run, steps, i - 1);
      assert Linked(run, steps, i - 1);
      StepKeepsAnswered(run[i - 1], steps[i - 1]);
      StepKeepsHandlersKnown(run[i - 1], steps[i - 1]);
    }
  }

  /** When Send ends, every request any handler is waiting for has a result in its slot or had one
      received already, and the bridge is empty. */
  lemma NoStrandedHandler(run: seq<World>, steps: seq<Step>, i: nat)
    requires IsRun(run, steps) && i < |steps| && steps[i] == SendEnds
    requires forall j: nat :: j < i ==> AnsweredFirst(run[j], steps[j])
    ensures var w := run[i + 1]; var b := w.bridge;
      && b.pending == map[] && b.toolIndex == map[] && b.permissionQueue == [] && b.userInputQueue == []
      && (forall h :: 0 <= h < |b.issued| ==> b.issued[h].slot.Some? || b.issued[h].received != [])
      && (forall handler :: handler in w.waiting ==> handler.h < |b.issued|)
  {
    RunKeepsAnswered(run, steps, i + 1);
    RunKeepsInv(run, steps, i + 1);
    assert Linked(run, steps, i);
    var b := run[i + 1].bridge;
    forall h | 0 <= h < |b.issued| ensures b.issued[h].slot.Some? || b.issued[h].received != [] {
      assert SlotOk(b.issued[h]);
      assert b.issued[h].accepted != [];
    }
  }

  /** Request h is out of the pending map, and no looked-up response is on its way to it. */
  ghost predicate NothingComing(w: World, h: nat) {
    && h < |w.bridge.issued|
    && (forall id :: id in w.bridge.pending ==> w.bridge.pending[id] != h)
    && (forall response :: (h, response) !in w.resolving)
  }

  lemma RegisteringBringsNothing(w: World, h: nat, id: string, callID: string, detail: string)
    requires NothingComing(w, h)
    ensures var w' := w.(bridge := RegisterTool(w.bridge, id, callID, detail));
      NothingComing(w', h) && w'.bridge.issued[h].accepted == w.bridge.issued[h].accepted
    ensures var w' := w.(bridge := RegisterPermission(w.bridge, id, callID, detail));
      NothingComing(w', h) && w'.bridge.issued[h].accepted == w.bridge.issued[h].accepted
    ensures var w' := w.(bridge := RegisterUserInput(w.bridge, id, detail));
      NothingComing(w', h) && w'.bridge.issued[h].accepted == w.bridge.issued[h].accepted
  {
  }

  lemma StepBringsNothing(w: World, st: Step, h: nat)
    requires Inv(w.bridge) && NothingComing(w, h) && Enabled(w, st)
    ensures NothingComing(Apply(w, st), h)
    ensures Apply(w, st).bridge.issued[h].accepted == w.bridge.issued[h].accepted
  {
    var b := w.bridge;
    match st
    case ToolRequested(id, callID, detail) => RegisteringBringsNothing(w, h, id, callID, detail);
    case UserInputRequested(id, detail) => RegisteringBringsNothing(w, h, id, "", detail);
    case PermissionRequested(id, callID, detail) => RegisteringBringsNothing(w, h, id, callID, detail);
    case PermissionInvoked => PopTakesHead(b, Permission, b.permissionQueue);
    case UserInputInvoked => PopTakesHead(b, UserInput, b.userInputQueue);
    case _ =>
  }

  lemma {:induction false} RunBringsNothing(run: seq<World>, steps: seq<Step>, i: nat, j: nat, h: nat)
    requires IsRun(run, steps) && i <= j < |run| && NothingComing(run[i], h)
    ensures NothingComing(run[j], h) && run[j].bridge.issued[h].accepted == run[i].bridge.issued[h].accepted
    decreases j
  {
    if i < j {
      RunBringsNothing(run, steps, i, j - 1, h);
      RunKeepsInv(run, steps, j - 1);
      assert Linked(run, steps, j - 1);
      StepBringsNothing(run[j - 1], steps[j - 1], h);
    }
  }

  /** The proviso of NoStrandedHandler is needed: a request forgotten before it is answered, and with
      no response on its way, never gets a result, whatever happens afterwards. */
  lemma ForgottenUnansweredStaysSo(run: seq<World>, steps: seq<Step>, i: nat, j: nat, h: nat)
    requires IsRun(run, steps) && i <= j < |run|
    requires NothingComing(run[i], h) && run[i].bridge.issued[h].accepted == []
    ensures h < |run[j].bridge.issued|
    ensures run[j].bridge.issued[h].slot == None && run[j].bridge.issued[h].received == []
  {
    RunBringsNothing(run, steps, i, j, h);
    RunKeepsInv(run, steps, j);
    assert SlotOk(run[j].bridge.issued[h]);
  }

  // ---------- Putting runs together ----------

  lemma OneMoreStep(run: seq<World>, steps: seq<Step>, st: Step) returns (longer: seq<World>)
    requires IsRun(run, steps) && Enabled(run[|run| - 1], st)
    ensures longer == run + [Apply(run[|run| - 1], st)] && IsRun(longer, steps + [st])
  {
    longer := run + [Apply(run[|run| - 1], st)];
    forall i: nat | i < |steps + [st]| ensures Linked(longer, steps + [st], i) {
      if i < |steps| {
        assert Linked(run, steps, i);
      }
    }
  }
}
