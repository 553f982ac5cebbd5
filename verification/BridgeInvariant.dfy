/** Invariants of the bridge: whatever order its operations come in, these hold. */
module BridgeInvariant {
  import opened Prelude
  import opened BridgeModel

  /** Every pending id names its own request. */
  ghost predicate PendingOk(b: Bridge) {
    forall id :: id in b.pending ==> id != "" && b.pending[id] < |b.issued| && b.issued[b.pending[id]].request.id == id
  }

  /** The slot holds exactly the result accepted last and not yet received. */
  predicate SlotOk(r: Resolution) {
    r.accepted == r.received + (if r.slot.Some? then [r.slot.value] else [])
  }

  /** A request rejected on arrival was given the error before anything else. */
  predicate RejectionOk(r: Resolution) {
    r.rejected ==> r.accepted != [] && r.accepted[0].Failed?
  }

  ghost predicate ResolutionsOk(b: Bridge) {
    forall h :: 0 <= h < |b.issued| ==> SlotOk(b.issued[h]) && RejectionOk(b.issued[h])
  }

  /** Request id is pending, of the given kind, and no handler has popped it. */
  ghost predicate Waits(b: Bridge, kind: Kind, id: string) {
    && id in b.pending && b.pending[id] < |b.issued|
    && b.issued[b.pending[id]].request.kind == kind && !b.issued[b.pending[id]].popped
  }

  ghost predicate Ordered(pending: map<string, nat>, q: seq<string>) {
    && (forall i :: 0 <= i < |q| ==> q[i] in pending)
    && (forall i, j :: 0 <= i < j < |q| ==> pending[q[i]] < pending[q[j]])
  }

  /** A queue lists exactly the waiting requests of its kind, each once, in registration order. */
  ghost predicate QueueOk(b: Bridge, kind: Kind, q: seq<string>) {
    Ordered(b.pending, q) && forall id :: id in q <==> Waits(b, kind, id)
  }

  /** x and y are pending requests of one serialised kind, and x was registered first. */
  ghost predicate Rivals(b: Bridge, x: string, y: string) {
    && x in b.pending && y in b.pending && b.pending[x] < b.pending[y] < |b.issued|
    && b.issued[b.pending[x]].request.kind == b.issued[b.pending[y]].request.kind != Tool
  }

  ghost predicate Serialised(b: Bridge) {
    forall x, y :: Rivals(b, x, y) ==> b.issued[b.pending[y]].rejected
  }

  ghost predicate Inv(b: Bridge) {
    && PendingOk(b) && ResolutionsOk(b) && Serialised(b)
    && QueueOk(b, Permission, b.permissionQueue)
    && QueueOk(b, UserInput, b.userInputQueue)
  }

  // ---------- Steps that only touch the content of requests ----------

  predicate SameIdentity(r: Resolution, r': Resolution) {
    && r'.request.id == r.request.id && r'.request.kind == r.request.kind
    && r'.popped == r.popped && r'.rejected == r.rejected
    && r.accepted <= r'.accepted
  }

  lemma ContentKeepsInv(b: Bridge, b': Bridge)
    requires Inv(b)
    requires b'.pending == b.pending && b'.permissionQueue == b.permissionQueue && b'.userInputQueue == b.userInputQueue
    requires |b'.issued| == |b.issued|
    requires forall h :: 0 <= h < |b.issued| ==> SameIdentity(b.issued[h], b'.issued[h]) && SlotOk(b'.issued[h])
    ensures Inv(b')
  {
    forall kind, id ensures Waits(b, kind, id) <==> Waits(b', kind, id) {
    }
    forall x, y | Rivals(b', x, y) ensures b'.issued[b'.pending[y]].rejected {
      assert Rivals(b, x, y);
    }
  }

  lemma UpdateKeepsInv(b: Bridge, id: string, request: Request)
    requires Inv(b) && id in b.pending
    requires request.id == RequestOf(b, id).id && request.kind == RequestOf(b, id).kind
    ensures Inv(UpdateRequest(b, id, request))
  {
    ContentKeepsInv(b, UpdateRequest(b, id, request));
  }

  lemma DeliverKeepsInv(b: Bridge, h: nat, response: PendingResponse)
    requires Inv(b)
    ensures Inv(Deliver(b, h, response))
  {
    ContentKeepsInv(b, Deliver(b, h, response));
  }

  lemma ReceiveKeepsInv(b: Bridge, h: nat)
    requires Inv(b) && h < |b.issued| && b.issued[h].slot.Some?
    ensures Inv(Receive(b, h))
  {
    ContentKeepsInv(b, Receive(b, h));
  }

  // ---------- Registration ----------

  lemma EnqueueKeepsQueue(b: Bridge, b': Bridge, kind: Kind, q: seq<string>, r: Resolution)
    requires PendingOk(b) && QueueOk(b, kind, q)
    requires r.request.id !in b.pending && !r.popped
    requires b'.issued == b.issued + [r] && b'.pending == b.pending[r.request.id := |b.issued|]
    ensures QueueOk(b', kind, if r.request.kind == kind then q + [r.request.id] else q)
  {
    forall id ensures Waits(b', kind, id) <==> Waits(b, kind, id) || (id == r.request.id && r.request.kind == kind) {
    }
  }

  lemma IssueKeepsSerialised(b: Bridge, b': Bridge, request: Request, error: BridgeError)
    requires PendingOk(b) && Serialised(b) && request.id !in b.pending
    requires b'.issued == b.issued + [Admit(b, request, error)] && b'.pending == b.pending[request.id := |b.issued|]
    ensures Serialised(b')
  {
    forall x, y | Rivals(b', x, y) ensures b'.issued[b'.pending[y]].rejected {
      if y == request.id {
        assert x in b.pending && b.issued[b.pending[x]].request.kind == request.kind;
        assert Outstanding(b, request.kind, request.id);
      } else {
        assert Rivals(b, x, y);
      }
    }
  }

  lemma RegisterToolKeepsInv(b: Bridge, id: string, callID: string, detail: string)
    requires Inv(b)
    ensures Inv(RegisterTool(b, id, callID, detail))
  {
    var b' := RegisterTool(b, id, callID, detail);
    if id in b.pending {
      var request := RequestOf(b, id).(callID := callID, detail := detail);
      UpdateKeepsInv(b, id, request);
      ContentKeepsInv(UpdateRequest(b, id, request), b');
    } else if id != "" {
      NewToolKeepsInv(b, b', Fresh(Request(id, Tool, callID, detail)));
    }
  }

  lemma NewToolKeepsInv(b: Bridge, b': Bridge, r: Resolution)
    requires Inv(b) && r.request.kind == Tool && r.request.id !in b.pending && r.request.id != ""
    requires SlotOk(r) && RejectionOk(r) && !r.popped
    requires b'.issued == b.issued + [r] && b'.pending == b.pending[r.request.id := |b.issued|]
    requires b'.permissionQueue == b.permissionQueue && b'.userInputQueue == b.userInputQueue
    ensures Inv(b')
  {
    IssueKeepsBasics(b, b', r);
    EnqueueKeepsQueue(b, b', Permission, b.permissionQueue, r);
    EnqueueKeepsQueue(b, b', UserInput, b.userInputQueue, r);
    NewToolKeepsSerialised(b, b', r);
  }

  lemma NewToolKeepsSerialised(b: Bridge, b': Bridge, r: Resolution)
    requires PendingOk(b) && Serialised(b) && r.request.kind == Tool && r.request.id !in b.pending
    requires b'.issued == b.issued + [r] && b'.pending == b.pending[r.request.id := |b.issued|]
    ensures Serialised(b')
  {
    forall x, y | Rivals(b', x, y) ensures b'.issued[b'.pending[y]].rejected {
      assert Rivals(b, x, y);
    }
  }

  lemma AdmittedIsOk(b: Bridge, request: Request, error: BridgeError)
    ensures var r := Admit(b, request, error);
      SlotOk(r) && RejectionOk(r) && !r.popped && r.request == request
  {
  }

  lemma IssueKeepsBasics(b: Bridge, b': Bridge, r: Resolution)
    requires PendingOk(b) && ResolutionsOk(b) && r.request.id != "" && SlotOk(r) && RejectionOk(r)
    requires b'.issued == b.issued + [r] && b'.pending == b.pending[r.request.id := |b.issued|]
    ensures PendingOk(b') && ResolutionsOk(b')
  {
  }

  /** What a new request of a serialised kind does to everything but its own queue. */
  lemma NewRequestKeepsInv(b: Bridge, b': Bridge, request: Request, error: BridgeError)
    requires Inv(b) && request.id !in b.pending && request.id != ""
    requires b'.issued == b.issued + [Admit(b, request, error)] && b'.pending == b.pending[request.id := |b.issued|]
    requires b'.userInputQueue
      == if request.kind == UserInput then b.userInputQueue + [request.id] else b.userInputQueue
    requires b'.permissionQueue
      == if request.kind == Permission then b.permissionQueue + [request.id] else b.permissionQueue
    ensures Inv(b')
  {
    var r := Admit(b, request, error);
    AdmittedIsOk(b, request, error);
    IssueKeepsBasics(b, b', r);
    EnqueueKeepsQueue(b, b', Permission, b.permissionQueue, r);
    EnqueueKeepsQueue(b, b', UserInput, b.userInputQueue, r);
    IssueKeepsSerialised(b, b', request, error);
  }

  lemma RegisterUserInputKeepsInv(b: Bridge, id: string, detail: string)
    requires Inv(b)
    ensures Inv(RegisterUserInput(b, id, detail))
  {
    if id in b.pending {
      UpdateKeepsInv(b, id, RequestOf(b, id).(detail := detail));
    } else if id != "" {
      NewRequestKeepsInv(b, RegisterUserInput(b, id, detail), Request(id, UserInput, "", detail), ConcurrentUserInput);
    }
  }

  lemma RegisterPermissionKeepsInv(b: Bridge, id: string, callID: string, detail: string)
    requires Inv(b)
    ensures Inv(RegisterPermission(b, id, callID, detail))
  {
    if id in b.pending {
      UpdateKeepsInv(b, id, RequestOf(b, id).(callID := callID, detail := detail));
    } else if id != "" {
      NewRequestKeepsInv(b, RegisterPermission(b, id, callID, detail), Request(id, Permission, callID, detail),
        ConcurrentPermission);
    }
  }

  // ---------- Forgetting ----------

  lemma {:induction false} WithoutKeepsOrder(pending: map<string, nat>, q: seq<string>, id: string)
    requires Ordered(pending, q)
    ensures Ordered(pending, Without(q, id))
  {
    if q != [] {
      OrderedRest(pending, q);
      WithoutKeepsOrder(pending, q[1..], id);
      OrderedFirst(pending, q[0], Without(q[1..], id));
    }
  }

  lemma OrderedRest(pending: map<string, nat>, q: seq<string>)
    requires Ordered(pending, q) && q != []
    ensures Ordered(pending, q[1..]) && q[0] in pending
    ensures forall id :: id in q[1..] ==> pending[q[0]] < pending[id]
  {
  }

  lemma OrderedFirst(pending: map<string, nat>, first: string, q: seq<string>)
    requires Ordered(pending, q) && first in pending
    requires forall id :: id in q ==> pending[first] < pending[id]
    ensures Ordered(pending, [first] + q)
  {
    forall i, j | 0 <= i < j < |[first] + q| ensures pending[([first] + q)[i]] < pending[([first] + q)[j]] {
      assert q[j - 1] in q;
    }
  }

  lemma OrderedWithout(pending: map<string, nat>, q: seq<string>, id: string)
    requires Ordered(pending, q) && id !in q
    ensures Ordered(pending - {id}, q)
  {
  }

  lemma {:induction false} ForgetKeepsQueue(b: Bridge, b': Bridge, kind: Kind, q: seq<string>, id: string)
    requires PendingOk(b) && QueueOk(b, kind, q) && id in b.pending
    requires b'.issued == b.issued && b'.pending == b.pending - {id}
    ensures QueueOk(b', kind, if RequestOf(b, id).kind == kind then Without(q, id) else q)
  {
    if RequestOf(b, id).kind == kind {
      WithoutKeepsOrder(b.pending, q, id);
      OrderedWithout(b.pending, Without(q, id), id);
    } else {
      assert !Waits(b, kind, id);
      OrderedWithout(b.pending, q, id);
    }
    forall x ensures Waits(b', kind, x) <==> Waits(b, kind, x) && x != id {
    }
  }

  lemma ForgetKeepsInv(b: Bridge, requestID: string)
    requires Inv(b)
    ensures Inv(Forget(b, requestID))
  {
    var id := TrimSpace(requestID);
    if id != "" && id in b.pending {
      var b' := Forget(b, requestID);
      ForgetKeepsQueue(b, b', Permission, b.permissionQueue, id);
      ForgetKeepsQueue(b, b', UserInput, b.userInputQueue, id);
      forall x, y | Rivals(b', x, y) ensures b'.issued[b'.pending[y]].rejected {
        assert Rivals(b, x, y);
      }
    }
  }

  lemma CancelAllKeepsInv(b: Bridge)
    requires Inv(b)
    ensures Inv(CancelAll(b))
  {
  }

  // ---------- Popping ----------

  /** Nothing in a queue is ever missing from the pending map, so popping takes the head. */
  lemma {:induction false} PopTakesHead(b: Bridge, kind: Kind, q: seq<string>)
    requires QueueOk(b, kind, q)
    ensures PopPending(b.pending, q) == if q == [] then ([], None) else (q[1..], Some(b.pending[q[0]]))
  {
    if q != [] {
      assert q[0] in b.pending;
    }
  }

  lemma PopKeepsQueues(b: Bridge, b': Bridge, kind: Kind, q: seq<string>, other: Kind, p: seq<string>)
    requires PendingOk(b) && QueueOk(b, kind, q) && QueueOk(b, other, p) && other != kind && q != []
    requires b'.pending == b.pending
    requires b'.issued == b.issued[b.pending[q[0]] := b.issued[b.pending[q[0]]].(popped := true)]
    ensures QueueOk(b', kind, q[1..]) && QueueOk(b', other, p)
  {
    var rest := q[1..];
    assert q == [q[0]] + rest;
    assert forall i :: 0 <= i < |rest| ==> rest[i] == q[i + 1];
    assert q[0] !in rest;
    assert Waits(b, kind, q[0]);
    forall x ensures Waits(b', kind, x) <==> Waits(b, kind, x) && x != q[0] {
    }
    forall x ensures Waits(b', other, x) <==> Waits(b, other, x) {
    }
  }

  lemma PopKeepsRest(b: Bridge, b': Bridge, h: nat)
    requires PendingOk(b) && ResolutionsOk(b) && Serialised(b) && h < |b.issued|
    requires b'.pending == b.pending && b'.issued == b.issued[h := b.issued[h].(popped := true)]
    ensures PendingOk(b') && ResolutionsOk(b') && Serialised(b')
  {
    forall x, y | Rivals(b', x, y) ensures b'.issued[b'.pending[y]].rejected {
      assert Rivals(b, x, y);
    }
  }

  lemma TakePermissionKeepsInv(b: Bridge)
    requires Inv(b)
    ensures Inv(TakePermission(b).0)
  {
    PopTakesHead(b, Permission, b.permissionQueue);
    if b.permissionQueue != [] {
      var b' := TakePermission(b).0;
      PopKeepsQueues(b, b', Permission, b.permissionQueue, UserInput, b.userInputQueue);
      PopKeepsRest(b, b', b.pending[b.permissionQueue[0]]);
    }
  }

  lemma TakeUserInputKeepsInv(b: Bridge)
    requires Inv(b)
    ensures Inv(TakeUserInput(b).0)
  {
    PopTakesHead(b, UserInput, b.userInputQueue);
    if b.userInputQueue != [] {
      var b' := TakeUserInput(b).0;
      PopKeepsQueues(b, b', UserInput, b.userInputQueue, Permission, b.permissionQueue);
      PopKeepsRest(b, b', b.pending[b.userInputQueue[0]]);
    }
  }
}
