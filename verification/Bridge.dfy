/** The interactive bridge as the gateway runs it: a map of pending requests updated in place, result
    slots that hold one value, and queues kept in reusable buffers. Each method is tied to the
    corresponding function of BridgeModel. */
module InteractiveBridge {
  import opened Prelude
  import BM = BridgeModel

  /** A queue of request ids in a buffer that is compacted in place. */
  class IdQueue {
    var buf: array<string>
    var len: nat

    ghost predicate Valid()
      reads this
    {
      len <= buf.Length
    }

    function Contents(): seq<string>
      requires Valid()
      reads this, buf
    {
      buf[..len]
    }

    constructor ()
      ensures Valid() && Contents() == [] && fresh(buf)
    {
      buf := new string[0];
      len := 0;
    }

    method Append(id: string)
      requires Valid()
      modifies this, buf
      ensures Valid() && (buf == old(buf) || fresh(buf))
      ensures Contents() == old(Contents()) + [id]
    {
      if len == buf.Length {
        var larger := new string[2 * len + 1](_ => "");
        for i := 0 to len
          invariant len == old(len) && buf == old(buf) && buf.Length == old(buf).Length
          invariant larger[..i] == old(Contents())[..i]
          invariant buf[..] == old(buf[..])
        {
          larger[i] := buf[i];
        }
        buf := larger;
      }
      buf[len] := id;
      len := len + 1;
    }

    /** Copies the tail into a buffer of its own. */
    method PopFront() returns (id: string)
      requires Valid() && Contents() != []
      modifies this
      ensures Valid() && fresh(buf)
      ensures id == old(Contents())[0] && Contents() == old(Contents())[1..]
    {
      id := buf[0];
      var tail := new string[len - 1](
        i requires 0 <= i < len - 1 && Valid() reads this, buf => buf[i + 1]);
      buf := tail;
      len := len - 1;
    }

    /** Moves every other id down over the gaps, in the same buffer. */
    method Remove(id: string)
      requires Valid()
      modifies this, buf
      ensures Valid() && buf == old(buf)
      ensures Contents() == BM.Without(old(Contents()), id)
    {
      var kept := 0;
      ghost var before := Contents();
      for i := 0 to len
        invariant kept <= i <= len == old(len) && buf == old(buf)
        invariant forall j :: i <= j < len ==> buf[j] == before[j]
        invariant buf[..kept] == BM.Without(before[..i], id)
      {
        WithoutSnoc(before[..i], before[i], id);
        assert before[..i + 1] == before[..i] + [before[i]];
        if buf[i] != id {
          buf[kept] := buf[i];
          kept := kept + 1;
        }
      }
      assert before[..len] == before;
      len := kept;
    }

    method Clear()
      modifies this
      ensures Valid() && Contents() == [] && fresh(buf)
    {
      buf := new string[0];
      len := 0;
    }
  }

  lemma {:induction false} WithoutSnoc(q: seq<string>, x: string, id: string)
    ensures BM.Without(q + [x], id) == BM.Without(q, id) + if x == id then [] else [x]
  {
    if q == [] {
      assert q + [x] == [x];
      assert BM.Without([x][1..], id) == [];
    } else {
      assert (q + [x])[1..] == q[1..] + [x];
      WithoutSnoc(q[1..], x, id);
    }
  }

  /** A pending request and its result channel, which holds at most one result. */
  class PendingResolution {
    ghost const serial: nat
    var request: BM.Request
    var slot: Option<BM.Outcome>
    ghost var accepted: seq<BM.Outcome>
    ghost var received: seq<BM.Outcome>
    ghost var rejected: bool
    ghost var popped: bool

    ghost function Value(): BM.Resolution
      reads this
    {
      BM.Resolution(request, slot, accepted, received, rejected, popped)
    }

    constructor (ghost serial: nat, request: BM.Request)
      ensures Value() == BM.Fresh(request) && this.serial == serial
    {
      this.serial := serial;
      this.request := request;
      slot, accepted, received, rejected, popped := None, [], [], false, false;
    }

    /** A plain channel send would wait for room; it is only ever made where there is room. */
    method Send(o: BM.Outcome)
      requires slot == None
      modifies this`slot, this`accepted
      ensures Value() == BM.Offer(old(Value()), o)
    {
      slot, accepted := Some(o), accepted + [o];
    }

    /** A send that gives up when the channel is full. */
    method TrySend(o: BM.Outcome) returns (sent: bool)
      modifies this`slot, this`accepted
      ensures Value() == BM.Offer(old(Value()), o)
      ensures sent <==> old(slot) == None
    {
      sent := slot == None;
      if sent {
        Send(o);
      }
    }

    method Receive() returns (o: BM.Outcome)
      requires slot.Some?
      modifies this`slot, this`received
      ensures o == old(slot).value && Value() == BM.Take(old(Value()))
    {
      o := slot.value;
      slot, received := None, received + [o];
    }
  }

  ghost function Values(ps: seq<PendingResolution>): (rs: seq<BM.Resolution>)
    reads ps
    ensures |rs| == |ps| && forall i :: 0 <= i < |ps| ==> rs[i] == ps[i].Value()
  {
    seq(|ps|, i requires 0 <= i < |ps| reads ps => ps[i].Value())
  }

  ghost function Serials(pending: map<string, PendingResolution>): map<string, nat> {
    map id | id in pending :: pending[id].serial
  }

  class InteractiveBridge {
    var pendingByRequest: map<string, PendingResolution>
    var toolCallToRequest: map<string, string>
    const permissionQueue: IdQueue
    const userInputQueue: IdQueue
    /** Every request object made so far, in order of registration. */
    ghost var issued: seq<PendingResolution>

    ghost predicate Valid()
      reads this, permissionQueue, userInputQueue
    {
      && permissionQueue != userInputQueue
      && permissionQueue.Valid() && userInputQueue.Valid()
      && permissionQueue.buf != userInputQueue.buf
      && (forall i :: 0 <= i < |issued| ==> issued[i].serial == i)
      && (forall id :: id in pendingByRequest ==>
            pendingByRequest[id].serial < |issued| && issued[pendingByRequest[id].serial] == pendingByRequest[id])
    }

    /** The bridge as a value; a request is named by its serial number. */
    ghost function State(): BM.Bridge
      requires Valid()
      reads this, issued, permissionQueue, permissionQueue.buf, userInputQueue, userInputQueue.buf
    {
      BM.Bridge(
        Values(issued),
        Serials(pendingByRequest),
        toolCallToRequest,
        permissionQueue.Contents(),
        userInputQueue.Contents())
    }

    constructor ()
      ensures Valid() && State() == BM.Empty() && issued == []
      ensures fresh(permissionQueue) && fresh(permissionQueue.buf) && fresh(userInputQueue) && fresh(userInputQueue.buf)
    {
      permissionQueue := new IdQueue();
      userInputQueue := new IdQueue();
      pendingByRequest, toolCallToRequest, issued := map[], map[], [];
    }

    // ---------- Shared pieces of the three registrations ----------

    method Update(id: string, request: BM.Request)
      requires Valid() && id in pendingByRequest
      modifies pendingByRequest[id]
      ensures Valid() && State() == BM.UpdateRequest(old(State()), id, request)
    {
      pendingByRequest[id].request := request;
    }

    method Issue(request: BM.Request) returns (pending: PendingResolution)
      requires Valid() && request.id !in pendingByRequest
      modifies this`pendingByRequest, this`issued
      ensures Valid() && issued == old(issued) + [pending] && fresh(pending)
      ensures request.id in pendingByRequest && pendingByRequest[request.id] == pending
      ensures State() == BM.Issue(old(State()), BM.Fresh(request))
    {
      pending := new PendingResolution(|issued|, request);
      pendingByRequest := pendingByRequest[request.id := pending];
      issued := issued + [pending];
      assert Values(issued) == old(Values(issued)) + [BM.Fresh(request)];
      assert Serials(pendingByRequest) == old(Serials(pendingByRequest))[request.id := pending.serial];
    }

    method IndexCall(callID: string, id: string)
      requires Valid()
      modifies this`toolCallToRequest
      ensures Valid() && State() == old(State()).(toolIndex := old(State()).toolIndex[callID := id])
    {
      toolCallToRequest := toolCallToRequest[callID := id];
    }

    lemma RequestOfPending(id: string)
      requires Valid() && id in pendingByRequest
      ensures id in State().pending && BM.RequestOf(State(), id) == pendingByRequest[id].request
    {
    }

    method RegisterTool(id: string, callID: string, detail: string)
      requires Valid()
      modifies this, issued
      ensures Valid() && old(issued) <= issued && (forall i :: |old(issued)| <= i < |issued| ==> fresh(issued[i]))
      ensures State() == BM.RegisterTool(old(State()), id, callID, detail)
    {
      if id == "" {
        return;
      }
      if id in pendingByRequest {
        RequestOfPending(id);
        Update(id, pendingByRequest[id].request.(callID := callID, detail := detail));
      } else {
        var _ := Issue(BM.Request(id, BM.Tool, callID, detail));
      }
      if callID != "" {
        IndexCall(callID, id);
      }
    }

    method EnqueueUserInput(id: string)
      requires Valid()
      modifies userInputQueue, userInputQueue.buf
      ensures Valid() && State() == old(State()).(userInputQueue := old(State()).userInputQueue + [id])
      ensures userInputQueue.buf == old(userInputQueue.buf) || fresh(userInputQueue.buf)
    {
      userInputQueue.Append(id);
    }

    method EnqueuePermission(id: string)
      requires Valid()
      modifies permissionQueue, permissionQueue.buf
      ensures Valid() && State() == old(State()).(permissionQueue := old(State()).permissionQueue + [id])
      ensures permissionQueue.buf == old(permissionQueue.buf) || fresh(permissionQueue.buf)
    {
      permissionQueue.Append(id);
    }

    /** Scans the pending requests in whatever order the map gives them. */
    method HasOutstandingKind(kind: BM.Kind, exclude: string) returns (found: bool)
      requires Valid()
      ensures found <==> BM.Outstanding(State(), kind, exclude)
    {
      var rest := pendingByRequest.Keys;
      while rest != {}
        invariant rest <= pendingByRequest.Keys
        invariant forall id :: id in pendingByRequest && id !in rest && id != exclude ==>
          pendingByRequest[id].request.kind != kind
      {
        var id :| id in rest;
        RequestOfPending(id);
        if id != exclude && pendingByRequest[id].request.kind == kind {
          return true;
        }
        rest := rest - {id};
      }
      return false;
    }

    /** Answers a request with an error as it arrives; its slot is empty, so the send has room. */
    method Reject(pending: PendingResolution, error: BM.BridgeError)
      requires Valid() && pending.serial < |issued| && issued[pending.serial] == pending
      requires pending.slot == None
      modifies pending
      ensures Valid()
      ensures var h, b := pending.serial, old(State());
        State() == b.(issued := b.issued[h := BM.Offer(b.issued[h], BM.Failed(error)).(rejected := true)])
    {
      pending.Send(BM.Failed(error));
      pending.rejected := true;
    }

    method RejectIfOutstanding(pending: PendingResolution, kind: BM.Kind, id: string, error: BM.BridgeError)
      requires Valid() && pending.serial < |issued| && issued[pending.serial] == pending
      requires pending.slot == None
      modifies pending
      ensures Valid()
      ensures var h, b := pending.serial, old(State());
        State() == if BM.Outstanding(b, kind, id)
                   then b.(issued := b.issued[h := BM.Offer(b.issued[h], BM.Failed(error)).(rejected := true)])
                   else b
    {
      var outstanding := HasOutstandingKind(kind, id);
      if outstanding {
        Reject(pending, error);
      }
    }

    method AddUserInput(request: BM.Request)
      requires Valid() && request.id !in pendingByRequest && request.kind == BM.UserInput
      modifies this, userInputQueue, userInputQueue.buf
      ensures Valid() && old(issued) <= issued && (forall i :: |old(issued)| <= i < |issued| ==> fresh(issued[i]))
      ensures var b := old(State());
        State() == BM.Issue(b, BM.Admit(b, request, BM.ConcurrentUserInput))
          .(userInputQueue := b.userInputQueue + [request.id])
    {
      ghost var b := State();
      var pending := Issue(request);
      EnqueueUserInput(request.id);
      OutstandingUnaffected(b, State(), request);
      IssuedThenRejected(b, request, BM.ConcurrentUserInput);
      RejectIfOutstanding(pending, BM.UserInput, request.id, BM.ConcurrentUserInput);
    }

    method RegisterUserInput(id: string, detail: string)
      requires Valid()
      modifies this, issued, userInputQueue, userInputQueue.buf
      ensures Valid() && old(issued) <= issued && (forall i :: |old(issued)| <= i < |issued| ==> fresh(issued[i]))
      ensures State() == BM.RegisterUserInput(old(State()), id, detail)
    {
      if id == "" {
        return;
      }
      if id in pendingByRequest {
        RequestOfPending(id);
        Update(id, pendingByRequest[id].request.(detail := detail));
      } else {
        AddUserInput(BM.Request(id, BM.UserInput, "", detail));
      }
    }

    method AddPermission(request: BM.Request)
      requires Valid() && request.id !in pendingByRequest && request.kind == BM.Permission
      modifies this, permissionQueue, permissionQueue.buf
      ensures Valid() && old(issued) <= issued && (forall i :: |old(issued)| <= i < |issued| ==> fresh(issued[i]))
      ensures var b := old(State());
        State() == BM.Issue(b, BM.Admit(b, request, BM.ConcurrentPermission))
          .(permissionQueue := b.permissionQueue + [request.id])
    {
      ghost var b := State();
      var pending := Issue(request);
      EnqueuePermission(request.id);
      OutstandingUnaffected(b, State(), request);
      IssuedThenRejected(b, request, BM.ConcurrentPermission);
      RejectIfOutstanding(pending, BM.Permission, request.id, BM.ConcurrentPermission);
    }

    method RegisterPermission(id: string, callID: string, detail: string)
      requires Valid()
      modifies this, issued, permissionQueue, permissionQueue.buf
      ensures Valid() && old(issued) <= issued && (forall i :: |old(issued)| <= i < |issued| ==> fresh(issued[i]))
      ensures State() == BM.RegisterPermission(old(State()), id, callID, detail)
    {
      if id == "" {
        return;
      }
      if id in pendingByRequest {
        RequestOfPending(id);
        Update(id, pendingByRequest[id].request.(callID := callID, detail := detail));
      } else {
        AddPermission(BM.Request(id, BM.Permission, callID, detail));
      }
    }

    // ---------- Resolving ----------

    /** Under the lock, resolve only finds the request; the kind is checked afterwards. */
    method FindForResolve(response: BM.PendingResponse) returns (r: Result<PendingResolution, BM.ResolveError>)
      requires Valid()
      ensures r.Err? ==> BM.Lookup(State(), response) == Err(r.error)
      ensures r.Ok? ==> r.value in issued && BM.Lookup(State(), response) == Ok(r.value.serial)
    {
      var id := TrimSpace(response.requestID);
      if id == "" || id !in pendingByRequest {
        return Err(BM.NotFound);
      }
      RequestOfPending(id);
      var pending := pendingByRequest[id];
      if pending.request.kind != response.kind {
        return Err(BM.WrongKind);
      }
      return Ok(pending);
    }

    method Offer(pending: PendingResolution, o: BM.Outcome) returns (sent: bool)
      requires Valid() && pending.serial < |issued| && issued[pending.serial] == pending
      modifies pending
      ensures Valid() && sent == (old(pending.slot) == None)
      ensures var b, h := old(State()), pending.serial;
        State() == b.(issued := b.issued[h := BM.Offer(b.issued[h], o)])
    {
      sent := pending.TrySend(o);
    }

    /** Without the lock, resolve offers the response to the channel it found. */
    method Deliver(pending: PendingResolution, response: BM.PendingResponse) returns (r: Result<(), BM.ResolveError>)
      requires Valid() && pending.serial < |issued| && issued[pending.serial] == pending
      modifies pending
      ensures Valid() && State() == BM.Deliver(old(State()), pending.serial, response)
      ensures r == if old(pending.slot) == None then Ok(()) else Err(BM.AlreadyResolved)
    {
      var sent := Offer(pending, BM.Response(response));
      return if sent then Ok(()) else Err(BM.AlreadyResolved);
    }

    // ---------- Forgetting ----------

    method RemovePending(id: string)
      requires Valid()
      modifies this`pendingByRequest
      ensures Valid() && pendingByRequest == old(pendingByRequest) - {id}
      ensures State() == old(State()).(pending := old(State()).pending - {id})
    {
      pendingByRequest := pendingByRequest - {id};
      assert Serials(pendingByRequest) == old(Serials(pendingByRequest)) - {id};
    }

    method UnindexCall(callID: string)
      requires Valid()
      modifies this`toolCallToRequest
      ensures Valid() && State() == old(State()).(toolIndex := old(State()).toolIndex - {callID})
    {
      toolCallToRequest := toolCallToRequest - {callID};
    }

    method DropFromUserInputQueue(id: string)
      requires Valid()
      modifies userInputQueue, userInputQueue.buf
      ensures Valid() && State() == old(State()).(userInputQueue := BM.Without(old(State()).userInputQueue, id))
    {
      userInputQueue.Remove(id);
    }

    method DropFromPermissionQueue(id: string)
      requires Valid()
      modifies permissionQueue, permissionQueue.buf
      ensures Valid() && State() == old(State()).(permissionQueue := BM.Without(old(State()).permissionQueue, id))
    {
      permissionQueue.Remove(id);
    }

    method Forget(requestID: string)
      requires Valid()
      modifies this`pendingByRequest, this`toolCallToRequest
      modifies permissionQueue, permissionQueue.buf, userInputQueue, userInputQueue.buf
      ensures Valid() && State() == BM.Forget(old(State()), requestID)
    {
      var id := TrimSpace(requestID);
      if id == "" || id !in pendingByRequest {
        return;
      }
      RequestOfPending(id);
      var request := pendingByRequest[id].request;
      RemovePending(id);
      if request.callID != "" {
        UnindexCall(request.callID);
      }
      if request.kind == BM.UserInput {
        DropFromUserInputQueue(id);
      }
      if request.kind == BM.Permission {
        DropFromPermissionQueue(id);
      }
    }

    method CancelOne(id: string)
      requires Valid() && id in pendingByRequest
      modifies this`pendingByRequest, pendingByRequest[id]
      ensures Valid() && issued == old(issued) && pendingByRequest == old(pendingByRequest) - {id}
      ensures var b := old(State()); var h := b.pending[id];
        && h < |b.issued|
        && State() == b.(
             pending := b.pending - {id},
             issued := b.issued[h := BM.Offer(b.issued[h], BM.Failed(BM.Cancelled))])
    {
      var pending := pendingByRequest[id];
      var _ := Offer(pending, BM.Failed(BM.Cancelled));
      RemovePending(id);
    }

    /** Offers the error to every pending request, in whatever order the map gives them. */
    method CancelPending()
      requires Valid()
      modifies this`pendingByRequest, issued
      ensures Valid() && Cancelling(old(State()), State()) && pendingByRequest == map[]
      ensures State() == old(State()).(issued := State().issued, pending := map[])
    {
      ghost var b := State();
      while pendingByRequest != map[]
        invariant Valid() && issued == old(issued)
        invariant Cancelling(b, State())
        invariant State() == b.(issued := State().issued, pending := State().pending)
        decreases pendingByRequest.Keys
      {
        var id :| id in pendingByRequest;
        ghost var s := State();
        assert pendingByRequest[id] in issued;
        CancelOne(id);
        CancelStep(b, s, State(), id);
      }
      assert State().pending == map[];
    }

    method CancelAll()
      requires Valid()
      modifies this, issued, permissionQueue, userInputQueue
      ensures Valid() && State() == BM.CancelAll(old(State()))
    {
      ghost var b := State();
      CancelPending();
      CancelledAll(b, State());
      EmptyIndexAndQueues();
    }

    method EmptyIndexAndQueues()
      requires Valid()
      modifies this`toolCallToRequest, permissionQueue, userInputQueue
      ensures Valid() && State() == old(State()).(toolIndex := map[], permissionQueue := [], userInputQueue := [])
    {
      toolCallToRequest := map[];
      permissionQueue.Clear();
      userInputQueue.Clear();
    }

    // ---------- Handlers ----------

    method FindTool(callID: string) returns (pending: PendingResolution?)
      requires Valid()
      ensures BM.FindTool(State(), callID) == if pending == null then None else Some(pending.serial)
    {
      if callID in toolCallToRequest && toolCallToRequest[callID] in pendingByRequest {
        pending := pendingByRequest[toolCallToRequest[callID]];
      } else {
        pending := null;
      }
    }

    ghost method MarkPopped(pending: PendingResolution)
      requires Valid() && pending.serial < |issued| && issued[pending.serial] == pending
      modifies pending
      ensures Valid() && State() == BM.MarkPopped(old(State()), Some(pending.serial))
    {
      pending.popped := true;
    }

    /** Pops ids until one is still pending. */
    method PopPendingPermission() returns (pending: PendingResolution?)
      requires Valid()
      modifies permissionQueue
      ensures Valid()
      ensures var b := old(State()); var (rest, h) := BM.PopPending(b.pending, b.permissionQueue);
        && State() == b.(permissionQueue := rest)
        && h == (if pending == null then None else Some(pending.serial))
      ensures pending != null ==> pending.serial < |issued| && issued[pending.serial] == pending
    {
      ghost var b := State();
      while permissionQueue.len > 0
        invariant Valid()
        invariant State() == b.(permissionQueue := permissionQueue.Contents())
        invariant BM.PopPending(b.pending, b.permissionQueue) == BM.PopPending(b.pending, permissionQueue.Contents())
        decreases permissionQueue.len
      {
        var id := permissionQueue.PopFront();
        if id in pendingByRequest {
          return pendingByRequest[id];
        }
      }
      return null;
    }

    method TakePermission() returns (pending: PendingResolution?)
      requires Valid()
      modifies issued, permissionQueue
      ensures Valid()
      ensures BM.TakePermission(old(State())) == (State(), if pending == null then None else Some(pending.serial))
    {
      pending := PopPendingPermission();
      if pending != null {
        MarkPopped(pending);
      }
    }

    /** Pops ids until one is still pending. */
    method PopPendingUserInput() returns (pending: PendingResolution?)
      requires Valid()
      modifies userInputQueue
      ensures Valid()
      ensures var b := old(State()); var (rest, h) := BM.PopPending(b.pending, b.userInputQueue);
        && State() == b.(userInputQueue := rest)
        && h == (if pending == null then None else Some(pending.serial))
      ensures pending != null ==> pending.serial < |issued| && issued[pending.serial] == pending
    {
      ghost var b := State();
      while userInputQueue.len > 0
        invariant Valid()
        invariant State() == b.(userInputQueue := userInputQueue.Contents())
        invariant BM.PopPending(b.pending, b.userInputQueue) == BM.PopPending(b.pending, userInputQueue.Contents())
        decreases userInputQueue.len
      {
        var id := userInputQueue.PopFront();
        if id in pendingByRequest {
          return pendingByRequest[id];
        }
      }
      return null;
    }

    method TakeUserInput() returns (pending: PendingResolution?)
      requires Valid()
      modifies issued, userInputQueue
      ensures Valid()
      ensures BM.TakeUserInput(old(State())) == (State(), if pending == null then None else Some(pending.serial))
    {
      pending := PopPendingUserInput();
      if pending != null {
        MarkPopped(pending);
      }
    }

    /** A handler blocks until its channel holds a result; here it does. */
    method Receive(pending: PendingResolution) returns (o: BM.Outcome)
      requires Valid() && pending.serial < |issued| && issued[pending.serial] == pending && pending.slot.Some?
      modifies pending
      ensures Valid() && State() == BM.Receive(old(State()), pending.serial)
      ensures Some(o) == old(pending.slot)
    {
      o := pending.Receive();
    }
  }

  /** Bridge s is b in the middle of being cancelled. */
  ghost predicate Cancelling(b: BM.Bridge, s: BM.Bridge) {
    && |s.issued| == |b.issued|
    && s.pending.Values <= b.pending.Values
    && (forall i :: 0 <= i < |s.issued| ==>
          || s.issued[i] == b.issued[i]
          || (i in b.pending.Values && s.issued[i] == BM.Offer(b.issued[i], BM.Failed(BM.Cancelled))))
    && (forall i :: 0 <= i < |s.issued| && i in b.pending.Values && i !in s.pending.Values ==>
          s.issued[i] == BM.Offer(b.issued[i], BM.Failed(BM.Cancelled)))
  }

  lemma CancelStep(b: BM.Bridge, s: BM.Bridge, s': BM.Bridge, id: string)
    requires Cancelling(b, s) && id in s.pending && s.pending[id] < |s.issued|
    requires s' == s.(pending := s.pending - {id},
      issued := s.issued[s.pending[id] := BM.Offer(s.issued[s.pending[id]], BM.Failed(BM.Cancelled))])
    ensures Cancelling(b, s')
  {
    forall i | i in s.pending.Values && i != s.pending[id] ensures i in s'.pending.Values {
      var other :| other in s.pending && s.pending[other] == i;
      assert s'.pending[other] == i;
    }
  }

  lemma CancelledAll(b: BM.Bridge, s: BM.Bridge)
    requires Cancelling(b, s) && s.pending == map[]
    ensures s.(toolIndex := map[], permissionQueue := [], userInputQueue := []) == BM.CancelAll(b)
  {
    assert s.issued == BM.CancelAll(b).issued;
  }

  lemma IssuedThenRejected(b: BM.Bridge, request: BM.Request, error: BM.BridgeError)
    ensures var h := |b.issued|;
      var issued := BM.Issue(b, BM.Fresh(request)).issued;
      b.issued + [BM.Admit(b, request, error)] ==
        if BM.Outstanding(b, request.kind, request.id)
        then issued[h := BM.Offer(issued[h], BM.Failed(error)).(rejected := true)]
        else issued
  {
  }

  lemma OutstandingUnaffected(b: BM.Bridge, b': BM.Bridge, request: BM.Request)
    requires request.id !in b.pending
    requires b'.issued == b.issued + [BM.Fresh(request)] && b'.pending == b.pending[request.id := |b.issued|]
    requires forall id :: id in b.pending ==> b.pending[id] < |b.issued|
    ensures BM.Outstanding(b', request.kind, request.id) <==> BM.Outstanding(b, request.kind, request.id)
  {
    if BM.Outstanding(b, request.kind, request.id) {
      var id :| id in b.pending && id != request.id && b.issued[b.pending[id]].request.kind == request.kind;
      assert id in b'.pending;
    }
  }
}
