/** The interactive bridge on values: pending requests, their one-place result slots, the two queues
    and the index from tool calls to requests. A request keeps its place in `issued` for ever, so the
    place is the identity of its channel and its registration order; `accepted`, `received`, `rejected`
    and `popped` record what happened to it. */
module BridgeModel {
  import opened Prelude

  datatype Kind = Tool | UserInput | Permission

  datatype Request = Request(id: string, kind: Kind, callID: string, detail: string)

  datatype PermissionResponse = PermissionResponse(resultKind: string, rules: seq<string>)
  datatype UserInputResponse = UserInputResponse(answer: string, wasFreeform: bool)
  datatype ToolResult = ToolResult(
    textResult: string,
    binaryResults: seq<string>,
    resultType: string,
    sessionLog: string)

  datatype PendingResponse = PendingResponse(
    requestID: string,
    kind: Kind,
    toolResult: Option<ToolResult>,
    toolError: string,
    userInput: Option<UserInputResponse>,
    permission: Option<PermissionResponse>)

  datatype BridgeError = ConcurrentUserInput | ConcurrentPermission | Cancelled

  datatype Outcome = Response(response: PendingResponse) | Failed(error: BridgeError)

  datatype Resolution = Resolution(
    request: Request,
    slot: Option<Outcome>,
    accepted: seq<Outcome>,
    received: seq<Outcome>,
    rejected: bool,
    popped: bool)

  datatype Bridge = Bridge(
    issued: seq<Resolution>,
    pending: map<string, nat>,
    toolIndex: map<string, string>,
    permissionQueue: seq<string>,
    userInputQueue: seq<string>)

  function Empty(): Bridge {
    Bridge([], map[], map[], [], [])
  }

  // ---------- The result slot ----------

  function Fresh(request: Request): Resolution {
    Resolution(request, None, [], [], false, false)
  }

  /** A non-blocking send into the slot: only an empty slot takes the result. */
  function Offer(r: Resolution, o: Outcome): Resolution {
    if r.slot == None then r.(slot := Some(o), accepted := r.accepted + [o]) else r
  }

  function Take(r: Resolution): Resolution
    requires r.slot.Some?
  {
    r.(slot := None, received := r.received + [r.slot.value])
  }

  // ---------- Operations under the bridge lock ----------

  function Issue(b: Bridge, r: Resolution): Bridge {
    b.(issued := b.issued + [r], pending := b.pending[r.request.id := |b.issued|])
  }

  predicate Outstanding(b: Bridge, kind: Kind, exclude: string) {
    exists id :: id in b.pending && id != exclude && b.pending[id] < |b.issued|
      && b.issued[b.pending[id]].request.kind == kind
  }

  function UpdateRequest(b: Bridge, id: string, request: Request): Bridge
    requires id in b.pending
  {
    var h := b.pending[id];
    if h < |b.issued| then b.(issued := b.issued[h := b.issued[h].(request := request)]) else b
  }

  function RequestOf(b: Bridge, id: string): Request
    requires id in b.pending
  {
    if b.pending[id] < |b.issued| then b.issued[b.pending[id]].request else Request(id, Tool, "", "")
  }

  function RegisterTool(b: Bridge, id: string, callID: string, detail: string): Bridge {
    if id == "" then b
    else
      var registered :=
        if id in b.pending then UpdateRequest(b, id, RequestOf(b, id).(callID := callID, detail := detail))
        else Issue(b, Fresh(Request(id, Tool, callID, detail)));
      if callID == "" then registered else registered.(toolIndex := registered.toolIndex[callID := id])
  }

  /** A second outstanding request of a serialised kind is answered with an error on the spot. */
  function Admit(b: Bridge, request: Request, error: BridgeError): Resolution {
    var arrival := Fresh(request);
    if Outstanding(b, request.kind, request.id)
    then Offer(arrival, Failed(error)).(rejected := true)
    else arrival
  }

  function RegisterUserInput(b: Bridge, id: string, detail: string): Bridge {
    if id == "" then b
    else if id in b.pending then UpdateRequest(b, id, RequestOf(b, id).(detail := detail))
    else
      var request := Request(id, UserInput, "", detail);
      Issue(b, Admit(b, request, ConcurrentUserInput)).(userInputQueue := b.userInputQueue + [id])
  }

  function RegisterPermission(b: Bridge, id: string, callID: string, detail: string): Bridge {
    if id == "" then b
    else if id in b.pending then UpdateRequest(b, id, RequestOf(b, id).(callID := callID, detail := detail))
    else
      var request := Request(id, Permission, callID, detail);
      Issue(b, Admit(b, request, ConcurrentPermission)).(permissionQueue := b.permissionQueue + [id])
  }

  datatype ResolveError = NotFound | WrongKind | AlreadyResolved

  /** The part of resolve that runs under the lock, and the kind check after it. */
  function Lookup(b: Bridge, response: PendingResponse): Result<nat, ResolveError> {
    var id := TrimSpace(response.requestID);
    if id == "" || id !in b.pending then Err(NotFound)
    else if RequestOf(b, id).kind != response.kind then Err(WrongKind)
    else Ok(b.pending[id])
  }

  /** The part of resolve that runs without the lock: h may no longer be pending. */
  function Deliver(b: Bridge, h: nat, response: PendingResponse): Bridge {
    if h < |b.issued| then b.(issued := b.issued[h := Offer(b.issued[h], Response(response))]) else b
  }

  function Without(q: seq<string>, id: string): (r: seq<string>)
    ensures id !in r
    ensures forall x :: x in r <==> x in q && x != id
  {
    if q == [] then []
    else if q[0] == id then Without(q[1..], id)
    else [q[0]] + Without(q[1..], id)
  }

  /** Answers and completions come with trimmed ids, announcements with ids as they are. */
  function Forget(b: Bridge, requestID: string): Bridge {
    var id := TrimSpace(requestID);
    if id == "" || id !in b.pending then b
    else
      var request := RequestOf(b, id);
      b.(pending := b.pending - {id},
         toolIndex := if request.callID != "" then b.toolIndex - {request.callID} else b.toolIndex,
         userInputQueue := if request.kind == UserInput then Without(b.userInputQueue, id) else b.userInputQueue,
         permissionQueue := if request.kind == Permission then Without(b.permissionQueue, id) else b.permissionQueue)
  }

  function CancelAll(b: Bridge): Bridge {
    Bridge(
      seq(|b.issued|, i requires 0 <= i < |b.issued| =>
        if i in b.pending.Values then Offer(b.issued[i], Failed(Cancelled)) else b.issued[i]),
      map[], map[], [], [])
  }

  /** The request a tool handler obtains, if the index leads to a pending one. */
  function FindTool(b: Bridge, callID: string): Option<nat> {
    if callID in b.toolIndex && b.toolIndex[callID] in b.pending then Some(b.pending[b.toolIndex[callID]]) else None
  }

  /** Pops until an id that is still pending turns up; ids that are gone are skipped. */
  function PopPending(pending: map<string, nat>, q: seq<string>): (r: (seq<string>, Option<nat>)) {
    if q == [] then ([], None)
    else if q[0] in pending then (q[1..], Some(pending[q[0]]))
    else PopPending(pending, q[1..])
  }

  function MarkPopped(b: Bridge, h: Option<nat>): Bridge {
    if h.Some? && h.value < |b.issued|
    then b.(issued := b.issued[h.value := b.issued[h.value].(popped := true)]) else b
  }

  function TakePermission(b: Bridge): (r: (Bridge, Option<nat>)) {
    var (rest, h) := PopPending(b.pending, b.permissionQueue);
    (MarkPopped(b.(permissionQueue := rest), h), h)
  }

  function TakeUserInput(b: Bridge): (r: (Bridge, Option<nat>)) {
    var (rest, h) := PopPending(b.pending, b.userInputQueue);
    (MarkPopped(b.(userInputQueue := rest), h), h)
  }

  /** A handler takes the result out of the slot of h. */
  function Receive(b: Bridge, h: nat): Bridge
    requires h < |b.issued| && b.issued[h].slot.Some?
  {
    b.(issued := b.issued[h := Take(b.issued[h])])
  }
}
