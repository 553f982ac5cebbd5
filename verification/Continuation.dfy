/** The continuation endpoint: what it accepts, and what the three handlers make of a result. */
module Continuation {
  import opened Prelude
  import opened BridgeModel

  datatype ContinuationRequest = ContinuationRequest(
    requestID: string,
    kind: string,
    textResult: string,
    resultType: string,
    sessionLog: string,
    binaryResults: seq<string>,
    error: string,
    answer: string,
    wasFreeform: bool,
    rules: seq<string>)

  datatype ParseError =
    | MalformedBody | MissingRequestID | MissingToolError | MissingResultType | UnsupportedResultType | UnsupportedKind

  /** The longest kind is put together from two pieces, because its ends are hard to prove of a literal this long. */
  const SUPPORTED_RESULT_KINDS: set<string> := {
    "approved",
    "denied-by-rules",
    "denied-interactively-by-user",
    "denied-no-approval-rule-" + "and-could-not-request-from-user",
    "denied-by-content-exclusion-policy"
  }

  predicate IsSupportedPermissionResultKind(value: string) {
    TrimSpace(value) in SUPPORTED_RESULT_KINDS
  }

  function ParsePermissionResult(id: string, q: ContinuationRequest): Result<PendingResponse, ParseError> {
    var resultKind := TrimSpace(q.resultType);
    if resultKind == "" then Err(MissingResultType)
    else if !IsSupportedPermissionResultKind(resultKind) then Err(UnsupportedResultType)
    else Ok(PendingResponse(id, Permission, None, "", None, Some(PermissionResponse(resultKind, q.rules))))
  }

  /** A body that is not JSON arrives as None. */
  function Parse(body: Option<ContinuationRequest>): Result<PendingResponse, ParseError> {
    if body == None then Err(MalformedBody)
    else
      var q := body.value;
      var id := TrimSpace(q.requestID);
      var kind := ToLower(TrimSpace(q.kind));
      if id == "" then Err(MissingRequestID)
      else if kind == "tool_result" then
        var result := ToolResult(q.textResult, q.binaryResults, q.resultType, q.sessionLog);
        Ok(PendingResponse(id, Tool, Some(result), "", None, None))
      else if kind == "tool_error" then
        if TrimSpace(q.error) == "" then Err(MissingToolError)
        else Ok(PendingResponse(id, Tool, None, q.error, None, None))
      else if kind == "user_input" then
        Ok(PendingResponse(id, UserInput, None, "", Some(UserInputResponse(q.answer, q.wasFreeform)), None))
      else if kind == "permission_result" then ParsePermissionResult(id, q)
      else Err(UnsupportedKind)
  }

  /** The response carries the payload its kind calls for, and no other. */
  predicate WellShaped(r: PendingResponse) {
    match r.kind
    case Tool =>
      && r.userInput == None && r.permission == None
      && (r.toolResult.Some? ==> r.toolError == "")
      && (r.toolResult == None ==> TrimSpace(r.toolError) != "")
    case UserInput => r.userInput.Some? && r.toolResult == None && r.toolError == "" && r.permission == None
    case Permission =>
      && r.permission.Some? && r.toolResult == None && r.toolError == "" && r.userInput == None
      && r.permission.value.resultKind in SUPPORTED_RESULT_KINDS
  }

  predicate Trimmed(s: string) {
    s != "" && !IsSpace(s[0]) && !IsSpace(s[|s| - 1])
  }

  lemma TrimSpaceIsTrimmed(s: string)
    ensures TrimSpace(s) == "" || Trimmed(TrimSpace(s))
    ensures Trimmed(s) ==> TrimSpace(s) == s
  {
  }

  /** The body a client sends for a given response. */
  function Render(r: PendingResponse): ContinuationRequest
    requires WellShaped(r)
  {
    var blank := ContinuationRequest(r.requestID, "", "", "", "", [], "", "", false, []);
    match r.kind
    case Tool =>
      if r.toolResult.Some? then
        var t := r.toolResult.value;
        blank.(kind := "tool_result", textResult := t.textResult, binaryResults := t.binaryResults,
               resultType := t.resultType, sessionLog := t.sessionLog)
      else blank.(kind := "tool_error", error := r.toolError)
    case UserInput =>
      blank.(kind := "user_input", answer := r.userInput.value.answer, wasFreeform := r.userInput.value.wasFreeform)
    case Permission =>
      blank.(kind := "permission_result", resultType := r.permission.value.resultKind,
        rules := r.permission.value.rules)
  }

  lemma LowerCaseStays(s: string)
    requires Trimmed(s) && forall i :: 0 <= i < |s| ==> !('A' <= s[i] <= 'Z')
    ensures ToLower(TrimSpace(s)) == s
  {
    TrimSpaceIsTrimmed(s);
  }

  lemma SupportedKindsAreTrimmed(k: string)
    requires k in SUPPORTED_RESULT_KINDS
    ensures Trimmed(k)
  {
    assert Trimmed("approved");
    assert Trimmed("denied-by-rules");
    assert Trimmed("denied-interactively-by-user");
    assert Trimmed("denied-no-approval-rule-" + "and-could-not-request-from-user");
    assert Trimmed("denied-by-content-exclusion-policy");
  }

  lemma ParsedPermissionIsWellShaped(id: string, q: ContinuationRequest)
    ensures var r := ParsePermissionResult(id, q); r.Ok? ==> WellShaped(r.value) && r.value.requestID == id
  {
    TrimSpaceIsTrimmed(q.resultType);
    TrimSpaceIsTrimmed(TrimSpace(q.resultType));
  }

  lemma ParsedIsWellShaped(body: Option<ContinuationRequest>)
    ensures Parse(body).Ok? ==> WellShaped(Parse(body).value) && Trimmed(Parse(body).value.requestID)
  {
    if body.Some? {
      TrimSpaceIsTrimmed(body.value.requestID);
      ParsedPermissionIsWellShaped(TrimSpace(body.value.requestID), body.value);
    }
  }

  lemma RenderedToolParses(r: PendingResponse)
    requires WellShaped(r) && Trimmed(r.requestID) && r.kind == Tool
    ensures Parse(Some(Render(r))) == Ok(r)
  {
    TrimSpaceIsTrimmed(r.requestID);
    LowerCaseStays("tool_result");
    LowerCaseStays("tool_error");
  }

  lemma RenderedUserInputParses(r: PendingResponse)
    requires WellShaped(r) && Trimmed(r.requestID) && r.kind == UserInput
    ensures Parse(Some(Render(r))) == Ok(r)
  {
    TrimSpaceIsTrimmed(r.requestID);
    LowerCaseStays("user_input");
  }

  lemma RenderedPermissionParses(r: PendingResponse)
    requires WellShaped(r) && Trimmed(r.requestID) && r.kind == Permission
    ensures Parse(Some(Render(r))) == Ok(r)
  {
    var k := r.permission.value.resultKind;
    TrimSpaceIsTrimmed(r.requestID);
    LowerCaseStays("permission_result");
    SupportedKindsAreTrimmed(k);
    TrimSpaceIsTrimmed(k);
  }

  /** The endpoint accepts exactly the well-shaped responses: whatever it parses is one, and every
      one of them with a trimmed id is parsed back from what a client would send for it. */
  lemma ParseAcceptsExactlyWellShaped(body: Option<ContinuationRequest>, r: PendingResponse)
    ensures Parse(body).Ok? ==> WellShaped(Parse(body).value) && Trimmed(Parse(body).value.requestID)
    ensures WellShaped(r) && Trimmed(r.requestID) ==> Parse(Some(Render(r))) == Ok(r)
  {
    ParsedIsWellShaped(body);
    if WellShaped(r) && Trimmed(r.requestID) {
      match r.kind
      case Tool => RenderedToolParses(r);
      case UserInput => RenderedUserInputParses(r);
      case Permission => RenderedPermissionParses(r);
    }
  }

  // ---------- What a handler returns for the result it received ----------

  datatype HandlerError = BridgeFailure(error: BridgeError) | ToolFailure(message: string) | MissingResponse

  function HandlePermission(o: Outcome): Result<PermissionResponse, HandlerError> {
    match o
    case Failed(e) => Err(BridgeFailure(e))
    case Response(r) => if r.permission == None then Err(MissingResponse) else Ok(r.permission.value)
  }

  function HandleUserInput(o: Outcome): Result<UserInputResponse, HandlerError> {
    match o
    case Failed(e) => Err(BridgeFailure(e))
    case Response(r) => if r.userInput == None then Err(MissingResponse) else Ok(r.userInput.value)
  }

  function AwaitToolResult(o: Outcome): Result<ToolResult, HandlerError> {
    match o
    case Failed(e) => Err(BridgeFailure(e))
    case Response(r) =>
      if r.toolError != "" then Err(ToolFailure(r.toolError))
      else if r.toolResult == None then Err(MissingResponse)
      else Ok(r.toolResult.value)
  }

  // ---------- From the body a client posts to what the runtime is told ----------

  function KindNamed(q: ContinuationRequest): string {
    ToLower(TrimSpace(q.kind))
  }

  /** The kind of request a body is meant for. */
  predicate MeantFor(q: ContinuationRequest, kind: Kind) {
    match kind
    case Tool => KindNamed(q) == "tool_result" || KindNamed(q) == "tool_error"
    case UserInput => KindNamed(q) == "user_input"
    case Permission => KindNamed(q) == "permission_result"
  }

  /** Handed to the handler of its kind, the outcome makes it return what stands in the body, word for word; only the
      kind of a permission result is trimmed. */
  predicate Returns(q: ContinuationRequest, o: Outcome) {
    && (KindNamed(q) == "tool_result" ==>
          AwaitToolResult(o) == Ok(ToolResult(q.textResult, q.binaryResults, q.resultType, q.sessionLog)))
    && (KindNamed(q) == "tool_error" ==> AwaitToolResult(o) == Err(ToolFailure(q.error)))
    && (KindNamed(q) == "user_input" ==> HandleUserInput(o) == Ok(UserInputResponse(q.answer, q.wasFreeform)))
    && (KindNamed(q) == "permission_result" ==>
          HandlePermission(o) == Ok(PermissionResponse(TrimSpace(q.resultType), q.rules)))
  }

  lemma TrimSpaceTwice(s: string)
    ensures TrimSpace(TrimSpace(s)) == TrimSpace(s)
  {
    TrimSpaceIsTrimmed(s);
    if TrimSpace(s) != "" {
      TrimSpaceIsTrimmed(TrimSpace(s));
    }
  }

  /** Which bodies are accepted, in whatever case and between whatever spaces their kind is written, and of which
      fault the others are told. */
  lemma AcceptedIff(q: ContinuationRequest)
    ensures Parse(None) == Err(MalformedBody)
    ensures Parse(Some(q)).Ok? <==>
      && TrimSpace(q.requestID) != ""
      && (MeantFor(q, Tool) || MeantFor(q, UserInput) || MeantFor(q, Permission))
      && (KindNamed(q) == "tool_error" ==> TrimSpace(q.error) != "")
      && (MeantFor(q, Permission) ==> TrimSpace(q.resultType) in SUPPORTED_RESULT_KINDS)
    ensures Parse(Some(q)).Err? && TrimSpace(q.requestID) == "" ==> Parse(Some(q)).error == MissingRequestID
    ensures Parse(Some(q)).Err? && TrimSpace(q.requestID) != "" ==>
      if MeantFor(q, Tool) then Parse(Some(q)).error == MissingToolError
      else if !MeantFor(q, Permission) then Parse(Some(q)).error == UnsupportedKind
      else Parse(Some(q)).error == if TrimSpace(q.resultType) == "" then MissingResultType else UnsupportedResultType
  {
    TrimSpaceTwice(q.resultType);
    EmptyIsUnsupported();
  }

  lemma EmptyIsUnsupported()
    ensures "" !in SUPPORTED_RESULT_KINDS
  {
    if "" in SUPPORTED_RESULT_KINDS {
      SupportedKindsAreTrimmed("");
    }
  }

  /** An accepted body is meant for the kind of request it is taken to answer, it names the id that is looked up, and
      the handler that gets it returns what stands in it. */
  lemma BodyReachesHandler(q: ContinuationRequest, r: PendingResponse)
    requires Parse(Some(q)) == Ok(r)
    ensures r.requestID == TrimSpace(q.requestID) && MeantFor(q, r.kind) && Returns(q, Response(r))
  {
    TrimSpaceIsTrimmed("");
  }
}
