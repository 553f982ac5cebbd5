/** What a client can rely on when it reads a stream, wherever its connection breaks. */
module StreamTheorems {
  import opened Prelude
  import opened Stream
  import opened Weaving
  import opened AnswerContent
  import Sse

  // ---------- The two protocols as automata ----------

  /** Rejected is where a stream ends up that no continuation can repair. */
  datatype Place =
    | Begun | Opened | InBody | Finished | Counted | BlockClosed | MessageClosed
    | Failing | FailureClosed | Complete | Rejected

  function NextOpenAI(p: Place, c: Chunk): Place {
    match p
    case Begun => if c == Role then InBody else Rejected
    case InBody =>
      if c.Text? || c.Reasoning? || c.Extension? then InBody
      else if c == Finish then Finished else if c == Failure then Failing else Rejected
    case Finished => if c.UsageChunk? then Counted else if c == DoneMark then Complete else Rejected
    case Counted => if c == DoneMark then Complete else Rejected
    case Failing => if c == DoneMark then Complete else Rejected
    case _ => Rejected
  }

  function NextClaude(p: Place, c: Chunk): Place {
    match p
    case Begun => if c == MessageStart then Opened else Rejected
    case Opened => if c == BlockStart then InBody else Rejected
    case InBody =>
      if c.Text? || c.Extension? then InBody
      else if c == BlockStop then BlockClosed else if c == Failure then Failing else Rejected
    case BlockClosed => if c.MessageEnd? then MessageClosed else Rejected
    case MessageClosed => if c == MessageStop then Complete else Rejected
    case Failing => if c == BlockStop then FailureClosed else Rejected
    case FailureClosed => if c == MessageStop then Complete else Rejected
    case _ => Rejected
  }

  function Next(o: Protocol, p: Place, c: Chunk): Place {
    if o == OpenAI then NextOpenAI(p, c) else NextClaude(p, c)
  }

  function After(o: Protocol, p: Place, chunks: seq<Chunk>): Place {
    if chunks == [] then p else Next(o, After(o, p, chunks[..|chunks| - 1]), chunks[|chunks| - 1])
  }

  lemma {:induction false} AfterSplit(o: Protocol, p: Place, a: seq<Chunk>, b: seq<Chunk>)
    ensures After(o, p, a + b) == After(o, After(o, p, a), b)
  {
    if b == [] {
      assert a + b == a;
    } else {
      assert (a + b)[..|a + b| - 1] == a + b[..|b| - 1];
      AfterSplit(o, p, a, b[..|b| - 1]);
    }
  }

  lemma {:induction false} AfterOne(o: Protocol, p: Place, c: Chunk)
    ensures After(o, p, [c]) == Next(o, p, c)
  {
    assert [c][..0] == [];
  }

  lemma {:induction false} NothingFollows(o: Protocol, p: Place, chunks: seq<Chunk>)
    requires (p == Complete || p == Rejected) && chunks != []
    ensures After(o, p, chunks) == Rejected
  {
    var front := chunks[..|chunks| - 1];
    if front != [] {
      NothingFollows(o, p, front);
    }
  }

  lemma {:induction false} AfterThree(o: Protocol, p: Place, a: Chunk, b: Chunk, c: Chunk)
    ensures After(o, p, [a, b]) == Next(o, Next(o, p, a), b)
    ensures After(o, p, [a, b, c]) == Next(o, Next(o, Next(o, p, a), b), c)
  {
    AfterOne(o, p, a);
    AfterOne(o, Next(o, p, a), b);
    AfterOne(o, Next(o, Next(o, p, a), b), c);
    AfterSplit(o, p, [a], [b]);
    AfterSplit(o, p, [a, b], [c]);
    assert [a] + [b] == [a, b] && [a, b] + [c] == [a, b, c];
  }

  predicate Belongs(o: Protocol, p: Place) {
    if o == OpenAI then p !in {Opened, BlockClosed, MessageClosed, FailureClosed} else p !in {Finished, Counted}
  }

  lemma {:induction false} PlaceBelongs(o: Protocol, chunks: seq<Chunk>)
    ensures Belongs(o, After(o, Begun, chunks))
  {
    if chunks != [] {
      PlaceBelongs(o, chunks[..|chunks| - 1]);
    }
  }

  function Distance(p: Place): nat {
    match p
    case Begun => 5 case Opened => 4 case InBody => 3
    case Finished => 2 case BlockClosed => 2 case Failing => 2
    case Counted => 1 case MessageClosed => 1 case FailureClosed => 1
    case _ => 0
  }

  /** One way on from a place. */
  function Onward(o: Protocol, p: Place): Chunk {
    match p
    case Begun => if o == OpenAI then Role else MessageStart
    case Opened => BlockStart
    case InBody => if o == OpenAI then Finish else BlockStop
    case BlockClosed => MessageEnd(NO_USAGE)
    case Failing => if o == OpenAI then DoneMark else BlockStop
    case _ => if o == OpenAI then DoneMark else MessageStop
  }

  lemma {:induction false} Completion(o: Protocol, p: Place) returns (rest: seq<Chunk>)
    requires Belongs(o, p) && p != Rejected
    ensures After(o, p, rest) == Complete
    decreases Distance(p)
  {
    if p == Complete {
      rest := [];
    } else {
      var more := Completion(o, Next(o, p, Onward(o, p)));
      rest := [Onward(o, p)] + more;
      AfterOne(o, p, Onward(o, p));
      AfterSplit(o, p, [Onward(o, p)], more);
    }
  }

  /** A stream that is not rejected can be completed: it is the beginning of a stream of its protocol. */
  lemma CanBeCompleted(o: Protocol, chunks: seq<Chunk>) returns (rest: seq<Chunk>)
    requires After(o, Begun, chunks) != Rejected
    ensures After(o, Begun, chunks + rest) == Complete
  {
    PlaceBelongs(o, chunks);
    rest := Completion(o, After(o, Begun, chunks));
    AfterSplit(o, Begun, chunks, rest);
  }

  // ---------- What is written while the stream ends ----------

  /** What the handler writes: text and extensions. */
  predicate IsBody(c: Chunk) {
    c.Text? || c.Extension?
  }

  predicate AllBody(chunks: seq<Chunk>) {
    forall i :: 0 <= i < |chunks| ==> IsBody(chunks[i])
  }

  /** No text and no extension stands behind place number n. */
  predicate Tidy(chunks: seq<Chunk>, n: nat) {
    forall i :: n < i < |chunks| ==> !IsBody(chunks[i])
  }

  /** The stream has begun to end, or is beyond repair. */
  predicate Closing(p: Place) {
    p != Begun && p != Opened && p != InBody
  }

  lemma ClosingGoesOn(o: Protocol, p: Place, c: Chunk)
    ensures Closing(p) ==> Closing(Next(o, p, c)) && (IsBody(c) ==> Next(o, p, c) == Rejected)
    ensures p == InBody && !IsBody(c) && !c.Reasoning? ==> Closing(Next(o, p, c))
    ensures p == InBody && IsBody(c) ==> Next(o, p, c) == InBody
  {
  }

  lemma {:induction false} BodyStaysInBody(o: Protocol, chunks: seq<Chunk>)
    requires AllBody(chunks)
    ensures After(o, InBody, chunks) == InBody
  {
    if chunks != [] {
      BodyStaysInBody(o, chunks[..|chunks| - 1]);
      ClosingGoesOn(o, InBody, chunks[|chunks| - 1]);
    }
  }

  lemma {:induction false} BodySpoilsEnding(o: Protocol, p: Place, chunks: seq<Chunk>)
    requires Closing(p) && AllBody(chunks) && chunks != []
    ensures After(o, p, chunks) == Rejected
  {
    var front := chunks[..|chunks| - 1];
    if front != [] {
      BodySpoilsEnding(o, p, front);
    }
    ClosingGoesOn(o, After(o, p, front), chunks[|chunks| - 1]);
  }

  /** Neither text nor extensions, and no reasoning. */
  predicate FramesOnly(chunks: seq<Chunk>) {
    forall i :: 0 <= i < |chunks| ==> !IsBody(chunks[i]) && !chunks[i].Reasoning?
  }

  /** Frames that lead from the body of a stream to its end, and not before the last of them. */
  ghost predicate Ends(o: Protocol, ending: seq<Chunk>) {
    && ending != []
    && FramesOnly(ending)
    && After(o, InBody, ending) == Complete
  }

  lemma {:induction false} OnTheWayOut(o: Protocol, ending: seq<Chunk>, k: nat)
    requires Ends(o, ending) && 1 <= k <= |ending|
    ensures var p := After(o, InBody, ending[..k]);
      Closing(p) && p != Rejected && (p == Complete <==> k == |ending|)
    decreases k
  {
    var front := ending[..k][..k - 1];
    assert front == ending[..k - 1];
    if k > 1 {
      OnTheWayOut(o, ending, k - 1);
    }
    ClosingGoesOn(o, After(o, InBody, front), ending[k - 1]);
    assert ending[..k] + ending[k..] == ending;
    AfterSplit(o, InBody, ending[..k], ending[k..]);
    if k < |ending| && (After(o, InBody, ending[..k]) == Complete || After(o, InBody, ending[..k]) == Rejected) {
      NothingFollows(o, After(o, InBody, ending[..k]), ending[k..]);
    }
  }

  /** What is written up to ending frame number k. */
  function Log(head: seq<Chunk>, parts: seq<seq<Chunk>>, start: nat, pace: seq<nat>, ending: seq<Chunk>, k: nat)
      : seq<Chunk>
    requires start <= |parts| && k <= |ending|
  {
    head + Woven(parts, start, pace, ending[..k])
  }

  /** The parts that come between the first ending frame and frame number k. */
  function Strays(parts: seq<seq<Chunk>>, start: nat, pace: seq<nat>, k: nat): seq<Chunk>
    requires start <= |parts| && k >= 1
  {
    Flat(parts[Passed(|parts|, start, pace, 1)..StraysEnd(parts, start, pace, k)])
  }

  function StraysEnd(parts: seq<seq<Chunk>>, start: nat, pace: seq<nat>, k: nat): (r: nat)
    requires start <= |parts| && k >= 1
    ensures Passed(|parts|, start, pace, 1) <= r <= |parts|
    ensures r == Passed(|parts|, start, pace, k)
  {
    PassedInOrder(|parts|, start, pace, 1, k);
    Passed(|parts|, start, pace, k)
  }

  lemma {:induction false} PassedInOrder(n: nat, start: nat, pace: seq<nat>, j: nat, k: nat)
    requires start <= n && j <= k
    ensures Passed(n, start, pace, j) <= Passed(n, start, pace, k)
    decreases k
  {
    if j < k {
      PassedInOrder(n, start, pace, j, k - 1);
      PassedMore(n, start, pace, k - 1);
    }
  }

  /** Every part holds what the handler writes. */
  ghost predicate BodyParts(parts: seq<seq<Chunk>>) {
    forall i :: 0 <= i < |parts| ==> AllBody(parts[i])
  }

  lemma {:induction false} FlatIsBody(parts: seq<seq<Chunk>>)
    requires BodyParts(parts)
    ensures AllBody(Flat(parts))
  {
    if parts != [] {
      FlatIsBody(parts[..|parts| - 1]);
    }
  }

  lemma SomeFlatIsBody(parts: seq<seq<Chunk>>, i: nat, j: nat)
    requires BodyParts(parts) && i <= j <= |parts|
    ensures AllBody(Flat(parts[i..j]))
  {
    FlatIsBody(parts[i..j]);
  }

  /** What precedes the first ending frame. */
  function BeforeEnding(head: seq<Chunk>, parts: seq<seq<Chunk>>, start: nat, pace: seq<nat>): seq<Chunk>
    requires start <= |parts|
  {
    head + Between(parts, start, pace, 0)
  }

  lemma LogGrows(head: seq<Chunk>, parts: seq<seq<Chunk>>, start: nat, pace: seq<nat>, ending: seq<Chunk>, k: nat)
    requires start <= |parts| && 1 <= k <= |ending|
    ensures Log(head, parts, start, pace, ending, k)
      == Log(head, parts, start, pace, ending, k - 1) + Between(parts, start, pace, k - 1) + [ending[k - 1]]
    ensures k >= 2 ==>
      Strays(parts, start, pace, k) == Strays(parts, start, pace, k - 1) + Between(parts, start, pace, k - 1)
  {
    WovenNext(head, parts, start, pace, ending, k - 1);
    if k >= 2 {
      var n := |parts|;
      PassedMore(n, start, pace, k - 1);
      FlatSplit([], parts, Passed(n, start, pace, 1), StraysEnd(parts, start, pace, k - 1), Passed(n, start, pace, k));
    }
  }

  lemma LogBegins(head: seq<Chunk>, parts: seq<seq<Chunk>>, start: nat, pace: seq<nat>, ending: seq<Chunk>)
    requires start <= |parts| && ending != []
    ensures Log(head, parts, start, pace, ending, 1) == BeforeEnding(head, parts, start, pace) + [ending[0]]
    ensures Strays(parts, start, pace, 1) == []
  {
    LogGrows(head, parts, start, pace, ending, 1);
    assert head + Woven(parts, start, pace, ending[..0]) == head;
  }

  lemma TidyMore(a: seq<Chunk>, b: seq<Chunk>, n: nat)
    requires n < |a|
    ensures Tidy(a + b, n) <==> Tidy(a, n) && forall i :: 0 <= i < |b| ==> !IsBody(b[i])
  {
    var c := a + b;
    if Tidy(a, n) && forall i :: 0 <= i < |b| ==> !IsBody(b[i]) {
      forall i | n < i < |c| ensures !IsBody(c[i]) {
        if i >= |a| {
          assert c[i] == b[i - |a|];
        }
      }
    }
    if Tidy(c, n) {
      forall i | 0 <= i < |b| ensures !IsBody(b[i]) {
        assert c[i + |a|] == b[i];
      }
      forall i | n < i < |a| ensures !IsBody(a[i]) {
        assert c[i] == a[i];
      }
    }
  }

  lemma TidyBody(a: seq<Chunk>, b: seq<Chunk>, n: nat)
    requires n < |a| && AllBody(b)
    ensures Tidy(a + b, n) <==> Tidy(a, n) && b == []
  {
    TidyMore(a, b, n);
    if b != [] {
      assert IsBody(b[0]);
    }
  }

  /** With k ending frames written: nothing is lost as long as no part strayed among them, and everything is once
      one has. */
  lemma {:induction false} PlaceWhileEnding(o: Protocol, head: seq<Chunk>, parts: seq<seq<Chunk>>, start: nat,
      pace: seq<nat>, ending: seq<Chunk>, k: nat)
    requires start <= |parts| && BodyParts(parts) && Ends(o, ending) && 1 <= k <= |ending|
    requires After(o, Begun, head) == InBody
    ensures var place := After(o, Begun, Log(head, parts, start, pace, ending, k));
      place == if Strays(parts, start, pace, k) == [] then After(o, InBody, ending[..k]) else Rejected
    ensures var first := |BeforeEnding(head, parts, start, pace)|;
      && first < |Log(head, parts, start, pace, ending, k)|
      && (Tidy(Log(head, parts, start, pace, ending, k), first) <==> Strays(parts, start, pace, k) == [])
    decreases k
  {
    if k == 1 {
      PlaceAtFirst(o, head, parts, start, pace, ending);
    } else {
      PlaceWhileEnding(o, head, parts, start, pace, ending, k - 1);
      LogGrows(head, parts, start, pace, ending, k);
      BetweenIsBody(parts, start, pace, k - 1);
      NextPlace(o, Log(head, parts, start, pace, ending, k - 1), Strays(parts, start, pace, k - 1),
        Between(parts, start, pace, k - 1), |BeforeEnding(head, parts, start, pace)|, ending, k);
    }
  }

  lemma BetweenIsBody(parts: seq<seq<Chunk>>, start: nat, pace: seq<nat>, k: nat)
    requires start <= |parts| && BodyParts(parts)
    ensures AllBody(Between(parts, start, pace, k))
  {
    PassedMore(|parts|, start, pace, k);
    SomeFlatIsBody(parts, Passed(|parts|, start, pace, k), Passed(|parts|, start, pace, k + 1));
  }

  /** One more frame, after what has strayed before it. */
  lemma {:induction false} NextPlace(o: Protocol, log: seq<Chunk>, strays: seq<Chunk>, body: seq<Chunk>, first: nat,
      ending: seq<Chunk>, k: nat)
    requires Ends(o, ending) && 2 <= k <= |ending| && first < |log| && AllBody(body)
    requires After(o, Begun, log) == if strays == [] then After(o, InBody, ending[..k - 1]) else Rejected
    requires Tidy(log, first) <==> strays == []
    ensures After(o, Begun, log + body + [ending[k - 1]])
      == if strays + body == [] then After(o, InBody, ending[..k]) else Rejected
    ensures Tidy(log + body + [ending[k - 1]], first) <==> strays + body == []
  {
    OnTheWayOut(o, ending, k - 1);
    AfterNext(o, InBody, ending, k);
    OneMoreFrame(o, log, body, ending[k - 1], first);
  }

  lemma {:induction false} AfterNext(o: Protocol, p: Place, chunks: seq<Chunk>, k: nat)
    requires 1 <= k <= |chunks|
    ensures After(o, p, chunks[..k]) == Next(o, After(o, p, chunks[..k - 1]), chunks[k - 1])
    ensures Next(o, Rejected, chunks[k - 1]) == Rejected
  {
    assert chunks[..k][..k - 1] == chunks[..k - 1];
  }

  lemma {:induction false} PlaceAtFirst(o: Protocol, head: seq<Chunk>, parts: seq<seq<Chunk>>, start: nat,
      pace: seq<nat>, ending: seq<Chunk>)
    requires start <= |parts| && BodyParts(parts) && Ends(o, ending) && After(o, Begun, head) == InBody
    ensures After(o, Begun, BeforeEnding(head, parts, start, pace)) == InBody
    ensures After(o, Begun, Log(head, parts, start, pace, ending, 1)) == After(o, InBody, ending[..1])
    ensures |Log(head, parts, start, pace, ending, 1)| == |BeforeEnding(head, parts, start, pace)| + 1
    ensures Strays(parts, start, pace, 1) == []
  {
    LogBegins(head, parts, start, pace, ending);
    PassedMore(|parts|, start, pace, 0);
    SomeFlatIsBody(parts, start, Passed(|parts|, start, pace, 1));
    AfterSplit(o, Begun, head, Between(parts, start, pace, 0));
    BodyStaysInBody(o, Between(parts, start, pace, 0));
    AfterSplit(o, Begun, BeforeEnding(head, parts, start, pace), [ending[0]]);
    assert ending[..1] == [ending[0]];
  }

  lemma {:induction false} OneMoreFrame(o: Protocol, log: seq<Chunk>, body: seq<Chunk>, frame: Chunk, first: nat)
    requires Closing(After(o, Begun, log)) && AllBody(body) && !IsBody(frame) && first < |log|
    ensures After(o, Begun, log + body + [frame])
      == if body == [] then Next(o, After(o, Begun, log), frame) else Rejected
    ensures Tidy(log + body + [frame], first) <==> Tidy(log, first) && body == []
  {
    AfterSplit(o, Begun, log + body, [frame]);
    AfterOne(o, After(o, Begun, log + body), frame);
    TidyMore(log + body, [frame], first);
    TidyBody(log, body, first);
    if body == [] {
      assert log + body == log;
    } else {
      AfterSplit(o, Begun, log, body);
      BodySpoilsEnding(o, After(o, Begun, log), body);
    }
  }

  /** A beginning of the stream that reaches beyond its first ending frame: so many frames, and part of what the
      handler writes behind the last of them. */
  lemma CutWhileEnding(head: seq<Chunk>, parts: seq<seq<Chunk>>, start: nat, pace: seq<nat>, ending: seq<Chunk>,
      upTo: nat, m: nat)
    returns (k: nat, body: seq<Chunk>)
    requires start <= |parts| && BodyParts(parts) && 1 <= upTo <= |ending|
    requires |Log(head, parts, start, pace, ending, 1)| <= m <= |Log(head, parts, start, pace, ending, upTo)|
    ensures 1 <= k <= upTo && AllBody(body)
    ensures Log(head, parts, start, pace, ending, upTo)[..m] == Log(head, parts, start, pace, ending, k) + body
    ensures k == upTo <==> m == |Log(head, parts, start, pace, ending, upTo)|
    decreases upTo
  {
    var log := Log(head, parts, start, pace, ending, upTo);
    if m == |log| {
      k, body := upTo, [];
    } else {
      LogGrows(head, parts, start, pace, ending, upTo);
      var front := Log(head, parts, start, pace, ending, upTo - 1);
      BetweenIsBody(parts, start, pace, upTo - 1);
      CutThree(front, Between(parts, start, pace, upTo - 1), ending[upTo - 1], m);
      if m >= |front| {
        k, body := upTo - 1, Between(parts, start, pace, upTo - 1)[..m - |front|];
      } else {
        k, body := CutWhileEnding(head, parts, start, pace, ending, upTo - 1, m);
      }
    }
  }

  lemma CutThree(front: seq<Chunk>, body: seq<Chunk>, frame: Chunk, m: nat)
    requires m < |front + body + [frame]|
    ensures m >= |front| ==> (front + body + [frame])[..m] == front + body[..m - |front|]
    ensures m < |front| ==> (front + body + [frame])[..m] == front[..m]
  {
  }

  /** The same for the whole stream. */
  lemma CutEnded(head: seq<Chunk>, parts: seq<seq<Chunk>>, start: nat, pace: seq<nat>, ending: seq<Chunk>, m: nat)
    returns (k: nat, body: seq<Chunk>)
    requires start <= |parts| && BodyParts(parts) && ending != []
    requires |Log(head, parts, start, pace, ending, 1)| <= m <= |Ended(head, parts, start, pace, ending)|
    ensures 1 <= k <= |ending| && AllBody(body)
    ensures Ended(head, parts, start, pace, ending)[..m] == Log(head, parts, start, pace, ending, k) + body
    ensures k == |ending| <==> m >= |head + Woven(parts, start, pace, ending)|
  {
    var log := head + Woven(parts, start, pace, ending);
    assert ending[..|ending|] == ending;
    if m >= |log| {
      SomeFlatIsBody(parts, Passed(|parts|, start, pace, |ending|), |parts|);
      assert parts[Passed(|parts|, start, pace, |ending|)..|parts|] == parts[Passed(|parts|, start, pace, |ending|)..];
      k, body := |ending|, Rest(parts, start, pace, |ending|)[..m - |log|];
    } else {
      k, body := CutWhileEnding(head, parts, start, pace, ending, |ending|, m);
      assert Ended(head, parts, start, pace, ending)[..m] == log[..m];
    }
  }

  // ---------- The gateway's streams ----------

  /** The handler writes nothing but text and extensions; in particular no reasoning ever goes into a reasoning
      delta of the OpenAI protocol. */
  lemma PartsAreBody(o: Options, events: seq<SdkEvent>)
    ensures BodyParts(Parts(o, events))
  {
    forall i | 0 <= i < |events| ensures AllBody(Parts(o, events)[i]) {
      EventIsBody(o, Folded(events[..i]), events[i]);
    }
  }

  lemma EventIsBody(o: Options, b: Buffers, e: SdkEvent)
    ensures AllBody(ChunksOf(o, Dispatched(b, e)))
  {
    assert TrimSpace("") == "";
  }

  lemma OpeningOpens(o: Options)
    ensures After(o.protocol, Begun, Opening(o)) == InBody
  {
    AfterOne(OpenAI, Begun, Role);
    AfterThree(Claude, Begun, MessageStart, BlockStart, MessageStop);
  }

  lemma EndingCompletes(o: Options, usage: Usage)
    ensures After(o.protocol, InBody, Ending(o, usage)) == Complete
  {
    if o.protocol == Claude {
      AfterThree(Claude, InBody, BlockStop, MessageEnd(usage), MessageStop);
    } else if o.includeUsage {
      assert Ending(o, usage) == [Finish, UsageChunk(usage), DoneMark];
      AfterThree(OpenAI, InBody, Finish, UsageChunk(usage), DoneMark);
    } else {
      assert Ending(o, usage) == [Finish, DoneMark];
      AfterThree(OpenAI, InBody, Finish, DoneMark, DoneMark);
    }
  }

  lemma FailureCompletes(o: Options)
    ensures After(o.protocol, InBody, FailureEnding(o)) == Complete
  {
    if o.protocol == OpenAI {
      AfterThree(OpenAI, InBody, Failure, DoneMark, DoneMark);
    } else {
      AfterThree(Claude, InBody, Failure, BlockStop, MessageStop);
    }
  }

  lemma EndingEnds(o: Options, events: seq<SdkEvent>, x: Overlap, outcome: Outcome)
    requires Fits(events, x)
    ensures Ends(o.protocol, EndingOf(o, events, x, outcome)) && FramesOnly(EndingOf(o, events, x, outcome))
  {
    if outcome == IdleFirst {
      SuccessEnds(o, FinalUsage(o, events, x));
    } else {
      FailureEnds(o);
    }
  }

  lemma SuccessEnds(o: Options, usage: Usage)
    ensures Ends(o.protocol, Ending(o, usage))
  {
    EndingCompletes(o, usage);
  }

  lemma FailureEnds(o: Options)
    ensures Ends(o.protocol, FailureEnding(o))
  {
    FailureCompletes(o);
  }

  lemma HeadIsBody(o: Options, events: seq<SdkEvent>, x: Overlap)
    requires Fits(events, x)
    ensures After(o.protocol, Begun, Head(o, events, x)) == InBody
  {
    PartsAreBody(o, events);
    SomeFlatIsBody(Parts(o, events), 0, x.written);
    OpeningOpens(o);
    BodyStaysInBody(o.protocol, Flat(Parts(o, events)[..x.written]));
    AfterSplit(o.protocol, Begun, Opening(o), Flat(Parts(o, events)[..x.written]));
  }

  /** The place of the first ending frame. */
  function FirstEnding(o: Options, events: seq<SdkEvent>, x: Overlap): nat
    requires Fits(events, x)
  {
    |BeforeEnding(Head(o, events, x), Parts(o, events), x.written, x.pace)|
  }

  /** What comes before the end of a stream is neither complete nor beyond repair. */
  lemma {:induction false} BeforeTheEnd(o: Protocol, head: seq<Chunk>, ending: seq<Chunk>, m: nat)
    requires After(o, Begun, head) == InBody && Ends(o, ending) && m <= |head|
    ensures After(o, Begun, head[..m]) != Rejected && After(o, Begun, head[..m]) != Complete
  {
    var place := After(o, Begun, head[..m]);
    assert head == head[..m] + head[m..];
    AfterSplit(o, Begun, head[..m], head[m..]);
    if (place == Complete || place == Rejected) && head[m..] != [] {
      NothingFollows(o, place, head[m..]);
    }
  }

  /** Wherever the connection breaks: what the client holds can be completed to a sentence of its protocol if and
      only if nothing that the handler writes has arrived behind the first ending frame; and it is a sentence if and
      only if, besides, the last ending frame has arrived. */
  lemma ClientHoldsPrefixIff(o: Options, events: seq<SdkEvent>, x: Overlap, outcome: Outcome, budget: nat)
    requires Fits(events, x)
    ensures var held := Reached(budget, Whole(o, events, x, outcome));
      var place := After(o.protocol, Begun, held);
      var ended := Head(o, events, x) + Woven(Parts(o, events), x.written, x.pace, EndingOf(o, events, x, outcome));
      && (place != Rejected <==> Tidy(held, FirstEnding(o, events, x)))
      && (place == Complete <==> Tidy(held, FirstEnding(o, events, x)) && |ended| <= budget)
  {
    PartsAreBody(o, events);
    HeadIsBody(o, events, x);
    EndingEnds(o, events, x, outcome);
    EndedPrefixIff(o.protocol, Head(o, events, x), Parts(o, events), x.written, x.pace, EndingOf(o, events, x, outcome),
      budget);
  }

  lemma {:induction false} EndedPrefixIff(o: Protocol, head: seq<Chunk>, parts: seq<seq<Chunk>>, start: nat,
      pace: seq<nat>, ending: seq<Chunk>, budget: nat)
    requires start <= |parts| && BodyParts(parts) && Ends(o, ending) && After(o, Begun, head) == InBody
    ensures var held := Reached(budget, Ended(head, parts, start, pace, ending));
      var place := After(o, Begun, held);
      var first := |BeforeEnding(head, parts, start, pace)|;
      && (place != Rejected <==> Tidy(held, first))
      && (place == Complete <==> Tidy(held, first) && |head + Woven(parts, start, pace, ending)| <= budget)
  {
    var whole := Ended(head, parts, start, pace, ending);
    var m := if budget < |whole| then budget else |whole|;
    assert Reached(budget, whole) == whole[..m];
    EndedBegins(head, parts, start, pace, ending);
    if m <= |BeforeEnding(head, parts, start, pace)| {
      HeldBeforeEnding(o, head, parts, start, pace, ending, m);
    } else {
      var k, body := CutEnded(head, parts, start, pace, ending, m);
      PlaceWhileEnding(o, head, parts, start, pace, ending, k);
      HeldWhileEnding(o, Log(head, parts, start, pace, ending, k), body, |BeforeEnding(head, parts, start, pace)|,
        ending, k);
    }
  }

  lemma {:induction false} EndedBegins(head: seq<Chunk>, parts: seq<seq<Chunk>>, start: nat, pace: seq<nat>,
      ending: seq<Chunk>)
    requires start <= |parts| && ending != []
    ensures BeforeEnding(head, parts, start, pace) <= head + Woven(parts, start, pace, ending)
    ensures |Log(head, parts, start, pace, ending, 1)| == |BeforeEnding(head, parts, start, pace)| + 1
    ensures |head + Woven(parts, start, pace, ending)| > |BeforeEnding(head, parts, start, pace)|
  {
    WovenStarts(parts, start, pace, ending, 1);
    LogBegins(head, parts, start, pace, ending);
  }

  lemma {:induction false} HeldBeforeEnding(o: Protocol, head: seq<Chunk>, parts: seq<seq<Chunk>>, start: nat,
      pace: seq<nat>, ending: seq<Chunk>, m: nat)
    requires start <= |parts| && BodyParts(parts) && Ends(o, ending) && After(o, Begun, head) == InBody
    requires m <= |BeforeEnding(head, parts, start, pace)| <= |Ended(head, parts, start, pace, ending)|
    ensures var place := After(o, Begun, Ended(head, parts, start, pace, ending)[..m]);
      place != Rejected && place != Complete
  {
    EndedBegins(head, parts, start, pace, ending);
    PlaceAtFirst(o, head, parts, start, pace, ending);
    assert Ended(head, parts, start, pace, ending)[..m] == BeforeEnding(head, parts, start, pace)[..m];
    BeforeTheEnd(o, BeforeEnding(head, parts, start, pace), ending, m);
  }

  lemma {:induction false} HeldWhileEnding(o: Protocol, log: seq<Chunk>, body: seq<Chunk>, first: nat,
      ending: seq<Chunk>, k: nat)
    requires Ends(o, ending) && 1 <= k <= |ending| && AllBody(body) && first < |log|
    requires After(o, Begun, log) == if Tidy(log, first) then After(o, InBody, ending[..k]) else Rejected
    ensures After(o, Begun, log + body) != Rejected <==> Tidy(log + body, first)
    ensures After(o, Begun, log + body) == Complete <==> Tidy(log + body, first) && k == |ending|
  {
    OnTheWayOut(o, ending, k);
    TidyBody(log, body, first);
    if body == [] {
      assert log + body == log;
    } else {
      AfterSplit(o, Begun, log, body);
      BodySpoilsEnding(o, After(o, Begun, log), body);
    }
  }

  /** The whole stream is a sentence of its protocol if and only if no handler call that ends behind the first ending
      frame writes anything; otherwise nothing can repair it. */
  lemma {:induction false} WholeIsCompleteIff(o: Options, events: seq<SdkEvent>, x: Overlap, outcome: Outcome)
    requires Fits(events, x)
    ensures var late := Flat(Parts(o, events)[Passed(|events|, x.written, x.pace, 1)..]);
      After(o.protocol, Begun, Whole(o, events, x, outcome)) == if late == [] then Complete else Rejected
  {
    var head, parts, ending := Head(o, events, x), Parts(o, events), EndingOf(o, events, x, outcome);
    PartsAreBody(o, events);
    HeadIsBody(o, events, x);
    EndingEnds(o, events, x, outcome);
    PlaceAtEnd(o.protocol, head, parts, x.written, x.pace, ending);
  }

  lemma {:induction false} PlaceAtEnd(o: Protocol, head: seq<Chunk>, parts: seq<seq<Chunk>>, start: nat, pace: seq<nat>,
      ending: seq<Chunk>)
    requires start <= |parts| && BodyParts(parts) && Ends(o, ending) && After(o, Begun, head) == InBody
    ensures After(o, Begun, Ended(head, parts, start, pace, ending))
      == if Flat(parts[Passed(|parts|, start, pace, 1)..]) == [] then Complete else Rejected
  {
    var n, k := |parts|, |ending|;
    var log, rest := Log(head, parts, start, pace, ending, k), Rest(parts, start, pace, k);
    assert ending[..k] == ending;
    PlaceWhileEnding(o, head, parts, start, pace, ending, k);
    OnTheWayOut(o, ending, k);
    FlatSplit([], parts, Passed(n, start, pace, 1), StraysEnd(parts, start, pace, k), n);
    assert parts[Passed(n, start, pace, k)..n] == parts[Passed(n, start, pace, k)..];
    assert parts[Passed(n, start, pace, 1)..n] == parts[Passed(n, start, pace, 1)..];
    SomeFlatIsBody(parts, Passed(n, start, pace, k), n);
    AfterSplit(o, Begun, log, rest);
    if rest == [] {
      assert log + rest == log;
    } else {
      BodySpoilsEnding(o, After(o, Begun, log), rest);
    }
  }

  /** When every handler call is over before Send makes up its mind, the ending follows what they wrote. */
  lemma WholeApart(o: Options, events: seq<SdkEvent>, outcome: Outcome)
    ensures Whole(o, events, NoOverlap(events), outcome)
      == Opening(o) + Flat(Parts(o, events)) + EndingOf(o, events, NoOverlap(events), outcome)
    ensures After(o.protocol, Begun, Whole(o, events, NoOverlap(events), outcome)) == Complete
  {
    var x, parts := NoOverlap(events), Parts(o, events);
    WovenApart(parts, x.written, x.pace, EndingOf(o, events, x, outcome));
    assert parts[..|events|] == parts && parts[|events|..] == [];
    WholeIsCompleteIff(o, events, x, outcome);
  }

  /** A delta that is being handled when the context of the send ends, and is written between the failure and the end
      of the stream: whatever the text, no client of the protocol can make sense of the stream. */
  lemma TextAfterFailure(o: Options, text: string) returns (x: Overlap)
    requires text != "" && o.protocol == OpenAI
    ensures Fits([MessageDelta(text)], x) && x.absorbed == 1 && x.written == 0
    ensures Whole(o, [MessageDelta(text)], x, ContextEnded) == [Role, Failure, Text(text), DoneMark]
    ensures After(OpenAI, Begun, Whole(o, [MessageDelta(text)], x, ContextEnded)) == Rejected
  {
    var events := [MessageDelta(text)];
    x := Overlap(1, 0, 0, [0, 1]);
    assert Passed(1, 0, [0, 1], 1) == 0 && Passed(1, 0, [0, 1], 2) == 1;
    OnePart(o, text);
    WovenTwo(Parts(o, events), 0, [0, 1], Failure, DoneMark);
    WholeIsCompleteIff(o, events, x, ContextEnded);
  }

  lemma OnePart(o: Options, text: string)
    requires text != ""
    ensures Parts(o, [MessageDelta(text)]) == [[Text(text)]]
    ensures Flat([[Text(text)]]) == [Text(text)] && Flat<Chunk>([]) == []
  {
    assert [[Text(text)]][..0] == [];
  }

  lemma {:induction false} WovenTwo(parts: seq<seq<Chunk>>, start: nat, pace: seq<nat>, a: Chunk, b: Chunk)
    requires start <= |parts|
    ensures Woven(parts, start, pace, [a, b])
      == Between(parts, start, pace, 0) + [a] + Between(parts, start, pace, 1) + [b]
  {
    assert [a, b][..1] == [a] && [a][..0] == [];
    assert Woven(parts, start, pace, [a]) == Between(parts, start, pace, 0) + [a];
  }

  // ---------- What the client reads as the answer ----------

  function Streamed(chunks: seq<Chunk>): string {
    if chunks == [] then ""
    else Streamed(chunks[..|chunks| - 1]) + if chunks[|chunks| - 1].Text? then chunks[|chunks| - 1].text else ""
  }

  lemma {:induction false} StreamedSplit(a: seq<Chunk>, b: seq<Chunk>)
    ensures Streamed(a + b) == Streamed(a) + Streamed(b)
  {
    if b == [] {
      assert a + b == a;
    } else {
      assert (a + b)[..|a + b| - 1] == a + b[..|b| - 1];
      StreamedSplit(a, b[..|b| - 1]);
    }
  }

  lemma {:induction false} NoTextStreamed(chunks: seq<Chunk>)
    requires forall i :: 0 <= i < |chunks| ==> !chunks[i].Text?
    ensures Streamed(chunks) == ""
  {
    if chunks != [] {
      NoTextStreamed(chunks[..|chunks| - 1]);
    }
  }

  /** What the handler wrote, without the frames around it. */
  function Bodies(chunks: seq<Chunk>): seq<Chunk> {
    if chunks == [] then []
    else Bodies(chunks[..|chunks| - 1]) + if IsBody(chunks[|chunks| - 1]) then [chunks[|chunks| - 1]] else []
  }

  lemma {:induction false} BodiesSplit(a: seq<Chunk>, b: seq<Chunk>)
    ensures Bodies(a + b) == Bodies(a) + Bodies(b)
  {
    if b == [] {
      assert a + b == a;
    } else {
      assert (a + b)[..|a + b| - 1] == a + b[..|b| - 1];
      BodiesSplit(a, b[..|b| - 1]);
    }
  }

  lemma {:induction false} BodiesOfBody(chunks: seq<Chunk>)
    ensures AllBody(chunks) ==> Bodies(chunks) == chunks
    ensures (forall i :: 0 <= i < |chunks| ==> !IsBody(chunks[i])) ==> Bodies(chunks) == []
  {
    if chunks != [] {
      BodiesOfBody(chunks[..|chunks| - 1]);
    }
  }

  lemma {:induction false} BodiesWoven(parts: seq<seq<Chunk>>, start: nat, pace: seq<nat>, frames: seq<Chunk>)
    requires start <= |parts| && BodyParts(parts) && FramesOnly(frames)
    ensures Bodies(Woven(parts, start, pace, frames)) == Flat(parts[start..Passed(|parts|, start, pace, |frames|)])
  {
    if frames != [] {
      var k := |frames| - 1;
      BodiesWoven(parts, start, pace, frames[..k]);
      PassedMore(|parts|, start, pace, k);
      SomeFlatIsBody(parts, Passed(|parts|, start, pace, k), Passed(|parts|, start, pace, k + 1));
      BodiesOfBody(Between(parts, start, pace, k));
      BodiesOfBody([frames[k]]);
      BodiesSplit(Woven(parts, start, pace, frames[..k]) + Between(parts, start, pace, k), [frames[k]]);
      BodiesSplit(Woven(parts, start, pace, frames[..k]), Between(parts, start, pace, k));
      FlatSplit([], parts, start, Passed(|parts|, start, pace, k), Passed(|parts|, start, pace, k + 1));
    }
  }

  /** Whichever calls overlap the ending, what the handler writes is in the stream once and in order. */
  lemma BodiesOfWhole(o: Options, events: seq<SdkEvent>, x: Overlap, outcome: Outcome)
    requires Fits(events, x)
    ensures Bodies(Whole(o, events, x, outcome)) == Flat(Parts(o, events))
  {
    var parts, ending := Parts(o, events), EndingOf(o, events, x, outcome);
    PartsAreBody(o, events);
    EndingEnds(o, events, x, outcome);
    OpeningFrames(o);
    BodiesEnded(Opening(o), parts, x.written, x.pace, ending);
  }

  lemma OpeningFrames(o: Options)
    ensures FramesOnly(Opening(o))
  {
  }

  lemma {:induction false} BodiesEnded(opening: seq<Chunk>, parts: seq<seq<Chunk>>, start: nat, pace: seq<nat>,
      ending: seq<Chunk>)
    requires start <= |parts| && BodyParts(parts) && FramesOnly(opening) && FramesOnly(ending)
    ensures Bodies(Ended(opening + Flat(parts[..start]), parts, start, pace, ending)) == Flat(parts)
  {
    var n := |parts|;
    var to := Passed(n, start, pace, |ending|);
    var head, woven := Flat(parts[..start]), Woven(parts, start, pace, ending);
    var rest := Rest(parts, start, pace, |ending|);
    BodiesSplit(opening + head + woven, rest);
    BodiesSplit(opening + head, woven);
    BodiesSplit(opening, head);
    BodiesWoven(parts, start, pace, ending);
    SomeFlatIsBody(parts, 0, start);
    SomeFlatIsBody(parts, to, n);
    assert parts[to..n] == parts[to..] && parts[0..start] == parts[..start] && parts[0..n] == parts;
    BodiesOfBody(opening);
    BodiesOfBody(head);
    BodiesOfBody(rest);
    FlatSplit([], parts, 0, start, to);
    FlatSplit([], parts, 0, to, n);
  }

  lemma {:induction false} StreamedBodies(chunks: seq<Chunk>)
    ensures Streamed(Bodies(chunks)) == Streamed(chunks)
  {
    if chunks != [] {
      var front, last := chunks[..|chunks| - 1], chunks[|chunks| - 1];
      StreamedBodies(front);
      StreamedSplit(Bodies(front), if IsBody(last) then [last] else []);
      assert [last][..0] == [];
    }
  }

  lemma PartsNext(o: Options, events: seq<SdkEvent>)
    requires events != []
    ensures var front, last := events[..|events| - 1], events[|events| - 1];
      Flat(Parts(o, events)) == Flat(Parts(o, front)) + ChunksOf(o, Dispatched(Folded(front), last))
  {
    PartsPrefix(o, events, |events| - 1);
  }

  lemma PartsPrefix(o: Options, events: seq<SdkEvent>, n: nat)
    requires n <= |events|
    ensures Parts(o, events[..n]) == Parts(o, events)[..n]
  {
    forall i | 0 <= i < n ensures Parts(o, events[..n])[i] == Parts(o, events)[i] {
      assert events[..n][..i] == events[..i];
    }
  }

  lemma {:induction false} PartsStreamContent(o: Options, events: seq<SdkEvent>)
    ensures Streamed(Flat(Parts(o, events))) == Folded(events).content
  {
    if events != [] {
      var front, last := events[..|events| - 1], events[|events| - 1];
      PartsStreamContent(o, front);
      PartsNext(o, events);
      StreamedSplit(Flat(Parts(o, front)), ChunksOf(o, Dispatched(Folded(front), last)));
      EventStreamsDelta(o, Folded(front), last);
    }
  }

  lemma EventStreamsDelta(o: Options, b: Buffers, e: SdkEvent)
    ensures Absorbed(b, e).content == b.content + Streamed(ChunksOf(o, Dispatched(b, e)))
  {
    if e.MessageDelta? && e.text != "" {
      assert [Text(e.text)][..0] == [];
    } else {
      assert TrimSpace("") == "";
      NoTextStreamed(ChunksOf(o, Dispatched(b, e)));
    }
  }

  /** The streamed text is the deltas put together; a successful answer is that text exactly when no complete message
      came before the answer was made up and no text after, or the last complete message repeats all deltas, those
      after the answer included. */
  lemma {:induction false} StreamedIsAnswerIff(o: Options, events: seq<SdkEvent>, x: Overlap)
    requires Fits(events, x)
    ensures Streamed(Whole(o, events, x, IdleFirst)) == Deltas(events)
    ensures var final := LastMessage(events[..x.absorbed]);
      Streamed(Whole(o, events, x, IdleFirst)) == AnswerOf(Folded(events[..x.absorbed])).content <==>
      if final == "" then Deltas(events[x.absorbed..]) == "" else final == Deltas(events)
  {
    StreamedIsDeltas(o, events, x, IdleFirst);
    AnswerIsTold(events[..x.absorbed]);
    DeltasCut(events, x.absorbed);
  }

  lemma {:induction false} StreamedIsDeltas(o: Options, events: seq<SdkEvent>, x: Overlap, outcome: Outcome)
    requires Fits(events, x)
    ensures Streamed(Whole(o, events, x, outcome)) == Deltas(events)
  {
    BodiesOfWhole(o, events, x, outcome);
    StreamedBodies(Whole(o, events, x, outcome));
    PartsStreamContent(o, events);
    CollectedIsTold(events);
  }

  lemma {:induction false} DeltasCut(events: seq<SdkEvent>, n: nat)
    requires n <= |events|
    ensures Deltas(events) == Deltas(events[..n]) + Deltas(events[n..])
  {
    assert events[..n] + events[n..] == events;
    DeltasSplit(events[..n], events[n..]);
  }

  /** Reasoning never appears as reasoning deltas, in either protocol. */
  lemma ReasoningIsNotMirrored(o: Options, events: seq<SdkEvent>, x: Overlap, outcome: Outcome)
    requires Fits(events, x)
    ensures forall c :: c in Whole(o, events, x, outcome) ==> !c.Reasoning?
  {
    PartsAreBody(o, events);
    EndingEnds(o, events, x, outcome);
    OpeningFrames(o);
    EndedUnmirrored(Opening(o), Parts(o, events), x.written, x.pace, EndingOf(o, events, x, outcome));
  }

  lemma EndedUnmirrored(opening: seq<Chunk>, parts: seq<seq<Chunk>>, start: nat, pace: seq<nat>, ending: seq<Chunk>)
    requires start <= |parts| && BodyParts(parts) && FramesOnly(opening) && FramesOnly(ending)
    ensures forall c :: c in Ended(opening + Flat(parts[..start]), parts, start, pace, ending) ==> !c.Reasoning?
  {
    var to := Passed(|parts|, start, pace, |ending|);
    WovenUnmirrored(parts, start, pace, ending);
    SomeFlatIsBody(parts, 0, start);
    SomeFlatIsBody(parts, to, |parts|);
    assert parts[0..start] == parts[..start] && parts[to..|parts|] == parts[to..];
  }

  lemma {:induction false} WovenUnmirrored(parts: seq<seq<Chunk>>, start: nat, pace: seq<nat>, frames: seq<Chunk>)
    requires start <= |parts| && BodyParts(parts) && FramesOnly(frames)
    ensures forall c :: c in Woven(parts, start, pace, frames) ==> !c.Reasoning?
  {
    if frames != [] {
      var k := |frames| - 1;
      WovenUnmirrored(parts, start, pace, frames[..k]);
      PassedMore(|parts|, start, pace, k);
      SomeFlatIsBody(parts, Passed(|parts|, start, pace, k), Passed(|parts|, start, pace, k + 1));
    }
  }

  // ---------- Runtime events ----------

  function Extensions(chunks: seq<Chunk>): seq<string> {
    if chunks == [] then []
    else
      Extensions(chunks[..|chunks| - 1])
        + if chunks[|chunks| - 1].Extension? then [chunks[|chunks| - 1].body] else []
  }

  /** The runtime events a request asked to see. */
  function Wanted(o: Options, events: seq<Runtime>): seq<string> {
    if events == [] then []
    else
      var last := events[|events| - 1];
      Wanted(o, events[..|events| - 1]) +
      if o.includeRuntimeEvents || (o.includeReasoning && last.reasoning) then [last.body] else []
  }

  lemma {:induction false} ExtensionsSplit(a: seq<Chunk>, b: seq<Chunk>)
    ensures Extensions(a + b) == Extensions(a) + Extensions(b)
  {
    if b == [] {
      assert a + b == a;
    } else {
      assert (a + b)[..|a + b| - 1] == a + b[..|b| - 1];
      ExtensionsSplit(a, b[..|b| - 1]);
    }
  }

  lemma {:induction false} NoExtensions(chunks: seq<Chunk>)
    requires forall i :: 0 <= i < |chunks| ==> !chunks[i].Extension?
    ensures Extensions(chunks) == []
  {
    if chunks != [] {
      NoExtensions(chunks[..|chunks| - 1]);
    }
  }

  lemma {:induction false} ExtensionsOfBodies(chunks: seq<Chunk>)
    ensures Extensions(Bodies(chunks)) == Extensions(chunks)
  {
    if chunks != [] {
      var front, last := chunks[..|chunks| - 1], chunks[|chunks| - 1];
      ExtensionsOfBodies(front);
      ExtensionsSplit(Bodies(front), if IsBody(last) then [last] else []);
      assert [last][..0] == [];
    }
  }

  lemma {:induction false} WantedMore(o: Options, events: seq<Runtime>, e: Runtime)
    ensures Wanted(o, events + [e]) ==
      Wanted(o, events) + if o.includeRuntimeEvents || (o.includeReasoning && e.reasoning) then [e.body] else []
  {
    assert (events + [e])[..|events|] == events;
  }

  /** Events with a runtime part become extensions, if at all, and nothing else. */
  lemma RuntimeChunks(o: Options, b: Buffers, e: SdkEvent)
    ensures var d := Dispatched(b, e);
      && (d.Some? && d.value.runtime.Some? ==>
            && ChunksOf(o, d) == ExtensionOf(o, d.value)
            && Absorbed(b, e).runtimeEvents == b.runtimeEvents + [Runtime(!e.Note?, d.value.runtime.value)])
      && (!(d.Some? && d.value.runtime.Some?) ==>
            && Absorbed(b, e).runtimeEvents == b.runtimeEvents
            && forall i :: 0 <= i < |ChunksOf(o, d)| ==> !ChunksOf(o, d)[i].Extension?)
  {
    assert TrimSpace("") == "";
  }

  lemma OneExtension(body: string)
    ensures Extensions([Extension(body)]) == [body]
  {
    assert [Extension(body)][..0] == [];
  }

  lemma {:induction false} EventExtends(o: Options, b: Buffers, e: SdkEvent)
    ensures Wanted(o, Absorbed(b, e).runtimeEvents)
      == Wanted(o, b.runtimeEvents) + Extensions(ChunksOf(o, Dispatched(b, e)))
  {
    var d := Dispatched(b, e);
    RuntimeChunks(o, b, e);
    if d.Some? && d.value.runtime.Some? {
      WantedMore(o, b.runtimeEvents, Runtime(!e.Note?, d.value.runtime.value));
      OneExtension(d.value.runtime.value);
    } else {
      NoExtensions(ChunksOf(o, d));
    }
  }

  lemma {:induction false} PartsExtend(o: Options, events: seq<SdkEvent>)
    ensures Extensions(Flat(Parts(o, events))) == Wanted(o, Folded(events).runtimeEvents)
  {
    if events != [] {
      var front, last := events[..|events| - 1], events[|events| - 1];
      PartsExtend(o, front);
      PartsNext(o, events);
      ExtensionsSplit(Flat(Parts(o, front)), ChunksOf(o, Dispatched(Folded(front), last)));
      EventExtends(o, Folded(front), last);
    }
  }

  /** The extensions in a stream are the runtime events of the answer, those that were asked for, all of them and in
      order, and after them those of the events that came after the answer was made up. */
  lemma {:induction false} ExtensionsAreRuntimeEvents(o: Options, events: seq<SdkEvent>, x: Overlap, outcome: Outcome)
    requires Fits(events, x)
    ensures Extensions(Whole(o, events, x, outcome))
      == Wanted(o, AnswerOf(Folded(events[..x.absorbed])).runtimeEvents)
           + Extensions(Flat(Parts(o, events)[x.absorbed..]))
  {
    BodiesOfWhole(o, events, x, outcome);
    ExtensionsOfBodies(Whole(o, events, x, outcome));
    PartsExtend(o, events[..x.absorbed]);
    PartsPrefix(o, events, x.absorbed);
    ExtensionsFlatSplit(Parts(o, events), x.absorbed);
  }

  lemma {:induction false} ExtensionsFlatSplit(parts: seq<seq<Chunk>>, n: nat)
    requires n <= |parts|
    ensures Extensions(Flat(parts)) == Extensions(Flat(parts[..n])) + Extensions(Flat(parts[n..]))
  {
    assert parts == parts[..n] + parts[n..];
    FlatJoin(parts[..n], parts[n..]);
    ExtensionsSplit(Flat(parts[..n]), Flat(parts[n..]));
  }

  // ---------- On the wire ----------

  /** Encoding a chunk yields a frame without line breaks in its payload, as JSON does. */
  ghost predicate CleanEncoder(encode: Chunk -> Sse.Frame) {
    forall c :: Sse.Clean(encode(c))
  }

  function Encoded(encode: Chunk -> Sse.Frame, chunks: seq<Chunk>): seq<Sse.Frame> {
    seq(|chunks|, i requires 0 <= i < |chunks| => encode(chunks[i]))
  }

  /** The bytes that arrive: what could be written in full, and part of the frame whose write failed. */
  function Wire(encode: Chunk -> Sse.Frame, budget: nat, cut: nat, chunks: seq<Chunk>): string
    requires budget < |chunks| ==> cut < |Sse.Render(encode(chunks[budget]))|
  {
    Sse.RenderAll(Encoded(encode, Reached(budget, chunks))) +
    if budget < |chunks| then Sse.Render(encode(chunks[budget]))[..cut] else ""
  }

  /** Parsing the bytes gives back exactly the frames that were written in full. */
  lemma ClientReadsReached(encode: Chunk -> Sse.Frame, budget: nat, cut: nat, chunks: seq<Chunk>)
    requires CleanEncoder(encode)
    requires budget < |chunks| ==> cut < |Sse.Render(encode(chunks[budget]))|
    ensures Sse.Parse(Wire(encode, budget, cut, chunks)) == Sse.Meanings(Encoded(encode, Reached(budget, chunks)))
  {
    var frames := Encoded(encode, Reached(budget, chunks));
    forall f | f in frames ensures Sse.Clean(f) {
      var i :| 0 <= i < |frames| && frames[i] == f;
    }
    if budget < |chunks| {
      Sse.ClientReadsFrames(frames, encode(chunks[budget]), cut);
    } else {
      Sse.ClientReadsFrames(frames, encode(DoneMark), 0);
      assert Sse.RenderAll(frames) + "" == Sse.RenderAll(frames);
    }
  }
}
