/** The frames around what the handler writes: which ones a stream has, in which order, and what they report. */
module StreamFrames {
  import opened Stream
  import opened Weaving
  import opened AnswerContent
  import opened StreamTheorems

  /** The chunks that are neither text nor extensions. */
  function Frames(chunks: seq<Chunk>): seq<Chunk> {
    if chunks == [] then []
    else Frames(chunks[..|chunks| - 1]) + if IsBody(chunks[|chunks| - 1]) then [] else [chunks[|chunks| - 1]]
  }

  lemma {:induction false} FramesSplit(a: seq<Chunk>, b: seq<Chunk>)
    ensures Frames(a + b) == Frames(a) + Frames(b)
  {
    if b == [] {
      assert a + b == a;
    } else {
      assert (a + b)[..|a + b| - 1] == a + b[..|b| - 1];
      FramesSplit(a, b[..|b| - 1]);
    }
  }

  lemma {:induction false} FramesOfFrames(chunks: seq<Chunk>)
    ensures AllBody(chunks) ==> Frames(chunks) == []
    ensures FramesOnly(chunks) ==> Frames(chunks) == chunks
  {
    if chunks != [] {
      FramesOfFrames(chunks[..|chunks| - 1]);
    }
  }

  lemma {:induction false} FramesWoven(parts: seq<seq<Chunk>>, start: nat, pace: seq<nat>, frames: seq<Chunk>)
    requires start <= |parts| && BodyParts(parts) && FramesOnly(frames)
    ensures Frames(Woven(parts, start, pace, frames)) == frames
  {
    if frames != [] {
      var k := |frames| - 1;
      FramesWoven(parts, start, pace, frames[..k]);
      BetweenIsBody(parts, start, pace, k);
      FramesOfFrames(Between(parts, start, pace, k));
      FramesOfFrames([frames[k]]);
      FramesSplit(Woven(parts, start, pace, frames[..k]) + Between(parts, start, pace, k), [frames[k]]);
      FramesSplit(Woven(parts, start, pace, frames[..k]), Between(parts, start, pace, k));
      assert frames == frames[..k] + [frames[k]];
    }
  }

  lemma {:induction false} FramesEnded(opening: seq<Chunk>, parts: seq<seq<Chunk>>, start: nat, pace: seq<nat>,
      ending: seq<Chunk>)
    requires start <= |parts| && BodyParts(parts) && FramesOnly(opening) && FramesOnly(ending)
    ensures Frames(Ended(opening + Flat(parts[..start]), parts, start, pace, ending)) == opening + ending
  {
    FramesWoven(parts, start, pace, ending);
    OutsideIsBody(parts, start, pace, |ending|);
    FramesOfFour(opening, Flat(parts[..start]), Woven(parts, start, pace, ending), Rest(parts, start, pace, |ending|));
  }

  lemma OutsideIsBody(parts: seq<seq<Chunk>>, start: nat, pace: seq<nat>, frames: nat)
    requires start <= |parts| && BodyParts(parts)
    ensures AllBody(Flat(parts[..start])) && AllBody(Rest(parts, start, pace, frames))
  {
    var to := Passed(|parts|, start, pace, frames);
    SomeFlatIsBody(parts, 0, start);
    SomeFlatIsBody(parts, to, |parts|);
    assert parts[0..start] == parts[..start] && parts[to..|parts|] == parts[to..];
  }

  lemma {:induction false} FramesOfFour(a: seq<Chunk>, b: seq<Chunk>, c: seq<Chunk>, d: seq<Chunk>)
    requires FramesOnly(a) && AllBody(b) && AllBody(d)
    ensures Frames(a + b + c + d) == a + Frames(c)
  {
    FramesOfFrames(a);
    FramesOfFrames(b);
    FramesOfFrames(d);
    FramesSplit(a, b);
    assert Frames(a + b) == a;
    FramesSplit(a + b, c);
    assert Frames(a + b + c) == a + Frames(c);
    FramesSplit(a + b + c, d);
  }

  /** An answer ends with the usage it used up, in the OpenAI protocol only if the request asked for it; anything else
      ends with a failure, and reports no usage. */
  function FramesFor(o: Options, answered: bool, usage: Usage): seq<Chunk> {
    match o.protocol
    case OpenAI =>
      if !answered then [Role, Failure, DoneMark]
      else if o.includeUsage then [Role, Finish, UsageChunk(usage), DoneMark]
      else [Role, Finish, DoneMark]
    case Claude =>
      if !answered then [MessageStart, BlockStart, Failure, BlockStop, MessageStop]
      else [MessageStart, BlockStart, BlockStop, MessageEnd(usage), MessageStop]
  }

  lemma AnsweredFrames(o: Options, usage: Usage)
    ensures Opening(o) + Ending(o, usage) == FramesFor(o, true, usage)
  {
  }

  lemma FailedFrames(o: Options, usage: Usage)
    ensures Opening(o) + FailureEnding(o) == FramesFor(o, false, usage)
  {
  }

  /** The frames of a stream, whatever is written among them: the same ones, in the same order. The usage is the one
      that the events report. */
  lemma {:induction false} FramesOfWhole(o: Options, events: seq<SdkEvent>, x: Overlap, outcome: Outcome)
    requires Fits(events, x)
    ensures Frames(Whole(o, events, x, outcome)) == FramesFor(o, outcome == IdleFirst, UsageTold(o, events, x))
  {
    PartsAreBody(o, events);
    EndingEnds(o, events, x, outcome);
    OpeningFrames(o);
    FramesEnded(Opening(o), Parts(o, events), x.written, x.pace, EndingOf(o, events, x, outcome));
    FinalUsageIsTold(o, events, x);
    AnsweredFrames(o, UsageTold(o, events, x));
    FailedFrames(o, UsageTold(o, events, x));
  }
}
