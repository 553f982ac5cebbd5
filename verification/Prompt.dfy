/** What a request sends upstream: the whole conversation as one text, or just its last user turn. */
module Prompt {
  import opened Prelude

  datatype Turn = Turn(role: string, content: string, attachments: seq<string>)

  datatype PromptError = NoTurns | FinalTurnNotUser

  function NormalizeRole(role: string): string {
    var r := ToLower(TrimSpace(role));
    if r == "system" || r == "developer" || r == "assistant" || r == "tool" then r else "user"
  }

  /** The names under which turns are shown. */
  const SPEAKERS := {"Assistant", "Developer", "System", "Tool", "User"}

  function DisplayRole(role: string): (d: string)
    ensures d in SPEAKERS
  {
    match NormalizeRole(role)
    case "assistant" => "Assistant"
    case "developer" => "Developer"
    case "system" => "System"
    case "tool" => "Tool"
    case _ => "User"
  }

  predicate IsUser(turn: Turn) {
    NormalizeRole(turn.role) == "user"
  }

  /** A turn is the user's unless its role, in any case and between any spaces, is one of the other four. */
  lemma SpeakerOf(turn: Turn)
    ensures var role := ToLower(TrimSpace(turn.role)); var shown := DisplayRole(turn.role);
      && (shown == "System" <==> role == "system") && (shown == "Developer" <==> role == "developer")
      && (shown == "Assistant" <==> role == "assistant") && (shown == "Tool" <==> role == "tool")
      && (IsUser(turn) <==> shown == "User")
      && (IsUser(turn) <==> role !in {"system", "developer", "assistant", "tool"})
  {
  }

  const INTRO := "Continue the following conversation and reply as the assistant.\n\n"
  const CUE := "Assistant:"
  const GAP := "\n\n"

  /** One entry of the rendered conversation. */
  function Entry(speaker: string, content: string): string {
    speaker + ": " + content + GAP
  }

  /** What of a turn the rendering shows. */
  datatype Line = Line(speaker: string, content: string)

  function Shown(turn: Turn): Line {
    Line(DisplayRole(turn.role), turn.content)
  }

  function ShownAll(turns: seq<Turn>): seq<Line> {
    seq(|turns|, i requires 0 <= i < |turns| => Shown(turns[i]))
  }

  function Render(lines: seq<Line>): string {
    if lines == [] then "" else Entry(lines[0].speaker, lines[0].content) + Render(lines[1..])
  }

  function Framed(intro: string, lines: seq<Line>, cue: string): string {
    intro + Render(lines) + cue
  }

  function FullPrompt(turns: seq<Turn>): string {
    Framed(INTRO, ShownAll(turns), CUE)
  }

  lemma {:induction false} RenderOneMore(lines: seq<Line>, line: Line)
    ensures Render(lines + [line]) == Render(lines) + Entry(line.speaker, line.content)
  {
    if lines == [] {
      assert lines + [line] == [line];
      assert Render([line]) == Entry(line.speaker, line.content) + Render([]);
    } else {
      assert (lines + [line])[1..] == lines[1..] + [line];
      RenderOneMore(lines[1..], line);
    }
  }

  lemma RenderNext(intro: string, lines: seq<Line>, i: nat)
    requires i < |lines|
    ensures intro + Render(lines[..i]) + Entry(lines[i].speaker, lines[i].content) == intro + Render(lines[..i + 1])
  {
    RenderOneMore(lines[..i], lines[i]);
    assert lines[..i + 1] == lines[..i] + [lines[i]];
  }

  method RenderFrom(intro: string, turns: seq<Turn>, cue: string) returns (prompt: string)
    ensures prompt == Framed(intro, ShownAll(turns), cue)
  {
    var builder := intro;
    ghost var lines := ShownAll(turns);
    var i := 0;
    while i < |turns|
      invariant 0 <= i <= |turns| && builder == intro + Render(lines[..i])
    {
      RenderNext(intro, lines, i);
      var line := Shown(turns[i]);
      builder := builder + Entry(line.speaker, line.content);
      i := i + 1;
    }
    assert lines[..i] == lines;
    prompt := builder + cue;
  }

  method BuildPrompt(turns: seq<Turn>) returns (prompt: string)
    ensures prompt == FullPrompt(turns)
  {
    prompt := RenderFrom(INTRO, turns, CUE);
  }

  function LatestUserTurn(turns: seq<Turn>): Result<Turn, PromptError> {
    if turns == [] then Err(NoTurns)
    else if !IsUser(turns[|turns| - 1]) then Err(FinalTurnNotUser)
    else Ok(turns[|turns| - 1])
  }

  function LatestUserPrompt(turns: seq<Turn>): Result<string, PromptError> {
    var last := LatestUserTurn(turns);
    if last.Ok? then Ok(last.value.content) else Err(last.error)
  }

  // ---------- Messages that read like several turns ----------

  /** Where a new entry begins inside the text. */
  function Mark(speaker: string): string {
    GAP + speaker + ": "
  }

  /** Names of speakers that can be told from what surrounds them. */
  ghost predicate Names(speakers: set<string>) {
    forall r :: r in speakers ==> r != "" && ':' !in r && '\n' !in r
  }

  ghost predicate ImitatesAt(speakers: set<string>, content: string, i: nat) {
    i <= |content| && exists r :: r in speakers && Mark(r) <= content[i..]
  }

  /** Somewhere inside the message a new turn seems to begin: a blank line, a speaker and a colon. */
  ghost predicate Imitates(speakers: set<string>, content: string) {
    exists i :: ImitatesAt(speakers, content, i)
  }

  ghost predicate Legible(speakers: set<string>, line: Line) {
    line.speaker in speakers && !Imitates(speakers, line.content)
  }

  ghost predicate AllLegible(speakers: set<string>, lines: seq<Line>) {
    forall i :: 0 <= i < |lines| ==> Legible(speakers, lines[i])
  }

  // ---------- A rendering of legible lines has only one reading ----------

  lemma FirstCut(d1: string, r1: string, d2: string, r2: string)
    requires ':' !in d1 && ':' !in d2
    requires d1 + ": " + r1 == d2 + ": " + r2
    ensures d1 == d2 && r1 == r2
  {
    var s := d1 + ": " + r1;
    assert s[|d1|] == ':' && s[|d2|] == ':';
    assert forall i :: 0 <= i < |d1| ==> s[i] == d1[i];
    assert forall i :: 0 <= i < |d2| ==> s[i] == d2[i];
    assert |d1| == |d2|;
    assert d1 == s[..|d1|] && d2 == s[..|d2|];
    assert r1 == s[|d1| + 2..] && r2 == s[|d2| + 2..];
  }

  /** What follows an entry: the closing cue, or the next entry. */
  ghost predicate GoesOn(speakers: set<string>, cue: string, rest: string) {
    rest == cue || (|rest| > |cue| && exists r :: r in speakers && r + ": " <= rest)
  }

  lemma MarkHasOneGap(r: string)
    requires '\n' !in r
    ensures forall j :: 2 <= j < |Mark(r)| ==> Mark(r)[j] != '\n'
  {
    var rest := r + ": ";
    assert Mark(r) == GAP + rest;
    assert forall j :: 0 <= j < |rest| ==> rest[j] != '\n';
  }

  /** Past the beginning of a mark there is no gap before its end. */
  lemma NoGapInMark(s: string, n: nat, k: nat, r: string)
    requires r != "" && '\n' !in r && n < k && k + 2 <= |s| && s[k] == '\n' && s[k + 1] == '\n'
    requires n + |Mark(r)| <= |s| && s[n..n + |Mark(r)|] == Mark(r)
    ensures n + |Mark(r)| <= k
  {
    var m := Mark(r);
    MarkHasOneGap(r);
    assert |m| >= 5;
    assert forall i :: n <= i < n + |m| ==> s[i] == s[n..n + |m|][i - n];
    assert forall i :: n + 2 <= i < n + |m| ==> s[i] != '\n';
  }

  /** If an entry ends in the middle of a longer message, the next one is imitated there. */
  lemma MarkInside(speakers: set<string>, c1: string, t1: string, c2: string, t2: string, r: string)
    requires Names(speakers) && r in speakers && r + ": " <= t1
    requires c1 + GAP + t1 == c2 + GAP + t2 && |c1| < |c2|
    ensures ImitatesAt(speakers, c2, |c1|)
  {
    var s, n := c1 + GAP + t1, |c1|;
    MarkFollows(c1, t1, r);
    assert s == c2 + GAP + t2 && s[|c2|] == '\n' && s[|c2| + 1] == '\n';
    NoGapInMark(s, n, |c2|, r);
    assert c2 == s[..|c2|];
    assert c2[n..][..|Mark(r)|] == s[n..n + |Mark(r)|];
  }

  lemma MarkFollows(c: string, t: string, r: string)
    requires r + ": " <= t
    ensures var s := c + GAP + t; |c| + |Mark(r)| <= |s| && s[|c|..|c| + |Mark(r)|] == Mark(r)
  {
    var rest := r + ": ";
    assert Mark(r) == GAP + rest;
    assert t == rest + t[|rest|..];
    assert c + GAP + t == c + (Mark(r) + t[|rest|..]);
  }

  lemma NotShorter(speakers: set<string>, cue: string, c1: string, t1: string, c2: string, t2: string)
    requires Names(speakers) && GoesOn(speakers, cue, t1) && GoesOn(speakers, cue, t2)
    requires c1 + GAP + t1 == c2 + GAP + t2 && !Imitates(speakers, c2)
    ensures |c1| >= |c2|
  {
    assert |c1 + GAP + t1| == |c1| + 2 + |t1| && |c2 + GAP + t2| == |c2| + 2 + |t2|;
    if t1 != cue {
      var r :| r in speakers && r + ": " <= t1;
      if |c1| < |c2| {
        MarkInside(speakers, c1, t1, c2, t2, r);
      }
    }
  }

  lemma MessageCut(speakers: set<string>, cue: string, c1: string, t1: string, c2: string, t2: string)
    requires Names(speakers) && GoesOn(speakers, cue, t1) && GoesOn(speakers, cue, t2)
    requires c1 + GAP + t1 == c2 + GAP + t2 && !Imitates(speakers, c1) && !Imitates(speakers, c2)
    ensures c1 == c2 && t1 == t2
  {
    NotShorter(speakers, cue, c1, t1, c2, t2);
    NotShorter(speakers, cue, c2, t2, c1, t1);
    var s := c1 + GAP + t1;
    assert c1 == s[..|c1|] && c2 == s[..|c2|];
    assert t1 == s[|c1| + 2..] && t2 == s[|c2| + 2..];
  }

  lemma {:induction false} RenderUncons(lines: seq<Line>, cue: string)
    requires lines != []
    ensures Render(lines) + cue == Entry(lines[0].speaker, lines[0].content) + (Render(lines[1..]) + cue)
  {
  }

  lemma {:induction false} RenderingGoesOn(speakers: set<string>, lines: seq<Line>, cue: string)
    requires AllLegible(speakers, lines)
    ensures GoesOn(speakers, cue, Render(lines) + cue)
  {
    if lines == [] {
      assert Render(lines) + cue == cue;
    } else {
      RenderUncons(lines, cue);
      var r := lines[0].speaker;
      assert Legible(speakers, lines[0]);
      assert Entry(r, lines[0].content) == (r + ": ") + (lines[0].content + GAP);
    }
  }

  ghost predicate GoesOnAfterColon(s: string) {
    exists i :: 0 <= i < |s| - 1 && s[i] == ':'
  }

  /** A rendered entry goes on after its first colon, the closing cue does not; so only the empty
      conversation renders to the cue alone. */
  lemma {:induction false} OnlyEmptyRendersToCue(lines: seq<Line>, cue: string)
    requires !GoesOnAfterColon(cue)
    ensures Render(lines) + cue == cue <==> lines == []
  {
    if lines != [] {
      var s := Render(lines) + cue;
      RenderUncons(lines, cue);
      assert s[|lines[0].speaker|] == ':' && |lines[0].speaker| < |s| - 1;
      assert GoesOnAfterColon(s);
    }
  }

  lemma EntryUncons(speakers: set<string>, cue: string, a: Line, ra: string, b: Line, rb: string)
    requires Names(speakers) && Legible(speakers, a) && Legible(speakers, b)
    requires GoesOn(speakers, cue, ra) && GoesOn(speakers, cue, rb)
    requires Entry(a.speaker, a.content) + ra == Entry(b.speaker, b.content) + rb
    ensures a == b && ra == rb
  {
    assert Entry(a.speaker, a.content) + ra == a.speaker + ": " + (a.content + GAP + ra);
    assert Entry(b.speaker, b.content) + rb == b.speaker + ": " + (b.content + GAP + rb);
    FirstCut(a.speaker, a.content + GAP + ra, b.speaker, b.content + GAP + rb);
    MessageCut(speakers, cue, a.content, ra, b.content, rb);
  }

  lemma {:induction false} RenderingTellsApart(speakers: set<string>, a: seq<Line>, b: seq<Line>, cue: string)
    requires Names(speakers) && !GoesOnAfterColon(cue)
    requires AllLegible(speakers, a) && AllLegible(speakers, b)
    requires Render(a) + cue == Render(b) + cue
    ensures a == b
  {
    OnlyEmptyRendersToCue(a, cue);
    OnlyEmptyRendersToCue(b, cue);
    if a != [] {
      RenderUncons(a, cue);
      RenderUncons(b, cue);
      assert AllLegible(speakers, a[1..]) && AllLegible(speakers, b[1..]);
      RenderingGoesOn(speakers, a[1..], cue);
      RenderingGoesOn(speakers, b[1..], cue);
      EntryUncons(speakers, cue, a[0], Render(a[1..]) + cue, b[0], Render(b[1..]) + cue);
      RenderingTellsApart(speakers, a[1..], b[1..], cue);
    }
  }

  lemma FramedTellsApart(speakers: set<string>, intro: string, a: seq<Line>, b: seq<Line>, cue: string)
    requires Names(speakers) && !GoesOnAfterColon(cue) && AllLegible(speakers, a) && AllLegible(speakers, b)
    requires Framed(intro, a, cue) == Framed(intro, b, cue)
    ensures a == b
  {
    assert Framed(intro, a, cue) == intro + (Render(a) + cue);
    assert Framed(intro, b, cue) == intro + (Render(b) + cue);
    assert (intro + (Render(a) + cue))[|intro|..] == Render(a) + cue;
    assert (intro + (Render(b) + cue))[|intro|..] == Render(b) + cue;
    RenderingTellsApart(speakers, a, b, cue);
  }

  // ---------- Dividing messages where they imitate a turn ----------

  /** A message with an imitated turn reads like two entries. */
  lemma CutEntry(speaker: string, content: string, other: string, rest: string)
    ensures Entry(speaker, content + Mark(other) + rest) == Entry(speaker, content) + Entry(other, rest)
  {
    assert content + (GAP + other + ": ") + rest + GAP == content + GAP + (other + ": " + rest + GAP);
    assert Entry(speaker, content + Mark(other) + rest) == speaker + ": " + (content + Mark(other) + rest + GAP);
    assert Entry(speaker, content) + Entry(other, rest)
      == speaker + ": " + (content + GAP + (other + ": " + rest + GAP));
  }

  ghost function FirstMark(speakers: set<string>, content: string, from: nat): (i: nat)
    requires exists k :: k >= from && ImitatesAt(speakers, content, k)
    ensures i >= from && ImitatesAt(speakers, content, i)
    ensures forall j :: from <= j < i ==> !ImitatesAt(speakers, content, j)
    decreases |content| + 1 - from
  {
    if ImitatesAt(speakers, content, from) then from
    else
      var k :| k >= from && ImitatesAt(speakers, content, k);
      assert k >= from + 1 && k <= |content|;
      FirstMark(speakers, content, from + 1)
  }

  ghost function MarkedAt(speakers: set<string>, content: string, i: nat): (r: string)
    requires ImitatesAt(speakers, content, i)
    ensures r in speakers && Mark(r) <= content[i..]
  {
    var r :| r in speakers && Mark(r) <= content[i..];
    r
  }

  /** A line divided at every place where it imitates a turn. */
  ghost function Divide(speakers: set<string>, line: Line): (r: seq<Line>)
    ensures r != []
    ensures !Imitates(speakers, line.content) <==> r == [line]
    ensures Imitates(speakers, line.content) ==> |r| > 1
    decreases |line.content|
  {
    if !Imitates(speakers, line.content) then [line]
    else
      var i := FirstMark(speakers, line.content, 0);
      var r := MarkedAt(speakers, line.content, i);
      [Line(line.speaker, line.content[..i])] + Divide(speakers, Line(r, line.content[i + |Mark(r)|..]))
  }

  ghost function DivideAll(speakers: set<string>, lines: seq<Line>): seq<Line> {
    if lines == [] then [] else Divide(speakers, lines[0]) + DivideAll(speakers, lines[1..])
  }

  lemma {:induction false} RenderJoin(a: seq<Line>, b: seq<Line>)
    ensures Render(a + b) == Render(a) + Render(b)
  {
    if a == [] {
      assert a + b == b;
    } else {
      assert (a + b)[1..] == a[1..] + b;
      RenderJoin(a[1..], b);
    }
  }

  lemma OneRendered(line: Line)
    ensures Render([line]) == Entry(line.speaker, line.content)
  {
    assert [line][1..] == [];
  }

  lemma SplitAtMark(content: string, i: nat, r: string)
    requires i <= |content| && Mark(r) <= content[i..]
    ensures content == content[..i] + Mark(r) + content[i + |Mark(r)|..]
  {
    assert content == content[..i] + content[i..];
    assert content[i..] == Mark(r) + content[i..][|Mark(r)|..];
    assert content[i..][|Mark(r)|..] == content[i + |Mark(r)|..];
  }

  lemma {:induction false} DivideRenders(speakers: set<string>, line: Line)
    ensures Render(Divide(speakers, line)) == Entry(line.speaker, line.content)
    decreases |line.content|
  {
    if !Imitates(speakers, line.content) {
      OneRendered(line);
    } else {
      var i := FirstMark(speakers, line.content, 0);
      var r := MarkedAt(speakers, line.content, i);
      var first, rest := Line(line.speaker, line.content[..i]), Line(r, line.content[i + |Mark(r)|..]);
      SplitAtMark(line.content, i, r);
      CutEntry(line.speaker, first.content, r, rest.content);
      RenderJoin([first], Divide(speakers, rest));
      OneRendered(first);
      DivideRenders(speakers, rest);
    }
  }

  lemma ImitatedInWhole(speakers: set<string>, content: string, i: nat, j: nat)
    requires i <= |content| && ImitatesAt(speakers, content[..i], j)
    ensures j < i && ImitatesAt(speakers, content, j)
  {
    var r :| r in speakers && Mark(r) <= content[..i][j..];
    assert content[..i][j..] <= content[j..];
  }

  /** What comes before the first imitated turn imitates none. */
  lemma BeforeFirstMark(speakers: set<string>, content: string, i: nat)
    requires i <= |content| && forall j :: 0 <= j < i ==> !ImitatesAt(speakers, content, j)
    ensures !Imitates(speakers, content[..i])
  {
    forall j: nat | ImitatesAt(speakers, content[..i], j) ensures j < i && ImitatesAt(speakers, content, j) {
      ImitatedInWhole(speakers, content, i, j);
    }
  }

  lemma {:induction false} DivideIsLegible(speakers: set<string>, line: Line)
    requires line.speaker in speakers
    ensures AllLegible(speakers, Divide(speakers, line))
    decreases |line.content|
  {
    if Imitates(speakers, line.content) {
      var i := FirstMark(speakers, line.content, 0);
      var r := MarkedAt(speakers, line.content, i);
      BeforeFirstMark(speakers, line.content, i);
      DivideIsLegible(speakers, Line(r, line.content[i + |Mark(r)|..]));
    }
  }

  lemma {:induction false} DivideAllIsReading(speakers: set<string>, lines: seq<Line>)
    requires forall i :: 0 <= i < |lines| ==> lines[i].speaker in speakers
    ensures Render(DivideAll(speakers, lines)) == Render(lines)
    ensures AllLegible(speakers, DivideAll(speakers, lines))
    ensures DivideAll(speakers, lines) == lines <==> AllLegible(speakers, lines)
    ensures |DivideAll(speakers, lines)| >= |lines|
  {
    if lines != [] {
      DivideRenders(speakers, lines[0]);
      DivideIsLegible(speakers, lines[0]);
      RenderJoin(Divide(speakers, lines[0]), DivideAll(speakers, lines[1..]));
      DivideAllIsReading(speakers, lines[1..]);
      DivideAllFixed(speakers, lines);
    }
  }

  lemma {:induction false} DivideAllFixed(speakers: set<string>, lines: seq<Line>)
    requires lines != [] && lines[0].speaker in speakers
    requires DivideAll(speakers, lines[1..]) == lines[1..] <==> AllLegible(speakers, lines[1..])
    requires |DivideAll(speakers, lines[1..])| >= |lines| - 1
    ensures DivideAll(speakers, lines) == lines <==> AllLegible(speakers, lines)
  {
    var head, tail := Divide(speakers, lines[0]), DivideAll(speakers, lines[1..]);
    assert lines == [lines[0]] + lines[1..];
    assert AllLegible(speakers, lines) <==> Legible(speakers, lines[0]) && AllLegible(speakers, lines[1..]);
    if head == [lines[0]] {
      assert (head + tail)[1..] == tail;
    }
  }

  // ---------- What a prompt says ----------

  lemma SpeakersAreNames()
    ensures Names(SPEAKERS) && !GoesOnAfterColon(CUE)
  {
    assert forall r :: r in SPEAKERS ==> r != "" && ':' !in r && '\n' !in r;
  }

  lemma ShownSpeakers(turns: seq<Turn>)
    ensures forall i :: 0 <= i < |turns| ==> ShownAll(turns)[i].speaker in SPEAKERS
  {
  }

  /** No message of the conversation reads like several turns. */
  ghost predicate NoneImitates(turns: seq<Turn>) {
    AllLegible(SPEAKERS, ShownAll(turns))
  }

  lemma {:induction false} FramedReading(intro: string, cue: string, speakers: set<string>, lines: seq<Line>)
    requires forall i :: 0 <= i < |lines| ==> lines[i].speaker in speakers
    ensures Framed(intro, DivideAll(speakers, lines), cue) == Framed(intro, lines, cue)
  {
    DivideAllIsReading(speakers, lines);
  }

  /** Two conversations have the same prompt if and only if they are the same once every message is divided where
      it imitates a turn. */
  lemma SamePromptIff(a: seq<Turn>, b: seq<Turn>)
    ensures FullPrompt(a) == FullPrompt(b) <==> DivideAll(SPEAKERS, ShownAll(a)) == DivideAll(SPEAKERS, ShownAll(b))
  {
    var da, db := DivideAll(SPEAKERS, ShownAll(a)), DivideAll(SPEAKERS, ShownAll(b));
    SpeakersAreNames();
    ShownSpeakers(a);
    ShownSpeakers(b);
    FramedReading(INTRO, CUE, SPEAKERS, ShownAll(a));
    FramedReading(INTRO, CUE, SPEAKERS, ShownAll(b));
    DivideAllIsReading(SPEAKERS, ShownAll(a));
    DivideAllIsReading(SPEAKERS, ShownAll(b));
    if FullPrompt(a) == FullPrompt(b) {
      FramedTellsApart(SPEAKERS, INTRO, da, db, CUE);
    }
  }

  /** As long as no message imitates a turn, the text says who said what, turn by turn and in order: two
      conversations with the same text are the same conversation. */
  lemma FullPromptTellsApart(a: seq<Turn>, b: seq<Turn>)
    requires NoneImitates(a) && NoneImitates(b) && FullPrompt(a) == FullPrompt(b)
    ensures ShownAll(a) == ShownAll(b)
  {
    SamePromptIff(a, b);
    ShownSpeakers(a);
    ShownSpeakers(b);
    DivideAllIsReading(SPEAKERS, ShownAll(a));
    DivideAllIsReading(SPEAKERS, ShownAll(b));
  }

  lemma SpeakersShowAsThemselves(speaker: string)
    requires speaker in SPEAKERS
    ensures DisplayRole(speaker) == speaker
  {
    if speaker == "Assistant" {
      LoweredRole(speaker, "assistant");
    } else if speaker == "Developer" {
      LoweredRole(speaker, "developer");
    } else if speaker == "System" {
      LoweredRole(speaker, "system");
    } else if speaker == "Tool" {
      LoweredRole(speaker, "tool");
    } else {
      LoweredRole(speaker, "user");
    }
  }

  lemma LoweredRole(role: string, lower: string)
    requires role != "" && !IsSpace(role[0]) && !IsSpace(role[|role| - 1]) && |lower| == |role|
    requires forall i :: 0 <= i < |role| ==> lower[i] == LowerChar(role[i])
    ensures ToLower(TrimSpace(role)) == lower
  {
  }

  function TurnsOf(lines: seq<Line>): seq<Turn> {
    seq(|lines|, i requires 0 <= i < |lines| => Turn(lines[i].speaker, lines[i].content, []))
  }

  lemma TurnsOfShown(lines: seq<Line>)
    requires forall i :: 0 <= i < |lines| ==> lines[i].speaker in SPEAKERS
    ensures ShownAll(TurnsOf(lines)) == lines
  {
    forall i | 0 <= i < |lines| ensures ShownAll(TurnsOf(lines))[i] == lines[i] {
      SpeakersShowAsThemselves(lines[i].speaker);
    }
  }

  /** A different conversation whose messages imitate nothing has the same prompt. */
  ghost predicate HasOtherReading(a: seq<Turn>) {
    exists b :: NoneImitates(b) && ShownAll(b) != ShownAll(a) && FullPrompt(b) == FullPrompt(a)
  }

  /** A prompt can be read as another conversation of ordinary messages if and only if one of its own messages
      imitates a turn. */
  lemma OtherReadingIff(a: seq<Turn>)
    ensures HasOtherReading(a) <==> !NoneImitates(a)
  {
    ShownSpeakers(a);
    DivideAllIsReading(SPEAKERS, ShownAll(a));
    if NoneImitates(a) {
      forall b | NoneImitates(b) && FullPrompt(b) == FullPrompt(a) ensures ShownAll(b) == ShownAll(a) {
        FullPromptTellsApart(a, b);
      }
    } else {
      var lines := DivideAll(SPEAKERS, ShownAll(a));
      assert forall i :: 0 <= i < |lines| ==> Legible(SPEAKERS, lines[i]);
      TurnsOfShown(lines);
      FramedReading(INTRO, CUE, SPEAKERS, ShownAll(a));
      assert FullPrompt(TurnsOf(lines)) == FullPrompt(a);
    }
  }

  /** For instance, one message with two imitated turns in it reads like three. */
  lemma BlankLineImitatesTurns(a: string, b: string, reply: string)
    ensures var one := [Turn("user", a + Mark("Assistant") + reply + Mark("User") + b, [])];
      var three := [Turn("user", a, []), Turn("assistant", reply, []), Turn("user", b, [])];
      FullPrompt(one) == FullPrompt(three) && !NoneImitates(one)
  {
    var message := a + Mark("Assistant") + reply + Mark("User") + b;
    RolesAsWritten();
    MarkedMessage(a, "Assistant", reply, "User", b);
    OneShown(Turn("user", message, []), "User");
    ThreeShown(Turn("user", a, []), Turn("assistant", reply, []), Turn("user", b, []));
    ReadsLikeThree("User", "Assistant", a, reply, b);
  }

  lemma OneShown(turn: Turn, speaker: string)
    requires DisplayRole(turn.role) == speaker
    ensures ShownAll([turn]) == [Line(speaker, turn.content)]
    ensures NoneImitates([turn]) <==> !Imitates(SPEAKERS, turn.content)
  {
    assert ShownAll([turn])[0] == Line(speaker, turn.content);
  }

  lemma ThreeShown(a: Turn, b: Turn, c: Turn)
    ensures ShownAll([a, b, c]) == [Shown(a), Shown(b), Shown(c)]
  {
  }

  lemma MarkedMessage(a: string, assistant: string, reply: string, user: string, b: string)
    requires assistant in SPEAKERS
    ensures Imitates(SPEAKERS, a + Mark(assistant) + reply + Mark(user) + b)
  {
    MarkIsImitation(a, assistant, reply + Mark(user) + b);
    assert a + Mark(assistant) + reply + Mark(user) + b == a + Mark(assistant) + (reply + Mark(user) + b);
  }

  lemma MarkIsImitation(before: string, speaker: string, after: string)
    requires speaker in SPEAKERS
    ensures Imitates(SPEAKERS, before + Mark(speaker) + after)
  {
    var c := before + Mark(speaker) + after;
    assert c[|before|..] == Mark(speaker) + after;
    assert ImitatesAt(SPEAKERS, c, |before|);
  }

  lemma ReadsLikeThree(user: string, assistant: string, a: string, reply: string, b: string)
    ensures Render([Line(user, a + Mark(assistant) + reply + Mark(user) + b)])
      == Render([Line(user, a), Line(assistant, reply), Line(user, b)])
  {
    var c := a + Mark(assistant) + (reply + Mark(user) + b);
    assert c == a + Mark(assistant) + reply + Mark(user) + b;
    CutEntry(user, a, assistant, reply + Mark(user) + b);
    CutEntry(assistant, reply, user, b);
    OneRendered(Line(user, c));
    OneRendered(Line(user, a));
    OneRendered(Line(assistant, reply));
    OneRendered(Line(user, b));
    RenderJoin([Line(user, a)], [Line(assistant, reply), Line(user, b)]);
    RenderJoin([Line(assistant, reply)], [Line(user, b)]);
    assert [Line(user, a)] + [Line(assistant, reply), Line(user, b)]
      == [Line(user, a), Line(assistant, reply), Line(user, b)];
    assert [Line(assistant, reply)] + [Line(user, b)] == [Line(assistant, reply), Line(user, b)];
  }

  lemma RolesAsWritten()
    ensures DisplayRole("user") == "User" && DisplayRole("assistant") == "Assistant"
  {
    assert TrimSpace("user") == "user" && TrimSpace("assistant") == "assistant";
    assert ToLower("user") == "user" && ToLower("assistant") == "assistant";
  }
}
