/** Two writers on one stream: what the first one writes falls into parts, and the second one writes its frames between
    them, at a pace that says how many more parts are out before each frame. */
module Weaving {
  function Flat<T>(parts: seq<seq<T>>): seq<T> {
    if parts == [] then [] else Flat(parts[..|parts| - 1]) + parts[|parts| - 1]
  }

  /** How many of n parts are out when frame number k - 1 is written; start of them are out at the beginning. */
  function Passed(n: nat, start: nat, pace: seq<nat>, k: nat): (r: nat)
    requires start <= n
    ensures start <= r <= n
  {
    if k == 0 then start
    else
      var more := if k <= |pace| then pace[k - 1] else 0;
      var before := Passed(n, start, pace, k - 1);
      if before + more <= n then before + more else n
  }

  lemma PassedMore(n: nat, start: nat, pace: seq<nat>, k: nat)
    requires start <= n
    ensures Passed(n, start, pace, k) <= Passed(n, start, pace, k + 1)
  {
  }

  /** The parts that are out between frame number k - 1 and frame number k. */
  function Between<T>(parts: seq<seq<T>>, start: nat, pace: seq<nat>, k: nat): seq<T>
    requires start <= |parts|
  {
    PassedMore(|parts|, start, pace, k);
    Flat(parts[Passed(|parts|, start, pace, k)..Passed(|parts|, start, pace, k + 1)])
  }

  /** The frames, each after the parts that are out before it; what was out at the beginning is not in it. */
  function Woven<T>(parts: seq<seq<T>>, start: nat, pace: seq<nat>, frames: seq<T>): seq<T>
    requires start <= |parts|
  {
    if frames == [] then []
    else
      var k := |frames| - 1;
      Woven(parts, start, pace, frames[..k]) + Between(parts, start, pace, k) + [frames[k]]
  }

  /** What comes after the last of so many frames. */
  function Rest<T>(parts: seq<seq<T>>, start: nat, pace: seq<nat>, frames: nat): seq<T>
    requires start <= |parts|
  {
    Flat(parts[Passed(|parts|, start, pace, frames)..])
  }

  // ---------- Putting together ----------

  lemma {:induction false} FlatJoin<T>(a: seq<seq<T>>, b: seq<seq<T>>)
    ensures Flat(a + b) == Flat(a) + Flat(b)
  {
    if b == [] {
      assert a + b == a;
    } else {
      var front := b[..|b| - 1];
      assert (a + b)[..|a + b| - 1] == a + front;
      FlatJoin(a, front);
      assert (a + b)[|a + b| - 1] == b[|b| - 1];
      assert Flat(a) + (Flat(front) + b[|b| - 1]) == Flat(a) + Flat(front) + b[|b| - 1];
    }
  }

  lemma FlatSplit<T>(before: seq<T>, parts: seq<seq<T>>, i: nat, j: nat, k: nat)
    requires i <= j <= k <= |parts|
    ensures Flat(parts[i..j]) + Flat(parts[j..k]) == Flat(parts[i..k])
    ensures before + Flat(parts[i..j]) + Flat(parts[j..k]) == before + Flat(parts[i..k])
  {
    FlatJoin(parts[i..j], parts[j..k]);
    assert parts[i..j] + parts[j..k] == parts[i..k];
  }

  lemma FlatOne<T>(before: seq<T>, parts: seq<seq<T>>, i: nat, j: nat)
    requires i <= j < |parts|
    ensures Flat(parts[i..j + 1]) == Flat(parts[i..j]) + parts[j]
    ensures before + Flat(parts[i..j]) + parts[j] == before + Flat(parts[i..j + 1])
  {
    assert parts[i..j + 1][..j - i] == parts[i..j];
  }

  lemma {:induction false} WovenNext<T>(before: seq<T>, parts: seq<seq<T>>, start: nat, pace: seq<nat>, frames: seq<T>,
      k: nat)
    requires start <= |parts| && k < |frames|
    ensures before + Woven(parts, start, pace, frames[..k]) + Between(parts, start, pace, k) + [frames[k]]
      == before + Woven(parts, start, pace, frames[..k + 1])
  {
    assert frames[..k + 1][..k] == frames[..k];
  }

  /** What has been woven with the first frames is the beginning of what is woven with all. */
  lemma {:induction false} WovenStarts<T>(parts: seq<seq<T>>, start: nat, pace: seq<nat>, frames: seq<T>, k: nat)
    requires start <= |parts| && k <= |frames|
    ensures Woven(parts, start, pace, frames[..k]) <= Woven(parts, start, pace, frames)
    decreases |frames|
  {
    if k == |frames| {
      assert frames[..k] == frames;
    } else {
      var front := frames[..|frames| - 1];
      WovenStarts(parts, start, pace, front, k);
      assert front[..k] == frames[..k];
    }
  }

  // ---------- Overlapping or not ----------

  /** If every part is out at the beginning, the frames follow one another. */
  lemma {:induction false} WovenApart<T>(parts: seq<seq<T>>, start: nat, pace: seq<nat>, frames: seq<T>)
    requires start == |parts|
    ensures Woven(parts, start, pace, frames) == frames
  {
    if frames != [] {
      var k := |frames| - 1;
      WovenApart(parts, start, pace, frames[..k]);
      assert frames == frames[..k] + [frames[k]];
    }
  }
}
