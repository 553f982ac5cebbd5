/** The fingerprint of a list of tool definitions: their encodings, sorted, as they go into the digest.
    Encoding a definition is a parameter; it may fail. */
module ToolFingerprint {
  import opened Prelude
  import opened SessionSpec
  import SE = SessionEffects
  import SM = SessionModel

  // ---------- Strings in order ----------

  predicate Leq(a: string, b: string) {
    a == "" || (b != "" && (a[0] < b[0] || (a[0] == b[0] && Leq(a[1..], b[1..]))))
  }

  lemma {:induction false} LeqTotal(a: string, b: string)
    ensures Leq(a, b) || Leq(b, a)
  {
    if a != "" && b != "" && a[0] == b[0] {
      LeqTotal(a[1..], b[1..]);
    }
  }

  lemma {:induction false} LeqAntisymmetric(a: string, b: string)
    requires Leq(a, b) && Leq(b, a)
    ensures a == b
  {
    if a != "" && b != "" {
      LeqAntisymmetric(a[1..], b[1..]);
      assert a == [a[0]] + a[1..] && b == [b[0]] + b[1..];
    }
  }

  lemma {:induction false} LeqTransitive(a: string, b: string, c: string)
    requires Leq(a, b) && Leq(b, c)
    ensures Leq(a, c)
  {
    if a != "" && a[0] == b[0] && b[0] == c[0] {
      LeqTransitive(a[1..], b[1..], c[1..]);
    }
  }

  // ---------- Sorting ----------

  ghost predicate Sorted(s: seq<string>) {
    forall i, j :: 0 <= i < j < |s| ==> Leq(s[i], s[j])
  }

  function Insert(s: seq<string>, x: string): (r: seq<string>)
    ensures |r| == |s| + 1
  {
    if s == [] || Leq(s[|s| - 1], x) then s + [x] else Insert(s[..|s| - 1], x) + [s[|s| - 1]]
  }

  function SortSeq(s: seq<string>): (r: seq<string>)
    ensures |r| == |s|
  {
    if s == [] then [] else Insert(SortSeq(s[..|s| - 1]), s[|s| - 1])
  }

  lemma {:induction false} InsertKeepsElements(s: seq<string>, x: string)
    ensures multiset(Insert(s, x)) == multiset(s) + multiset{x}
  {
    if s != [] && !Leq(s[|s| - 1], x) {
      InsertKeepsElements(s[..|s| - 1], x);
      assert s == s[..|s| - 1] + [s[|s| - 1]];
    }
  }

  lemma {:induction false} InsertSorts(s: seq<string>, x: string)
    requires Sorted(s)
    ensures Sorted(Insert(s, x))
  {
    if s != [] {
      var front, last := s[..|s| - 1], s[|s| - 1];
      if Leq(last, x) {
        forall i | 0 <= i < |s| ensures Leq(s[i], x) {
          if i < |s| - 1 {
            LeqTransitive(s[i], last, x);
          }
        }
      } else {
        InsertSorts(front, x);
        LeqTotal(last, x);
        InsertKeepsElements(front, x);
        var r := Insert(front, x);
        forall i | 0 <= i < |r| ensures Leq(r[i], last) {
          assert r[i] in multiset(r);
          assert r[i] == x || r[i] in front;
        }
      }
    }
  }

  lemma {:induction false} SortSeqSorts(s: seq<string>)
    ensures Sorted(SortSeq(s)) && multiset(SortSeq(s)) == multiset(s)
  {
    if s != [] {
      var front, last := s[..|s| - 1], s[|s| - 1];
      SortSeqSorts(front);
      InsertSorts(SortSeq(front), last);
      InsertKeepsElements(SortSeq(front), last);
      assert s == front + [last];
    }
  }

  lemma SplitBeforeLast(s: seq<string>, j: nat)
    requires j < |s|
    ensures s[..j] == s[..|s| - 1][..j] && s[j..] == s[..|s| - 1][j..] + [s[|s| - 1]]
  {
  }

  /** Where an element goes. */
  lemma {:induction false} InsertAt(s: seq<string>, x: string, j: nat)
    requires j <= |s| && (j > 0 ==> Leq(s[j - 1], x))
    requires forall k :: j <= k < |s| ==> !Leq(s[k], x)
    ensures Insert(s, x) == s[..j] + [x] + s[j..]
    decreases |s|
  {
    if j == |s| {
      assert s[..j] == s;
    } else {
      var front, last := s[..|s| - 1], s[|s| - 1];
      assert Insert(s, x) == Insert(front, x) + [last];
      InsertAt(front, x, j);
      SplitBeforeLast(s, j);
      assert front[..j] + [x] + front[j..] + [last] == front[..j] + [x] + (front[j..] + [last]);
    }
  }

  /** Moves the last element of a sorted stretch and one more to its place. */
  method InsertInPlace(a: array<string>, i: nat)
    requires i < a.Length
    modifies a
    ensures a[..i + 1] == Insert(old(a[..i]), old(a[i]))
    ensures a[i + 1..] == old(a[i + 1..])
  {
    var x := a[i];
    ghost var s := a[..i];
    ghost var rest := a[i + 1..];
    var j := i;
    while j > 0 && !Leq(a[j - 1], x)
      invariant 0 <= j <= i && a[..j] == s[..j] && a[i + 1..] == rest
      invariant j < i ==> a[j + 1..i + 1] == s[j..]
      invariant forall k :: j <= k < i ==> !Leq(s[k], x)
    {
      assert a[j - 1] == s[j - 1] by { assert a[..j][j - 1] == s[..j][j - 1]; }
      a[j] := a[j - 1];
      j := j - 1;
      assert a[j + 1..i + 1] == [s[j]] + s[j + 1..];
      assert a[..j] == s[..j];
    }
    a[j] := x;
    if j > 0 {
      assert a[..j][j - 1] == s[..j][j - 1];
    }
    InsertAt(s, x, j);
    assert a[..i + 1] == s[..j] + [x] + s[j..];
  }

  /** sort.Strings. */
  method SortStrings(a: array<string>)
    modifies a
    ensures a[..] == SortSeq(old(a[..]))
    ensures Sorted(a[..]) && multiset(a[..]) == multiset(old(a[..]))
  {
    ghost var s := a[..];
    var i := 0;
    while i < a.Length
      invariant 0 <= i <= a.Length && a[..i] == SortSeq(s[..i]) && a[i..] == s[i..]
    {
      assert s[..i + 1][..i] == s[..i] && a[i] == s[i];
      InsertInPlace(a, i);
      i := i + 1;
    }
    assert a[..] == a[..i] && s == s[..i];
    SortSeqSorts(s);
  }

  function Without<T>(s: seq<T>, i: nat): seq<T>
    requires i < |s|
  {
    s[..i] + s[i + 1..]
  }

  lemma DropAt<T>(s: seq<T>, i: nat)
    requires i < |s|
    ensures multiset(Without(s, i)) == multiset(s) - multiset{s[i]}
  {
    assert s == s[..i] + [s[i]] + s[i + 1..];
  }

  /** A multiset has one sorted arrangement. */
  lemma {:induction false} SortedIsUnique(a: seq<string>, b: seq<string>)
    requires Sorted(a) && Sorted(b) && multiset(a) == multiset(b)
    ensures a == b
  {
    assert |multiset(a)| == |a| && |multiset(b)| == |b|;
    if a != [] {
      LastIsLargest(a, b);
      LastIsLargest(b, a);
      LeqAntisymmetric(a[|a| - 1], b[|b| - 1]);
      DropLast(a);
      DropLast(b);
      SortedIsUnique(a[..|a| - 1], b[..|b| - 1]);
    }
  }

  lemma DropLast(s: seq<string>)
    requires s != [] && Sorted(s)
    ensures Sorted(s[..|s| - 1]) && multiset(s[..|s| - 1]) == multiset(s) - multiset{s[|s| - 1]}
    ensures s == s[..|s| - 1] + [s[|s| - 1]]
  {
    assert s == s[..|s| - 1] + [s[|s| - 1]];
  }

  lemma LastIsLargest(a: seq<string>, b: seq<string>)
    requires Sorted(b) && a != [] && b != [] && multiset(a) == multiset(b)
    ensures Leq(a[|a| - 1], b[|b| - 1])
  {
    assert a[|a| - 1] in multiset(b);
    var i :| 0 <= i < |b| && b[i] == a[|a| - 1];
    LeqTotal(b[i], b[i]);
  }

  // ---------- The fingerprint ----------

  ghost predicate Encodes<T(!new)>(encode: T -> Option<string>, tools: seq<T>) {
    forall i :: 0 <= i < |tools| ==> encode(tools[i]).Some?
  }

  function Encoded<T(!new)>(encode: T -> Option<string>, tools: seq<T>): (r: seq<string>)
    requires Encodes(encode, tools)
  {
    seq(|tools|, i requires 0 <= i < |tools| => encode(tools[i]).value)
  }

  /** No tools have the empty fingerprint; otherwise the sorted encodings are what is hashed. */
  function Fingerprint<T(!new)>(encode: T -> Option<string>, tools: seq<T>): seq<string>
    requires Encodes(encode, tools)
  {
    SortSeq(Encoded(encode, tools))
  }

  method ToolDefinitionsFingerprint<T(!new)>(encode: T -> Option<string>, tools: seq<T>)
    returns (fingerprint: Option<seq<string>>)
    ensures fingerprint.Some? <==> Encodes(encode, tools)
    ensures fingerprint.Some? ==> fingerprint.value == Fingerprint(encode, tools)
  {
    if |tools| == 0 {
      return Some([]);
    }
    var serialized := new string[|tools|];
    var i := 0;
    while i < |tools|
      invariant 0 <= i <= |tools| && Encodes(encode, tools[..i])
      invariant forall k :: 0 <= k < i ==> encode(tools[k]) == Some(serialized[k])
    {
      var encoded := encode(tools[i]);
      if encoded == None {
        return None;
      }
      serialized[i] := encoded.value;
      i := i + 1;
    }
    assert tools[..i] == tools;
    assert serialized[..] == Encoded(encode, tools);
    SortStrings(serialized);
    return Some(serialized[..]);
  }

  ghost predicate Injective<T(!new)>(encode: T -> Option<string>) {
    forall x, y :: encode(x) == encode(y) && encode(x).Some? ==> x == y
  }

  lemma {:induction false} CountsCarryOver<T(!new)>(encode: T -> Option<string>, tools: seq<T>, x: T)
    requires Injective(encode) && Encodes(encode, tools) && encode(x).Some?
    ensures multiset(Encoded(encode, tools))[encode(x).value] == multiset(tools)[x]
  {
    if tools != [] {
      var front, last := tools[..|tools| - 1], tools[|tools| - 1];
      assert tools == front + [last] && last in tools;
      CountsCarryOver(encode, front, x);
      assert Encoded(encode, tools) == Encoded(encode, front) + [encode(last).value];
    }
  }

  lemma {:induction false} EncodedSameElements<T(!new)>(encode: T -> Option<string>, a: seq<T>, b: seq<T>)
    requires Encodes(encode, a) && Encodes(encode, b) && multiset(a) == multiset(b)
    ensures multiset(Encoded(encode, a)) == multiset(Encoded(encode, b))
    decreases |a|
  {
    if a == [] {
      assert |multiset(b)| == |b|;
    } else {
      var i := DropSame(a, b);
      EncodedDropAt(encode, a, |a| - 1);
      EncodedDropAt(encode, b, i);
      EncodedSameElements(encode, Without(a, |a| - 1), Without(b, i));
      AddBack(multiset(Encoded(encode, a)), multiset(Encoded(encode, b)), encode(b[i]).value);
    }
  }

  lemma DropSame<T>(a: seq<T>, b: seq<T>) returns (i: nat)
    requires a != [] && multiset(a) == multiset(b)
    ensures i < |b| && b[i] == a[|a| - 1] && multiset(Without(a, |a| - 1)) == multiset(Without(b, i))
  {
    assert a[|a| - 1] in multiset(b);
    i :| 0 <= i < |b| && b[i] == a[|a| - 1];
    DropAt(a, |a| - 1);
    DropAt(b, i);
  }

  lemma EncodedDropAt<T(!new)>(encode: T -> Option<string>, tools: seq<T>, i: nat)
    requires Encodes(encode, tools) && i < |tools|
    ensures Encodes(encode, Without(tools, i))
    ensures encode(tools[i]).value in multiset(Encoded(encode, tools))
    ensures multiset(Encoded(encode, Without(tools, i)))
      == multiset(Encoded(encode, tools)) - multiset{encode(tools[i]).value}
  {
    assert Encoded(encode, Without(tools, i)) == Without(Encoded(encode, tools), i);
    DropAt(Encoded(encode, tools), i);
    assert Encoded(encode, tools)[i] == encode(tools[i]).value;
  }

  lemma AddBack(a: multiset<string>, b: multiset<string>, x: string)
    requires x in a && x in b && a - multiset{x} == b - multiset{x}
    ensures a == b
  {
    assert a == a - multiset{x} + multiset{x} && b == b - multiset{x} + multiset{x};
  }

  /** Two lists of tools have the same fingerprint exactly when each is a reordering of the other. */
  lemma FingerprintIff<T(!new)>(encode: T -> Option<string>, a: seq<T>, b: seq<T>)
    requires Injective(encode) && Encodes(encode, a) && Encodes(encode, b)
    ensures Fingerprint(encode, a) == Fingerprint(encode, b) <==> multiset(a) == multiset(b)
  {
    var ea, eb := Encoded(encode, a), Encoded(encode, b);
    SortSeqSorts(ea);
    SortSeqSorts(eb);
    if multiset(a) == multiset(b) {
      EncodedSameElements(encode, a, b);
      SortedIsUnique(SortSeq(ea), SortSeq(eb));
    }
    if SortSeq(ea) == SortSeq(eb) {
      forall x: T ensures multiset(a)[x] == multiset(b)[x] {
        if encode(x).Some? {
          CountsCarryOver(encode, a, x);
          CountsCarryOver(encode, b, x);
        } else {
          assert x !in a && x !in b;
        }
      }
    }
  }

  /** A request that differs from the live session only in its tools is refused as a conflict exactly when
      they are not a reordering of the session's tools. */
  lemma ToolsConflictIff<T(!new)>(encode: T -> Option<string>, a: seq<T>, b: seq<T>,
      lim: SM.Limits, p: SM.Pool, key: string, spec: Spec, env: SM.AcquireEnv)
    requires Injective(encode) && Encodes(encode, a) && Encodes(encode, b)
    requires key in p.live && key != "" && p.live[key].spec == spec.(toolsFingerprint := Fingerprint(encode, a))
    ensures SM.Acquire(lim, p, key, spec.(toolsFingerprint := Fingerprint(encode, b)), env).result
      == Err(SM.SpecMismatch)
      <==> multiset(a) != multiset(b)
  {
    FingerprintIff(encode, a, b);
    var sa, sb := spec.(toolsFingerprint := Fingerprint(encode, a)), spec.(toolsFingerprint := Fingerprint(encode, b));
    assert sa.toolsFingerprint == Fingerprint(encode, a) && sb.toolsFingerprint == Fingerprint(encode, b);
  }

  /** The same for a session that is only on disk: a request that differs from the record only in its tools is refused
      as a conflict exactly if they are no reordering of the recorded ones and record and session can be deleted, and
      then both are; if they cannot, that is the answer. */
  lemma StoredToolsConflictIff<T(!new)>(encode: T -> Option<string>, a: seq<T>, b: seq<T>,
      lim: SM.Limits, p: SM.Pool, key: string, spec: Spec, env: SM.AcquireEnv)
    requires Injective(encode) && Encodes(encode, a) && Encodes(encode, b)
    requires SE.Vacant(lim, p, key, env.load) && key in SE.RecordsOf(p)
    requires AgreesExceptSecret(SE.RecordsOf(p)[key].spec, spec.(toolsFingerprint := Fingerprint(encode, a)))
    ensures var r := SM.Acquire(lim, p, key, spec.(toolsFingerprint := Fingerprint(encode, b)), env);
      var fault := SE.DeleteFault(p, key, env.delete);
      && (r.result == Err(SM.SpecMismatch) <==> multiset(a) != multiset(b) && fault == None && env.upstreamDeletes)
      && (multiset(a) != multiset(b) && fault.Some? ==> r == SM.Acquired(p, Err(SM.StoreFailure(fault.value)), []))
      && (multiset(a) != multiset(b) && fault == None ==>
            && r.result.Err? && SE.RecordsOf(r.pool) == SE.RecordsOf(p) - {key}
            && r.calls == [SM.CallDelete(SE.RecordsOf(p)[key].sessionID, env.upstreamDeletes)])
  {
    FingerprintIff(encode, a, b);
    var sb := spec.(toolsFingerprint := Fingerprint(encode, b));
    SE.MismatchIsOfSettings(lim, p, key, sb, env);
    if multiset(a) != multiset(b) {
      SE.WithOtherSettings(lim, p, key, sb, env);
    }
  }
}
