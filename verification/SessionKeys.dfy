/** Session keys: a public key scoped by the namespace of an API key. */
module SessionKeys {
  import opened Prelude

  /** The part of a key before its first colon; the whole key when it has none. */
  function SessionNamespace(key: string): string {
    key[..FirstColon(key)]
  }

  function ScopedSessionKey(namespace: string, publicKey: string): string {
    if publicKey == "" then "" else namespace + ":" + publicKey
  }

  lemma {:induction false} FirstColonAt(namespace: string, rest: string)
    requires ':' !in namespace
    ensures FirstColon(namespace + ":" + rest) == |namespace|
  {
    var key := namespace + ":" + rest;
    assert key[|namespace|] == ':';
    assert forall j :: 0 <= j < |namespace| ==> key[j] == namespace[j];
  }

  /** Scoping loses nothing even though public keys may contain colons: the namespace is
      recovered from the scoped key, and so is the public key. */
  lemma ScopedKeyRoundTrip(namespace: string, publicKey: string)
    requires ':' !in namespace
    requires publicKey != ""
    ensures var key := ScopedSessionKey(namespace, publicKey);
      && SessionNamespace(key) == namespace
      && key[|SessionNamespace(key)| + 1..] == publicKey
  {
    FirstColonAt(namespace, publicKey);
  }

  lemma ScopingIsInjective(n1: string, p1: string, n2: string, p2: string)
    requires ':' !in n1 && ':' !in n2
    requires p1 != "" && p2 != ""
    requires ScopedSessionKey(n1, p1) == ScopedSessionKey(n2, p2)
    ensures n1 == n2 && p1 == p2
  {
    ScopedKeyRoundTrip(n1, p1);
    ScopedKeyRoundTrip(n2, p2);
  }

  // The namespace of an API key is the hexadecimal form of a digest prefix.

  type Byte = b: int | 0 <= b < 256

  function HexDigit(n: nat): (c: char)
    requires n < 16
    ensures c != ':'
  {
    if n < 10 then ('0' as int + n) as char else ('a' as int + n - 10) as char
  }

  function HexEncode(bytes: seq<Byte>): (s: string)
    ensures |s| == 2 * |bytes|
    ensures ':' !in s
  {
    if bytes == [] then ""
    else [HexDigit(bytes[0] / 16), HexDigit(bytes[0] % 16)] + HexEncode(bytes[1..])
  }

  lemma SameNibbles(x: Byte, y: Byte)
    requires HexDigit(x / 16) == HexDigit(y / 16) && HexDigit(x % 16) == HexDigit(y % 16)
    ensures x == y
  {
    assert x / 16 == y / 16 && x % 16 == y % 16;
  }

  lemma {:induction false} HexEncodeInjective(a: seq<Byte>, b: seq<Byte>)
    requires HexEncode(a) == HexEncode(b)
    ensures a == b
  {
    if a != [] {
      var ha, hb := HexEncode(a), HexEncode(b);
      assert |b| > 0;
      assert ha[0] == HexDigit(a[0] / 16) && ha[1] == HexDigit(a[0] % 16);
      assert hb[0] == HexDigit(b[0] / 16) && hb[1] == HexDigit(b[0] % 16);
      SameNibbles(a[0], b[0]);
      assert ha[2..] == HexEncode(a[1..]) && hb[2..] == HexEncode(b[1..]);
      HexEncodeInjective(a[1..], b[1..]);
      assert a == [a[0]] + a[1..] && b == [b[0]] + b[1..];
    }
  }

  /** Two API keys whose digests differ in the leading bytes never share a session key. */
  lemma DigestsKeepSessionsApart(d1: seq<Byte>, p1: string, d2: seq<Byte>, p2: string)
    requires |d1| >= 8 && |d2| >= 8 && d1[..8] != d2[..8]
    requires p1 != "" && p2 != ""
    ensures ScopedSessionKey(HexEncode(d1[..8]), p1) != ScopedSessionKey(HexEncode(d2[..8]), p2)
  {
    if ScopedSessionKey(HexEncode(d1[..8]), p1) == ScopedSessionKey(HexEncode(d2[..8]), p2) {
      ScopingIsInjective(HexEncode(d1[..8]), p1, HexEncode(d2[..8]), p2);
      HexEncodeInjective(d1[..8], d2[..8]);
    }
  }
}
