/** Keys of the stream cache (pool.go). A stream key is the text "protocol@peer". */
module StreamKey {

  // strings.Split(s, "@")
  function Split(s: string): (parts: seq<string>)
    ensures |parts| >= 1
  {
    if s == "" then [""]
    else
      var rest := Split(s[1..]);
      if s[0] == '@' then [""] + rest
      else [[s[0]] + rest[0]] + rest[1..]
  }

  function NewStreamKey(to: string, protoid: string): string { protoid + "@" + to }

  function Protoid(key: string): string { Split(key)[0] }

  // The source indexes the second part, which exists exactly when the key has an '@'.
  function Id(key: string): string
    requires '@' in key
  {
    SplitHasTwo(key);
    Split(key)[1]
  }

  // KeyMutex.hash digests namespace+key; an injective digest is as good as its argument.
  function LockKey(namespace: string, key: string): string { namespace + key }

  function SessionKey(remote: string, local: string): string { "session:" + remote + local }

  lemma {:induction false} SplitHasTwo(s: string)
    ensures |Split(s)| >= 2 <==> '@' in s
  {
    if s != "" {
      SplitHasTwo(s[1..]);
      assert s == [s[0]] + s[1..];
    }
  }

  /** The first part has no '@' and ends at the first '@', if there is one. */
  lemma {:induction false} SplitFirst(s: string)
    ensures '@' !in Split(s)[0]
    ensures '@' !in s ==> Split(s) == [s]
    ensures forall j :: 0 <= j < |Split(s)| ==> '@' !in Split(s)[j]
  {
    if s != "" {
      SplitFirst(s[1..]);
      assert s == [s[0]] + s[1..];
    }
  }

  lemma {:induction false} SplitAtFirst(a: string, b: string)
    requires '@' !in a
    ensures Split(a + "@" + b) == [a] + Split(b)
  {
    var s := a + "@" + b;
    if a == "" {
      assert s == ['@'] + b;
      assert s[1..] == b;
    } else {
      assert s[1..] == a[1..] + "@" + b;
      SplitAtFirst(a[1..], b);
      assert s[0] == a[0] && a == [a[0]] + a[1..];
      assert Split(s) == [[a[0]] + a[1..]] + Split(b);
    }
  }

  /** The two accessors recover both halves exactly when neither half contains an '@'. */
  lemma AccessorsInvertKey(to: string, protoid: string)
    ensures (Id(NewStreamKey(to, protoid)) == to && Protoid(NewStreamKey(to, protoid)) == protoid)
            <==> ('@' !in to && '@' !in protoid)
  {
    var key := NewStreamKey(to, protoid);
    SplitFirst(key);
    SplitHasTwo(key);
    if '@' !in protoid {
      SplitAtFirst(protoid, to);
      SplitFirst(to);
    }
  }

  lemma KeySeparator(to: string, protoid: string)
    requires '@' !in to
    ensures NewStreamKey(to, protoid)[|protoid|] == '@'
    ensures forall j :: |protoid| < j < |NewStreamKey(to, protoid)| ==> NewStreamKey(to, protoid)[j] != '@'
  {
    forall j | |protoid| < j < |NewStreamKey(to, protoid)|
      ensures NewStreamKey(to, protoid)[j] != '@'
    {
      assert NewStreamKey(to, protoid)[j] == to[j - |protoid| - 1];
    }
  }

  // The part after the last '@' has none.
  lemma {:induction false} LastAt(s: string) returns (i: nat)
    requires '@' in s
    ensures i < |s| && s[i] == '@' && '@' !in s[i + 1..]
  {
    var n := |s| - 1;
    if s[n] == '@' {
      i := n;
    } else {
      assert s == s[..n] + [s[n]];
      i := LastAt(s[..n]);
      assert s[i + 1..] == s[..n][i + 1..] + [s[n]];
    }
  }

  predicate SoleName(to: string, protoid: string, to': string, proto': string) {
    '@' !in to' && NewStreamKey(to', proto') == NewStreamKey(to, protoid) ==> to' == to && proto' == protoid
  }

  /** A key is no other peer's key if and only if its own peer id has no '@'. */
  lemma KeyIsSoleIff(to: string, protoid: string)
    ensures (forall to', proto' :: SoleName(to, protoid, to', proto')) <==> '@' !in to
  {
    if '@' in to {
      var i := LastAt(to);
      var a, b := to[..i], to[i + 1..];
      assert to == a + "@" + b;
      assert NewStreamKey(b, protoid + "@" + a) == NewStreamKey(to, protoid);
      assert !SoleName(to, protoid, b, protoid + "@" + a);
    } else {
      forall to', proto'
        ensures SoleName(to, protoid, to', proto')
      {
        if '@' !in to' && NewStreamKey(to', proto') == NewStreamKey(to, protoid) {
          KeyInjective(to, protoid, to', proto');
        }
      }
    }
  }

  lemma KeyHasAt(to: string, protoid: string)
    ensures '@' in NewStreamKey(to, protoid)
  {
    assert NewStreamKey(to, protoid)[|protoid|] == '@';
  }

  /** With peer ids free of '@', which base58 ids are, distinct pairs have distinct keys. */
  lemma KeyInjective(to1: string, proto1: string, to2: string, proto2: string)
    requires '@' !in to1 && '@' !in to2
    requires NewStreamKey(to1, proto1) == NewStreamKey(to2, proto2)
    ensures to1 == to2 && proto1 == proto2
  {
    var k1, k2 := NewStreamKey(to1, proto1), NewStreamKey(to2, proto2);
    KeySeparator(to1, proto1);
    KeySeparator(to2, proto2);
    assert |proto1| == |proto2|;
    assert proto1 == k1[..|proto1|] == k2[..|proto2|] == proto2;
    assert to1 == k1[|proto1| + 1..] == k2[|proto2| + 1..] == to2;
  }

  // The two texts are joined from the same whole, the seam of one being moved by `m` against the other's.
  ghost predicate Shifted(a: string, b: string, c: string, d: string) {
    exists m :: SeamMoved(a, b, c, d, m) || SeamMoved(c, d, a, b, m)
  }

  predicate SeamMoved(a: string, b: string, c: string, d: string, m: string) { a == c + m && d == m + b }

  lemma JoinedEqualIff(a: string, b: string, c: string, d: string)
    ensures a + b == c + d <==> Shifted(a, b, c, d)
  {
    if a + b == c + d {
      if |a| >= |c| {
        LongerFirst(a, b, c, d);
      } else {
        LongerFirst(c, d, a, b);
      }
    }
  }

  lemma LongerFirst(a: string, b: string, c: string, d: string)
    requires a + b == c + d && |a| >= |c|
    ensures SeamMoved(a, b, c, d, a[|c|..])
  {
    assert a == (a + b)[..|a|];
    assert c == (c + d)[..|c|] && d == (c + d)[|c|..];
    assert (a + b)[|c|..] == a[|c|..] + b;
  }

  /** Two pairs share a lock if and only if moving the seam between namespace and key makes them equal; in
      one namespace different keys have different locks. */
  lemma LockSharedIff(ns1: string, key1: string, ns2: string, key2: string)
    ensures LockKey(ns1, key1) == LockKey(ns2, key2) <==> Shifted(ns1, key1, ns2, key2)
    ensures ns1 == ns2 ==> (LockKey(ns1, key1) == LockKey(ns2, key2) <==> key1 == key2)
  {
    JoinedEqualIff(ns1, key1, ns2, key2);
    if ns1 == ns2 && ns1 + key1 == ns2 + key2 {
      LongerFirst(ns1, key1, ns2, key2);
    }
  }

  /** Two connections have the same session key if and only if their address texts differ at most in where
      the remote one ends. */
  lemma SessionSharedIff(remote1: string, local1: string, remote2: string, local2: string)
    ensures SessionKey(remote1, local1) == SessionKey(remote2, local2) <==> Shifted(remote1, local1, remote2, local2)
    ensures remote1 == remote2 ==> (SessionKey(remote1, local1) == SessionKey(remote2, local2) <==> local1 == local2)
  {
    var p := "session:";
    assert p + remote1 + local1 == p + (remote1 + local1) && p + remote2 + local2 == p + (remote2 + local2);
    assert (p + (remote1 + local1))[|p|..] == remote1 + local1 && (p + (remote2 + local2))[|p|..] == remote2 + local2;
    JoinedEqualIff(remote1, local1, remote2, local2);
    if remote1 == remote2 && remote1 + local1 == remote2 + local2 {
      LongerFirst(remote1, local1, remote2, local2);
    }
  }
}
