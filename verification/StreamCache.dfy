/** The cache of reused streams (pool.go): stream key -> session -> stream. */
module StreamCache {
  import opened Counting
  import opened StreamKey

  /** A network stream as the cache sees it: its identity and the four texts its keys come from. */
  datatype Handle = Handle(id: nat, peer: string, proto: string, remote: string, local: string) {
    function Key(): string { NewStreamKey(peer, proto) }
    function Session(): string { SessionKey(remote, local) }
    // Base58 peer ids never contain '@'; protocol ids are asked not to.
    predicate Plain() { '@' !in peer && '@' !in proto }
  }

  type Sessions = map<string, Handle>
  type Pool = map<string, Sessions>

  /** The pool, and how often fullClose was started on each stream. */
  datatype Cache = Cache(pool: Pool, closed: multiset<Handle>)

  /** Every stored stream sits under its own two keys and no inner map is empty. */
  predicate Wf(pool: Pool) {
    && (forall k :: k in pool ==> pool[k] != map[])
    && (forall k, s :: k in pool && s in pool[k] ==> pool[k][s].Key() == k && pool[k][s].Session() == s)
  }

  lemma KeysHaveAt(pool: Pool)
    requires Wf(pool)
    ensures forall k :: k in pool ==> '@' in k
  {
    forall k | k in pool
      ensures '@' in k
    {
      var s :| s in pool[k];
      var h := pool[k][s];
      assert h.Key()[|h.proto|] == '@';
    }
  }

  function Handles(pool: Pool): set<Handle> {
    set k, s | k in pool && s in pool[k] :: pool[k][s]
  }

  // ------------------------------------------------------------------------------------------
  // The operations as functions of the cache.

  function Put(c: Cache, h: Handle): Cache {
    var k := h.Key();
    var sm := if k in c.pool then c.pool[k] else map[];
    if h.Session() in sm then c else c.(pool := c.pool[k := sm[h.Session() := h]])
  }

  function DelPeer(c: Cache, to: string): Cache
    requires Wf(c.pool)
  {
    KeysHaveAt(c.pool);
    Cache(map k | k in c.pool && Id(k) != to :: c.pool[k],
          c.closed + multiset(Handles(map k | k in c.pool && Id(k) == to :: c.pool[k])))
  }

  function DelKey(c: Cache, k: string): Cache {
    if k in c.pool then Cache(c.pool - {k}, c.closed + multiset(c.pool[k].Values)) else c
  }

  function DelSession(c: Cache, k: string, session: string): Cache {
    if k !in c.pool || session !in c.pool[k] then
      // A present key whose inner map is empty would be dropped here.
      if k in c.pool && c.pool[k] == map[] then c.(pool := c.pool - {k}) else c
    else
      var sm := c.pool[k] - {session};
      Cache(if sm == map[] then c.pool - {k} else c.pool[k := sm], c.closed + multiset{c.pool[k][session]})
  }

  function Del2(c: Cache, to: string, protoid: string, session: string): Cache
    requires Wf(c.pool)
  {
    if protoid == "" then DelPeer(c, to)
    else if session == "" then DelKey(c, NewStreamKey(to, protoid))
    else DelSession(c, NewStreamKey(to, protoid), session)
  }

  function Del(c: Cache, h: Handle): Cache
    requires Wf(c.pool)
  {
    assert '@' in h.Key() by { assert h.Key()[|h.proto|] == '@'; }
    Del2(c, Id(h.Key()), Protoid(h.Key()), h.Session())
  }

  // The streams get may hand out; it misses when there is none.
  function Candidates(pool: Pool, to: string, protoid: string): set<Handle> {
    var k := NewStreamKey(to, protoid);
    if k in pool then pool[k].Values else {}
  }

  lemma PutKeepsWf(c: Cache, h: Handle)
    requires Wf(c.pool)
    ensures Wf(Put(c, h).pool)
  {
  }

  lemma DelSessionKeepsWf(c: Cache, k: string, session: string)
    requires Wf(c.pool)
    ensures Wf(DelSession(c, k, session).pool)
  {
  }

  lemma Del2KeepsWf(c: Cache, to: string, protoid: string, session: string)
    requires Wf(c.pool)
    ensures Wf(Del2(c, to, protoid, session).pool)
  {
    if protoid == "" {
      KeysHaveAt(c.pool);
    } else if session != "" {
      DelSessionKeepsWf(c, NewStreamKey(to, protoid), session);
    }
  }

  // ------------------------------------------------------------------------------------------
  // The flat view: one optional stream per (peer, protocol, session).

  function Lookup(pool: Pool, to: string, protoid: string, session: string): Option<Handle> {
    var k := NewStreamKey(to, protoid);
    if k in pool && session in pool[k] then Some(pool[k][session]) else None
  }

  // Every stored key comes from names without '@'.
  ghost predicate PlainPool(pool: Pool) {
    forall k, s :: k in pool && s in pool[k] ==> pool[k][s].Plain()
  }

  /** Nothing is lost in the flat view: it determines the two-level pool. */
  lemma FlatDetermines(p: Pool, q: Pool)
    requires Wf(p) && Wf(q) && PlainPool(p) && PlainPool(q)
    requires forall to, proto, s :: '@' !in to && '@' !in proto ==> Lookup(p, to, proto, s) == Lookup(q, to, proto, s)
    ensures p == q
  {
    FlatContained(p, q);
    FlatContained(q, p);
    assert p.Keys == q.Keys;
    forall k | k in p
      ensures p[k] == q[k]
    {
      assert p[k].Keys == q[k].Keys;
    }
  }

  lemma FlatContained(p: Pool, q: Pool)
    requires Wf(p) && Wf(q) && PlainPool(p)
    requires forall to, proto, s :: '@' !in to && '@' !in proto ==> Lookup(p, to, proto, s) == Lookup(q, to, proto, s)
    ensures forall k :: k in p ==> k in q && forall s :: s in p[k] ==> s in q[k] && p[k][s] == q[k][s]
  {
    forall k | k in p
      ensures k in q && forall s :: s in p[k] ==> s in q[k] && p[k][s] == q[k][s]
    {
      forall s | s in p[k]
        ensures k in q && s in q[k] && p[k][s] == q[k][s]
      {
        var h := p[k][s];
        assert Lookup(p, h.peer, h.proto, s) == Lookup(q, h.peer, h.proto, s);
      }
      var s0 :| s0 in p[k];
      assert s0 in p[k];
    }
  }

  /** put inserts when the slot is free and changes nothing otherwise. */
  lemma PutRefinesFlat(c: Cache, h: Handle, to: string, protoid: string, session: string)
    requires '@' !in to && '@' !in protoid && h.Plain()
    ensures Lookup(Put(c, h).pool, to, protoid, session) ==
            if (to, protoid, session) == (h.peer, h.proto, h.Session()) && Lookup(c.pool, to, protoid, session).None?
            then Some(h) else Lookup(c.pool, to, protoid, session)
    ensures Put(c, h).closed == c.closed
  {
    if NewStreamKey(to, protoid) == h.Key() {
      KeyInjective(to, protoid, h.peer, h.proto);
    }
  }

  // The three wildcard patterns: whole peer, whole (peer, protocol), one session.
  predicate Matches(to: string, protoid: string, session: string, to': string, proto': string, session': string) {
    to' == to && (protoid == "" || (proto' == protoid && (session == "" || session' == session)))
  }

  lemma DelSessionLookup(c: Cache, k: string, session: string, to: string, protoid: string, session': string)
    requires Wf(c.pool)
    ensures Lookup(DelSession(c, k, session).pool, to, protoid, session') ==
            if NewStreamKey(to, protoid) == k && session' == session then None
            else Lookup(c.pool, to, protoid, session')
  {
    if k in c.pool && session in c.pool[k] && session' in c.pool[k] && session' != session {
      assert session' in c.pool[k] - {session};
    }
  }

  /** del2 removes exactly the flat entries its pattern matches. */
  lemma Del2RefinesFlat(c: Cache, to: string, protoid: string, session: string,
                        to': string, proto': string, session': string)
    requires Wf(c.pool)
    requires '@' !in to && '@' !in to' && '@' !in proto'
    ensures Lookup(Del2(c, to, protoid, session).pool, to', proto', session') ==
            if Matches(to, protoid, session, to', proto', session') then None
            else Lookup(c.pool, to', proto', session')
  {
    if protoid == "" {
      AccessorsInvertKey(to', proto');
      KeysHaveAt(c.pool);
    } else {
      if NewStreamKey(to, protoid) == NewStreamKey(to', proto') {
        KeyInjective(to, protoid, to', proto');
      }
      if session != "" {
        DelSessionLookup(c, NewStreamKey(to, protoid), session, to', proto', session');
      }
    }
  }

  // Being stored, in terms of a stream's own keys.
  predicate Stored(pool: Pool, h: Handle) {
    h.Key() in pool && h.Session() in pool[h.Key()] && pool[h.Key()][h.Session()] == h
  }

  lemma StoredIffHandle(pool: Pool, h: Handle)
    requires Wf(pool)
    ensures h in Handles(pool) <==> Stored(pool, h)
  {
  }

  lemma DelPeerStored(c: Cache, to: string, h: Handle)
    requires Wf(c.pool) && '@' in h.Key()
    ensures Stored(DelPeer(c, to).pool, h) <==> Stored(c.pool, h) && Id(h.Key()) != to
    ensures DelPeer(c, to).closed[h] == c.closed[h] + if Stored(c.pool, h) && Id(h.Key()) == to then 1 else 0
  {
    KeysHaveAt(c.pool);
    var gone: Pool := map k | k in c.pool && Id(k) == to :: c.pool[k];
    assert Wf(gone);
    StoredIffHandle(gone, h);
  }

  lemma DelKeyStored(c: Cache, k: string, h: Handle)
    requires Wf(c.pool)
    ensures Stored(DelKey(c, k).pool, h) <==> Stored(c.pool, h) && h.Key() != k
    ensures DelKey(c, k).closed[h] == c.closed[h] + if Stored(c.pool, h) && h.Key() == k then 1 else 0
  {
    if k in c.pool {
      assert h in c.pool[k].Values <==> Stored(c.pool, h) && h.Key() == k;
    }
  }

  lemma DelSessionStored(c: Cache, k: string, session: string, h: Handle)
    requires Wf(c.pool)
    ensures Stored(DelSession(c, k, session).pool, h)
            <==> Stored(c.pool, h) && !(h.Key() == k && h.Session() == session)
    ensures DelSession(c, k, session).closed[h] ==
            c.closed[h] + if Stored(c.pool, h) && h.Key() == k && h.Session() == session then 1 else 0
  {
    DelSessionClosed(c, k, session, h);
    if h.Key() == k {
      DelSessionKey(c, k, session, h);
    }
  }

  lemma DelSessionKey(c: Cache, k: string, session: string, h: Handle)
    requires Wf(c.pool) && h.Key() == k
    ensures Stored(DelSession(c, k, session).pool, h) <==> Stored(c.pool, h) && h.Session() != session
  {
    if Stored(c.pool, h) && h.Session() != session {
      assert h.Session() in c.pool[k] - {session};
    }
  }

  lemma DelSessionClosed(c: Cache, k: string, session: string, h: Handle)
    requires Wf(c.pool)
    ensures DelSession(c, k, session).closed[h] ==
            c.closed[h] + if Stored(c.pool, h) && h.Key() == k && h.Session() == session then 1 else 0
  {
  }

  /** del2 starts one close for each entry it removes and none for any other stream; for a session that the
      cache does not know it changes nothing at all. */
  lemma Del2ClosesWhatItRemoves(c: Cache, to: string, protoid: string, session: string, h: Handle)
    requires Wf(c.pool)
    ensures var d := Del2(c, to, protoid, session);
            && (h in Handles(d.pool) ==> h in Handles(c.pool))
            && d.closed[h] == c.closed[h] + (if h in Handles(c.pool) && h !in Handles(d.pool) then 1 else 0)
            && (protoid != "" && session != "" && Lookup(c.pool, to, protoid, session).None? ==> d == c)
  {
    assert '@' in h.Key() by { assert h.Key()[|h.proto|] == '@'; }
    StoredIffHandle(c.pool, h);
    Del2KeepsWf(c, to, protoid, session);
    StoredIffHandle(Del2(c, to, protoid, session).pool, h);
    if protoid == "" {
      DelPeerStored(c, to, h);
    } else if session == "" {
      DelKeyStored(c, NewStreamKey(to, protoid), h);
    } else {
      DelSessionStored(c, NewStreamKey(to, protoid), session, h);
    }
  }

  /** get misses exactly when the flat view has no entry for the pair. */
  lemma GetMissesIffNoEntry(pool: Pool, to: string, protoid: string)
    requires Wf(pool)
    ensures Candidates(pool, to, protoid) == {} <==> forall s :: Lookup(pool, to, protoid, s).None?
    ensures forall h :: h in Candidates(pool, to, protoid) ==> Lookup(pool, to, protoid, h.Session()) == Some(h)
  {
    var k := NewStreamKey(to, protoid);
    if k in pool {
      var s :| s in pool[k];
      assert pool[k][s] in pool[k].Values;
      assert Lookup(pool, to, protoid, s).Some?;
    }
  }

  /** After a disconnect of `to`, get misses for that peer on a protocol if and only if the key's second
      part is the peer, or there was nothing to find. It is the peer when neither name has an '@'; a
      protocol id with an '@' can shift it. */
  lemma DisconnectMakesGetMiss(c: Cache, to: string, protoid: string)
    requires Wf(c.pool)
    ensures '@' in NewStreamKey(to, protoid)
    ensures Candidates(Del2(c, to, "", "").pool, to, protoid) == {} <==>
            Id(NewStreamKey(to, protoid)) == to || Candidates(c.pool, to, protoid) == {}
    ensures '@' !in to && '@' !in protoid ==> Candidates(Del2(c, to, "", "").pool, to, protoid) == {}
  {
    KeyHasAt(to, protoid);
    AccessorsInvertKey(to, protoid);
    KeysHaveAt(c.pool);
    var k, d := NewStreamKey(to, protoid), Del2(c, to, "", "");
    if k in c.pool {
      var s :| s in c.pool[k];
      assert c.pool[k][s] in c.pool[k].Values;
      assert k in d.pool <==> Id(k) != to;
    }
  }

  /** A stream to peer "c" on protocol "a@b" outlives the disconnect of "c". */
  lemma AtInProtocolSurvives(c: Cache, h: Handle)
    requires Wf(c.pool) && h.peer == "c" && h.proto == "a@b" && Stored(c.pool, h)
    ensures Stored(Del2(c, "c", "", "").pool, h)
  {
    var k := h.Key();
    assert k == "a" + "@" + "b@c" && "b@c" == "b" + "@" + "c";
    KeyHasAt("c", "a@b");
    SplitAtFirst("a", "b@c");
    SplitAtFirst("b", "c");
    DelPeerStored(c, "c", h);
  }

  // del passes del2 the keys it computes from the stream itself.
  lemma DelIsDel2(c: Cache, h: Handle)
    requires Wf(c.pool) && h.Plain()
    ensures Del(c, h) == Del2(c, h.peer, h.proto, h.Session())
  {
    AccessorsInvertKey(h.peer, h.proto);
  }

  lemma DelSessionUndoesPut(c: Cache, h: Handle)
    requires Wf(c.pool)
    requires Lookup(c.pool, h.peer, h.proto, h.Session()).None?
    ensures DelSession(Put(c, h), h.Key(), h.Session()) == c.(closed := c.closed + multiset{h})
  {
    var k := h.Key();
    var sm := if k in c.pool then c.pool[k] else map[];
    assert sm[h.Session() := h] - {h.Session()} == sm;
    if k in c.pool {
      assert c.pool[k := sm[h.Session() := h]][k := sm] == c.pool;
    }
  }

  /** del undoes a fresh put exactly when the protocol id is not empty or the peer had no other
      stream: with an empty protocol id del2 takes its whole-peer branch. */
  lemma DelUndoesFreshPut(c: Cache, h: Handle)
    requires Wf(c.pool) && h.Plain()
    requires Lookup(c.pool, h.peer, h.proto, h.Session()).None?
    ensures Wf(Put(c, h).pool)
    ensures Del(Put(c, h), h).pool == c.pool <==>
            (h.proto != "" || forall g :: g in Handles(c.pool) ==> Id(g.Key()) != h.peer)
    ensures h.proto != "" ==> Del(Put(c, h), h).closed == c.closed + multiset{h}
  {
    PutKeepsWf(c, h);
    var p := Put(c, h);
    DelIsDel2(p, h);
    if h.proto != "" {
      DelSessionUndoesPut(c, h);
    } else {
      DelPeerUndoesPut(c, h);
    }
  }

  lemma DelPeerUndoesPut(c: Cache, h: Handle)
    requires Wf(c.pool) && h.Plain() && Wf(Put(c, h).pool)
    requires Lookup(c.pool, h.peer, h.proto, h.Session()).None?
    ensures DelPeer(Put(c, h), h.peer).pool == c.pool <==>
            forall g :: g in Handles(c.pool) ==> Id(g.Key()) != h.peer
  {
    AccessorsInvertKey(h.peer, h.proto);
    KeysHaveAt(c.pool);
    KeysHaveAt(Put(c, h).pool);
    if g :| g in Handles(c.pool) && Id(g.Key()) == h.peer {
      StoredIffHandle(c.pool, g);
      assert g.Key() in c.pool && g.Key() !in DelPeer(Put(c, h), h.peer).pool;
    } else {
      OtherPeersKept(c, h);
    }
  }

  lemma OtherPeersKept(c: Cache, h: Handle)
    requires Wf(c.pool) && Wf(Put(c, h).pool) && '@' in h.Key() && Id(h.Key()) == h.peer
    requires forall g :: g in Handles(c.pool) ==> Id(g.Key()) != h.peer
    ensures DelPeer(Put(c, h), h.peer).pool == c.pool
  {
    KeysHaveAt(c.pool);
    KeysHaveAt(Put(c, h).pool);
    forall k | k in c.pool
      ensures Id(k) != h.peer
    {
      KeyOfOtherPeer(c.pool, k, h.peer);
    }
  }

  lemma KeyOfOtherPeer(pool: Pool, k: string, peer: string)
    requires Wf(pool) && k in pool && '@' in k
    requires forall g :: g in Handles(pool) ==> Id(g.Key()) != peer
    ensures Id(k) != peer
  {
    var s :| s in pool[k];
    assert pool[k][s] in Handles(pool);
  }

  // ------------------------------------------------------------------------------------------
  // Histories.

  datatype Op = OpPut(h: Handle) | OpDel2(to: string, protoid: string, session: string)

  ghost function RunOps(ops: seq<Op>): (c: Cache)
    ensures Wf(c.pool)
  {
    if ops == [] then Cache(map[], multiset{})
    else
      var c := RunOps(ops[..|ops| - 1]);
      match ops[|ops| - 1]
      case OpPut(h) => PutKeepsWf(c, h); Put(c, h)
      case OpDel2(to, protoid, session) =>
        Del2KeepsWf(c, to, protoid, session);
        Del2(c, to, protoid, session)
  }

  predicate Offered(ops: seq<Op>, h: Handle) { OpPut(h) in ops }

  // Every stream is offered to put at most once.
  predicate FreshPuts(ops: seq<Op>) {
    ops != [] ==>
      && FreshPuts(ops[..|ops| - 1])
      && (ops[|ops| - 1].OpPut? ==> !Offered(ops[..|ops| - 1], ops[|ops| - 1].h))
  }

  // The streams that put took; the others were declined because their slot was taken.
  ghost function AcceptedPuts(ops: seq<Op>): set<Handle> {
    if ops == [] then {}
    else
      var before := ops[..|ops| - 1];
      var op := ops[|ops| - 1];
      if op.OpPut? && Lookup(RunOps(before).pool, op.h.peer, op.h.proto, op.h.Session()).None?
      then AcceptedPuts(before) + {op.h}
      else AcceptedPuts(before)
  }

  /** Over any history, an accepted stream is either in the pool and never closed by the cache, or
      out of it and closed exactly once; a declined stream is never closed by the cache. */
  lemma {:induction false} StreamsConserved(ops: seq<Op>, h: Handle)
    requires FreshPuts(ops)
    ensures var c := RunOps(ops);
            && (h in Handles(c.pool) ==> h in AcceptedPuts(ops))
            && c.closed[h] == (if h in AcceptedPuts(ops) && h !in Handles(c.pool) then 1 else 0)
            && (h in AcceptedPuts(ops) ==> Offered(ops, h))
  {
    if ops != [] {
      var before, op := ops[..|ops| - 1], ops[|ops| - 1];
      var b, c := RunOps(before), RunOps(ops);
      StreamsConserved(before, h);
      match op {
        case OpPut(g) =>
          PutHandles(b, g);
        case OpDel2(to, protoid, session) =>
          Del2ClosesWhatItRemoves(b, to, protoid, session, h);
      }
    }
  }

  lemma PutHandles(c: Cache, h: Handle)
    requires Wf(c.pool)
    ensures Handles(Put(c, h).pool) ==
            Handles(c.pool) + if Lookup(c.pool, h.peer, h.proto, h.Session()).None? then {h} else {}
  {
    PutKeepsWf(c, h);
    var p, more := Put(c, h).pool, if Lookup(c.pool, h.peer, h.proto, h.Session()).None? then {h} else {};
    forall g: Handle
      ensures g in Handles(p) <==> g in Handles(c.pool) + more
    {
      StoredIffHandle(p, g);
      StoredIffHandle(c.pool, g);
      PutStored(c, h, g);
    }
  }

  lemma PutStored(c: Cache, h: Handle, g: Handle)
    requires Wf(c.pool)
    ensures Stored(Put(c, h).pool, g) <==>
            Stored(c.pool, g) || (g == h && Lookup(c.pool, h.peer, h.proto, h.Session()).None?)
  {
  }
}
