/** AStreamCache as the source writes it: the nested map is updated in place, and deletions walk
    over it. The handler registry is the set of registered protocol ids; the key locks are those of
    the cache's own KeyMutex. */
module StreamCacheClass {
  import opened Counting
  import opened StreamKey
  import opened StreamCache
  import KP = KeyMutexProofs
  import KM = KeyMutexClass

  datatype Handler = StreamHandler | StreamHandlerWithProtocol | OfOtherType

  class AStreamCache {
    var pool: Pool
    var reg: set<string>
    var closed: multiset<Handle>  // one occurrence per started fullClose
    const kmutex: KM.KeyMutex

    ghost function View(): Cache
      reads this
    {
      Cache(pool, closed)
    }

    // Every registered protocol has a lock namespace.
    ghost predicate Valid()
      reads this, kmutex
    {
      Wf(pool) && kmutex.Valid() && reg <= kmutex.spaces
    }

    constructor ()
      ensures Valid() && View() == RunOps([]) && reg == {}
      ensures fresh(kmutex) && kmutex.trace == []
    {
      pool, reg, closed := map[], {}, multiset{};
      kmutex := new KM.KeyMutex();
    }

    /** `None` stands for the nil stream, which fullClose ignores. */
    method FullClose(s: Option<Handle>)
      modifies this`closed
      ensures closed == old(closed) + if s.Some? then multiset{s.value} else multiset{}
    {
      if s.Some? {
        closed := closed + multiset{s.value};
      }
    }

    method CleanSession(sm: Sessions)
      requires forall s :: s in sm ==> sm[s].Session() == s
      modifies this`closed
      ensures closed == old(closed) + multiset(sm.Values)
    {
      var rest := sm;
      while rest.Keys != {}
        invariant rest.Keys <= sm.Keys && forall s :: s in rest ==> rest[s] == sm[s]
        invariant closed + multiset(rest.Values) == old(closed) + multiset(sm.Values)
        decreases rest.Keys
      {
        var s :| s in rest.Keys;
        assert rest.Values == (rest - {s}).Values + {rest[s]} by {
          forall h | h in rest.Values
            ensures h in (rest - {s}).Values + {rest[s]}
          {
            var r :| r in rest && rest[r] == h;
            if r != s {
              assert r in (rest - {s}).Keys;
            }
          }
        }
        assert rest[s] !in (rest - {s}).Values;
        FullClose(Some(rest[s]));
        rest := rest - {s};
      }
      assert rest == map[];
    }

    method Put(s: Handle)
      requires Valid()
      modifies this`pool
      ensures Valid()
      ensures View() == StreamCache.Put(old(View()), s)
    {
      var streamkey, sessionkey := s.Key(), s.Session();
      var sm: Sessions := if streamkey in pool then pool[streamkey] else map[];
      if sessionkey in sm {
        return;
      }
      PutKeepsWf(View(), s);
      sm := sm[sessionkey := s];
      pool := pool[streamkey := sm];
    }

    /** Map iteration order is arbitrary, so any stored session may be returned. */
    method Get(to: string, protoid: string) returns (s: Option<Handle>)
      requires Wf(pool)
      ensures s.None? <==> Candidates(pool, to, protoid) == {}
      ensures s.Some? ==> s.value in Candidates(pool, to, protoid)
    {
      var streamKey := NewStreamKey(to, protoid);
      if streamKey !in pool {
        return None;
      }
      var sm := pool[streamKey];
      assert sm != map[];
      var session :| session in sm;
      s := Some(sm[session]);
    }

    /** The key's channel is cleaned first, by cleaner `me`, then the pool; with an empty protocol id, as
        from the disconnect hook, no lock is touched. */
    method Del2(me: nat, to: string, protoid: string, session: string) returns (gone: Option<nat>)
      requires Valid() && me !in kmutex.book.cleaners
      modifies this`pool, this`closed, kmutex
      ensures Valid() && old(kmutex.trace) <= kmutex.trace
      ensures View() == StreamCache.Del2(old(View()), to, protoid, session)
      ensures protoid == "" || to == "" ==> kmutex.View() == old(kmutex.View())
      ensures Cleaned(old(kmutex.reglock), gone, to, protoid)
    {
      gone := kmutex.Clean(me, protoid, to);
      DeleteStreams(to, protoid, session);
    }

    method DeleteStreams(to: string, protoid: string, session: string)
      requires Valid()
      modifies this`pool, this`closed
      ensures Valid()
      ensures View() == StreamCache.Del2(old(View()), to, protoid, session)
    {
      Del2KeepsWf(View(), to, protoid, session);
      if protoid == "" {
        DelWholePeer(to);
      } else if session == "" {
        DelAllSessions(NewStreamKey(to, protoid));
      } else {
        DelOneSession(NewStreamKey(to, protoid), session);
      }
    }

    method DropKey(k: string)
      requires k in pool && forall s :: s in pool[k] ==> pool[k][s].Session() == s
      modifies this`pool, this`closed
      ensures pool == old(pool) - {k} && closed == old(closed) + multiset(old(pool)[k].Values)
    {
      CleanSession(pool[k]);
      pool := pool - {k};
    }

    method DelAllSessions(k: string)
      requires Wf(pool)
      modifies this`pool, this`closed
      ensures View() == DelKey(old(View()), k)
    {
      // For an absent key the source ranges over a nil map and deletes nothing.
      if k in pool {
        SessionsUnderKeys(pool, k);
        DropKey(k);
      }
    }

    method DelOneSession(k: string, session: string)
      requires Wf(pool)
      modifies this`pool, this`closed
      ensures View() == DelSession(old(View()), k, session)
    {
      if k in pool {
        var sm := pool[k];
        FullClose(if session in sm then Some(sm[session]) else None);
        if session !in sm {
          assert sm - {session} == sm && pool[k := sm] == pool;
        }
        sm := sm - {session};
        if sm == map[] {
          pool := pool - {k};
        } else {
          pool := pool[k := sm];
        }
      }
    }

    method DelWholePeer(to: string)
      requires Wf(pool)
      modifies this`pool, this`closed
      ensures View() == DelPeer(old(View()), to)
    {
      ghost var before, mine := View(), PeerKeys(pool, to);
      var todo := pool.Keys;
      KeptStart(pool, mine);
      while todo != {}
        invariant todo <= before.pool.Keys
        invariant pool == Kept(before.pool, todo, mine)
        invariant closed == before.closed + multiset(Handles(Gone(before.pool, todo, mine)))
        decreases todo
      {
        var streamkey :| streamkey in todo;
        KeptStep(before.pool, todo, streamkey, mine);
        GoneStep(before.pool, todo, streamkey, mine);
        PeerKeysMember(before.pool, to, streamkey);
        if Id(streamkey) == to {
          SessionsUnderKeys(before.pool, streamkey);
          DropKey(streamkey);
        }
        todo := todo - {streamkey};
      }
      DelPeerIsKept(before, to);
    }

    /** del cleans the lock of, and drops, what the stream's own key names. */
    method Del(me: nat, s: Handle) returns (gone: Option<nat>)
      requires Valid() && me !in kmutex.book.cleaners
      modifies this`pool, this`closed, kmutex
      ensures Valid() && old(kmutex.trace) <= kmutex.trace
      ensures View() == StreamCache.Del(old(View()), s)
      ensures '@' in s.Key() && Cleaned(old(kmutex.reglock), gone, Id(s.Key()), Protoid(s.Key()))
    {
      KeyHasAt(s.peer, s.proto);
      gone := Del2(me, Id(s.Key()), Protoid(s.Key()), s.Session());
    }

    // The channel that `before` held for the pair, if both names are given, is closed and in no map.
    ghost predicate Cleaned(before: map<string, nat>, gone: Option<nat>, to: string, protoid: string)
      reads this, kmutex
    {
      var k := LockKey(protoid, to);
      && gone == (if protoid == "" || to == "" || k !in before then None else Some(before[k]))
      && (gone.Some? ==> gone.value < |kmutex.chans| && kmutex.chans[gone.value].closes > 0
                         && !KP.Current(kmutex.reglock, k, gone.value))
    }

    // A registered protocol has a namespace, so takelock cannot fail for want of one.
    method Has(pid: string) returns (ok: bool)
      requires Valid()
      ensures ok <==> pid in reg
      ensures ok ==> pid in kmutex.spaces
    {
      ok := pid in reg;
    }

    /** A handler of a type the server loop does not know, and a second registration of the same protocol,
        panic: `ok` is false and nothing changes. */
    method Regist(pid: string, handler: Handler) returns (ok: bool)
      requires Valid()
      modifies this`reg, kmutex
      ensures Valid()
      ensures ok <==> handler != OfOtherType && pid !in old(reg)
      ensures ok ==> reg == old(reg) + {pid} && kmutex.spaces == old(kmutex.spaces) + {pid}
      ensures ok ==> kmutex.reglock == old(kmutex.reglock) && kmutex.chans == old(kmutex.chans)
      ensures !ok ==> reg == old(reg) && kmutex.View() == old(kmutex.View())
    {
      if handler == OfOtherType || pid in reg {
        return false;
      }
      reg := reg + {pid};
      kmutex.Regist(pid);
      ok := true;
    }
  }

  lemma SessionsUnderKeys(pool: Pool, k: string)
    requires Wf(pool) && k in pool
    ensures forall s :: s in pool[k] ==> pool[k][s].Session() == s
  {
  }

  // What is left of the pool, and what was removed, while the keys in `todo` are still to visit
  // and those in `mine` are to be removed.
  ghost function Kept(pool: Pool, todo: set<string>, mine: set<string>): Pool {
    map k | k in pool && (k in todo || k !in mine) :: pool[k]
  }

  ghost function Gone(pool: Pool, todo: set<string>, mine: set<string>): Pool {
    map k | k in pool && k !in todo && k in mine :: pool[k]
  }

  ghost function PeerKeys(pool: Pool, to: string): set<string>
    requires Wf(pool)
  {
    KeysHaveAt(pool);
    set k | k in pool && Id(k) == to
  }

  lemma PeerKeysMember(pool: Pool, to: string, k: string)
    requires Wf(pool) && k in pool
    ensures '@' in k
    ensures k in PeerKeys(pool, to) <==> Id(k) == to
  {
    KeysHaveAt(pool);
  }

  lemma KeptStart(pool: Pool, mine: set<string>)
    ensures Kept(pool, pool.Keys, mine) == pool
    ensures Handles(Gone(pool, pool.Keys, mine)) == {}
  {
  }

  lemma DelPeerIsKept(c: Cache, to: string)
    requires Wf(c.pool)
    ensures var mine := PeerKeys(c.pool, to);
            DelPeer(c, to) == Cache(Kept(c.pool, {}, mine), c.closed + multiset(Handles(Gone(c.pool, {}, mine))))
  {
    KeysHaveAt(c.pool);
    KeptIs(c.pool, to);
    GoneIs(c.pool, to);
  }

  lemma KeptIs(pool: Pool, to: string)
    requires Wf(pool) && forall k :: k in pool ==> '@' in k
    ensures Kept(pool, {}, PeerKeys(pool, to)) == map k | k in pool && Id(k) != to :: pool[k]
  {
  }

  lemma GoneIs(pool: Pool, to: string)
    requires Wf(pool) && forall k :: k in pool ==> '@' in k
    ensures Gone(pool, {}, PeerKeys(pool, to)) == map k | k in pool && Id(k) == to :: pool[k]
  {
  }

  lemma KeptStep(pool: Pool, todo: set<string>, k: string, mine: set<string>)
    requires k in todo && todo <= pool.Keys
    ensures Kept(pool, todo, mine)[k] == pool[k]
    ensures Kept(pool, todo - {k}, mine) == if k in mine then Kept(pool, todo, mine) - {k} else Kept(pool, todo, mine)
  {
  }

  lemma GoneStep(pool: Pool, todo: set<string>, k: string, mine: set<string>)
    requires Wf(pool) && k in todo && todo <= pool.Keys
    ensures multiset(Handles(Gone(pool, todo - {k}, mine))) ==
            multiset(Handles(Gone(pool, todo, mine))) + if k in mine then multiset(pool[k].Values) else multiset{}
  {
    var gone := Gone(pool, todo, mine);
    if k in mine {
      assert Gone(pool, todo - {k}, mine) == gone[k := pool[k]];
      assert Wf(gone);
      HandlesExtend(gone, k, pool[k]);
    } else {
      assert Gone(pool, todo - {k}, mine) == gone;
    }
  }

  lemma HandlesExtend(gone: Pool, k: string, sm: Sessions)
    requires Wf(gone) && k !in gone
    requires sm != map[] && forall s :: s in sm ==> sm[s].Key() == k && sm[s].Session() == s
    ensures Handles(gone[k := sm]) == Handles(gone) + sm.Values
    ensures Handles(gone) !! sm.Values
    ensures Wf(gone[k := sm])
  {
    forall h | h in Handles(gone) + sm.Values
      ensures h in Handles(gone[k := sm])
    {
      if h in sm.Values {
        assert h == gone[k := sm][k][h.Session()];
      } else {
        assert h == gone[k := sm][h.Key()][h.Session()];
      }
    }
    forall h | h in Handles(gone[k := sm])
      ensures h in Handles(gone) + sm.Values
    {
      var k', s :| k' in gone[k := sm] && s in gone[k := sm][k'] && gone[k := sm][k'][s] == h;
      if k' == k {
        assert h in sm.Values;
      } else {
        assert gone[k'][s] == h;
      }
    }
  }
}
