/** What the protocol does to the stream cache: which streams get hands out, what each step stores, drops and
    closes, and that no stream is lost or closed twice. */
module ProtocolCache {
  import opened Counting
  import opened RawData
  import opened StreamKey
  import opened StreamCache
  import opened ServerLoop
  import opened Protocol
  import opened ProtocolInv
  import opened ProtocolStructure
  import opened ProtocolReferences
  import opened ProtocolTheorems

  lemma ReachedCache(es: seq<Event>, s: State)
    requires Run(es) == Some(s)
    ensures StreamsOk(s.streams) && PoolOk(s.cache.pool, s.streams) && FreshOk(s.calls, s.streams, s.cache.pool)
    ensures forall t :: 0 <= t < |s.calls| ==> '@' !in s.calls[t].to
  {
    InvRun(es);
    forall t | 0 <= t < |s.calls|
      ensures '@' !in s.calls[t].to
    {
      assert Sync(s.calls[t], s.km.callers[t]);
    }
  }

  // ------------------------------------------------------------------------------------------
  // get.

  // A pooled stream of the call's peer and protocol.
  predicate PooledFor(s: State, c: Call, h: Handle) { Stored(s.cache.pool, h) && h.peer == c.to && h.proto == c.proto }

  /** A call that has the lock reuses a stream of its pair if one is pooled, any of them, and dials only if
      none is. */
  lemma ReusesWhatIsPooled(es: seq<Event>, t: nat, h: Handle)
    requires Run(es).Some? && At(Run(es).value, t, Locked) && Run(es).value.cacheLock.None?
    ensures var s := Run(es).value;
            && (Step(s, GetHit(t, h)).Some? <==> PooledFor(s, s.calls[t], h))
            && (PooledFor(s, s.calls[t], h) ==> At(Step(s, GetHit(t, h)).value, t, Hit(h.id)))
            && (Step(s, GetMiss(t)).Some? <==> forall g :: !PooledFor(s, s.calls[t], g))
  {
    ReachedCache(es, Run(es).value);
    HitIff(Run(es).value, t, h);
    MissIff(Run(es).value, t);
  }

  lemma MissIff(s: State, t: nat)
    requires StreamsOk(s.streams) && PoolOk(s.cache.pool, s.streams)
    requires At(s, t, Locked) && s.cacheLock.None? && '@' !in s.calls[t].to
    ensures Step(s, GetMiss(t)).Some? <==> forall g :: !PooledFor(s, s.calls[t], g)
  {
    var found := Candidates(s.cache.pool, s.calls[t].to, s.calls[t].proto);
    forall g
      ensures g in found <==> PooledFor(s, s.calls[t], g)
    {
      CandidateIff(s, s.calls[t], g);
    }
    if found != {} {
      var g :| g in found;
      assert PooledFor(s, s.calls[t], g);
    }
  }

  lemma CandidateIff(s: State, c: Call, h: Handle)
    requires StreamsOk(s.streams) && PoolOk(s.cache.pool, s.streams) && '@' !in c.to
    ensures h in Candidates(s.cache.pool, c.to, c.proto) <==> PooledFor(s, c, h)
  {
    if h in Candidates(s.cache.pool, c.to, c.proto) {
      assert Stored(s.cache.pool, h);
      CandidateOfPair(s.cache.pool, h, c.to, c.proto);
    }
    if PooledFor(s, c, h) {
      assert h in s.cache.pool[h.Key()].Values;
    }
  }

  lemma HitIff(s: State, t: nat, h: Handle)
    requires StreamsOk(s.streams) && PoolOk(s.cache.pool, s.streams)
    requires At(s, t, Locked) && s.cacheLock.None? && '@' !in s.calls[t].to
    ensures Step(s, GetHit(t, h)).Some? <==> PooledFor(s, s.calls[t], h)
    ensures PooledFor(s, s.calls[t], h) ==> At(Step(s, GetHit(t, h)).value, t, Hit(h.id))
  {
    CandidateIff(s, s.calls[t], h);
  }

  // ------------------------------------------------------------------------------------------
  // What each step stores, drops and closes.

  // What del2(to, proto, "") is to drop.
  predicate Doomed(h: Handle, to: string, proto: string) {
    KeyHasAt(h.peer, h.proto);
    if proto == "" then Id(h.Key()) == to else h.Key() == NewStreamKey(to, proto)
  }

  lemma DropsDoomed(c: Cache, to: string, proto: string, h: Handle)
    requires Wf(c.pool)
    ensures Stored(Del2(c, to, proto, "").pool, h) <==> Stored(c.pool, h) && !Doomed(h, to, proto)
    ensures Del2(c, to, proto, "").closed[h] ==
            c.closed[h] + if Stored(c.pool, h) && Doomed(h, to, proto) then 1 else 0
  {
    KeyHasAt(h.peer, h.proto);
    if proto == "" {
      DelPeerStored(c, to, h);
    } else {
      DelKeyStored(c, NewStreamKey(to, proto), h);
    }
  }

  /** del2 after a failed exchange drops exactly the pooled streams under its pair's key, starts one close for
      each, and touches no other; for a protocol id that is not empty these are the streams of its peer and
      protocol. */
  lemma FailureDropsExactlyPair(es: seq<Event>, t: nat, h: Handle)
    requires Run(es).Some? && DoDelPool(Run(es).value, t).Some?
    ensures var s, s' := Run(es).value, DoDelPool(Run(es).value, t).value;
            var to, proto := s.calls[t].to, s.calls[t].proto;
            && (Stored(s'.cache.pool, h) <==> Stored(s.cache.pool, h) && !Doomed(h, to, proto))
            && s'.cache.closed[h] ==
               s.cache.closed[h] + (if Stored(s.cache.pool, h) && Doomed(h, to, proto) then 1 else 0)
            && (proto != "" && Stored(s.cache.pool, h) ==> (Doomed(h, to, proto) <==> h.peer == to && h.proto == proto))
            && s'.streams == s.streams && s'.km == s.km
  {
    var s := Run(es).value;
    var to, proto := s.calls[t].to, s.calls[t].proto;
    ReachedCache(es, s);
    DropsDoomed(s.cache, to, proto, h);
    if Stored(s.cache.pool, h) && h.Key() == NewStreamKey(to, proto) {
      KeyInjective(h.peer, h.proto, to, proto);
    }
  }

  // A step drops a stream.
  predicate Drops(s: State, e: Event, h: Handle) {
    match e
    case DelPool(t) => t < |s.calls| && Doomed(h, s.calls[t].to, s.calls[t].proto)
    case Disconnect(id) => Doomed(h, id, "")
    case _ => false
  }

  // A step offers a stream to the cache.
  predicate Puts(s: State, e: Event, h: Handle) {
    e.PutStream? && e.t < |s.calls| && s.calls[e.t].phase.Wrote? && s.calls[e.t].phase.sid < |s.streams|
    && h == s.streams[s.calls[e.t].phase.sid].handle
  }

  /** Every step of the protocol on the cache: only a put stores, and only a stream whose place is free; only
      a del2 drops; and a close is started exactly for what is dropped. */
  lemma CacheStep(s: State, e: Event, h: Handle)
    requires Step(s, e).Some? && Wf(s.cache.pool)
    ensures var s' := Step(s, e).value;
            && (Stored(s'.cache.pool, h) <==>
                  || (Stored(s.cache.pool, h) && !Drops(s, e, h))
                  || (Puts(s, e, h) && Lookup(s.cache.pool, h.peer, h.proto, h.Session()).None?))
            && s'.cache.closed[h] == s.cache.closed[h] + if Stored(s.cache.pool, h) && Drops(s, e, h) then 1 else 0
  {
    if e.DelPool? || e.Disconnect? {
      CacheDrops(s, e, h);
    } else if e.PutStream? {
      CachePuts(s, e.t, h);
    } else {
      OthersKeepCache(s, e);
    }
  }

  lemma CacheDrops(s: State, e: Event, h: Handle)
    requires Step(s, e).Some? && Wf(s.cache.pool) && (e.DelPool? || e.Disconnect?)
    ensures var s' := Step(s, e).value;
            && (Stored(s'.cache.pool, h) <==> Stored(s.cache.pool, h) && !Drops(s, e, h))
            && s'.cache.closed[h] == s.cache.closed[h] + if Stored(s.cache.pool, h) && Drops(s, e, h) then 1 else 0
  {
    if e.DelPool? {
      DropsDoomed(s.cache, s.calls[e.t].to, s.calls[e.t].proto, h);
    } else {
      DropsDoomed(s.cache, e.id, "", h);
    }
  }

  lemma CachePuts(s: State, t: nat, h: Handle)
    requires DoPut(s, t).Some? && Wf(s.cache.pool)
    ensures var s' := DoPut(s, t).value;
            && (Stored(s'.cache.pool, h) <==>
                  Stored(s.cache.pool, h)
                  || (Puts(s, PutStream(t), h) && Lookup(s.cache.pool, h.peer, h.proto, h.Session()).None?))
            && s'.cache.closed == s.cache.closed
  {
    PutStored(s.cache, s.streams[s.calls[t].phase.sid].handle, h);
  }

  lemma OthersKeepCache(s: State, e: Event)
    requires Step(s, e).Some? && !e.DelPool? && !e.Disconnect? && !e.PutStream?
    ensures Step(s, e).value.cache == s.cache
  {
  }

  // ------------------------------------------------------------------------------------------
  // Conservation.

  // A closed stream was once pooled, and is not, and nobody is about to put it.
  ghost predicate ClosedOk(calls: seq<Call>, streams: seq<Stream>, cache: Cache) {
    forall h :: cache.closed[h] > 0 ==>
                  && cache.closed[h] == 1 && h.id < |streams| && !Stored(cache.pool, h)
                  && forall t :: 0 <= t < |calls| && Fresh(calls[t].phase) ==> calls[t].phase.sid != h.id
  }

  lemma FreshMoves(s: State, e: Event, sid: nat)
    requires Step(s, e).Some? && sid < |s.streams|
    requires forall t :: 0 <= t < |s.calls| && Fresh(s.calls[t].phase) ==> s.calls[t].phase.sid != sid
    ensures var s' := Step(s, e).value;
            && |s.streams| <= |s'.streams|
            && forall t :: 0 <= t < |s'.calls| && Fresh(s'.calls[t].phase) ==> s'.calls[t].phase.sid != sid
  {
    StreamsKeepComing(s, e);
    if !e.Start? {
      OnlyMoverMoves(s, e);
      if Mover(e).Some? {
        FreshPhases(s, e, Mover(e).value);
      }
    }
  }

  lemma StreamsKeepComing(s: State, e: Event)
    requires Step(s, e).Some?
    ensures |s.streams| <= |Step(s, e).value.streams|
    ensures e.Start? ==> exists c: Call :: c.phase.Locking? && Step(s, e).value.calls == s.calls + [c]
  {
    if e.Start? {
      var c := Call(e.kind, e.to, e.proto, e.msg, Locking);
      assert Step(s, e).value.calls == s.calls + [c];
    }
  }

  // A call becomes fresh by opening the next stream, and stays so only on that stream.
  lemma FreshPhases(s: State, e: Event, t: nat)
    requires Step(s, e).Some? && Mover(e) == Some(t)
    ensures t < |s.calls| && t < |Step(s, e).value.calls|
    ensures var p, q := s.calls[t].phase, Step(s, e).value.calls[t].phase;
            Fresh(q) ==> (Fresh(p) && q.sid == p.sid) || q.sid == |s.streams|
  {
  }

  lemma ClosedStep(s: State, e: Event)
    requires Step(s, e).Some? && ClosedOk(s.calls, s.streams, s.cache)
    requires PoolOk(s.cache.pool, s.streams) && FreshOk(s.calls, s.streams, s.cache.pool) && StreamsOk(s.streams)
    ensures ClosedOk(Step(s, e).value.calls, Step(s, e).value.streams, Step(s, e).value.cache)
  {
    var s' := Step(s, e).value;
    forall h | s'.cache.closed[h] > 0
      ensures s'.cache.closed[h] == 1 && h.id < |s'.streams| && !Stored(s'.cache.pool, h)
      ensures forall t :: 0 <= t < |s'.calls| && Fresh(s'.calls[t].phase) ==> s'.calls[t].phase.sid != h.id
    {
      CacheStep(s, e, h);
      ClosedIsNotPut(s, e, h);
      FreshMoves(s, e, h.id);
    }
  }

  // What was closed or is being dropped is no fresh stream, and is not put.
  lemma ClosedIsNotPut(s: State, e: Event, h: Handle)
    requires Step(s, e).Some? && ClosedOk(s.calls, s.streams, s.cache)
    requires PoolOk(s.cache.pool, s.streams) && FreshOk(s.calls, s.streams, s.cache.pool) && StreamsOk(s.streams)
    requires s.cache.closed[h] > 0 || Stored(s.cache.pool, h)
    ensures h.id < |s.streams| && !(s.cache.closed[h] > 0 && Stored(s.cache.pool, h)) && !Puts(s, e, h)
    ensures forall t :: 0 <= t < |s.calls| && Fresh(s.calls[t].phase) ==> s.calls[t].phase.sid != h.id
  {
  }

  lemma {:induction false} ClosedRun(es: seq<Event>)
    requires Run(es).Some?
    ensures ClosedOk(Run(es).value.calls, Run(es).value.streams, Run(es).value.cache)
  {
    if es != [] {
      var front := es[..|es| - 1];
      ClosedRun(front);
      ReachedCache(front, Run(front).value);
      ClosedStep(Run(front).value, es[|es| - 1]);
    }
  }

  // At point `k` of the run the cache accepts stream `h`.
  predicate AcceptedAt(es: seq<Event>, k: nat, h: Handle) {
    && k < |es| && Run(es[..k]).Some?
    && var s := Run(es[..k]).value;
    Puts(s, es[k], h) && Lookup(s.cache.pool, h.peer, h.proto, h.Session()).None?
  }

  /** Conservation over every run of the protocol: a stream that the cache accepted is pooled and not closed, or
      out of the pool and closed exactly once; no other stream is pooled, or closed by the cache. */
  lemma {:induction false} PoolConserved(es: seq<Event>, h: Handle)
    requires Run(es).Some?
    ensures var c := Run(es).value.cache;
            && (exists k :: AcceptedAt(es, k, h)) == (Stored(c.pool, h) || c.closed[h] > 0)
            && c.closed[h] <= 1 && !(Stored(c.pool, h) && c.closed[h] > 0)
  {
    ClosedRun(es);
    if es != [] {
      var n := |es| - 1;
      var front := es[..n];
      PoolConserved(front, h);
      ReachedCache(front, Run(front).value);
      CacheStep(Run(front).value, es[n], h);
      AcceptedGrows(es, front, h);
    }
  }

  lemma AcceptedGrows(es: seq<Event>, front: seq<Event>, h: Handle)
    requires es != [] && front == es[..|es| - 1]
    ensures (exists k :: AcceptedAt(es, k, h)) <==>
            (exists k :: AcceptedAt(front, k, h)) || AcceptedAt(es, |es| - 1, h)
  {
    forall k: nat | k < |front|
      ensures AcceptedAt(es, k, h) <==> AcceptedAt(front, k, h)
    {
      assert es[..k] == front[..k];
    }
  }
}
