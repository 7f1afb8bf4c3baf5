/** The invariants of the request protocol, one group per layer it crosses. */
module ProtocolInv {
  import opened Counting
  import opened RawData
  import opened StreamKey
  import opened StreamCache
  import opened ServerLoop
  import opened Protocol
  import KM = KeyMutex
  import KP = KeyMutexProofs

  // ------------------------------------------------------------------------------------------
  // Each call and its place in the key lock move together.

  predicate Sync(c: Call, w: KM.Caller) {
    && (c.phase.Locking? ==> w.Waiting?)
    && (c.phase.Holds() ==> w.Holding?)
    && (c.phase.Unlocking? ==> w.Releasing?)
    && (c.phase.Done? ==> w.Refused? || w.Finished?)
    && (w.Waiting? || w.Locked() ==> w.key == c.Key())
    && '@' !in c.to
  }

  ghost predicate SyncOk(calls: seq<Call>, callers: seq<KM.Caller>) {
    |calls| == |callers| && forall t :: 0 <= t < |calls| ==> Sync(calls[t], callers[t])
  }

  // The cache lock is held by the one call inside del2, and Clean runs only there.
  ghost predicate DelOk(calls: seq<Call>, cleaners: map<nat, KM.Cleaner>, cacheLock: Option<nat>) {
    && (cacheLock.Some? ==> cacheLock.value < |calls|)
    && (forall t :: 0 <= t < |calls| ==> (calls[t].phase.InDel2() <==> cacheLock == Some(t)))
    && (forall t :: 0 <= t < |calls| && calls[t].phase.DropLoaded? ==> t in cleaners && cleaners[t].Loaded?)
    && (forall t :: 0 <= t < |calls| && calls[t].phase.DropDeleted? ==> t in cleaners && cleaners[t].Deleted?)
    && (forall c :: c in cleaners ==> c < |calls| && cleaners[c].key == calls[c].Key() &&
                                      (calls[c].phase.DropLoaded? || calls[c].phase.DropDeleted?))
  }

  // ------------------------------------------------------------------------------------------
  // Streams, their far ends, and who refers to them.

  /** Replies follow the served requests one for one; at most one error reply comes after them, and
      only from a loop that has ended. */
  ghost predicate ServerOk(st: Stream) {
    && |st.acts| <= |st.reqs|
    && |st.acts| <= |st.replies| <= |st.acts| + 1
    && (forall i :: 0 <= i < |st.acts| ==>
          st.acts[i].err.None? && st.replies[i] == Reply(st.reqs[i].frame, st.acts[i].wrote))
    && (|st.replies| > |st.acts| ==> st.replies[|st.acts|].err != "" && !st.server.up)
    && (st.server.up ==> st.server.writer == [])
    && st.taken <= |st.replies|
  }

  ghost predicate StreamsOk(streams: seq<Stream>) {
    forall sid :: 0 <= sid < |streams| ==>
                    streams[sid].handle.id == sid && '@' !in streams[sid].handle.peer && ServerOk(streams[sid])
  }

  ghost predicate PoolOk(pool: Pool, streams: seq<Stream>) {
    && Wf(pool)
    && forall h :: Stored(pool, h) ==> h.id < |streams| && streams[h.id].handle == h
  }

  predicate Refers(c: Call, streams: seq<Stream>) {
    c.phase.HasStream() ==>
      && c.phase.sid < |streams|
      && streams[c.phase.sid].handle.peer == c.to
      && streams[c.phase.sid].handle.proto == c.proto
  }

  ghost predicate RefsOk(calls: seq<Call>, streams: seq<Stream>) {
    forall t :: 0 <= t < |calls| ==> Refers(calls[t], streams)
  }

  predicate Fresh(p: Phase) { p.Opened? || p.Wrote? }

  predicate OnFreshOf(p: Phase, q: Phase) { Fresh(p) && q.HasStream() && p.sid == q.sid }

  // A stream not yet put into the cache belongs to the call that opened it.
  ghost predicate FreshOk(calls: seq<Call>, streams: seq<Stream>, pool: Pool) {
    && (forall t :: 0 <= t < |calls| && Fresh(calls[t].phase) && calls[t].phase.sid < |streams| ==>
                      !Stored(pool, streams[calls[t].phase.sid].handle))
    && (forall t, u :: 0 <= t < |calls| && 0 <= u < |calls| && t != u ==> !OnFreshOf(calls[t].phase, calls[u].phase))
  }

  // ------------------------------------------------------------------------------------------
  // Requests carry their call's message, and each call writes at most one.

  predicate Unwritten(p: Phase) { p.Locking? || p.Locked? || p.Missed? || p.Hit? || p.Opened? }

  predicate Canonical(id: seq<byte>) { id != [] ==> id[0] != 0 }

  predicate RequestOk(r: Request, calls: seq<Call>) {
    && r.call < |calls|
    && !Unwritten(calls[r.call].phase)
    && r.frame.err == "" && r.frame.data == calls[r.call].msg && Canonical(r.frame.id)
  }

  ghost predicate ReqsOk(calls: seq<Call>, streams: seq<Stream>) {
    forall sid, i :: 0 <= sid < |streams| && 0 <= i < |streams[sid].reqs| ==> RequestOk(streams[sid].reqs[i], calls)
  }

  predicate Sent(streams: seq<Stream>, t: nat, sid: nat, i: nat) {
    sid < |streams| && i < |streams[sid].reqs| && streams[sid].reqs[i].call == t
  }

  // The stream a call has written to and not given up.
  function WroteTo(p: Phase): Option<nat> {
    match p
    case Wrote(sid) => Some(sid)
    case Awaiting(sid) => Some(sid)
    case Leaving(Got(sid, _)) => Some(sid)
    case Unlocking(Got(sid, _)) => Some(sid)
    case Done(Got(sid, _)) => Some(sid)
    case _ => None
  }

  // A call that waits for a reply or has taken one has its own request on that very stream.
  ghost predicate SentOk(calls: seq<Call>, streams: seq<Stream>) {
    forall t :: 0 <= t < |calls| && WroteTo(calls[t].phase).Some? ==> SentOn(streams, t, WroteTo(calls[t].phase).value)
  }

  ghost predicate SentOn(streams: seq<Stream>, t: nat, sid: nat) {
    exists i :: Sent(streams, t, sid, i)
  }

  ghost predicate OneRequestEach(streams: seq<Stream>) {
    forall t, a, i, b, j :: Sent(streams, t, a, i) && Sent(streams, t, b, j) ==> a == b && i == j
  }

  // ------------------------------------------------------------------------------------------
  // Exclusion on the keys where no Unlock took another channel's token.

  // A call that may touch a stream, or is about to clean, has the channel that is in the map.
  ghost predicate CritOk(calls: seq<Call>, km: KM.State) {
    forall t :: 0 <= t < |calls| && t < |km.callers| && calls[t].phase.Critical() && calls[t].Key() !in km.stolen ==>
                  km.callers[t].Holding? && KP.Current(km.slots, calls[t].Key(), km.callers[t].ch)
  }

  // Clean works on the cleaner's own channel.
  ghost predicate CleansOwn(calls: seq<Call>, km: KM.State) {
    forall c :: c in km.cleaners && c < |calls| && c < |km.callers| && calls[c].Key() !in km.stolen ==>
                  km.callers[c].Holding? && km.cleaners[c].ch == km.callers[c].ch
  }

  predicate Orphan(km: KM.State, c: KM.ChanId) {
    && c < |km.chans| && km.chans[c].key !in km.stolen
    && km.chans[c].closes == 0 && !KP.Current(km.slots, km.chans[c].key, c)
  }

  predicate Orphaned(calls: seq<Call>, km: KM.State, t: nat, c: KM.ChanId) {
    t < |calls| && t < |km.callers| && calls[t].phase.DropDeleted? && km.callers[t].Holding? && km.callers[t].ch == c
  }

  // A channel that is neither stored nor closed is being cleaned by the call that holds it.
  ghost predicate OrphanOk(calls: seq<Call>, km: KM.State) {
    forall c :: 0 <= c < |km.chans| && Orphan(km, c) ==> exists t :: Orphaned(calls, km, t, c)
  }

  // ------------------------------------------------------------------------------------------
  // The exchange discipline on those keys.

  // No exchange failed here, every request was answered and every answer read.
  predicate Quiet(st: Stream) { !st.tainted && st.taken == |st.reqs| == |st.acts| }

  // One request is out, it is call `t`'s, and its answer has not been read.
  predicate Pending(st: Stream, t: nat) {
    !st.tainted && st.taken + 1 == |st.reqs| && st.reqs[st.taken].call == t
  }

  predicate InUse(c: Call, t: nat, streams: seq<Stream>) {
    && (c.phase.Hit? || c.phase.Opened? ==> c.phase.sid < |streams| && Quiet(streams[c.phase.sid]))
    && (c.phase.Wrote? || c.phase.Awaiting? ==> c.phase.sid < |streams| && Pending(streams[c.phase.sid], t))
  }

  ghost predicate UsesOk(calls: seq<Call>, streams: seq<Stream>, stolen: set<string>) {
    forall t :: 0 <= t < |calls| && calls[t].Key() !in stolen ==> InUse(calls[t], t, streams)
  }

  // Why a pooled stream may be in the middle of something: its call waits, or is dropping it.
  predicate Explains(calls: seq<Call>, t: nat, h: Handle) {
    && t < |calls| && calls[t].to == h.peer && calls[t].proto == h.proto
    && (calls[t].phase == Awaiting(h.id) || calls[t].phase.Dropping? || calls[t].phase.InDel2())
  }

  ghost predicate PoolQuiet(calls: seq<Call>, streams: seq<Stream>, pool: Pool, stolen: set<string>) {
    forall h :: Stored(pool, h) && h.id < |streams| && LockKey(h.proto, h.peer) !in stolen ==>
                  Quiet(streams[h.id]) || exists t :: Explains(calls, t, h)
  }

  // ------------------------------------------------------------------------------------------
  // Results.

  /** `reply` is what the far end wrote when it served call `t`'s own request. */
  predicate Answered(st: Stream, i: nat, t: nat, reply: RawData) {
    i < |st.acts| && i < |st.reqs| && i < |st.replies| && st.reqs[i].call == t && st.replies[i] == reply
  }

  ghost predicate ResultOk(p: Phase, t: nat, streams: seq<Stream>) {
    p.Ended() && p.res.Got? ==> p.res.sid < |streams| && exists i :: Answered(streams[p.res.sid], i, t, p.res.reply)
  }

  ghost predicate ResultsOk(calls: seq<Call>, streams: seq<Stream>, stolen: set<string>) {
    forall t :: 0 <= t < |calls| && calls[t].Key() !in stolen ==> ResultOk(calls[t].phase, t, streams)
  }

  // ------------------------------------------------------------------------------------------
  // Keys on which calls never overlapped.

  ghost predicate SoleCall(calls: seq<Call>, overlapped: set<string>) {
    forall t, u :: 0 <= t < u < |calls| && calls[t].Key() == calls[u].Key() && calls[t].Key() !in overlapped ==>
                     calls[t].phase.Done? || calls[u].phase.Done?
  }

  // The lone caller's channel is the one stored, if any is.
  predicate OwnChannel(w: KM.Caller, slots: map<string, KM.ChanId>) {
    && (w.Waiting? ==> KP.Current(slots, w.key, w.ch))
    && (w.Holding? ==> w.key !in slots || slots[w.key] == w.ch)
    && (w.Releasing? ==> w.from == w.ch)
  }

  ghost predicate OwnChannels(calls: seq<Call>, km: KM.State, overlapped: set<string>) {
    && (forall t :: 0 <= t < |calls| && t < |km.callers| && calls[t].Key() !in overlapped ==>
                      OwnChannel(km.callers[t], km.slots))
    && km.stolen <= overlapped
  }

  // ------------------------------------------------------------------------------------------

  ghost predicate Structure(s: State) {
    && KP.Inv(s.km)
    && SyncOk(s.calls, s.km.callers)
    && DelOk(s.calls, s.km.cleaners, s.cacheLock)
  }

  ghost predicate References(s: State) {
    && StreamsOk(s.streams)
    && PoolOk(s.cache.pool, s.streams)
    && RefsOk(s.calls, s.streams)
    && FreshOk(s.calls, s.streams, s.cache.pool)
  }

  ghost predicate Requests(s: State) {
    ReqsOk(s.calls, s.streams) && OneRequestEach(s.streams) && SentOk(s.calls, s.streams)
  }

  ghost predicate Exclusion(s: State) {
    CritOk(s.calls, s.km) && CleansOwn(s.calls, s.km) && OrphanOk(s.calls, s.km)
  }

  ghost predicate Exchanges(s: State) {
    && UsesOk(s.calls, s.streams, s.km.stolen)
    && PoolQuiet(s.calls, s.streams, s.cache.pool, s.km.stolen)
    && ResultsOk(s.calls, s.streams, s.km.stolen)
  }

  ghost predicate Sequential(s: State) {
    SoleCall(s.calls, s.overlapped) && OwnChannels(s.calls, s.km, s.overlapped)
  }

  ghost predicate Inv(s: State) {
    && Structure(s)
    && References(s)
    && Requests(s)
    && Exclusion(s)
    && Exchanges(s)
    && Sequential(s)
  }
}
