/**
 * The usage tracker a pass or command buffer keeps: the last usage of each buffer and
 * the bind groups in use. The tracker module itself is not part of this model; these
 * definitions stand in for the part of its behaviour the passes rely on.
 */
module Track {
  import opened Wrappers
  import BufferUsage

  type BufferId = nat
  type GroupId = nat

  /** A buffer barrier: the buffer moves from one usage to another. */
  datatype Transition = Transition(buffer: BufferId, from: BufferUsage.Flags, to: BufferUsage.Flags)

  datatype TrackerSet = TrackerSet(buffers: map<BufferId, BufferUsage.Flags>, bindGroups: set<GroupId>)

  /** `TrackerSet::new`. */
  const EMPTY: TrackerSet := TrackerSet(map[], {})

  /** Moving a buffer from `from` to `to` needs a barrier unless it stays in one ordered usage. */
  predicate NeedsBarrier(from: BufferUsage.Flags, to: BufferUsage.Flags) {
    from != to || !BufferUsage.Contains(BufferUsage.ORDERED, to)
  }

  /**
   * `use_replace`: the buffer is now in `usage`; a barrier is due when it was already
   * tracked here in a state that needs one. A buffer first seen here has no barrier yet:
   * its first state is resolved when the tracker is stitched into its parent.
   */
  function UseReplace(t: TrackerSet, id: BufferId, usage: BufferUsage.Flags): (r: (TrackerSet, Option<Transition>))
    ensures r.0.buffers == t.buffers[id := usage] && r.0.bindGroups == t.bindGroups
    ensures r.1.Some? ==> id in t.buffers && r.1.value == Transition(id, t.buffers[id], usage)
  {
    if id in t.buffers && NeedsBarrier(t.buffers[id], usage) then
      (t.(buffers := t.buffers[id := usage]), Some(Transition(id, t.buffers[id], usage)))
    else
      (t.(buffers := t.buffers[id := usage]), None)
  }

  /** `use_extend` on a buffer: its usage gains `usage`. */
  function UseExtend(t: TrackerSet, id: BufferId, usage: BufferUsage.Flags): (r: TrackerSet)
    ensures id in r.buffers && BufferUsage.Contains(r.buffers[id], usage)
    ensures id in t.buffers ==> BufferUsage.Contains(r.buffers[id], t.buffers[id])
    ensures r.buffers.Keys == t.buffers.Keys + {id} && r.bindGroups == t.bindGroups
    ensures forall b :: b in t.buffers && b != id ==> r.buffers[b] == t.buffers[b]
  {
    if id in t.buffers then
      var merged := BufferUsage.Union(t.buffers[id], usage);
      TrackerSet(t.buffers[id := merged], t.bindGroups)
    else
      t.(buffers := t.buffers[id := usage])
  }

  /** `use_extend` on each buffer of `ids` in turn, all with the same usage. */
  function UseExtendAll(t: TrackerSet, ids: seq<BufferId>, usage: BufferUsage.Flags): (r: TrackerSet)
    ensures forall b :: b in r.buffers <==> b in t.buffers || b in ids
    ensures r.bindGroups == t.bindGroups
  {
    if |ids| == 0 then t
    else UseExtend(UseExtendAll(t, ids[..|ids| - 1], usage), ids[|ids| - 1], usage)
  }

  /** After extending, every extended buffer holds the usage and every tracked buffer keeps its old usage. */
  lemma {:induction false} UseExtendAllCovers(t: TrackerSet, ids: seq<BufferId>, usage: BufferUsage.Flags)
    ensures forall b :: b in ids ==> BufferUsage.Contains(UseExtendAll(t, ids, usage).buffers[b], usage)
    ensures forall b :: b in t.buffers ==> BufferUsage.Contains(UseExtendAll(t, ids, usage).buffers[b], t.buffers[b])
  {
    if |ids| > 0 {
      var front := ids[..|ids| - 1];
      var id := ids[|ids| - 1];
      UseExtendAllCovers(t, front, usage);
      var prefix := UseExtendAll(t, front, usage);
      var r := UseExtendAll(t, ids, usage);
      assert r == UseExtend(prefix, id, usage);
      forall b | b in t.buffers
        ensures BufferUsage.Contains(r.buffers[b], t.buffers[b])
      {
        if b == id {
          BufferUsage.ContainsTransitive(r.buffers[b], prefix.buffers[b], t.buffers[b]);
        }
      }
      forall b | b in ids
        ensures BufferUsage.Contains(r.buffers[b], usage)
      {
        if b != id {
          assert b in front;
        } else {
          assert BufferUsage.Contains(r.buffers[id], usage);
        }
      }
    }
  }

  /** `merge_extend`: every usage of `other` is added to `t`. */
  function MergeExtend(t: TrackerSet, other: TrackerSet): (r: TrackerSet)
    ensures r.buffers.Keys == t.buffers.Keys + other.buffers.Keys
    ensures forall b :: b in other.buffers ==> BufferUsage.Contains(r.buffers[b], other.buffers[b])
    ensures forall b :: b in t.buffers ==> BufferUsage.Contains(r.buffers[b], t.buffers[b])
    ensures r.bindGroups == t.bindGroups + other.bindGroups
  {
    TrackerSet(
      map b | b in t.buffers.Keys + other.buffers.Keys ::
        if b in t.buffers && b in other.buffers then BufferUsage.Union(t.buffers[b], other.buffers[b])
        else if b in t.buffers then t.buffers[b] else other.buffers[b],
      t.bindGroups + other.bindGroups)
  }

  /**
   * Barriers inserted when `used` is recorded after `t` (the `Stitch::Last` merge): each
   * buffer of `used` ends in its usage there, and one transition is due for each buffer
   * already tracked whose move needs a barrier.
   */
  function MergeReplace(t: TrackerSet, used: TrackerSet): (TrackerSet, set<Transition>) {
    var merged := map b | b in t.buffers.Keys + used.buffers.Keys :: if b in used.buffers then used.buffers[b] else t.buffers[b];
    var transitions := set b | b in t.buffers && b in used.buffers && NeedsBarrier(t.buffers[b], used.buffers[b])
      :: Transition(b, t.buffers[b], used.buffers[b]);
    (TrackerSet(merged, t.bindGroups + used.bindGroups), transitions)
  }

  /**
   * After the merge each buffer of `used` is in its usage there, every other buffer
   * keeps its state, and exactly the moves of already tracked buffers that need a
   * barrier are recorded.
   */
  lemma MergeReplaceMeaning(t: TrackerSet, used: TrackerSet)
    ensures var r := MergeReplace(t, used);
      && r.0.buffers.Keys == t.buffers.Keys + used.buffers.Keys
      && (forall b :: b in used.buffers ==> r.0.buffers[b] == used.buffers[b])
      && (forall b :: b in t.buffers && b !in used.buffers ==> r.0.buffers[b] == t.buffers[b])
      && (forall tr :: tr in r.1 <==>
           tr.buffer in t.buffers && tr.buffer in used.buffers && tr.from == t.buffers[tr.buffer]
           && tr.to == used.buffers[tr.buffer] && NeedsBarrier(tr.from, tr.to))
      && r.0.bindGroups == t.bindGroups + used.bindGroups
  {
  }

  /** Staying in an ordered usage needs no barrier; entering or staying in an unordered one always does. */
  lemma BarrierOnlyWhenNeeded(t: TrackerSet, id: BufferId, usage: BufferUsage.Flags)
    requires id in t.buffers
    ensures UseReplace(t, id, usage).1.None? <==>
      t.buffers[id] == usage && BufferUsage.Contains(BufferUsage.ORDERED, usage)
    ensures var t' := UseReplace(t, id, usage).0;
            BufferUsage.Contains(BufferUsage.ORDERED, usage) ==> UseReplace(t', id, usage).1.None?
  {
  }
}
