/**
 * The device's deferred destruction and submission lifecycle. A resource the user
 * destroys waits in `referenced` until only the device itself refers to it, then waits
 * with the last submission that used it until the GPU signals that submission's fence,
 * and is finally destroyed. Map requests wait the same way before their callbacks fire.
 */
module Device {
  import opened Wrappers
  import BufferUsage
  import Track

  type BufferId = nat
  type SubmissionIndex = nat

  /** The resources whose destruction is deferred. */
  datatype ResourceId = Buffer(buffer: BufferId) | Texture(texture: nat) | TextureView(view: nat) | BindGroup(group: nat)

  /** A submission the GPU may still be executing, with what to release when its fence is signalled. */
  datatype ActiveSubmission = ActiveSubmission(index: SubmissionIndex, resources: seq<ResourceId>, mapped: seq<BufferId>)

  datatype DeviceError =
    | AlreadyPending(id: ResourceId)
    | MissingReferences(id: ResourceId)
    | MapAlreadyPending(buffer: BufferId)
    | MappedBufferSubmitted(buffer: BufferId)

  /**
   * The strong references a destroyed resource holds while something else still uses
   * it: one more than the resource itself, the device tracker and the pending list.
   */
  const MIN_REFS: nat := 4

  /**
   * What the rest of the device knows about each resource when the pending lists are
   * sorted: its current reference count, whether a buffer has a map operation pending,
   * whether a texture belongs to a swap chain, and the last submission that used it.
   */
  datatype Registry = Registry(
    counts: ResourceId -> nat,
    pendingMap: set<BufferId>,
    swapChainTextures: set<nat>,
    lastSubmission: map<ResourceId, SubmissionIndex>)
  {
    /** `life_guard.submission_index`: 0 for a resource no submission has used. */
    function LastSubmission(id: ResourceId): SubmissionIndex {
      if id in lastSubmission then lastSubmission[id] else 0
    }
  }

  /** What triage does with one destroyed resource: keep it waiting, release its memory, or drop the entry. */
  datatype Fate = Keep | Release | Forget

  /**
   * The fate of an entry as device.rs:282-310 decides it: a resource still referenced
   * elsewhere waits; a buffer with a map operation pending and a swap-chain texture are
   * removed from the list without being released; anything else is released.
   */
  function FateAsWritten(id: ResourceId, reg: Registry): Fate {
    if reg.counts(id) >= MIN_REFS then Keep
    else if id.Buffer? && id.buffer in reg.pendingMap then Forget
    else if id.Texture? && id.texture in reg.swapChainTextures then Forget
    else Release
  }

  /**
   * The fate of an entry with the pending-map case corrected: a buffer whose map
   * operation is still pending keeps waiting and is triaged again later.
   */
  function FateOf(id: ResourceId, reg: Registry): Fate {
    if reg.counts(id) >= MIN_REFS || (id.Buffer? && id.buffer in reg.pendingMap) then Keep
    else if id.Texture? && id.texture in reg.swapChainTextures then Forget
    else Release
  }

  /**
   * Only memory the swap chain owns is ever dropped without being released: every other
   * entry is kept or released, and it is kept exactly while it is referenced elsewhere
   * or mapping. The two fates differ only on a buffer that is mapping.
   */
  lemma FateMeaning(id: ResourceId, reg: Registry)
    ensures FateOf(id, reg) == Forget ==> id.Texture? && id.texture in reg.swapChainTextures
    ensures FateOf(id, reg) == Keep <==> reg.counts(id) >= MIN_REFS || (id.Buffer? && id.buffer in reg.pendingMap)
    ensures FateOf(id, reg) != FateAsWritten(id, reg) <==>
      reg.counts(id) < MIN_REFS && id.Buffer? && id.buffer in reg.pendingMap
  {
  }

  /**
   * As written, a buffer destroyed while its map operation is pending leaves the list
   * without being released, although the swap chain does not own it; nothing puts it
   * back, so its memory is never freed.
   */
  lemma MappedBufferLeaksAsWritten()
    ensures var reg := Registry(_ => 3, {7}, {}, map[]);
            && FateAsWritten(Buffer(7), reg) == Forget
            && !(Buffer(7).Texture?)
            && FateOf(Buffer(7), reg) == Keep
  {
  }

  /** The indices of the active submissions, oldest first. */
  function Indices(active: seq<ActiveSubmission>): (r: seq<SubmissionIndex>)
    ensures |r| == |active| && forall k :: 0 <= k < |active| ==> r[k] == active[k].index
  {
    seq(|active|, k requires 0 <= k < |active| => active[k].index)
  }

  /** Submission indices in FIFO order: strictly increasing. */
  predicate Increasing(indices: seq<SubmissionIndex>) {
    forall i, j :: 0 <= i < j < |indices| ==> indices[i] < indices[j]
  }

  /** `iter().find(|a| a.index == index)`: the position of the first submission with that index. */
  function ActiveWith(indices: seq<SubmissionIndex>, index: SubmissionIndex): (r: Option<nat>)
    ensures r.Some? ==> r.value < |indices| && indices[r.value] == index
    ensures r.Some? ==> forall j :: 0 <= j < r.value ==> indices[j] != index
    ensures r.None? <==> forall j :: 0 <= j < |indices| ==> indices[j] != index
  {
    if |indices| == 0 then None
    else if indices[|indices| - 1] == index && ActiveWith(indices[..|indices| - 1], index).None? then Some(|indices| - 1)
    else
      var r := ActiveWith(indices[..|indices| - 1], index);
      assert forall j :: 0 <= j < |indices| - 1 ==> indices[..|indices| - 1][j] == indices[j];
      r
  }

  /** With FIFO indices a submission index names at most one active submission. */
  lemma ActiveWithUnique(indices: seq<SubmissionIndex>, index: SubmissionIndex, k: nat)
    requires Increasing(indices) && k < |indices|
    ensures ActiveWith(indices, index) == Some(k) <==> indices[k] == index
  {
  }

  /** The entries of `rs` from position `i` on that triage keeps. */
  function KeptFrom(rs: seq<ResourceId>, reg: Registry, i: nat): seq<ResourceId>
    decreases |rs| - i
  {
    if i >= |rs| then [] else (if FateOf(rs[i], reg) == Keep then [rs[i]] else []) + KeptFrom(rs, reg, i + 1)
  }

  /** The entries of `rs` from position `i` on released into the submission with index `index`. */
  function ReleasedAt(rs: seq<ResourceId>, reg: Registry, i: nat, index: SubmissionIndex): seq<ResourceId>
    decreases |rs| - i
  {
    if i >= |rs| then [] else
      (if FateOf(rs[i], reg) == Release && reg.LastSubmission(rs[i]) == index then [rs[i]] else [])
        + ReleasedAt(rs, reg, i + 1, index)
  }

  /** The entries of `rs` from position `i` on released while no active submission has their index. */
  function ReleasedFree(rs: seq<ResourceId>, reg: Registry, i: nat, indices: seq<SubmissionIndex>): seq<ResourceId>
    decreases |rs| - i
  {
    if i >= |rs| then [] else
      (if FateOf(rs[i], reg) == Release && ActiveWith(indices, reg.LastSubmission(rs[i])).None? then [rs[i]] else [])
        + ReleasedFree(rs, reg, i + 1, indices)
  }

  /** The released entries of `rs` from position `i` on: their buffers and bind groups leave the device tracker. */
  function ReleasedTrackers(t: Track.TrackerSet, rs: seq<ResourceId>, reg: Registry, i: nat): (r: Track.TrackerSet)
    decreases |rs| - i
  {
    if i >= |rs| then t
    else
      var rest := ReleasedTrackers(t, rs, reg, i + 1);
      if FateOf(rs[i], reg) != Release then rest
      else match rs[i]
        case Buffer(b) => rest.(buffers := rest.buffers - {b})
        case BindGroup(g) => rest.(bindGroups := rest.bindGroups - {g})
        case _ => rest
  }

  /**
   * Every entry is kept, released into exactly one place, or dropped as swap-chain
   * memory: the kept entries and the released ones together are the entries that are
   * not swap-chain textures.
   */
  lemma {:induction false} TriageAccountsForAll(rs: seq<ResourceId>, reg: Registry, i: nat, indices: seq<SubmissionIndex>)
    requires Increasing(indices)
    ensures forall j :: i <= j < |rs| && !(rs[j].Texture? && rs[j].texture in reg.swapChainTextures) ==>
      || rs[j] in KeptFrom(rs, reg, i)
      || rs[j] in ReleasedFree(rs, reg, i, indices)
      || (exists k :: 0 <= k < |indices| && rs[j] in ReleasedAt(rs, reg, i, indices[k]))
    decreases |rs| - i
  {
    if i < |rs| {
      TriageAccountsForAll(rs, reg, i + 1, indices);
      var r := rs[i];
      FateMeaning(r, reg);
      if FateOf(r, reg) == Release {
        match ActiveWith(indices, reg.LastSubmission(r)) {
          case Some(k) => assert r in ReleasedAt(rs, reg, i, indices[k]);
          case None =>
        }
      }
    }
  }

  /** The entry at `i` removed, the last entry moved into its place (`Vec::swap_remove`). */
  function SwapRemove<T>(s: seq<T>, i: nat): (r: seq<T>)
    requires i < |s|
    ensures |r| == |s| - 1 && r[..i] == s[..i]
    ensures multiset(r[i..]) == multiset(s[i + 1..])
  {
    if i == |s| - 1 then s[..i]
    else
      var r := s[..i] + [s[|s| - 1]] + s[i + 1 .. |s| - 1];
      assert r[i..] == [s[|s| - 1]] + s[i + 1 .. |s| - 1];
      assert s[i + 1..] == s[i + 1 .. |s| - 1] + [s[|s| - 1]];
      r
  }

  /** The resources of the first `n` submissions, oldest first. */
  function FlatResources(active: seq<ActiveSubmission>, n: nat): seq<ResourceId>
    requires n <= |active|
  {
    if n == 0 then [] else FlatResources(active, n - 1) + active[n - 1].resources
  }

  /** The buffers mapped at the first `n` submissions, oldest first. */
  function FlatMapped(active: seq<ActiveSubmission>, n: nat): seq<BufferId>
    requires n <= |active|
  {
    if n == 0 then [] else FlatMapped(active, n - 1) + active[n - 1].mapped
  }

  /**
   * `done_count`: the length of the longest prefix of submissions whose fences are
   * signalled. After a forced wait every fence is signalled.
   */
  function DoneCount(indices: seq<SubmissionIndex>, forceWait: bool, signalled: SubmissionIndex -> bool): (n: nat)
    ensures n <= |indices|
    ensures forall j :: 0 <= j < n ==> forceWait || signalled(indices[j])
    ensures n < |indices| ==> !forceWait && !signalled(indices[n])
  {
    if |indices| == 0 || (!forceWait && !signalled(indices[0])) then 0
    else 1 + DoneCount(indices[1..], forceWait, signalled)
  }

  /** The buffers among the first `n` of `mapped` whose last submission is `index`. */
  function MappedAt(mapped: seq<BufferId>, reg: Registry, n: nat, index: SubmissionIndex): seq<BufferId>
    requires n <= |mapped|
  {
    if n == 0 then [] else MappedAt(mapped, reg, n - 1, index) + (if reg.LastSubmission(Buffer(mapped[n - 1])) == index then [mapped[n - 1]] else [])
  }

  /** The buffers among the first `n` of `mapped` that no active submission is using. */
  function MappedReady(mapped: seq<BufferId>, reg: Registry, n: nat, indices: seq<SubmissionIndex>): seq<BufferId>
    requires n <= |mapped|
  {
    if n == 0 then [] else
      MappedReady(mapped, reg, n - 1, indices)
        + (if ActiveWith(indices, reg.LastSubmission(Buffer(mapped[n - 1]))).None? then [mapped[n - 1]] else [])
  }

  /** The submissions in flight once the map requests `ms` are sorted: each gains the requests waiting on it. */
  function WithMapped(active: seq<ActiveSubmission>, ms: seq<BufferId>, reg: Registry): (r: seq<ActiveSubmission>)
    ensures |r| == |active| && Indices(r) == Indices(active)
    ensures forall k :: 0 <= k < |active| ==>
      r[k] == active[k].(mapped := active[k].mapped + MappedAt(ms, reg, |ms|, active[k].index))
  {
    var r := seq(|active|, k requires 0 <= k < |active| => active[k].(mapped := active[k].mapped + MappedAt(ms, reg, |ms|, active[k].index)));
    assert Indices(r) == Indices(active);
    r
  }

  /** The mappings the first `n` submissions release depend on their map lists alone. */
  lemma {:induction false} FlatMappedSameMapped(a: seq<ActiveSubmission>, b: seq<ActiveSubmission>, n: nat)
    requires n <= |a| && n <= |b| && forall k :: 0 <= k < n ==> a[k].mapped == b[k].mapped
    ensures FlatMapped(a, n) == FlatMapped(b, n)
  {
    if n > 0 {
      FlatMappedSameMapped(a, b, n - 1);
    }
  }

  /** Each mapped buffer lands in exactly one place: with the submission using it, or ready to map. */
  lemma {:induction false} MappedSplit(mapped: seq<BufferId>, reg: Registry, n: nat, indices: seq<SubmissionIndex>)
    requires n <= |mapped| && Increasing(indices)
    ensures |MappedReady(mapped, reg, n, indices)| + Sum(indices, mapped, reg, n, |indices|) == n
  {
    if n == 0 {
      SumEmpty(indices, mapped, reg, |indices|);
    } else {
      MappedSplit(mapped, reg, n - 1, indices);
      var b := mapped[n - 1];
      var idx := reg.LastSubmission(Buffer(b));
      SumStep(indices, mapped, reg, n, |indices|, idx);
      assert |MappedReady(mapped, reg, n, indices)| ==
        |MappedReady(mapped, reg, n - 1, indices)| + (if ActiveWith(indices, idx).None? then 1 else 0);
    }
  }

  /** How many of the first `n` buffers land with one of the first `m` submissions. */
  function Sum(indices: seq<SubmissionIndex>, mapped: seq<BufferId>, reg: Registry, n: nat, m: nat): nat
    requires n <= |mapped| && m <= |indices|
  {
    if m == 0 then 0 else Sum(indices, mapped, reg, n, m - 1) + |MappedAt(mapped, reg, n, indices[m - 1])|
  }

  lemma {:induction false} SumEmpty(indices: seq<SubmissionIndex>, mapped: seq<BufferId>, reg: Registry, m: nat)
    requires m <= |indices|
    ensures Sum(indices, mapped, reg, 0, m) == 0
  {
    if m > 0 {
      SumEmpty(indices, mapped, reg, m - 1);
    }
  }

  /** One more buffer adds one to the submission it lands with, if that is among the first `m`. */
  lemma {:induction false} SumStep(indices: seq<SubmissionIndex>, mapped: seq<BufferId>, reg: Registry, n: nat, m: nat, idx: SubmissionIndex)
    requires 0 < n <= |mapped| && m <= |indices| && Increasing(indices)
    requires idx == reg.LastSubmission(Buffer(mapped[n - 1]))
    ensures Sum(indices, mapped, reg, n, m) == Sum(indices, mapped, reg, n - 1, m)
      + (if ActiveWith(indices, idx).Some? && ActiveWith(indices, idx).value < m then 1 else 0)
  {
    if m > 0 {
      SumStep(indices, mapped, reg, n, m - 1, idx);
      ActiveWithUnique(indices, idx, m - 1);
    }
  }

  /** Entry `i` is not released: the released lists from `i` and from `i + 1` are the same. */
  lemma UnplacedStep(rs: seq<ResourceId>, reg: Registry, i: nat, indices: seq<SubmissionIndex>)
    requires i < |rs| && FateOf(rs[i], reg) != Release
    ensures forall index :: ReleasedAt(rs, reg, i, index) == ReleasedAt(rs, reg, i + 1, index)
    ensures ReleasedFree(rs, reg, i, indices) == ReleasedFree(rs, reg, i + 1, indices)
  {
  }

  /** The entries released into submission `index` from `i` are those from `i + 1`, with entry `i` when it goes there. */
  lemma ReleasedAtStep(rs: seq<ResourceId>, reg: Registry, i: nat, index: SubmissionIndex)
    requires i < |rs| && FateOf(rs[i], reg) == Release
    ensures multiset(ReleasedAt(rs, reg, i, index)) ==
      multiset(if reg.LastSubmission(rs[i]) == index then [rs[i]] else []) + multiset(ReleasedAt(rs, reg, i + 1, index))
  {
  }

  /** The entries released to `free` from `i` are those from `i + 1`, with entry `i` when no submission has its index. */
  lemma ReleasedFreeStep(rs: seq<ResourceId>, reg: Registry, i: nat, indices: seq<SubmissionIndex>)
    requires i < |rs| && FateOf(rs[i], reg) == Release
    ensures multiset(ReleasedFree(rs, reg, i, indices)) ==
      multiset(if ActiveWith(indices, reg.LastSubmission(rs[i])).None? then [rs[i]] else []) + multiset(ReleasedFree(rs, reg, i + 1, indices))
  {
  }

  /**
   * The entries released from `i` on sit with their submissions or in `free`, on top
   * of what `active0` and `free0` held.
   */
  ghost predicate Placed(active: seq<ActiveSubmission>, free: seq<ResourceId>, rs: seq<ResourceId>, reg: Registry, i: nat,
                         indices: seq<SubmissionIndex>, active0: seq<ActiveSubmission>, free0: seq<ResourceId>)
  {
    && Increasing(indices) && Indices(active) == indices && Indices(active0) == indices
    && (forall k :: 0 <= k < |active| ==>
         && active[k].mapped == active0[k].mapped
         && multiset(active[k].resources) == multiset(active0[k].resources) + multiset(ReleasedAt(rs, reg, i, indices[k])))
    && multiset(free) == multiset(free0) + multiset(ReleasedFree(rs, reg, i, indices))
  }

  /** An entry triage keeps: the list still holds it once the walk moves past it. */
  lemma KeptStep(list: seq<ResourceId>, rs: seq<ResourceId>, reg: Registry, i: nat)
    requires i < |rs| && i < |list| && list[..i + 1] == rs[..i + 1] && FateOf(rs[i], reg) == Keep
    requires multiset(list[i + 1..]) == multiset(KeptFrom(rs, reg, i + 1))
    ensures list[..i] == rs[..i] && multiset(list[i..]) == multiset(KeptFrom(rs, reg, i))
  {
    assert list[..i] == list[..i + 1][..i];
    assert list[i] == list[..i + 1][i];
    assert list[i..] == [list[i]] + list[i + 1..];
  }

  /** An entry that is not released changes nothing in the submissions or in `free`. */
  lemma PlacedUnreleased(active: seq<ActiveSubmission>, free: seq<ResourceId>, rs: seq<ResourceId>, reg: Registry, i: nat,
                         indices: seq<SubmissionIndex>, active0: seq<ActiveSubmission>, free0: seq<ResourceId>)
    requires i < |rs| && FateOf(rs[i], reg) != Release
    requires Placed(active, free, rs, reg, i + 1, indices, active0, free0)
    ensures Placed(active, free, rs, reg, i, indices, active0, free0)
  {
    UnplacedStep(rs, reg, i, indices);
  }

  /** A released entry placed with its submission, or in `free`, extends what is placed by one. */
  lemma PlacedReleased(activeBefore: seq<ActiveSubmission>, freeBefore: seq<ResourceId>,
                       active: seq<ActiveSubmission>, free: seq<ResourceId>, rs: seq<ResourceId>, reg: Registry, i: nat,
                       indices: seq<SubmissionIndex>, active0: seq<ActiveSubmission>, free0: seq<ResourceId>)
    requires i < |rs| && FateOf(rs[i], reg) == Release
    requires Placed(activeBefore, freeBefore, rs, reg, i + 1, indices, active0, free0)
    requires Indices(active) == Indices(activeBefore)
    requires forall k :: 0 <= k < |active| ==>
      && active[k].mapped == activeBefore[k].mapped
      && active[k].resources == activeBefore[k].resources + (if activeBefore[k].index == reg.LastSubmission(rs[i]) then [rs[i]] else [])
    requires free == freeBefore + (if ActiveWith(Indices(activeBefore), reg.LastSubmission(rs[i])).None? then [rs[i]] else [])
    ensures Placed(active, free, rs, reg, i, indices, active0, free0)
  {
    ReleasedFreeStep(rs, reg, i, indices);
    forall k | 0 <= k < |active|
      ensures multiset(active[k].resources) == multiset(active0[k].resources) + multiset(ReleasedAt(rs, reg, i, indices[k]))
    {
      PlacedReleasedAt(activeBefore[k], active[k], active0[k], rs, reg, i, indices[k]);
    }
  }

  /** The submission with index `index` gains entry `i` exactly when it is the entry's last submission. */
  lemma PlacedReleasedAt(before: ActiveSubmission, after: ActiveSubmission, a0: ActiveSubmission,
                         rs: seq<ResourceId>, reg: Registry, i: nat, index: SubmissionIndex)
    requires i < |rs| && FateOf(rs[i], reg) == Release && before.index == index
    requires multiset(before.resources) == multiset(a0.resources) + multiset(ReleasedAt(rs, reg, i + 1, index))
    requires after.resources == before.resources + (if index == reg.LastSubmission(rs[i]) then [rs[i]] else [])
    ensures multiset(after.resources) == multiset(a0.resources) + multiset(ReleasedAt(rs, reg, i, index))
  {
    ReleasedAtStep(rs, reg, i, index);
  }

  /** The first `n` of `ms` wait with their submissions or are ready, on top of what `active0` and `ready0` held. */
  ghost predicate SortedUpTo(active: seq<ActiveSubmission>, ready: seq<BufferId>, ms: seq<BufferId>, reg: Registry, n: nat,
                             indices: seq<SubmissionIndex>, active0: seq<ActiveSubmission>, ready0: seq<BufferId>)
  {
    && n <= |ms|
    && Increasing(indices) && Indices(active) == indices && Indices(active0) == indices
    && (forall k :: 0 <= k < |active| ==>
         && active[k].resources == active0[k].resources
         && active[k].mapped == active0[k].mapped + MappedAt(ms, reg, n, indices[k]))
    && ready == ready0 + MappedReady(ms, reg, n, indices)
  }

  /** Sorting mapping `n` into its submission, or into the ready list, sorts one more. */
  lemma SortedStep(activeBefore: seq<ActiveSubmission>, readyBefore: seq<BufferId>, active: seq<ActiveSubmission>, ready: seq<BufferId>,
                   ms: seq<BufferId>, reg: Registry, n: nat,
                   indices: seq<SubmissionIndex>, active0: seq<ActiveSubmission>, ready0: seq<BufferId>)
    requires n < |ms| && SortedUpTo(activeBefore, readyBefore, ms, reg, n, indices, active0, ready0)
    requires Indices(active) == Indices(activeBefore)
    requires forall k :: 0 <= k < |active| ==>
      && active[k].resources == activeBefore[k].resources
      && active[k].mapped == activeBefore[k].mapped + (if activeBefore[k].index == reg.LastSubmission(Buffer(ms[n])) then [ms[n]] else [])
    requires ready == readyBefore + (if ActiveWith(Indices(activeBefore), reg.LastSubmission(Buffer(ms[n]))).None? then [ms[n]] else [])
    ensures SortedUpTo(active, ready, ms, reg, n + 1, indices, active0, ready0)
  {
    forall k | 0 <= k < |active|
      ensures active[k].mapped == active0[k].mapped + MappedAt(ms, reg, n + 1, indices[k])
    {
      assert activeBefore[k].index == indices[k];
    }
  }

  /** The last entry holding fewer than the three references a released resource keeps, if any. */
  function LastShort(rs: seq<ResourceId>, reg: Registry): (r: Option<nat>)
    ensures r.Some? ==> r.value < |rs| && reg.counts(rs[r.value]) < MIN_REFS - 1
    ensures r.Some? ==> forall j :: r.value < j < |rs| ==> reg.counts(rs[j]) >= MIN_REFS - 1
    ensures r.None? <==> forall j :: 0 <= j < |rs| ==> reg.counts(rs[j]) >= MIN_REFS - 1
  {
    if |rs| == 0 then None
    else if reg.counts(rs[|rs| - 1]) < MIN_REFS - 1 then Some(|rs| - 1)
    else
      var r := LastShort(rs[..|rs| - 1], reg);
      assert forall j :: 0 <= j < |rs| - 1 ==> rs[..|rs| - 1][j] == rs[j];
      r
  }

  /** `PendingResources`: the lists of resources and map requests waiting on the GPU. */
  class PendingResources {
    /** Buffers whose mapping was requested, not yet sorted. */
    var mapped: seq<BufferId>
    /** Resources the user destroyed that may still be referenced. */
    var referenced: seq<ResourceId>
    /** Submissions in flight, oldest first. */
    var active: seq<ActiveSubmission>
    /** Resources nothing uses any more, waiting to be destroyed. */
    var free: seq<ResourceId>
    /** Buffers whose mapping can go ahead. */
    var readyToMap: seq<BufferId>

    /** The active submissions are in FIFO order. */
    predicate Valid()
      reads this
    {
      Increasing(Indices(active))
    }

    constructor ()
      ensures Valid()
      ensures mapped == [] && referenced == [] && active == [] && free == [] && readyToMap == []
    {
      mapped := [];
      referenced := [];
      active := [];
      free := [];
      readyToMap := [];
    }

    /** `destroy`: the resource joins the pending list; it must not be there already (a debug assertion). */
    method Destroy(id: ResourceId) returns (r: Result<(), DeviceError>)
      modifies this
      ensures id in old(referenced) ==> r == Failure(AlreadyPending(id)) && referenced == old(referenced)
      ensures id !in old(referenced) ==> r == Success(()) && referenced == old(referenced) + [id]
      ensures mapped == old(mapped) && active == old(active) && free == old(free) && readyToMap == old(readyToMap)
    {
      if id in referenced {
        return Failure(AlreadyPending(id));
      }
      referenced := referenced + [id];
      r := Success(());
    }

    /** `map`: the buffer's map request waits to be sorted. */
    method Map(buffer: BufferId)
      modifies this
      ensures mapped == old(mapped) + [buffer]
      ensures referenced == old(referenced) && active == old(active) && free == old(free) && readyToMap == old(readyToMap)
    {
      mapped := mapped + [buffer];
    }

    /**
     * A released resource waits with the active submission whose index is its last
     * submission, or goes straight to `free` when that submission is already retired.
     */
    method Place(id: ResourceId, reg: Registry)
      requires Valid()
      modifies this
      ensures Valid() && Indices(active) == Indices(old(active))
      ensures forall k :: 0 <= k < |active| ==>
        && active[k].mapped == old(active)[k].mapped
        && active[k].resources == old(active)[k].resources + (if old(active)[k].index == reg.LastSubmission(id) then [id] else [])
      ensures free == old(free) + (if ActiveWith(Indices(old(active)), reg.LastSubmission(id)).None? then [id] else [])
      ensures mapped == old(mapped) && referenced == old(referenced) && readyToMap == old(readyToMap)
    {
      var submitIndex := reg.LastSubmission(id);
      match ActiveWith(Indices(active), submitIndex) {
        case Some(k) =>
          forall j | 0 <= j < |active|
            ensures active[j].index == submitIndex <==> j == k
          {
            ActiveWithUnique(Indices(active), submitIndex, j);
          }
          active := active[k := active[k].(resources := active[k].resources + [id])];
          assert Indices(active) == Indices(old(active));
        case None =>
          free := free + [id];
      }
    }

    /**
     * Triage has handled the entries of `rs` from position `i` on: the list holds the
     * kept ones past `i`, and the released ones sit with their submissions, in `free`,
     * and out of the tracker.
     */
    ghost predicate TriagedFrom(rs: seq<ResourceId>, reg: Registry, i: nat, indices: seq<SubmissionIndex>,
                                active0: seq<ActiveSubmission>, free0: seq<ResourceId>,
                                trackers0: Track.TrackerSet, t: Track.TrackerSet)
      reads this
    {
      && ListedFrom(rs, reg, i)
      && PlacedFrom(rs, reg, i, indices, active0, free0)
      && t == ReleasedTrackers(trackers0, rs, reg, i)
    }

    /** The list holds `rs` before `i` and the entries kept from `i` on. */
    ghost predicate ListedFrom(rs: seq<ResourceId>, reg: Registry, i: nat)
      reads this
    {
      && i <= |referenced| && i <= |rs|
      && referenced[..i] == rs[..i]
      && multiset(referenced[i..]) == multiset(KeptFrom(rs, reg, i))
    }

    /** The entries released from `i` on sit with their submissions or in `free`. */
    ghost predicate PlacedFrom(rs: seq<ResourceId>, reg: Registry, i: nat, indices: seq<SubmissionIndex>,
                               active0: seq<ActiveSubmission>, free0: seq<ResourceId>)
      reads this
    {
      Placed(active, free, rs, reg, i, indices, active0, free0)
    }

    /**
     * One step of the walk: the entry at `i` is left in place, or removed, taken out of
     * the tracker and placed.
     */
    method TriageEntry(i: nat, reg: Registry, t: Track.TrackerSet, ghost rs: seq<ResourceId>, ghost indices: seq<SubmissionIndex>,
                       ghost active0: seq<ActiveSubmission>, ghost free0: seq<ResourceId>, ghost trackers0: Track.TrackerSet)
        returns (t': Track.TrackerSet)
      requires i < |referenced| && TriagedFrom(rs, reg, i + 1, indices, active0, free0, trackers0, t)
      modifies this
      ensures TriagedFrom(rs, reg, i, indices, active0, free0, trackers0, t')
      ensures mapped == old(mapped) && readyToMap == old(readyToMap)
    {
      var id := referenced[i];
      assert id == rs[..i + 1][i];
      if reg.counts(id) < MIN_REFS && !(id.Buffer? && id.buffer in reg.pendingMap) {
        t' := RemoveEntry(id, i, reg, t, rs, trackers0);
        PlaceEntry(id, i, reg, rs, indices, active0, free0);
      } else {
        t' := t;
        LeaveEntry(id, i, reg, rs, indices, active0, free0);
      }
    }

    /** The entry `i` stays in the list: the walk moves past it. */
    method LeaveEntry(id: ResourceId, i: nat, reg: Registry, ghost rs: seq<ResourceId>, ghost indices: seq<SubmissionIndex>,
                      ghost active0: seq<ActiveSubmission>, ghost free0: seq<ResourceId>)
      requires i < |rs| && id == rs[i] && !(reg.counts(id) < MIN_REFS && !(id.Buffer? && id.buffer in reg.pendingMap))
      requires ListedFrom(rs, reg, i + 1) && PlacedFrom(rs, reg, i + 1, indices, active0, free0)
      ensures ListedFrom(rs, reg, i) && PlacedFrom(rs, reg, i, indices, active0, free0)
    {
      KeptStep(referenced, rs, reg, i);
      PlacedUnreleased(active, free, rs, reg, i, indices, active0, free0);
    }

    /** The entry `i` leaves the list by `swap_remove`, and its buffer or bind group leaves the tracker. */
    method RemoveEntry(id: ResourceId, i: nat, reg: Registry, t: Track.TrackerSet, ghost rs: seq<ResourceId>, ghost trackers0: Track.TrackerSet)
        returns (t': Track.TrackerSet)
      requires i < |rs| && id == rs[i] && reg.counts(id) < MIN_REFS && !(id.Buffer? && id.buffer in reg.pendingMap)
      requires ListedFrom(rs, reg, i + 1) && t == ReleasedTrackers(trackers0, rs, reg, i + 1)
      modifies this
      ensures ListedFrom(rs, reg, i) && t' == ReleasedTrackers(trackers0, rs, reg, i)
      ensures mapped == old(mapped) && readyToMap == old(readyToMap) && active == old(active) && free == old(free)
    {
      referenced := SwapRemove(referenced, i);
      assert referenced[..i] == rs[..i] by {
        assert old(referenced)[..i] == rs[..i + 1][..i];
      }
      match id {
        case Buffer(b) => t' := t.(buffers := t.buffers - {b});
        case BindGroup(g) => t' := t.(bindGroups := t.bindGroups - {g});
        case _ => t' := t;
      }
    }

    /** The removed entry `i` is placed unless the swap chain owns it. */
    method PlaceEntry(id: ResourceId, i: nat, reg: Registry, ghost rs: seq<ResourceId>, ghost indices: seq<SubmissionIndex>,
                      ghost active0: seq<ActiveSubmission>, ghost free0: seq<ResourceId>)
      requires i < |rs| && id == rs[i] && reg.counts(id) < MIN_REFS && !(id.Buffer? && id.buffer in reg.pendingMap)
      requires PlacedFrom(rs, reg, i + 1, indices, active0, free0)
      modifies this
      ensures PlacedFrom(rs, reg, i, indices, active0, free0)
      ensures mapped == old(mapped) && readyToMap == old(readyToMap) && referenced == old(referenced)
    {
      if !(id.Texture? && id.texture in reg.swapChainTextures) {
        ghost var activeBefore, freeBefore := active, free;
        Place(id, reg);
        PlacedReleased(activeBefore, freeBefore, active, free, rs, reg, i, indices, active0, free0);
      } else {
        PlacedUnreleased(active, free, rs, reg, i, indices, active0, free0);
      }
    }

    /**
     * `triage_referenced` with a buffer that is mapping left waiting: walking the list
     * from its end, each entry whose resource only the device still references is
     * removed (`swap_remove`), its buffer or bind group leaves the device tracker, and
     * unless it is swap-chain memory it is placed with its last submission. An entry
     * with fewer than three references makes the source panic; this is reported for the
     * last such entry, before anything changes.
     */
    method TriageReferenced(reg: Registry, trackers: Track.TrackerSet) returns (r: Result<Track.TrackerSet, DeviceError>)
      requires Valid()
      modifies this
      ensures Valid() && Indices(active) == Indices(old(active))
      ensures mapped == old(mapped) && readyToMap == old(readyToMap)
      ensures var short := LastShort(old(referenced), reg);
        short.Some? ==> (r == Failure(MissingReferences(old(referenced)[short.value]))
                         && referenced == old(referenced) && active == old(active) && free == old(free))
      ensures r.Failure? ==> LastShort(old(referenced), reg).Some?
      ensures r.Success? ==>
        && multiset(referenced) == multiset(KeptFrom(old(referenced), reg, 0))
        && (forall k :: 0 <= k < |active| ==>
             && active[k].mapped == old(active)[k].mapped
             && multiset(active[k].resources) ==
                multiset(old(active)[k].resources) + multiset(ReleasedAt(old(referenced), reg, 0, old(active)[k].index)))
        && multiset(free) == multiset(old(free)) + multiset(ReleasedFree(old(referenced), reg, 0, Indices(old(active))))
        && r.value == ReleasedTrackers(trackers, old(referenced), reg, 0)
    {
      var short := LastShort(referenced, reg);
      if short.Some? {
        return Failure(MissingReferences(referenced[short.value]));
      }
      ghost var rs := referenced;
      ghost var indices := Indices(active);
      var t := trackers;
      var i: nat := |referenced|;
      while i > 0
        invariant TriagedFrom(rs, reg, i, indices, old(active), old(free), trackers, t)
        invariant mapped == old(mapped) && readyToMap == old(readyToMap)
      {
        i := i - 1;
        t := TriageEntry(i, reg, t, rs, indices, old(active), old(free), trackers);
      }
      assert referenced == referenced[0..];
      r := Success(t);
    }

    /** The mapping waits with the submission whose index is the buffer's last submission, or is ready. */
    method PlaceMapped(b: BufferId, reg: Registry)
      requires Valid()
      modifies this
      ensures Valid() && Indices(active) == Indices(old(active))
      ensures forall k :: 0 <= k < |active| ==>
        && active[k].resources == old(active)[k].resources
        && active[k].mapped == old(active)[k].mapped + (if old(active)[k].index == reg.LastSubmission(Buffer(b)) then [b] else [])
      ensures readyToMap == old(readyToMap) + (if ActiveWith(Indices(old(active)), reg.LastSubmission(Buffer(b))).None? then [b] else [])
      ensures mapped == old(mapped) && referenced == old(referenced) && free == old(free)
    {
      var submitIndex := reg.LastSubmission(Buffer(b));
      match ActiveWith(Indices(active), submitIndex) {
        case Some(k) =>
          forall j | 0 <= j < |active|
            ensures active[j].index == submitIndex <==> j == k
          {
            ActiveWithUnique(Indices(active), submitIndex, j);
          }
          active := active[k := active[k].(mapped := active[k].mapped + [b])];
          assert Indices(active) == Indices(old(active));
        case None =>
          readyToMap := readyToMap + [b];
      }
    }

    /** The first `n` requested mappings wait with their submissions or are ready. */
    ghost predicate MappedSorted(ms: seq<BufferId>, reg: Registry, n: nat, indices: seq<SubmissionIndex>,
                                 active0: seq<ActiveSubmission>, ready0: seq<BufferId>)
      reads this
    {
      SortedUpTo(active, readyToMap, ms, reg, n, indices, active0, ready0)
    }

    /** One step of `triage_mapped`: the mapping at position `n` is sorted. */
    method SortMapped(n: nat, reg: Registry, ghost indices: seq<SubmissionIndex>,
                      ghost active0: seq<ActiveSubmission>, ghost ready0: seq<BufferId>)
      requires n < |mapped| && MappedSorted(mapped, reg, n, indices, active0, ready0)
      modifies this
      ensures MappedSorted(mapped, reg, n + 1, indices, active0, ready0)
      ensures mapped == old(mapped) && referenced == old(referenced) && free == old(free)
    {
      ghost var activeBefore, readyBefore := active, readyToMap;
      PlaceMapped(mapped[n], reg);
      SortedStep(activeBefore, readyBefore, active, readyToMap, mapped, reg, n, indices, active0, ready0);
    }

    /**
     * `triage_mapped`: every requested mapping waits with the active submission whose
     * index is the buffer's last submission, or is ready at once when there is none.
     */
    method TriageMapped(reg: Registry)
      requires Valid()
      modifies this
      ensures Valid() && Indices(active) == Indices(old(active))
      ensures mapped == []
      ensures forall k :: 0 <= k < |active| ==>
        && active[k].resources == old(active)[k].resources
        && active[k].mapped == old(active)[k].mapped + MappedAt(old(mapped), reg, |old(mapped)|, old(active)[k].index)
      ensures readyToMap == old(readyToMap) + MappedReady(old(mapped), reg, |old(mapped)|, Indices(old(active)))
      ensures active == WithMapped(old(active), old(mapped), reg)
      ensures referenced == old(referenced) && free == old(free)
    {
      ghost var indices := Indices(active);
      var n := 0;
      while n < |mapped|
        invariant mapped == old(mapped) && MappedSorted(mapped, reg, n, indices, old(active), old(readyToMap))
        invariant referenced == old(referenced) && free == old(free)
      {
        SortMapped(n, reg, indices, old(active), old(readyToMap));
        n := n + 1;
      }
      mapped := [];
      assert forall k :: 0 <= k < |active| ==> active[k].index == old(active)[k].index by {
        assert forall k :: 0 <= k < |active| ==> Indices(active)[k] == Indices(old(active))[k];
      }
    }

    /**
     * `cleanup`: retire the longest prefix of submissions whose fences are signalled
     * (all of them after a forced wait), release their resources and ready their
     * mappings, then destroy everything in `free`. Returns the index of the last
     * retired submission, every remaining one being later, or 0 when none is retired;
     * then nothing changes, not even `free`.
     */
    method Cleanup(forceWait: bool, signalled: SubmissionIndex -> bool) returns (lastDone: SubmissionIndex, destroyed: seq<ResourceId>)
      requires Valid()
      modifies this
      ensures Valid()
      ensures var n := DoneCount(Indices(old(active)), forceWait, signalled);
        && (n == 0 ==> lastDone == 0 && destroyed == [] && active == old(active) && free == old(free) && readyToMap == old(readyToMap))
        && (n > 0 ==>
             && lastDone == old(active)[n - 1].index
             && active == old(active)[n..]
             && destroyed == old(free) + FlatResources(old(active), n)
             && free == []
             && readyToMap == old(readyToMap) + FlatMapped(old(active), n))
      ensures lastDone > 0 ==> forall k :: 0 <= k < |active| ==> lastDone < active[k].index
      ensures mapped == old(mapped) && referenced == old(referenced)
    {
      var n := DoneCount(Indices(active), forceWait, signalled);
      if n == 0 {
        return 0, [];
      }
      lastDone := active[n - 1].index;
      Retire(n);
      destroyed := free;
      free := [];
    }

    /** The first `n` submissions leave the FIFO; their resources are freed and their mappings readied. */
    method Retire(n: nat)
      requires Valid() && n <= |active|
      modifies this
      ensures Valid() && active == old(active)[n..]
      ensures free == old(free) + FlatResources(old(active), n)
      ensures readyToMap == old(readyToMap) + FlatMapped(old(active), n)
      ensures mapped == old(mapped) && referenced == old(referenced)
    {
      var k := 0;
      while k < n
        invariant 0 <= k <= n && active == old(active)
        invariant free == old(free) + FlatResources(active, k)
        invariant readyToMap == old(readyToMap) + FlatMapped(active, k)
        invariant mapped == old(mapped) && referenced == old(referenced)
      {
        free := free + active[k].resources;
        readyToMap := readyToMap + active[k].mapped;
        k := k + 1;
      }
      assert Indices(active[n..]) == Indices(active)[n..];
      active := active[n..];
    }

    /** The mappings that can go ahead, taken out of the list. */
    method TakeReadyToMap() returns (buffers: seq<BufferId>)
      modifies this
      ensures buffers == old(readyToMap) && readyToMap == []
      ensures mapped == old(mapped) && referenced == old(referenced) && active == old(active) && free == old(free)
    {
      buffers := readyToMap;
      readyToMap := [];
    }

    /** A new submission joins the end of the FIFO. */
    method PushActive(index: SubmissionIndex)
      requires Valid() && forall k :: 0 <= k < |active| ==> active[k].index < index
      modifies this
      ensures Valid() && active == old(active) + [ActiveSubmission(index, [], [])]
      ensures mapped == old(mapped) && referenced == old(referenced) && free == old(free) && readyToMap == old(readyToMap)
    {
      active := active + [ActiveSubmission(index, [], [])];
    }
  }

  /** The resources a command buffer's tracker says it uses: its buffers and bind groups. */
  function UsedBy(comb: Track.TrackerSet): (r: set<ResourceId>)
    ensures forall id :: id in r <==>
      (id.Buffer? && id.buffer in comb.buffers) || (id.BindGroup? && id.group in comb.bindGroups)
  {
    (set b | b in comb.buffers :: Buffer(b)) + (set g | g in comb.bindGroups :: BindGroup(g))
  }

  /** The resources the first `n` command buffers use. */
  function UsedByAll(combs: seq<Track.TrackerSet>, n: nat): (r: set<ResourceId>)
    requires n <= |combs|
  {
    if n == 0 then {} else UsedByAll(combs, n - 1) + UsedBy(combs[n - 1])
  }

  /** A resource is used by the first `n` command buffers exactly when one of them uses it. */
  lemma {:induction false} UsedByAllMeaning(combs: seq<Track.TrackerSet>, n: nat, id: ResourceId)
    requires n <= |combs|
    ensures id in UsedByAll(combs, n) <==> exists k :: 0 <= k < n && id in UsedBy(combs[k])
  {
    if n > 0 {
      UsedByAllMeaning(combs, n - 1, id);
      if id in UsedBy(combs[n - 1]) {
        assert 0 <= n - 1 < n && id in UsedBy(combs[n - 1]);
      }
    }
  }

  /** Every resource in `used` records `index` as its last submission. */
  function Stamped(last: map<ResourceId, SubmissionIndex>, used: set<ResourceId>, index: SubmissionIndex): (r: map<ResourceId, SubmissionIndex>)
    ensures r.Keys == last.Keys + used
    ensures forall id :: id in used ==> r[id] == index
    ensures forall id :: id in last && id !in used ==> r[id] == last[id]
  {
    map id | id in last.Keys + used :: if id in used then index else last[id]
  }

  /** Stamping two sets in turn with one index stamps their union. */
  lemma StampedTwice(last: map<ResourceId, SubmissionIndex>, a: set<ResourceId>, b: set<ResourceId>, index: SubmissionIndex)
    ensures Stamped(Stamped(last, a, index), b, index) == Stamped(last, a + b, index)
  {
    var l := Stamped(Stamped(last, a, index), b, index);
    var r := Stamped(last, a + b, index);
    assert l.Keys == r.Keys;
    forall id | id in l.Keys
      ensures l[id] == r[id]
    {
    }
  }

  /** Stamping with an index no later than `hi` keeps every recorded index no later than `hi`. */
  lemma StampedWithin(last: map<ResourceId, SubmissionIndex>, used: set<ResourceId>, index: SubmissionIndex, hi: nat)
    requires index <= hi && forall id :: id in last ==> last[id] <= hi
    ensures forall id :: id in Stamped(last, used, index) ==> Stamped(last, used, index)[id] <= hi
  {
  }

  /** The device tracker and the barriers recorded so far while stitching command buffers in. */
  datatype Stitching = Stitching(tracker: Track.TrackerSet, barriers: seq<set<Track.Transition>>)

  /**
   * The first `n` command buffers stitched in turn into the device tracker `t`
   * (`Stitch::Init`), with the barriers each one needs.
   */
  function Stitched(t: Track.TrackerSet, combs: seq<Track.TrackerSet>, n: nat): Stitching
    requires n <= |combs|
  {
    if n == 0 then Stitching(t, [])
    else
      var before := Stitched(t, combs, n - 1);
      var merged := Track.MergeReplace(before.tracker, combs[n - 1]);
      Stitching(merged.0, before.barriers + [merged.1])
  }

  /** Stitching one more command buffer merges it into the tracker and records its barriers. */
  lemma StitchedStep(t: Track.TrackerSet, combs: seq<Track.TrackerSet>, k: nat, tracker: Track.TrackerSet, barriers: seq<set<Track.Transition>>)
    requires k < |combs| && Stitched(t, combs, k) == Stitching(tracker, barriers)
    ensures Stitched(t, combs, k + 1) ==
      Stitching(Track.MergeReplace(tracker, combs[k]).0, barriers + [Track.MergeReplace(tracker, combs[k]).1])
  {
  }

  /** Every index lies in `(lo, hi]`. */
  predicate Bounded(indices: seq<SubmissionIndex>, lo: nat, hi: nat) {
    forall k :: 0 <= k < |indices| ==> lo < indices[k] <= hi
  }

  /** Retiring the oldest submissions keeps the remaining indices within the same bounds. */
  lemma BoundedSuffix(active: seq<ActiveSubmission>, n: nat, lo: nat, hi: nat)
    requires n <= |active| && Bounded(Indices(active), lo, hi)
    ensures Bounded(Indices(active[n..]), lo, hi)
  {
    assert forall k :: 0 <= k < |active| - n ==> Indices(active[n..])[k] == Indices(active)[n + k];
  }

  /** The stitching loop of `queue_submit` on the device tracker `t0` and the last-submission record `last0`. */
  method StitchAll(t0: Track.TrackerSet, last0: map<ResourceId, SubmissionIndex>, combs: seq<Track.TrackerSet>, index: SubmissionIndex)
      returns (t: Track.TrackerSet, last: map<ResourceId, SubmissionIndex>, barriers: seq<set<Track.Transition>>)
    ensures Stitching(t, barriers) == Stitched(t0, combs, |combs|)
    ensures last == Stamped(last0, UsedByAll(combs, |combs|), index)
  {
    t := t0;
    last := last0;
    barriers := [];
    var k := 0;
    while k < |combs|
      invariant 0 <= k <= |combs|
      invariant Stitching(t, barriers) == Stitched(t0, combs, k)
      invariant last == Stamped(last0, UsedByAll(combs, k), index)
    {
      StampedTwice(last0, UsedByAll(combs, k), UsedBy(combs[k]), index);
      StitchedStep(t0, combs, k, t, barriers);
      last := Stamped(last, UsedBy(combs[k]), index);
      var stitched := Track.MergeReplace(t, combs[k]);
      t := stitched.0;
      barriers := barriers + [stitched.1];
      k := k + 1;
    }
  }

  /**
   * What `maintain` leaves once no destroyed entry is short of references, given the
   * lists before it (`mapped0` … `ready0`) and the number `n` of leading submissions
   * whose fences are signalled: the entries still referenced elsewhere stay listed;
   * the released ones wait with their last submission or are freed; every map request
   * waits with its submission; the first `n` submissions retire, and the free list is
   * destroyed with them; and the mappings handed out are those ready before, those no
   * submission in flight is using, and those of the retired submissions, in that order.
   */
  ghost predicate SettledFrom(reg: Registry, n: nat,
                              mapped0: seq<BufferId>, referenced0: seq<ResourceId>, active0: seq<ActiveSubmission>,
                              free0: seq<ResourceId>, ready0: seq<BufferId>,
                              referenced: seq<ResourceId>, active: seq<ActiveSubmission>, free: seq<ResourceId>,
                              callbacks: seq<BufferId>)
  {
    && n <= |active0|
    && multiset(referenced) == multiset(KeptFrom(referenced0, reg, 0))
    && |active| == |active0| - n
    && (forall k :: 0 <= k < |active| ==>
         && active[k].index == active0[n + k].index
         && active[k].mapped == active0[n + k].mapped + MappedAt(mapped0, reg, |mapped0|, active0[n + k].index)
         && multiset(active[k].resources) ==
            multiset(active0[n + k].resources) + multiset(ReleasedAt(referenced0, reg, 0, active0[n + k].index)))
    && (n == 0 ==> multiset(free) == multiset(free0) + multiset(ReleasedFree(referenced0, reg, 0, Indices(active0))))
    && (n > 0 ==> free == [])
    && callbacks == ready0 + MappedReady(mapped0, reg, |mapped0|, Indices(active0)) + FlatMapped(WithMapped(active0, mapped0, reg), n)
  }

  /** Triage followed by retirement leaves the lists as `SettledFrom` describes. */
  lemma SettledByTriageAndRetire(reg: Registry, n: nat,
                                 mapped0: seq<BufferId>, referenced0: seq<ResourceId>, active0: seq<ActiveSubmission>,
                                 free0: seq<ResourceId>, ready0: seq<BufferId>,
                                 triaged: seq<ActiveSubmission>, free1: seq<ResourceId>,
                                 referenced: seq<ResourceId>, active: seq<ActiveSubmission>, free: seq<ResourceId>,
                                 callbacks: seq<BufferId>)
    requires n <= |active0| && Indices(triaged) == Indices(active0)
    requires multiset(referenced) == multiset(KeptFrom(referenced0, reg, 0))
    requires forall k :: 0 <= k < |triaged| ==>
      && triaged[k].mapped == active0[k].mapped
      && multiset(triaged[k].resources) == multiset(active0[k].resources) + multiset(ReleasedAt(referenced0, reg, 0, active0[k].index))
    requires multiset(free1) == multiset(free0) + multiset(ReleasedFree(referenced0, reg, 0, Indices(active0)))
    requires active == WithMapped(triaged, mapped0, reg)[n..]
    requires free == (if n == 0 then free1 else [])
    requires callbacks == ready0 + MappedReady(mapped0, reg, |mapped0|, Indices(triaged)) + FlatMapped(WithMapped(triaged, mapped0, reg), n)
    ensures SettledFrom(reg, n, mapped0, referenced0, active0, free0, ready0, referenced, active, free, callbacks)
  {
    assert |triaged| == |active0| by {
      assert |Indices(triaged)| == |Indices(active0)|;
    }
    assert forall k :: 0 <= k < |triaged| ==> triaged[k].index == active0[k].index by {
      assert forall k :: 0 <= k < |triaged| ==> Indices(triaged)[k] == Indices(active0)[k];
    }
    FlatMappedSameMapped(WithMapped(triaged, mapped0, reg), WithMapped(active0, mapped0, reg), n);
  }

  /** What a submission returns: its index, the barriers stitched before each command buffer, and the map callbacks that fired. */
  datatype Submitted = Submitted(index: SubmissionIndex, barriers: seq<set<Track.Transition>>, callbacks: seq<BufferId>)

  /** The per-device state the lifetime tracking works on. */
  class Device {
    /** `life_guard.submission_index`: the index of the last submission, 1 before any. */
    var submissionIndex: SubmissionIndex
    /** The device's tracker: the state every buffer and bind group was last left in. */
    var trackers: Track.TrackerSet
    /** The buffers with a map operation pending. */
    var pendingMap: set<BufferId>
    /** Each resource's last submission index. */
    var lastSubmission: map<ResourceId, SubmissionIndex>
    const pending: PendingResources

    /**
     * Submission indices handed out so far never exceed the counter, and the
     * in-flight ones are all later than the starting value.
     */
    predicate Valid()
      reads this, pending
    {
      && pending.Valid() && submissionIndex >= 1
      && Bounded(Indices(pending.active), 1, submissionIndex)
      && (forall id :: id in lastSubmission ==> lastSubmission[id] <= submissionIndex)
    }

    /** `Device::new`: the submission counter starts at 1, nothing is tracked or pending. */
    constructor ()
      ensures Valid() && fresh(pending)
      ensures submissionIndex == 1 && trackers == Track.EMPTY && pendingMap == {} && lastSubmission == map[]
      ensures pending.mapped == [] && pending.referenced == [] && pending.active == []
      ensures pending.free == [] && pending.readyToMap == []
    {
      submissionIndex := 1;
      trackers := Track.EMPTY;
      pendingMap := {};
      lastSubmission := map[];
      pending := new PendingResources();
    }

    /**
     * `maintain`: triage the destroyed resources and the map requests, retire the
     * finished submissions and hand back the mappings that can go ahead; their map
     * operations are no longer pending. When triage finds an entry short of references
     * the source panics; here that is reported for the last such entry and nothing changes.
     */
    method Maintain(forceWait: bool, counts: ResourceId -> nat, swapChainTextures: set<nat>, signalled: SubmissionIndex -> bool,
                    ghost bound: SubmissionIndex)
        returns (r: Result<seq<BufferId>, DeviceError>)
      requires Valid() && Bounded(Indices(pending.active), 1, bound)
      modifies this, pending
      ensures Valid() && Bounded(Indices(pending.active), 1, bound)
      ensures submissionIndex == old(submissionIndex) && lastSubmission == old(lastSubmission)
      ensures var reg := Registry(counts, old(pendingMap), swapChainTextures, old(lastSubmission));
        var short := LastShort(old(pending.referenced), reg);
        && (r.Failure? <==> short.Some?)
        && (r.Failure? ==>
             && r.error == MissingReferences(old(pending.referenced)[short.value])
             && trackers == old(trackers) && pendingMap == old(pendingMap)
             && pending.mapped == old(pending.mapped) && pending.referenced == old(pending.referenced)
             && pending.active == old(pending.active) && pending.free == old(pending.free)
             && pending.readyToMap == old(pending.readyToMap))
        && (r.Success? ==>
             && trackers == ReleasedTrackers(old(trackers), old(pending.referenced), reg, 0)
             && SettledFrom(reg, DoneCount(Indices(old(pending.active)), forceWait, signalled),
                            old(pending.mapped), old(pending.referenced), old(pending.active), old(pending.free), old(pending.readyToMap),
                            pending.referenced, pending.active, pending.free, r.value)
             && pending.mapped == [] && pending.readyToMap == []
             && pendingMap == old(pendingMap) - set b | b in r.value)
    {
      var short := LastShort(pending.referenced, Registry(counts, pendingMap, swapChainTextures, lastSubmission));
      if short.Some? {
        return Failure(MissingReferences(pending.referenced[short.value]));
      }
      var callbacks := Settle(forceWait, counts, swapChainTextures, signalled, bound);
      r := Success(callbacks);
    }

    /** `maintain` once no destroyed entry is short of references: triage, then retire. */
    method Settle(forceWait: bool, counts: ResourceId -> nat, swapChainTextures: set<nat>, signalled: SubmissionIndex -> bool,
                  ghost bound: SubmissionIndex)
        returns (callbacks: seq<BufferId>)
      requires Valid() && Bounded(Indices(pending.active), 1, bound)
      requires LastShort(pending.referenced, Registry(counts, pendingMap, swapChainTextures, lastSubmission)).None?
      modifies this, pending
      ensures Valid() && Bounded(Indices(pending.active), 1, bound)
      ensures submissionIndex == old(submissionIndex) && lastSubmission == old(lastSubmission)
      ensures var reg := Registry(counts, old(pendingMap), swapChainTextures, old(lastSubmission));
        && trackers == ReleasedTrackers(old(trackers), old(pending.referenced), reg, 0)
        && SettledFrom(reg, DoneCount(Indices(old(pending.active)), forceWait, signalled),
                       old(pending.mapped), old(pending.referenced), old(pending.active), old(pending.free), old(pending.readyToMap),
                       pending.referenced, pending.active, pending.free, callbacks)
      ensures pending.mapped == [] && pending.readyToMap == []
      ensures pendingMap == old(pendingMap) - set b | b in callbacks
    {
      var reg := Registry(counts, pendingMap, swapChainTextures, lastSubmission);
      var triaged := pending.TriageReferenced(reg, trackers);
      trackers := triaged.value;
      ghost var triagedActive, triagedFree := pending.active, pending.free;
      callbacks := Retire(reg, forceWait, signalled, bound);
      SettledByTriageAndRetire(reg, DoneCount(Indices(old(pending.active)), forceWait, signalled),
                               old(pending.mapped), old(pending.referenced), old(pending.active), old(pending.free), old(pending.readyToMap),
                               triagedActive, triagedFree, pending.referenced, pending.active, pending.free, callbacks);
    }

    /**
     * The rest of `maintain` once the destroyed resources are triaged: sort the map
     * requests onto the submissions in flight, retire the submissions whose fences are
     * signalled and take the mappings that can go ahead: those ready before, those no
     * submission in flight is using, and those of the retired submissions.
     */
    method Retire(reg: Registry, forceWait: bool, signalled: SubmissionIndex -> bool, ghost bound: SubmissionIndex)
        returns (callbacks: seq<BufferId>)
      requires Valid() && Bounded(Indices(pending.active), 1, bound) && reg.pendingMap == pendingMap
      modifies this, pending
      ensures Valid() && Bounded(Indices(pending.active), 1, bound)
      ensures submissionIndex == old(submissionIndex) && lastSubmission == old(lastSubmission) && trackers == old(trackers)
      ensures var n := DoneCount(Indices(old(pending.active)), forceWait, signalled);
        var sorted := WithMapped(old(pending.active), old(pending.mapped), reg);
        && pending.active == sorted[n..]
        && pending.free == (if n == 0 then old(pending.free) else [])
        && callbacks == old(pending.readyToMap) + MappedReady(old(pending.mapped), reg, |old(pending.mapped)|, Indices(old(pending.active)))
                        + FlatMapped(sorted, n)
      ensures pending.mapped == [] && pending.readyToMap == [] && pending.referenced == old(pending.referenced)
      ensures pendingMap == old(pendingMap) - set b | b in callbacks
    {
      pending.TriageMapped(reg);
      ghost var sorted := pending.active;
      var lastDone, destroyed := pending.Cleanup(forceWait, signalled);
      BoundedSuffix(sorted, DoneCount(Indices(sorted), forceWait, signalled), 1, bound);
      BoundedSuffix(sorted, DoneCount(Indices(sorted), forceWait, signalled), 1, submissionIndex);
      callbacks := pending.TakeReadyToMap();
      pendingMap := pendingMap - set b | b in callbacks;
    }

    /**
     * `queue_submit`: a fresh index one past the counter is taken, every resource the
     * command buffers use records it, their trackers are stitched into the device's
     * with the barriers that needs, the device is maintained, and the submission joins
     * the FIFO. A submitted buffer whose map operation is pending, and a destroyed entry
     * short of references, make the source panic; here each is reported before anything
     * changes.
     */
    method QueueSubmit(combs: seq<Track.TrackerSet>, counts: ResourceId -> nat, swapChainTextures: set<nat>,
                       signalled: SubmissionIndex -> bool) returns (r: Result<Submitted, DeviceError>)
      requires Valid()
      modifies this, pending
      ensures Valid()
      ensures var mappedUsed := exists b :: b in old(pendingMap) && Buffer(b) in UsedByAll(combs, |combs|);
        var short := LastShort(old(pending.referenced), Registry(counts, old(pendingMap), swapChainTextures, old(lastSubmission)));
        && (mappedUsed ==>
             && r.Failure? && r.error.MappedBufferSubmitted?
             && r.error.buffer in old(pendingMap) && Buffer(r.error.buffer) in UsedByAll(combs, |combs|))
        && (!mappedUsed && short.Some? ==> r == Failure(MissingReferences(old(pending.referenced)[short.value])))
        && (r.Success? <==> !mappedUsed && short.None?)
      ensures r.Failure? ==>
        && submissionIndex == old(submissionIndex) && trackers == old(trackers) && lastSubmission == old(lastSubmission)
        && pendingMap == old(pendingMap)
        && pending.mapped == old(pending.mapped) && pending.referenced == old(pending.referenced)
        && pending.active == old(pending.active) && pending.free == old(pending.free)
        && pending.readyToMap == old(pending.readyToMap)
      ensures r.Success? ==>
        var index := old(submissionIndex) + 1;
        var stamped := Stamped(old(lastSubmission), UsedByAll(combs, |combs|), index);
        var reg := Registry(counts, old(pendingMap), swapChainTextures, stamped);
        && r.value.index == index == submissionIndex
        && r.value.barriers == Stitched(old(trackers), combs, |combs|).barriers
        && lastSubmission == stamped
        && trackers == ReleasedTrackers(Stitched(old(trackers), combs, |combs|).tracker, old(pending.referenced), reg, 0)
        && |pending.active| > 0 && pending.active[|pending.active| - 1] == ActiveSubmission(index, [], [])
        && SettledFrom(reg, DoneCount(Indices(old(pending.active)), false, signalled),
                       old(pending.mapped), old(pending.referenced), old(pending.active), old(pending.free), old(pending.readyToMap),
                       pending.referenced, pending.active[..|pending.active| - 1], pending.free, r.value.callbacks)
        && pending.mapped == [] && pending.readyToMap == []
        && pendingMap == old(pendingMap) - set b | b in r.value.callbacks
    {
      if b :| b in pendingMap && Buffer(b) in UsedByAll(combs, |combs|) {
        return Failure(MappedBufferSubmitted(b));
      }
      var short := LastShort(pending.referenced, Registry(counts, pendingMap, swapChainTextures, lastSubmission));
      if short.Some? {
        return Failure(MissingReferences(pending.referenced[short.value]));
      }
      var submitted := Submit(combs, counts, swapChainTextures, signalled);
      r := Success(submitted);
    }

    /** `queue_submit` once neither a mapped buffer is submitted nor a destroyed entry is short of references. */
    method Submit(combs: seq<Track.TrackerSet>, counts: ResourceId -> nat, swapChainTextures: set<nat>,
                  signalled: SubmissionIndex -> bool) returns (submitted: Submitted)
      requires Valid()
      requires LastShort(pending.referenced, Registry(counts, pendingMap, swapChainTextures, lastSubmission)).None?
      modifies this, pending
      ensures Valid()
      ensures var index := old(submissionIndex) + 1;
        var stamped := Stamped(old(lastSubmission), UsedByAll(combs, |combs|), index);
        var reg := Registry(counts, old(pendingMap), swapChainTextures, stamped);
        && submitted.index == index == submissionIndex
        && submitted.barriers == Stitched(old(trackers), combs, |combs|).barriers
        && lastSubmission == stamped
        && trackers == ReleasedTrackers(Stitched(old(trackers), combs, |combs|).tracker, old(pending.referenced), reg, 0)
        && |pending.active| > 0 && pending.active[|pending.active| - 1] == ActiveSubmission(index, [], [])
        && SettledFrom(reg, DoneCount(Indices(old(pending.active)), false, signalled),
                       old(pending.mapped), old(pending.referenced), old(pending.active), old(pending.free), old(pending.readyToMap),
                       pending.referenced, pending.active[..|pending.active| - 1], pending.free, submitted.callbacks)
        && pending.mapped == [] && pending.readyToMap == []
        && pendingMap == old(pendingMap) - set b | b in submitted.callbacks
    {
      var submitIndex := submissionIndex + 1;
      submissionIndex := submitIndex;
      var barriers := Stitch(combs, submitIndex);
      StampedWithin(old(lastSubmission), UsedByAll(combs, |combs|), submitIndex, submitIndex);
      var callbacks := Settle(false, counts, swapChainTextures, signalled, submitIndex - 1);
      ghost var settled := pending.active;
      pending.PushActive(submitIndex);
      assert pending.active[..|pending.active| - 1] == settled;
      submitted := Submitted(submitIndex, barriers, callbacks);
    }

    /** Each command buffer in turn stamps its resources with `index` and is stitched into the device tracker. */
    method Stitch(combs: seq<Track.TrackerSet>, index: SubmissionIndex) returns (barriers: seq<set<Track.Transition>>)
      modifies this
      ensures Stitching(trackers, barriers) == Stitched(old(trackers), combs, |combs|)
      ensures lastSubmission == Stamped(old(lastSubmission), UsedByAll(combs, |combs|), index)
      ensures submissionIndex == old(submissionIndex) && pendingMap == old(pendingMap)
    {
      var t, last;
      t, last, barriers := StitchAll(trackers, lastSubmission, combs, index);
      trackers := t;
      lastSubmission := last;
    }

    /**
     * `buffer_map_async`: a buffer already mapping reports an error and nothing changes;
     * otherwise its map operation is pending, the device tracker puts it in the
     * requested usage and the request waits to be triaged.
     */
    method BufferMapAsync(buffer: BufferId, usage: BufferUsage.Flags) returns (r: Result<(), DeviceError>)
      requires Valid()
      modifies this, pending
      ensures Valid()
      ensures buffer in old(pendingMap) ==>
        && r == Failure(MapAlreadyPending(buffer))
        && pendingMap == old(pendingMap) && trackers == old(trackers) && pending.mapped == old(pending.mapped)
      ensures buffer !in old(pendingMap) ==>
        && r == Success(())
        && pendingMap == old(pendingMap) + {buffer}
        && trackers.buffers == old(trackers).buffers[buffer := usage] && trackers.bindGroups == old(trackers).bindGroups
        && pending.mapped == old(pending.mapped) + [buffer]
      ensures submissionIndex == old(submissionIndex) && lastSubmission == old(lastSubmission)
      ensures pending.referenced == old(pending.referenced) && pending.active == old(pending.active)
    {
      if buffer in pendingMap {
        return Failure(MapAlreadyPending(buffer));
      }
      pendingMap := pendingMap + {buffer};
      trackers := Track.UseReplace(trackers, buffer, usage).0;
      pending.Map(buffer);
      r := Success(());
    }
  }
}
