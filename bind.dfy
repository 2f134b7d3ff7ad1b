/**
 * The bind-group binder of a pass: four slots, each with the layout the current
 * pipeline expects there, the group the user provided and its dynamic offsets.
 */
module Bind {
  import opened Wrappers

  const MAX_BIND_GROUPS: nat := 4

  type LayoutId = nat
  type GroupId = nat
  type PipelineLayoutId = nat
  /** A dynamic offset, a buffer address. */
  type Offset = nat

  datatype BindGroupPair = BindGroupPair(layoutId: LayoutId, groupId: GroupId)

  /** What a new expectation means for a slot. */
  datatype LayoutChange = Unchanged | Match(groupId: GroupId, offsets: seq<Offset>) | Mismatch

  /** What providing a group did to a slot. */
  datatype Provision = Unchanged | Changed(wasCompatible: bool)

  /** The contents of one slot as a value. */
  datatype EntryState = EntryState(expected: Option<LayoutId>, provided: Option<BindGroupPair>, offsets: seq<Offset>)
  {
    /** A slot is valid when nothing is expected or the provided group has the expected layout. */
    predicate IsValid() {
      match expected
      case None => true
      case Some(layout) => provided.Some? && provided.value.layoutId == layout
    }

    /** The group to bind in this slot: present only when something is expected and it is met. */
    function ActualValue(): (r: Option<GroupId>)
      ensures r.Some? <==> expected.Some? && IsValid()
      ensures r.Some? ==> provided.Some? && r.value == provided.value.groupId
    {
      match expected
      case None => None
      case Some(layout) =>
        if provided.Some? && provided.value.layoutId == layout then Some(provided.value.groupId) else None
    }

    /** The slot already holds this group with these very offsets. */
    predicate SameProvision(groupId: GroupId, newOffsets: seq<Offset>) {
      provided.Some? && provided.value.groupId == groupId && newOffsets == offsets
    }

    /** The answer `provide` gives. */
    function ProvideOutcome(groupId: GroupId, newOffsets: seq<Offset>): Provision {
      if SameProvision(groupId, newOffsets) then Provision.Unchanged
      else Provision.Changed(provided.None? || expected == Some(provided.value.layoutId))
    }

    /** The slot after `provide`. */
    function AfterProvide(groupId: GroupId, layoutId: LayoutId, newOffsets: seq<Offset>): EntryState {
      if SameProvision(groupId, newOffsets) then this
      else EntryState(expected, Some(BindGroupPair(layoutId, groupId)), newOffsets)
    }

    /** The answer `expect_layout` gives. */
    function ExpectOutcome(layoutId: LayoutId): LayoutChange {
      if expected == Some(layoutId) then LayoutChange.Unchanged
      else if provided.Some? && provided.value.layoutId == layoutId then Match(provided.value.groupId, offsets)
      else Mismatch
    }

    /** The slot after `expect_layout`. */
    function AfterExpect(layoutId: LayoutId): EntryState {
      this.(expected := Some(layoutId))
    }
  }

  /** Providing the same group with the same offsets a second time is a no-op. */
  lemma ProvideIdempotent(e: EntryState, groupId: GroupId, layoutId: LayoutId, offsets: seq<Offset>)
    ensures var e' := e.AfterProvide(groupId, layoutId, offsets);
            e'.ProvideOutcome(groupId, offsets) == Provision.Unchanged && e'.AfterProvide(groupId, layoutId, offsets) == e'
  {
  }

  /**
   * A changing provision records the group and exactly the given offsets, leaves the
   * expectation alone, and makes the slot valid iff the group's layout is the expected one.
   * `wasCompatible` holds when nothing was there, or when the old group met an expectation.
   */
  lemma ProvideChanged(e: EntryState, groupId: GroupId, layoutId: LayoutId, offsets: seq<Offset>)
    requires e.ProvideOutcome(groupId, offsets).Changed?
    ensures var e' := e.AfterProvide(groupId, layoutId, offsets);
            && e'.provided == Some(BindGroupPair(layoutId, groupId))
            && e'.offsets == offsets
            && e'.expected == e.expected
            && (e'.IsValid() <==> e.expected.None? || e.expected == Some(layoutId))
    ensures e.provided.None? ==> e.ProvideOutcome(groupId, offsets).wasCompatible
    ensures e.provided.Some? ==> (e.ProvideOutcome(groupId, offsets).wasCompatible <==> e.expected.Some? && e.IsValid())
  {
  }

  /**
   * A new expectation answers Unchanged iff it is the current one, Match iff the provided
   * group meets it (the slot is then valid and binds that group), and Mismatch otherwise
   * (the slot is then invalid).
   */
  lemma ExpectOutcomeMeaning(e: EntryState, layoutId: LayoutId)
    ensures var c := e.ExpectOutcome(layoutId);
            var e' := e.AfterExpect(layoutId);
            && (c.Unchanged? <==> e.expected == Some(layoutId))
            && (c.Unchanged? ==> e' == e)
            && (c.Match? ==> e'.IsValid() && e'.ActualValue() == Some(c.groupId) && c.offsets == e.offsets)
            && (c.Mismatch? <==> !c.Unchanged? && !e'.IsValid())
  {
  }

  /** `compatible_count`: the position of the first invalid slot, or the slot count. */
  function CompatibleCount(es: seq<EntryState>): (n: nat)
    ensures n <= |es|
    ensures forall i :: 0 <= i < n ==> es[i].IsValid()
    ensures n < |es| ==> !es[n].IsValid()
  {
    if |es| == 0 || !es[0].IsValid() then 0 else 1 + CompatibleCount(es[1..])
  }

  /** The single bit `i` of a `u8` mask. */
  function Bit(i: nat): bv8
    requires i < 8
  {
    (1 as bv8) << i
  }

  predicate HasBit(m: bv8, i: nat)
    requires i < 8
  {
    m & Bit(i) != 0
  }

  lemma BitValues()
    ensures Bit(0) == 1 && Bit(1) == 2 && Bit(2) == 4 && Bit(3) == 8
    ensures Bit(4) == 16 && Bit(5) == 32 && Bit(6) == 64 && Bit(7) == 128
  {
  }

  /** Setting bit `k` adds exactly that bit. */
  lemma OrBit(m: bv8, k: nat)
    requires k < 8
    ensures forall i :: 0 <= i < 8 ==> (HasBit(m | Bit(k), i) <==> HasBit(m, i) || i == k)
  {
    BitValues();
    forall i | 0 <= i < 8
      ensures HasBit(m | Bit(k), i) <==> HasBit(m, i) || i == k
    {
      // Bit(k) and Bit(i) are constants here, so each case is a fixed-width identity.
      assert (m | Bit(k)) & Bit(i) == (m & Bit(i)) | (Bit(k) & Bit(i));
      assert Bit(k) & Bit(i) != 0 <==> i == k by {
        assert k == 0 || k == 1 || k == 2 || k == 3 || k == 4 || k == 5 || k == 6 || k == 7;
        assert i == 0 || i == 1 || i == 2 || i == 3 || i == 4 || i == 5 || i == 6 || i == 7;
      }
    }
  }

  /** `invalid_mask`: bit i is set iff slot i is invalid. */
  function InvalidMask(es: seq<EntryState>): (m: bv8)
    requires |es| <= 8
    ensures forall i :: 0 <= i < 8 ==> (HasBit(m, i) <==> i < |es| && !es[i].IsValid())
  {
    if |es| == 0 then 0
    else
      var m := InvalidMask(es[..|es| - 1]);
      OrBit(m, |es| - 1);
      if es[|es| - 1].IsValid() then m else m | Bit(|es| - 1)
  }

  /** A mask with none of its eight bits set is zero. */
  lemma NoBitsIsZero(m: bv8)
    requires forall i :: 0 <= i < 8 ==> !HasBit(m, i)
    ensures m == 0
  {
    assert !HasBit(m, 0) && !HasBit(m, 1) && !HasBit(m, 2) && !HasBit(m, 3);
    assert !HasBit(m, 4) && !HasBit(m, 5) && !HasBit(m, 6) && !HasBit(m, 7);
  }

  function LowestBitFrom(m: bv8, k: nat): (n: nat)
    requires k <= 8
    ensures k <= n <= 8
    ensures n < 8 ==> HasBit(m, n)
    ensures forall i :: k <= i < n ==> !HasBit(m, i)
    decreases 8 - k
  {
    if k == 8 then 8 else if HasBit(m, k) then k else LowestBitFrom(m, k + 1)
  }

  /** `u8::trailing_zeros`: the lowest set bit, or 8 for the empty mask. */
  function TrailingZeros(m: bv8): (n: nat)
    ensures n <= 8
    ensures n < 8 ==> HasBit(m, n)
    ensures forall i :: 0 <= i < n ==> !HasBit(m, i)
    ensures n == 8 <==> m == 0
  {
    var n := LowestBitFrom(m, 0);
    if n == 8 then NoBitsIsZero(m); n else n
  }

  /**
   * The mask is non-zero exactly when some slot is invalid, and then its lowest bit is
   * the compatible count: the first invalid slot.
   */
  lemma MaskAgreesWithCompatibleCount(es: seq<EntryState>)
    requires |es| == MAX_BIND_GROUPS
    ensures InvalidMask(es) != 0 <==> CompatibleCount(es) < |es|
    ensures InvalidMask(es) != 0 ==> TrailingZeros(InvalidMask(es)) == CompatibleCount(es)
  {
    var m, n := InvalidMask(es), CompatibleCount(es);
    if n < |es| {
      assert HasBit(m, n);
      var t := TrailingZeros(m);
      assert t <= n;
      assert !(t < n);
    } else {
      assert forall i :: 0 <= i < 8 ==> !HasBit(m, i);
      NoBitsIsZero(m);
    }
  }

  /** `TakeSome`: the values in front of the first `None`. */
  function TakeSome<T>(xs: seq<Option<T>>): (r: seq<T>)
    ensures |r| <= |xs|
    ensures forall i :: 0 <= i < |r| ==> xs[i] == Some(r[i])
    ensures |r| < |xs| ==> xs[|r|].None?
  {
    if |xs| == 0 || xs[0].None? then [] else [xs[0].value] + TakeSome(xs[1..])
  }

  function ActualValues(es: seq<EntryState>): (r: seq<Option<GroupId>>)
    ensures |r| == |es| && forall i :: 0 <= i < |es| ==> r[i] == es[i].ActualValue()
  {
    seq(|es|, i requires 0 <= i < |es| => es[i].ActualValue())
  }

  /** The dynamic offsets of consecutive slots, one after another. */
  function FlatOffsets(es: seq<EntryState>): seq<Offset> {
    if |es| == 0 then [] else es[0].offsets + FlatOffsets(es[1..])
  }

  function Min(a: nat, b: nat): nat {
    if a <= b then a else b
  }

  /** What `provide_entry` hands back: the layout to bind with, the follow-up groups and their offsets. */
  datatype FollowUp = FollowUp(pipelineLayoutId: PipelineLayoutId, groups: seq<GroupId>, offsets: seq<Offset>)

  /** The end of the follow-up range after a change at `index`. */
  function FollowUpEnd(es: seq<EntryState>, index: nat, wasCompatible: bool): nat {
    Min(CompatibleCount(es), if wasCompatible then index + 1 else MAX_BIND_GROUPS)
  }

  /** The groups TakeSome keeps from slots `lo..hi` are their actual values, up to the first slot without one. */
  lemma BoundPrefix(es: seq<EntryState>, lo: nat, hi: nat)
    requires lo <= hi <= |es|
    ensures var groups := TakeSome(ActualValues(es[lo .. hi]));
            && lo + |groups| <= hi
            && (forall j :: 0 <= j < |groups| ==> es[lo + j].ActualValue() == Some(groups[j]))
            && (lo + |groups| < hi ==> es[lo + |groups|].ActualValue().None?)
  {
    var values := ActualValues(es[lo .. hi]);
    var groups := TakeSome(values);
    assert forall j :: 0 <= j < |groups| ==> values[j] == es[lo + j].ActualValue();
    assert lo + |groups| < hi ==> values[|groups|] == es[lo + |groups|].ActualValue();
  }

  /**
   * The follow-ups of a changed slot as bind.rs:171-190 computes them: the groups stop at
   * the first follow-up slot without an expectation, but the offsets are those of every
   * slot up to the end of the range.
   */
  function FollowUpsAsWritten(es: seq<EntryState>, layout: Option<PipelineLayoutId>, index: nat, wasCompatible: bool): Option<FollowUp>
    requires |es| == MAX_BIND_GROUPS && index < MAX_BIND_GROUPS
  {
    if index < CompatibleCount(es) && layout.Some? then
      var slots := es[index + 1 .. FollowUpEnd(es, index, wasCompatible)];
      Some(FollowUp(layout.value, TakeSome(ActualValues(slots)), FlatOffsets(slots)))
    else None
  }

  /**
   * The follow-ups with each offset belonging to a group that is bound: the same groups,
   * and the offsets of exactly the slots those groups come from.
   */
  function FollowUps(es: seq<EntryState>, layout: Option<PipelineLayoutId>, index: nat, wasCompatible: bool): (r: Option<FollowUp>)
    requires |es| == MAX_BIND_GROUPS && index < MAX_BIND_GROUPS
    ensures r.None? <==> index >= CompatibleCount(es) || layout.None?
  {
    if index < CompatibleCount(es) && layout.Some? then
      var end := FollowUpEnd(es, index, wasCompatible);
      var groups := TakeSome(ActualValues(es[index + 1 .. end]));
      assert index + 1 + |groups| <= end;
      Some(FollowUp(layout.value, groups, FlatOffsets(es[index + 1 .. index + 1 + |groups|])))
    else None
  }

  /**
   * The follow-up groups are the bound groups of the slots after the change, up to the
   * first slot with no expectation or the end of the range; the offsets are those of
   * exactly these slots; a change to a slot that was already compatible rebinds nothing after it.
   */
  lemma FollowUpsMeaning(es: seq<EntryState>, layout: Option<PipelineLayoutId>, index: nat, wasCompatible: bool)
    requires |es| == MAX_BIND_GROUPS && index < MAX_BIND_GROUPS
    ensures var r := FollowUps(es, layout, index, wasCompatible);
      r.Some? ==>
      var end := FollowUpEnd(es, index, wasCompatible);
      var k := |r.value.groups|;
      && r.value.pipelineLayoutId == layout.value
      && index + 1 + k <= end
      && (forall j :: 0 <= j < k ==> es[index + 1 + j].ActualValue() == Some(r.value.groups[j]))
      && (index + 1 + k < end ==> es[index + 1 + k].expected.None?)
      && r.value.offsets == FlatOffsets(es[index + 1 .. index + 1 + k])
    ensures var r := FollowUps(es, layout, index, wasCompatible);
      wasCompatible && r.Some? ==> r.value.groups == [] && r.value.offsets == []
  {
    if index < CompatibleCount(es) && layout.Some? {
      BoundPrefix(es, index + 1, FollowUpEnd(es, index, wasCompatible));
    }
  }

  /** Slots 1 to 3 of the example below are all valid, having no expectation. */
  lemma ExampleAllCompatible(after: seq<EntryState>)
    requires |after| == MAX_BIND_GROUPS && after[0].IsValid()
    requires after[1].expected.None? && after[2].expected.None? && after[3].expected.None?
    ensures CompatibleCount(after) == 4
  {
    assert CompatibleCount(after[3..]) == 1;
    assert CompatibleCount(after[2..]) == 1 + CompatibleCount(after[2..][1..]);
    assert after[2..][1..] == after[3..];
    assert CompatibleCount(after[1..]) == 1 + CompatibleCount(after[1..][1..]);
    assert after[1..][1..] == after[2..];
    assert after[0..][1..] == after[1..];
  }

  /**
   * The as-written follow-ups can carry offsets of a slot whose group is not bound: here
   * slot 2 keeps a group with one dynamic offset from an earlier pipeline but nothing is
   * expected there, so no follow-up group is bound while its offset 256 is still passed on.
   */
  lemma FollowUpOffsetsOfUnboundSlot()
    ensures var before := [
              EntryState(Some(0), Some(BindGroupPair(1, 11)), []),
              EntryState(None, None, []),
              EntryState(None, Some(BindGroupPair(2, 12)), [256]),
              EntryState(None, None, [])];
            var p := before[0].ProvideOutcome(10, []);
            var after := before[0 := before[0].AfterProvide(10, 0, [])];
            && p == Provision.Changed(false)
            && FollowUpsAsWritten(after, Some(7), 0, false) == Some(FollowUp(7, [], [256]))
            && FollowUps(after, Some(7), 0, false) == Some(FollowUp(7, [], []))
  {
    var before := [
      EntryState(Some(0), Some(BindGroupPair(1, 11)), []),
      EntryState(None, None, []),
      EntryState(None, Some(BindGroupPair(2, 12)), [256]),
      EntryState(None, None, [])];
    assert !before[0].SameProvision(10, []);
    var after := [
      EntryState(Some(0), Some(BindGroupPair(0, 10)), []),
      EntryState(None, None, []),
      EntryState(None, Some(BindGroupPair(2, 12)), [256]),
      EntryState(None, None, [])];
    assert before[0 := before[0].AfterProvide(10, 0, [])] == after;
    FollowUpsAfterUnboundSlot(after);
  }

  /** The follow-ups of slot 0 in the state `FollowUpOffsetsOfUnboundSlot` reaches. */
  lemma FollowUpsAfterUnboundSlot(after: seq<EntryState>)
    requires after == [
               EntryState(Some(0), Some(BindGroupPair(0, 10)), []),
               EntryState(None, None, []),
               EntryState(None, Some(BindGroupPair(2, 12)), [256]),
               EntryState(None, None, [])]
    ensures FollowUpsAsWritten(after, Some(7), 0, false) == Some(FollowUp(7, [], [256]))
    ensures FollowUps(after, Some(7), 0, false) == Some(FollowUp(7, [], []))
  {
    ExampleAllCompatible(after);
    assert FollowUpEnd(after, 0, false) == 4;
    var slots := after[1..4];
    assert ActualValues(slots)[0] == None;
    assert TakeSome(ActualValues(slots)) == [];
    assert after[1..1] == [];
    assert FlatOffsets(slots) == [256] by {
      assert FlatOffsets(slots[2..]) == [] by {
        assert FlatOffsets(slots[2..][1..]) == [];
      }
      assert slots[1..][1..] == slots[2..];
    }
  }

  /** Which slot to rebind after a layout change, with which group and offsets. */
  datatype Rebind = Rebind(index: nat, groupId: GroupId, offsets: seq<Offset>)

  predicate NoMismatchBetween(es: seq<EntryState>, layouts: seq<LayoutId>, lo: nat, hi: nat)
    requires |layouts| <= |es| && hi <= |layouts|
  {
    forall j :: lo <= j < hi ==> !es[j].ExpectOutcome(layouts[j]).Mismatch?
  }

  /**
   * The rebinds the loop over the first `n` slots under new expectations `layouts` has
   * collected: a Match is rebound while no earlier slot reported a Mismatch.
   */
  function Rebinds(es: seq<EntryState>, layouts: seq<LayoutId>, n: nat): seq<Rebind>
    requires |layouts| <= |es| && n <= |layouts|
  {
    if n == 0 then []
    else
      var outcome := es[n - 1].ExpectOutcome(layouts[n - 1]);
      Rebinds(es, layouts, n - 1)
        + (if outcome.Match? && NoMismatchBetween(es, layouts, 0, n - 1) then [Rebind(n - 1, outcome.groupId, outcome.offsets)] else [])
  }

  /** One more slot of the loop: its rebind, if any, is appended, and a Mismatch ends compatibility. */
  lemma RebindsStep(es: seq<EntryState>, layouts: seq<LayoutId>, i: nat)
    requires |layouts| <= |es| && i < |layouts|
    ensures var outcome := es[i].ExpectOutcome(layouts[i]);
      && Rebinds(es, layouts, i + 1) == Rebinds(es, layouts, i)
           + (if outcome.Match? && NoMismatchBetween(es, layouts, 0, i) then [Rebind(i, outcome.groupId, outcome.offsets)] else [])
      && (NoMismatchBetween(es, layouts, 0, i + 1) <==> NoMismatchBetween(es, layouts, 0, i) && !outcome.Mismatch?)
  {
  }

  /**
   * Slot k is rebound with (g, o) iff it answers Match(g, o) and no slot before it
   * answered Mismatch. The rebinds come in slot order.
   */
  lemma {:induction false} RebindsMeaning(es: seq<EntryState>, layouts: seq<LayoutId>, n: nat)
    requires |layouts| <= |es| && n <= |layouts|
    ensures forall r :: r in Rebinds(es, layouts, n) <==>
      && 0 <= r.index < n
      && es[r.index].ExpectOutcome(layouts[r.index]) == Match(r.groupId, r.offsets)
      && NoMismatchBetween(es, layouts, 0, r.index)
    ensures forall a, b :: 0 <= a < b < |Rebinds(es, layouts, n)| ==>
      Rebinds(es, layouts, n)[a].index < Rebinds(es, layouts, n)[b].index
    ensures forall a :: 0 <= a < |Rebinds(es, layouts, n)| ==> Rebinds(es, layouts, n)[a].index < n
  {
    if n > 0 {
      RebindsMeaning(es, layouts, n - 1);
    }
  }

  /**
   * The slots while a new pipeline layout is being expected: the first `i` slots expect
   * their new layouts, the rest of the layout's slots are untouched so far, and the
   * slots past the layout expect nothing.
   */
  function ExpectedStates(es: seq<EntryState>, layouts: seq<LayoutId>, i: nat): (r: seq<EntryState>)
    requires |es| == MAX_BIND_GROUPS && |layouts| <= MAX_BIND_GROUPS && i <= |layouts|
    ensures |r| == MAX_BIND_GROUPS
    ensures forall j :: 0 <= j < i ==> r[j] == es[j].AfterExpect(layouts[j])
    ensures forall j :: i <= j < |layouts| ==> r[j] == es[j]
    ensures forall j :: |layouts| <= j < MAX_BIND_GROUPS ==> r[j] == es[j].(expected := None)
  {
    [ExpectedSlot(es, layouts, i, 0), ExpectedSlot(es, layouts, i, 1), ExpectedSlot(es, layouts, i, 2), ExpectedSlot(es, layouts, i, 3)]
  }

  function ExpectedSlot(es: seq<EntryState>, layouts: seq<LayoutId>, i: nat, j: nat): EntryState
    requires |es| == MAX_BIND_GROUPS && |layouts| <= MAX_BIND_GROUPS && i <= |layouts| && j < MAX_BIND_GROUPS
  {
    if j < i then es[j].AfterExpect(layouts[j]) else if j < |layouts| then es[j] else es[j].(expected := None)
  }

  /** A slot in the binder. */
  class BindGroupEntry {
    var expectedLayoutId: Option<LayoutId>
    var provided: Option<BindGroupPair>
    var dynamicOffsets: seq<Offset>

    function State(): EntryState
      reads this
    {
      EntryState(expectedLayoutId, provided, dynamicOffsets)
    }

    constructor ()
      ensures State() == EntryState(None, None, [])
    {
      expectedLayoutId := None;
      provided := None;
      dynamicOffsets := [];
    }

    /**
     * `provide`. A group id always names the same layout, which the source asserts
     * when the provision is repeated.
     */
    method Provide(groupId: GroupId, layoutId: LayoutId, offsets: seq<Offset>) returns (p: Provision)
      requires State().SameProvision(groupId, offsets) ==> provided.value.layoutId == layoutId
      modifies this
      ensures p == old(State()).ProvideOutcome(groupId, offsets)
      ensures State() == old(State()).AfterProvide(groupId, layoutId, offsets)
    {
      var wasCompatible: bool;
      match provided {
        case Some(pair) =>
          if pair.groupId == groupId && offsets == dynamicOffsets {
            return Provision.Unchanged;
          }
          wasCompatible := expectedLayoutId == Some(pair.layoutId);
        case None =>
          wasCompatible := true;
      }
      provided := Some(BindGroupPair(layoutId, groupId));
      dynamicOffsets := offsets;
      p := Provision.Changed(wasCompatible);
    }

    /** `expect_layout`. */
    method ExpectLayout(layoutId: LayoutId) returns (c: LayoutChange)
      modifies this
      ensures c == old(State()).ExpectOutcome(layoutId)
      ensures State() == old(State()).AfterExpect(layoutId)
    {
      if expectedLayoutId != Some(layoutId) {
        expectedLayoutId := Some(layoutId);
        match provided {
          case Some(pair) =>
            if pair.layoutId == layoutId {
              c := Match(pair.groupId, dynamicOffsets);
            } else {
              c := Mismatch;
            }
          case None =>
            c := Mismatch;
        }
      } else {
        c := LayoutChange.Unchanged;
      }
    }
  }

  /** The binder: the current pipeline layout and four slots, each updated in place. */
  class Binder {
    var pipelineLayoutId: Option<PipelineLayoutId>
    const entries: seq<BindGroupEntry>

    predicate Valid() {
      |entries| == MAX_BIND_GROUPS && forall i, j :: 0 <= i < j < |entries| ==> entries[i] != entries[j]
    }

    /** The four slots as values. */
    function States(): (s: seq<EntryState>)
      requires Valid()
      reads entries
      ensures |s| == MAX_BIND_GROUPS && forall i :: 0 <= i < MAX_BIND_GROUPS ==> s[i] == entries[i].State()
    {
      [entries[0].State(), entries[1].State(), entries[2].State(), entries[3].State()]
    }

    /** `Binder::default`: no layout, four empty slots. */
    constructor ()
      ensures Valid() && pipelineLayoutId == None
      ensures forall i :: 0 <= i < MAX_BIND_GROUPS ==> fresh(entries[i]) && entries[i].State() == EntryState(None, None, [])
    {
      var e0 := new BindGroupEntry();
      var e1 := new BindGroupEntry();
      var e2 := new BindGroupEntry();
      var e3 := new BindGroupEntry();
      pipelineLayoutId := None;
      entries := [e0, e1, e2, e3];
    }

    /** `reset_expectations`: forget what is expected from slot `length` on (the source panics past 4). */
    method ResetExpectations(length: nat)
      requires Valid() && length <= MAX_BIND_GROUPS
      modifies entries
      ensures forall i :: 0 <= i < length ==> entries[i].State() == old(entries[i].State())
      ensures forall i :: length <= i < MAX_BIND_GROUPS ==> entries[i].State() == old(entries[i].State()).(expected := None)
    {
      var i := length;
      while i < MAX_BIND_GROUPS
        invariant length <= i <= MAX_BIND_GROUPS
        invariant forall j :: 0 <= j < length ==> entries[j].State() == old(entries[j].State())
        invariant forall j :: length <= j < i ==> entries[j].State() == old(entries[j].State()).(expected := None)
        invariant forall j :: i <= j < MAX_BIND_GROUPS ==> entries[j].State() == old(entries[j].State())
      {
        entries[i].expectedLayoutId := None;
        i := i + 1;
      }
    }

    /**
     * `provide_entry`: store a group in slot `index`; when the change makes groups
     * bindable, return the layout to bind with and the follow-up groups and offsets.
     */
    method ProvideEntry(index: nat, groupId: GroupId, layoutId: LayoutId, offsets: seq<Offset>) returns (r: Option<FollowUp>)
      requires Valid() && index < MAX_BIND_GROUPS
      requires entries[index].State().SameProvision(groupId, offsets) ==> entries[index].provided.value.layoutId == layoutId
      modifies entries[index]
      ensures entries[index].State() == old(entries[index].State()).AfterProvide(groupId, layoutId, offsets)
      ensures var p := old(entries[index].State()).ProvideOutcome(groupId, offsets);
              r == if p.Unchanged? then None else FollowUps(States(), pipelineLayoutId, index, p.wasCompatible)
    {
      var p := entries[index].Provide(groupId, layoutId, offsets);
      match p {
        case Unchanged =>
          r := None;
        case Changed(wasCompatible) =>
          var es := States();
          var compatibleCount := CompatibleCount(es);
          if index < compatibleCount && pipelineLayoutId.Some? {
            var end := Min(compatibleCount, if wasCompatible then index + 1 else MAX_BIND_GROUPS);
            var groups := TakeSome(ActualValues(es[index + 1 .. end]));
            r := Some(FollowUp(pipelineLayoutId.value, groups, FlatOffsets(es[index + 1 .. index + 1 + |groups|])));
          } else {
            r := None;
          }
      }
    }

    /** `expect_layout` on slot `index`: only that slot changes. */
    method ExpectAt(index: nat, layoutId: LayoutId) returns (c: LayoutChange)
      requires Valid() && index < MAX_BIND_GROUPS
      modifies entries[index]
      ensures c == old(States())[index].ExpectOutcome(layoutId)
      ensures States() == old(States())[index := old(States())[index].AfterExpect(layoutId)]
    {
      c := entries[index].ExpectLayout(layoutId);
    }

    /**
     * The rebinding both passes do when a pipeline is set: when its layout differs from
     * the current one, record it, drop the expectations past its group count, expect
     * each of its group layouts in turn, and rebind every Match met before any Mismatch.
     * The source panics when the layout has more than four groups.
     */
    method ChangePipelineLayout(layoutId: PipelineLayoutId, groupLayouts: seq<LayoutId>) returns (rebinds: seq<Rebind>)
      requires Valid() && |groupLayouts| <= MAX_BIND_GROUPS
      modifies this, entries
      ensures pipelineLayoutId == Some(layoutId)
      ensures old(pipelineLayoutId) == Some(layoutId) ==>
        rebinds == [] && forall i :: 0 <= i < MAX_BIND_GROUPS ==> entries[i].State() == old(entries[i].State())
      ensures old(pipelineLayoutId) != Some(layoutId) ==>
        && rebinds == Rebinds(old(States()), groupLayouts, |groupLayouts|)
        && (forall i :: 0 <= i < |groupLayouts| ==> entries[i].State() == old(entries[i].State()).AfterExpect(groupLayouts[i]))
        && (forall i :: |groupLayouts| <= i < MAX_BIND_GROUPS ==> entries[i].State() == old(entries[i].State()).(expected := None))
    {
      rebinds := [];
      if pipelineLayoutId == Some(layoutId) {
        return;
      }
      pipelineLayoutId := Some(layoutId);
      ResetExpectations(|groupLayouts|);
      rebinds := ExpectLayouts(groupLayouts, old(States()));
    }

    /** The loop of ChangePipelineLayout: expect each group layout in turn, collecting the rebinds. */
    method ExpectLayouts(groupLayouts: seq<LayoutId>, ghost es: seq<EntryState>) returns (rebinds: seq<Rebind>)
      requires Valid() && |groupLayouts| <= MAX_BIND_GROUPS && |es| == MAX_BIND_GROUPS
      requires forall j :: 0 <= j < |groupLayouts| ==> entries[j].State() == es[j]
      requires forall j :: |groupLayouts| <= j < MAX_BIND_GROUPS ==> entries[j].State() == es[j].(expected := None)
      modifies entries
      ensures rebinds == Rebinds(es, groupLayouts, |groupLayouts|)
      ensures States() == ExpectedStates(es, groupLayouts, |groupLayouts|)
    {
      assert States() == ExpectedStates(es, groupLayouts, 0);
      rebinds := [];
      var isCompatible := true;
      var i := 0;
      while i < |groupLayouts|
        invariant 0 <= i <= |groupLayouts|
        invariant rebinds == Rebinds(es, groupLayouts, i)
        invariant isCompatible == NoMismatchBetween(es, groupLayouts, 0, i)
        invariant States() == ExpectedStates(es, groupLayouts, i)
      {
        var change := ExpectAt(i, groupLayouts[i]);
        assert change == es[i].ExpectOutcome(groupLayouts[i]);
        assert States() == ExpectedStates(es, groupLayouts, i + 1);
        RebindsStep(es, groupLayouts, i);
        if change.Match? && isCompatible {
          rebinds := rebinds + [Rebind(i, change.groupId, change.offsets)];
        }
        isCompatible := isCompatible && !change.Mismatch?;
        i := i + 1;
      }
    }
  }
}
