/**
 * Adapter selection: the backend bit set, the default request options, and
 * `request_adapter`, which enumerates the adapters of every enabled backend, buckets
 * them by device type, picks one by power preference and maps its global position
 * back to a backend.
 */
module Instance {
  import opened Wrappers

  /** The backends, in the order of their discriminants. */
  datatype Backend = Empty | Vulkan | Metal | Dx12 | Dx11 | Gl

  /** `backend as u32`. */
  function Discriminant(b: Backend): (r: nat)
    ensures r < 6
    ensures r == 0 <==> b == Empty
  {
    match b
    case Empty => 0
    case Vulkan => 1
    case Metal => 2
    case Dx12 => 3
    case Dx11 => 4
    case Gl => 5
  }

  /** `BackendBit`: a `u32` bit set with one flag per backend. */
  type BackendBit = bv32

  const VULKAN: BackendBit := 2
  const METAL: BackendBit := 4
  const DX12: BackendBit := 8
  const DX11: BackendBit := 16
  const GL: BackendBit := 32
  /** The backends that are the first choice on their platforms. */
  const PRIMARY: BackendBit := VULKAN | METAL | DX12
  /** The backends kept as a fallback. */
  const SECONDARY: BackendBit := GL | DX11
  /** Every defined flag: what `from_bits` accepts. */
  const ALL: BackendBit := VULKAN | GL | METAL | DX12 | DX11

  /** `a` holds every bit of `b` (bitflags' `contains`). */
  predicate Contains(a: BackendBit, b: BackendBit) {
    a & b == b
  }

  /**
   * `From<Backend>`: the flag `1 << b`, through `from_bits(..).unwrap()`. For `Empty`
   * the bit is no defined flag and the source panics.
   */
  function FromBackend(b: Backend): (r: Option<BackendBit>)
    ensures r.Some? <==> b != Empty
    ensures r.Some? ==> r.value != 0 && Contains(ALL, r.value)
  {
    var bits := (1 as bv32) << Discriminant(b);
    if bits & !ALL == 0 then Some(bits) else None
  }

  /**
   * Each named flag is the bit of its backend, the primary set is exactly Vulkan,
   * Metal and Dx12, the secondary set exactly Gl and Dx11, and the two split the
   * defined flags between them.
   */
  lemma BackendBits()
    ensures FromBackend(Vulkan) == Some(VULKAN) && FromBackend(Metal) == Some(METAL) && FromBackend(Dx12) == Some(DX12)
    ensures FromBackend(Dx11) == Some(DX11) && FromBackend(Gl) == Some(GL)
    ensures forall b :: b != Empty ==> (Contains(PRIMARY, FromBackend(b).value) <==> b == Vulkan || b == Metal || b == Dx12)
    ensures forall b :: b != Empty ==> (Contains(SECONDARY, FromBackend(b).value) <==> b == Gl || b == Dx11)
    ensures PRIMARY & SECONDARY == 0 && PRIMARY | SECONDARY == ALL
  {
  }

  /** Distinct backends have disjoint flags. */
  lemma FromBackendDistinct(b1: Backend, b2: Backend)
    requires b1 != Empty && b2 != Empty && b1 != b2
    ensures FromBackend(b1).value & FromBackend(b2).value == 0
  {
  }

  datatype PowerPreference = Default | LowPower | HighPerformance

  datatype RequestAdapterOptions = RequestAdapterOptions(powerPreference: PowerPreference, backends: BackendBit)

  /** `RequestAdapterOptions::default`: no power preference, the primary backends. */
  function DefaultOptions(): (r: RequestAdapterOptions)
    ensures r.powerPreference == Default
    ensures forall b :: b != Empty ==> (Contains(r.backends, FromBackend(b).value) <==> b == Vulkan || b == Metal || b == Dx12)
  {
    BackendBits();
    RequestAdapterOptions(Default, PRIMARY)
  }

  /** `hal::adapter::DeviceType`. */
  datatype DeviceType = IntegratedGpu | DiscreteGpu | VirtualGpu | Cpu | OtherType

  /** The three buckets `request_adapter` sorts device types into. */
  datatype Bucket = Integrated | Discrete | Other

  function BucketOf(t: DeviceType): Bucket {
    match t
    case IntegratedGpu => Integrated
    case DiscreteGpu => Discrete
    case _ => Other
  }

  /** The bucket's index among the first `n` device types: the first one of its kind (`bucket.or(Some(i))`). */
  function FirstOf(types: seq<DeviceType>, bucket: Bucket, n: nat): Option<nat>
    requires n <= |types|
  {
    if n == 0 then None
    else FirstOf(types, bucket, n - 1).Or(if BucketOf(types[n - 1]) == bucket then Some(n - 1) else None)
  }

  /** A bucket holds the position of the first device type of its kind, or nothing when there is none. */
  lemma {:induction false} FirstOfMeaning(types: seq<DeviceType>, bucket: Bucket, n: nat)
    requires n <= |types|
    ensures var r := FirstOf(types, bucket, n);
      && (r.Some? ==> r.value < n && BucketOf(types[r.value]) == bucket
                      && forall j :: 0 <= j < r.value ==> BucketOf(types[j]) != bucket)
      && (r.None? <==> forall j :: 0 <= j < n ==> BucketOf(types[j]) != bucket)
  {
    if n > 0 {
      FirstOfMeaning(types, bucket, n - 1);
    }
  }

  /** The bucketing loop of `request_adapter`. */
  method Buckets(types: seq<DeviceType>) returns (integrated: Option<nat>, discrete: Option<nat>, other: Option<nat>)
    ensures integrated == FirstOf(types, Integrated, |types|)
    ensures discrete == FirstOf(types, Discrete, |types|)
    ensures other == FirstOf(types, Other, |types|)
  {
    integrated, discrete, other := None, None, None;
    var i := 0;
    while i < |types|
      invariant 0 <= i <= |types|
      invariant integrated == FirstOf(types, Integrated, i)
      invariant discrete == FirstOf(types, Discrete, i)
      invariant other == FirstOf(types, Other, i)
    {
      match types[i] {
        case IntegratedGpu =>
          integrated := integrated.Or(Some(i));
        case DiscreteGpu =>
          discrete := discrete.Or(Some(i));
        case _ =>
          other := other.Or(Some(i));
      }
      i := i + 1;
    }
  }

  /** The preference chain: which bucket is tried first, second and third. */
  function Preferred(pref: PowerPreference, integrated: Option<nat>, discrete: Option<nat>, other: Option<nat>): Option<nat> {
    match pref
    case Default => integrated.Or(discrete).Or(other)
    case LowPower => integrated.Or(other).Or(discrete)
    case HighPerformance => discrete.Or(other).Or(integrated)
  }

  /** The bucket order each power preference tries. */
  function Order(pref: PowerPreference): (r: seq<Bucket>)
    ensures |r| == 3 && r[0] != r[1] && r[1] != r[2] && r[0] != r[2]
  {
    match pref
    case Default => [Integrated, Discrete, Other]
    case LowPower => [Integrated, Other, Discrete]
    case HighPerformance => [Discrete, Other, Integrated]
  }

  /** The device type `request_adapter` prefers among `types`; position 0 when none is preferred. */
  function Chosen(pref: PowerPreference, types: seq<DeviceType>): (r: nat)
    requires |types| > 0
    ensures r < |types|
  {
    ChoiceMeaning(pref, types);
    Choice(pref, types).GetOr(0)
  }

  /** The bucket chain applied to `types`. */
  function Choice(pref: PowerPreference, types: seq<DeviceType>): Option<nat> {
    Preferred(pref, FirstOf(types, Integrated, |types|), FirstOf(types, Discrete, |types|), FirstOf(types, Other, |types|))
  }

  /** Some device type of `types` falls into `bucket`. */
  predicate Present(types: seq<DeviceType>, bucket: Bucket) {
    exists j :: 0 <= j < |types| && BucketOf(types[j]) == bucket
  }

  /**
   * The choice is the first device type of the first bucket in the preference's order
   * that is present; there is one exactly when some device type is there at all.
   */
  lemma ChoiceMeaning(pref: PowerPreference, types: seq<DeviceType>)
    ensures Choice(pref, types).None? <==> |types| == 0
    ensures var c := Choice(pref, types);
      c.Some? ==> c.value < |types| && forall j :: 0 <= j < c.value ==> BucketOf(types[j]) != BucketOf(types[c.value])
    ensures var c := Choice(pref, types); var order := Order(pref);
      && (Present(types, order[0]) ==> c.Some? && BucketOf(types[c.value]) == order[0])
      && (!Present(types, order[0]) && Present(types, order[1]) ==> c.Some? && BucketOf(types[c.value]) == order[1])
      && (!Present(types, order[0]) && !Present(types, order[1]) && Present(types, order[2]) ==>
            c.Some? && BucketOf(types[c.value]) == order[2])
  {
    FirstOfMeaning(types, Integrated, |types|);
    FirstOfMeaning(types, Discrete, |types|);
    FirstOfMeaning(types, Other, |types|);
    if |types| > 0 {
      assert BucketOf(types[0]) in {Integrated, Discrete, Other};
    }
  }

  /** The backends whose adapters are enumerated, in the order their adapters are concatenated. */
  const BACKENDS: seq<Backend> := [Vulkan, Metal, Dx12, Dx11]

  /** A backend's position in `BACKENDS`; 4 for those that are not enumerated. */
  function Position(b: Backend): (r: nat)
    ensures r < |BACKENDS| ==> BACKENDS[r] == b
  {
    match b
    case Vulkan => 0
    case Metal => 1
    case Dx12 => 2
    case Dx11 => 3
    case _ => 4
  }

  /** The adapters of all backends in the order `request_adapter` concatenates them. */
  function AllTypes(desc: RequestAdapterOptions, platform: Platform): seq<DeviceType> {
    Flatten(Lists(desc, platform), 0)
  }

  /**
   * The adapters each backend instance would enumerate, by device type; `None` when
   * the backend's instance does not exist on this platform.
   */
  datatype Platform = Platform(vulkan: Option<seq<DeviceType>>, metal: Option<seq<DeviceType>>,
                               dx12: Option<seq<DeviceType>>, dx11: Option<seq<DeviceType>>)

  /** The adapters of one backend: enumerated when its instance exists and the request enables it. */
  function Enumerate(instance: Option<seq<DeviceType>>, desc: RequestAdapterOptions, b: Backend): (r: seq<DeviceType>)
    requires b != Empty
    ensures r != [] ==> instance.Some? && Contains(desc.backends, FromBackend(b).value)
  {
    if instance.Some? && Contains(desc.backends, FromBackend(b).value) then instance.value else []
  }

  /** The adapter lists of Vulkan, Metal, Dx12 and Dx11, in that order. */
  function Lists(desc: RequestAdapterOptions, platform: Platform): (r: seq<seq<DeviceType>>)
    ensures |r| == |BACKENDS|
  {
    [Enumerate(platform.vulkan, desc, Vulkan), Enumerate(platform.metal, desc, Metal),
     Enumerate(platform.dx12, desc, Dx12), Enumerate(platform.dx11, desc, Dx11)]
  }

  /** The lists from position `k` on, concatenated: the global adapter order. */
  function Flatten(lists: seq<seq<DeviceType>>, k: nat): seq<DeviceType>
    requires k <= |lists|
    decreases |lists| - k
  {
    if k == |lists| then [] else lists[k] + Flatten(lists, k + 1)
  }

  /**
   * The global index mapped to a list and a position in it, subtracting each list's
   * length in turn; `None` past the end.
   */
  function Locate(selected: nat, lists: seq<seq<DeviceType>>, k: nat): Option<(nat, nat)>
    requires k <= |lists|
    decreases |lists| - k
  {
    if k == |lists| then None
    else if selected < |lists[k]| then Some((k, selected))
    else Locate(selected - |lists[k]|, lists, k + 1)
  }

  /** The located adapter is the one at the global index, and there is one exactly when the index is in range. */
  lemma {:induction false} LocateMeaning(selected: nat, lists: seq<seq<DeviceType>>, k: nat)
    requires k <= |lists|
    ensures var r := Locate(selected, lists, k);
      && (r.Some? <==> selected < |Flatten(lists, k)|)
      && (r.Some? ==> k <= r.value.0 < |lists| && r.value.1 < |lists[r.value.0]|
                      && lists[r.value.0][r.value.1] == Flatten(lists, k)[selected])
    decreases |lists| - k
  {
    if k < |lists| && selected >= |lists[k]| {
      LocateMeaning(selected - |lists[k]|, lists, k + 1);
    }
  }

  datatype InstanceError = NoAdapters

  /** The chosen adapter: its backend and its position among that backend's adapters. */
  datatype Selection = Selection(backend: Backend, index: nat)

  /** With four lists, the global order is their plain concatenation. */
  lemma FlattenFour(lists: seq<seq<DeviceType>>)
    requires |lists| == 4
    ensures Flatten(lists, 0) == lists[0] + lists[1] + lists[2] + lists[3]
  {
    assert Flatten(lists, 3) == lists[3] + Flatten(lists, 4);
    assert Flatten(lists, 1) == lists[1] + (lists[2] + lists[3]);
  }

  /**
   * The selection step of `request_adapter` over the enumerated lists: with no adapter
   * the source panics; otherwise the preferred device type's global position (0 when
   * no bucket is filled) is mapped back to a list. A list is always found, and the
   * adapter there is the one at the chosen position.
   */
  method Select(pref: PowerPreference, lists: seq<seq<DeviceType>>) returns (r: Result<Option<(nat, nat)>, InstanceError>)
    requires |lists| == |BACKENDS|
    ensures r.Failure? <==> Flatten(lists, 0) == []
    ensures r.Success? ==>
      var types := Flatten(lists, 0);
      && r.value.Some?
      && r.value.value.0 < |lists| && r.value.value.1 < |lists[r.value.value.0]|
      && lists[r.value.value.0][r.value.value.1] == types[Chosen(pref, types)]
  {
    var types := lists[0] + lists[1] + lists[2] + lists[3];
    FlattenFour(lists);
    if |types| == 0 {
      return Failure(NoAdapters);
    }
    var integrated, discrete, other := Buckets(types);
    var selected := Preferred(pref, integrated, discrete, other).GetOr(0);
    ChoiceMeaning(pref, types);
    LocateMeaning(selected, lists, 0);
    r := Success(Locate(selected, lists, 0));
  }

  /**
   * `request_adapter`: the adapters of every enabled backend whose instance exists are
   * enumerated and one is selected; the result names its backend and its position
   * among that backend's adapters.
   */
  method RequestAdapter(desc: RequestAdapterOptions, platform: Platform) returns (r: Result<Option<Selection>, InstanceError>)
    ensures r.Failure? <==> AllTypes(desc, platform) == []
    ensures r.Success? ==>
      var types := AllTypes(desc, platform);
      var lists := Lists(desc, platform);
      && r.value.Some?
      && var k := Position(r.value.value.backend);
      && k < |lists| && r.value.value.index < |lists[k]|
      && lists[k][r.value.value.index] == types[Chosen(desc.powerPreference, types)]
  {
    var found := Select(desc.powerPreference, Lists(desc, platform));
    match found
    case Failure(e) =>
      r := Failure(e);
    case Success(None) =>
      r := Success(None);
    case Success(Some((k, j))) =>
      assert Position(BACKENDS[k]) == k by {
        assert k == 0 || k == 1 || k == 2 || k == 3;
      }
      r := Success(Some(Selection(BACKENDS[k], j)));
  }

  /**
   * `wgpu_request_adapter`: a missing descriptor means the default options, and the
   * selection is unwrapped. Selection never comes back empty, so the one failure left
   * is having no adapter at all.
   */
  method WgpuRequestAdapter(desc: Option<RequestAdapterOptions>, platform: Platform) returns (r: Result<Selection, InstanceError>)
    ensures var options := desc.GetOr(DefaultOptions());
      && (r.Failure? <==> AllTypes(options, platform) == [])
      && (r.Success? ==>
            var types := AllTypes(options, platform);
            var lists := Lists(options, platform);
            var k := Position(r.value.backend);
            && k < |lists| && r.value.index < |lists[k]|
            && lists[k][r.value.index] == types[Chosen(options.powerPreference, types)])
  {
    var found := RequestAdapter(desc.GetOr(DefaultOptions()), platform);
    match found
    case Failure(e) =>
      r := Failure(e);
    case Success(selection) =>
      r := Success(selection.value);
  }
}
