// The CPM2 model object: the constructor's budget plan, the initial load of
// the first window and of every other sub-layer into the parameter
// allocator, the purge of host copies, and the encoder pass of `forward`
// with its double-buffered prefetch of later windows.

module Cpm2 {
  import B = Budget
  import S = Schedule

  /** The configuration fields the constructor and the encoder pass read. */
  datatype Config = Config(
    memoryOverlap: bool,
    overlapLayers: nat,
    numEncoderLayers: nat,
    numDecoderLayers: nat,
    memoryLimit: nat,
    dynamicMemory: nat)

  /** Where a layer's device copy lives. */
  datatype Placement =
    | NotLoaded
    | InParameters                                // the parameter allocator
    | InOverlap(allocator: nat, generation: nat)  // an overlap allocator, since its reset number `generation`

  /** A layer: its device placement and whether its host copy is still held. */
  datatype LayerState = LayerState(placement: Placement, onHost: bool)

  /** Raised by the purge as written when it indexes past a stack. */
  datatype PurgeError = IndexError(index: nat)

  function Max(a: nat, b: nat): nat { if a >= b then a else b }

  /** `overlap_layers`: the configured width in overlap mode, otherwise the
      taller of the two stacks, so that one window holds a whole stack. */
  function WindowWidth(c: Config): (w: nat)
    ensures c.memoryOverlap ==> w == c.overlapLayers
    ensures !c.memoryOverlap ==> w >= c.numEncoderLayers && w >= c.numDecoderLayers
    ensures !c.memoryOverlap ==> w == c.numEncoderLayers || w == c.numDecoderLayers
  {
    if c.memoryOverlap then c.overlapLayers else Max(c.numEncoderLayers, c.numDecoderLayers)
  }

  /** The constructor's plan: overlap mode budgets the largest layer times
      4W, static mode the whole model; either refuses a limit that is too small. */
  function PlanFor(c: Config, encoder: seq<nat>, decoder: seq<nat>, other: seq<nat>, tempSize: nat)
    : (r: B.Result<B.Plan, B.PlanError>)
    ensures c.memoryOverlap ==>
      (r.Failure? <==> B.OverlapRequirement(B.MaxBytes(encoder + decoder), WindowWidth(c), B.Sum(other),
                                            tempSize, c.dynamicMemory) > c.memoryLimit)
    ensures !c.memoryOverlap ==>
      (r.Failure? <==> B.Sum(other) + B.Sum(encoder) + B.Sum(decoder) + c.dynamicMemory > c.memoryLimit)
    ensures r.Success? ==> (r.value.Overlapped? <==> c.memoryOverlap)
  {
    if c.memoryOverlap then
      B.PlanOverlapped(B.MaxBytes(encoder + decoder), WindowWidth(c), B.Sum(other), tempSize,
                       c.memoryLimit, c.dynamicMemory)
    else
      B.PlanStatic(B.Sum(other) + B.Sum(encoder) + B.Sum(decoder), tempSize, c.memoryLimit, c.dynamicMemory)
  }

  /** An overlapped plan gives each overlap allocator room for W of the
      largest layers, and no encoder layer is larger than the largest. */
  lemma OverlappedPlanFacts(c: Config, encoder: seq<nat>, decoder: seq<nat>, other: seq<nat>,
                            tempSize: nat, plan: B.Plan)
    requires PlanFor(c, encoder, decoder, other, tempSize) == B.Success(plan) && plan.Overlapped?
    ensures plan.overlapCapacity == WindowWidth(c) * plan.maxLayerBytes
    ensures forall k :: 0 <= k < |encoder| ==> encoder[k] <= plan.maxLayerBytes
    ensures plan.parameterCapacity == B.Sum(other) + 2 * (WindowWidth(c) * plan.maxLayerBytes)
    ensures B.InitialLoadBytes(other, encoder, decoder, WindowWidth(c)) <= plan.parameterCapacity
  {
    assert forall k :: 0 <= k < |encoder| ==> encoder[k] == (encoder + decoder)[k];
    B.InitialLoadFits(other, encoder, decoder, WindowWidth(c));
  }

  /** The first `count` layers placed in the parameter allocator, the rest untouched. */
  function Placed(layers: seq<LayerState>, count: nat): (r: seq<LayerState>)
    ensures |r| == |layers|
    ensures forall k :: 0 <= k < |r| ==> r[k].onHost == layers[k].onHost
    ensures forall k :: 0 <= k < |r| ==> (r[k].placement == InParameters <==>
                                          k < count || layers[k].placement == InParameters)
  {
    seq(|layers|, k requires 0 <= k < |layers| =>
      if k < count then layers[k].(placement := InParameters) else layers[k])
  }

  /** The first `count` layers without their host copies, the rest untouched. */
  function Purged(layers: seq<LayerState>, count: nat): (r: seq<LayerState>)
    ensures |r| == |layers|
    ensures forall k :: 0 <= k < |r| ==> r[k].placement == layers[k].placement
    ensures forall k :: 0 <= k < |r| ==> (r[k].onHost <==> k >= count && layers[k].onHost)
  {
    seq(|layers|, k requires 0 <= k < |layers| =>
      if k < count then layers[k].(onHost := false) else layers[k])
  }

  /** `for i in range(count): layer[i].to_device(parameter_allocator, ...)`. */
  method MoveToParameters(layers: seq<LayerState>, bytes: seq<nat>, count: nat, used: nat)
    returns (moved: seq<LayerState>, usedAfter: nat)
    requires count <= |layers| == |bytes|
    ensures moved == Placed(layers, count)
    ensures usedAfter == used + B.Sum(bytes[..count])
  {
    moved, usedAfter := layers, used;
    for i := 0 to count
      invariant moved == Placed(layers, i)
      invariant usedAfter == used + B.Sum(bytes[..i])
    {
      B.SumAppend(bytes[..i], bytes[i]);
      assert bytes[..i + 1] == bytes[..i] + [bytes[i]];
      moved := moved[i := moved[i].(placement := InParameters)];
      usedAfter := usedAfter + bytes[i];
    }
  }

  /** `for i in range(count): layer[i]._remove_data()`. */
  method DropHostCopies(layers: seq<LayerState>, count: nat) returns (purged: seq<LayerState>)
    requires count <= |layers|
    ensures purged == Purged(layers, count)
  {
    purged := layers;
    for i := 0 to count
      invariant purged == Purged(layers, i)
    {
      purged := purged[i := purged[i].(onHost := false)];
    }
  }

  /** Layers lo .. hi - 1 placed in overlap allocator a at reset number g, the rest untouched. */
  function Streamed(layers: seq<LayerState>, lo: nat, hi: nat, a: nat, g: nat): (r: seq<LayerState>)
    ensures |r| == |layers|
    ensures forall k :: 0 <= k < |r| ==> r[k].onHost == layers[k].onHost
    ensures forall k :: 0 <= k < |r| && !(lo <= k < hi) ==> r[k] == layers[k]
    ensures forall k :: 0 <= k < |r| && lo <= k < hi ==> r[k].placement == InOverlap(a, g)
  {
    seq(|layers|, k requires 0 <= k < |layers| =>
      if lo <= k < hi then layers[k].(placement := InOverlap(a, g)) else layers[k])
  }

  lemma StreamedStep(layers: seq<LayerState>, lo: nat, j: nat, a: nat, g: nat)
    requires lo <= j < |layers|
    ensures Streamed(layers, lo, j, a, g)[j := layers[j].(placement := InOverlap(a, g))]
            == Streamed(layers, lo, j + 1, a, g)
  {
  }

  /** `for j in range(lo, hi): encoder[j].to_device(overlap_allocator[a], load_stream)`:
      the layers it places, the bytes it takes and the loads it enqueues. */
  method StreamWindow(layers: seq<LayerState>, bytes: seq<nat>, lo: nat, hi: nat, a: nat, g: nat)
    returns (streamed: seq<LayerState>, used: nat, loads: seq<S.Action>)
    requires lo <= hi <= |layers| == |bytes|
    ensures streamed == Streamed(layers, lo, hi, a, g)
    ensures used == B.Sum(bytes[lo..hi])
    ensures loads == S.Loads(lo, hi, a)
  {
    streamed, used, loads := layers, 0, [];
    for j := lo to hi
      invariant streamed == Streamed(layers, lo, j, a, g)
      invariant used == B.Sum(bytes[lo..j])
      invariant loads == S.Loads(lo, j, a)
    {
      B.SumAppend(bytes[lo..j], bytes[j]);
      assert bytes[lo..j + 1] == bytes[lo..j] + [bytes[j]];
      StreamedStep(layers, lo, j, a, g);
      streamed := streamed[j := layers[j].(placement := InOverlap(a, g))];
      used := used + bytes[j];
      loads := loads + [S.Load(j, a)];
    }
  }

  /** The purge of one stack as written: `range(overlap_layers)` with no
      `min(..., len)`, so a stack shorter than W raises at index len. */
  function PurgeStackAsWritten(layers: seq<LayerState>, w: nat): (r: B.Result<seq<LayerState>, PurgeError>)
    ensures r.Failure? <==> w > |layers|
    ensures r.Failure? ==> r.error == IndexError(|layers|)
    ensures r.Success? ==> r.value == Purged(layers, B.Min(w, |layers|))
  {
    if w > |layers| then B.Failure(IndexError(|layers|)) else B.Success(Purged(layers, w))
  }

  /** Which layers still hold their host copy. */
  function HostCopies(layers: seq<LayerState>): (r: seq<bool>)
    ensures |r| == |layers|
    ensures forall k :: 0 <= k < |r| ==> r[k] == layers[k].onHost
  {
    seq(|layers|, k requires 0 <= k < |layers| => layers[k].onHost)
  }

  /** A layer is usable by the compute stream: resident, or in an overlap
      allocator that has not been reset since it was streamed in. */
  predicate Usable(s: LayerState, generation: seq<nat>)
  {
    || s.placement.InParameters?
    || (s.placement.InOverlap? && s.placement.allocator < |generation|
        && s.placement.generation == generation[s.placement.allocator])
  }

  /** The first window is resident and every later layer is held on the host. */
  predicate Ready(layers: seq<LayerState>, w: nat)
  {
    forall k :: 0 <= k < |layers| ==>
      (k < w ==> layers[k].placement == InParameters) && (k >= w ==> layers[k].onHost)
  }

  /** Streaming layers of a later window keeps every host copy and the first window. */
  lemma StreamedKeeps(layers: seq<LayerState>, lo: nat, hi: nat, a: nat, g: nat, w: nat)
    requires w <= lo
    ensures HostCopies(Streamed(layers, lo, hi, a, g)) == HostCopies(layers)
    ensures Ready(layers, w) ==> Ready(Streamed(layers, lo, hi, a, g), w)
  {
  }

  /** At layer i of the encoder pass: the rest of i's window is usable, and
      every layer from W up to the end of i's window sits in the overlap
      allocator of its window's parity. */
  predicate WindowLive(layers: seq<LayerState>, generation: seq<nat>, i: nat, w: nat)
    requires w > 0
  {
    && (forall k :: i <= k < S.WindowEnd(i, |layers|, w) ==> Usable(layers[k], generation))
    && StreamedSoFar(layers, i, w)
  }

  /** Every layer from W up to the end of i's window sits in the overlap
      allocator of its window's parity. */
  predicate StreamedSoFar(layers: seq<LayerState>, i: nat, w: nat)
    requires w > 0
  {
    forall k :: w <= k < S.WindowEnd(i, |layers|, w) ==>
      layers[k].placement.InOverlap? && layers[k].placement.allocator == S.WindowOf(k, w) % 2
  }

  /** Streaming the next window at boundary i, with the allocator's new
      reset number, makes the whole next window live. */
  lemma StreamedWindowLive(layers: seq<LayerState>, generation: seq<nat>, i: nat, w: nat)
    requires w > 0 && S.Fires(i, |layers|, w) && |generation| == 2
    requires StreamedSoFar(layers, i, w)
    ensures WindowLive(Streamed(layers, i + 1, S.PrefetchEnd(i, |layers|, w), S.Target(i, w),
                                generation[S.Target(i, w)]),
                       generation, i + 1, w)
  {
    S.PrefetchIsNextWindow(i, |layers|, w);
    S.NextLayer(i, |layers|, w);
  }

  /** A stack after the constructor: its first `count` layers in the
      parameter allocator without a host copy, the rest on the host only. */
  function Loaded(n: nat, count: nat): seq<LayerState>
  {
    seq(n, k => if k < count then LayerState(InParameters, false) else LayerState(NotLoaded, true))
  }

  /** Loading the first `count` layers of a stack held on the host, then
      dropping the same layers' host copies, leaves exactly `Loaded`. */
  lemma LoadThenPurge(n: nat, count: nat)
    requires count <= n
    ensures Purged(Placed(seq(n, _ => LayerState(NotLoaded, true)), count), count) == Loaded(n, count)
  {
    var r := Purged(Placed(seq(n, _ => LayerState(NotLoaded, true)), count), count);
    assert forall k :: 0 <= k < n ==> r[k] == Loaded(n, count)[k];
  }

  /** The encoder's overlap state: where each encoder layer sits, the bytes
      each of the two overlap allocators hands out, and how many times each
      has been reset. */
  datatype Overlap = Overlap(layers: seq<LayerState>, used: seq<nat>, generation: seq<nat>)

  predicate Shaped(s: Overlap, bytes: seq<nat>)
  {
    |s.layers| == |bytes| && |s.used| == 2 && |s.generation| == 2
  }

  /** What encoder step i does to the overlap state: nothing when it does
      not prefetch; otherwise it resets the target allocator, which starts
      its next generation, and streams the next window into it. */
  function Step(s: Overlap, bytes: seq<nat>, i: nat, w: nat): (r: Overlap)
    requires w > 0 && Shaped(s, bytes)
    ensures Shaped(r, bytes)
  {
    var n := |s.layers|;
    if S.Fires(i, n, w) then
      var t := S.Target(i, w);
      var end := S.PrefetchEnd(i, n, w);
      var generation := s.generation[t := s.generation[t] + 1];
      Overlap(Streamed(s.layers, i + 1, end, t, generation[t]), s.used[t := B.Sum(bytes[i + 1..end])], generation)
    else
      s
  }

  /** The overlap state after encoder steps 0 .. k - 1. */
  function Run(s: Overlap, bytes: seq<nat>, k: nat, w: nat): (r: Overlap)
    requires (w > 0 || k == 0) && Shaped(s, bytes)
    ensures Shaped(r, bytes)
  {
    if k == 0 then s else Step(Run(s, bytes, k - 1, w), bytes, k - 1, w)
  }

  /** Running one more step is that step applied to the state so far. */
  lemma RunSnoc(s: Overlap, bytes: seq<nat>, k: nat, w: nat)
    requires w > 0 && Shaped(s, bytes)
    ensures Run(s, bytes, k + 1, w) == Step(Run(s, bytes, k, w), bytes, k, w)
  {
  }

  /** A step adds one generation to the allocator it prefetches into and
      none to the other, and a step that does not prefetch changes nothing. */
  lemma StepCounts(s: Overlap, bytes: seq<nat>, i: nat, w: nat, a: nat)
    requires w > 0 && Shaped(s, bytes) && a < 2
    ensures Step(s, bytes, i, w).generation[a] ==
            s.generation[a] + if S.Fires(i, |bytes|, w) && S.Target(i, w) == a then 1 else 0
    ensures !S.Fires(i, |bytes|, w) ==> Step(s, bytes, i, w) == s
  {
  }

  /** Overlap allocator a holds the window streamed at the last step before
      i that targeted it: its usage is that window's bytes and the window's
      layers carry the allocator's current generation. An allocator no step
      has targeted keeps its usage `used0[a]`. */
  predicate FilledBy(s: Overlap, bytes: seq<nat>, used0: seq<nat>, i: nat, w: nat, a: nat)
    requires w > 0 && Shaped(s, bytes) && |used0| == 2 && a < 2
  {
    match S.LastFill(i, |s.layers|, w, a)
    case None => s.used[a] == used0[a]
    case Some(b) =>
      && s.used[a] == B.Sum(bytes[b + 1..S.PrefetchEnd(b, |s.layers|, w)])
      && forall k :: b + 1 <= k < S.PrefetchEnd(b, |s.layers|, w) ==>
           s.layers[k].placement == InOverlap(a, s.generation[a])
  }

  predicate Filled(s: Overlap, bytes: seq<nat>, used0: seq<nat>, i: nat, w: nat)
    requires w > 0 && Shaped(s, bytes) && |used0| == 2
  {
    FilledBy(s, bytes, used0, i, w, 0) && FilledBy(s, bytes, used0, i, w, 1)
  }

  /** One step keeps `FilledBy` for allocator a: a step that does not
      prefetch changes nothing, and a prefetch either refills a or streams
      a window that lies past a's window. */
  lemma FilledByStep(s: Overlap, bytes: seq<nat>, used0: seq<nat>, i: nat, w: nat, a: nat)
    requires w > 0 && Shaped(s, bytes) && |used0| == 2 && a < 2
    requires FilledBy(s, bytes, used0, i, w, a)
    ensures FilledBy(Step(s, bytes, i, w), bytes, used0, i + 1, w, a)
  {
    var n := |bytes|;
    if S.Fires(i, n, w) {
      S.PrefetchIsNextWindow(i, n, w);
      var prev := S.LastFill(i, n, w, a);
      if S.Target(i, w) != a && prev.Some? {
        S.FillsApart(prev.value, i, n, w);
      }
    }
  }

  /** After k steps allocator a's generation has grown by one per prefetch into a. */
  lemma {:induction false} RunCounts(s: Overlap, bytes: seq<nat>, k: nat, w: nat, a: nat)
    requires (w > 0 || k == 0) && Shaped(s, bytes) && a < 2
    ensures Run(s, bytes, k, w).generation[a] == s.generation[a] + S.FillsInto(k, |bytes|, w, a)
  {
    if k > 0 {
      RunCounts(s, bytes, k - 1, w, a);
      StepCounts(Run(s, bytes, k - 1, w), bytes, k - 1, w, a);
    }
  }

  /** After k steps allocator a holds the last window streamed into it
      before layer k, in its current generation. */
  lemma {:induction false} RunFills(s: Overlap, bytes: seq<nat>, k: nat, w: nat, a: nat)
    requires w > 0 && Shaped(s, bytes) && a < 2
    ensures FilledBy(Run(s, bytes, k, w), bytes, s.used, k, w, a)
  {
    if k > 0 {
      var r := Run(s, bytes, k - 1, w);
      RunFills(s, bytes, k - 1, w, a);
      FilledByStep(r, bytes, s.used, k - 1, w, a);
      assert Run(s, bytes, k, w) == Step(r, bytes, k - 1, w);
    }
  }

  /** A window as wide as the stack never prefetches, so no step changes anything. */
  lemma {:induction false} WideRunIsIdle(s: Overlap, bytes: seq<nat>, k: nat, w: nat)
    requires (w > 0 || k == 0) && Shaped(s, bytes) && |bytes| <= w
    ensures Run(s, bytes, k, w) == s
  {
    if k > 0 {
      WideRunIsIdle(s, bytes, k - 1, w);
      S.NoFireInWideWindow(k - 1, |bytes|, w);
      StepCounts(Run(s, bytes, k - 1, w), bytes, k - 1, w, 0);
    }
  }

  class Model {
    const config: Config
    const width: nat
    const encoderBytes: seq<nat>
    const decoderBytes: seq<nat>
    const otherBytes: seq<nat>
    const tempSize: nat
    const plan: B.Plan

    var encoder: seq<LayerState>
    var decoder: seq<LayerState>
    var others: seq<LayerState>
    /** Bytes handed out by the parameter, the two overlap and the variable allocators. */
    var parameterUsed: nat
    var overlapUsed: seq<nat>
    var variableUsed: nat
    /** Number of resets of each overlap allocator. */
    var generation: seq<nat>

    /** The constants fixed by the constructor: the plan it accepted, and
        what that plan guarantees about the window and the layer sizes. */
    ghost predicate Planned()
    {
      && |encoderBytes| == config.numEncoderLayers
      && |decoderBytes| == config.numDecoderLayers
      && width == WindowWidth(config)
      && (plan.Overlapped? <==> config.memoryOverlap)
      && config.dynamicMemory <= plan.variableCapacity
      && (plan.Overlapped? ==>
            && plan.overlapCapacity == width * plan.maxLayerBytes
            && (forall k :: 0 <= k < |encoderBytes| ==> encoderBytes[k] <= plan.maxLayerBytes)
            && B.InitialLoadBytes(otherBytes, encoderBytes, decoderBytes, width) <= plan.parameterCapacity)
      && (plan.Static? ==>
            && width >= config.numEncoderLayers && width >= config.numDecoderLayers
            && plan.parameterCapacity == B.Sum(otherBytes) + B.Sum(encoderBytes) + B.Sum(decoderBytes))
    }

    ghost predicate Valid()
      reads this
    {
      && Planned()
      && |encoder| == |encoderBytes| && |decoder| == |decoderBytes| && |others| == |otherBytes|
      && |overlapUsed| == 2 && |generation| == 2
      && parameterUsed <= plan.parameterCapacity
      && variableUsed <= plan.variableCapacity
      && (plan.Overlapped? ==> overlapUsed[0] <= plan.overlapCapacity && overlapUsed[1] <= plan.overlapCapacity)
      && (plan.Static? ==> overlapUsed == [0, 0])
    }

    /** What the encoder pass needs: the first window resident, every later
        layer still held on the host so that it can be streamed. */
    ghost predicate ForwardReady()
      reads this
    {
      |encoder| == config.numEncoderLayers && Ready(encoder, width)
    }

    /** The model right after `self.load`: every layer on the host, nothing on the device. */
    constructor (config: Config, encoderBytes: seq<nat>, decoderBytes: seq<nat>, otherBytes: seq<nat>,
                 tempSize: nat, plan: B.Plan)
      requires |encoderBytes| == config.numEncoderLayers && |decoderBytes| == config.numDecoderLayers
      requires PlanFor(config, encoderBytes, decoderBytes, otherBytes, tempSize) == B.Success(plan)
      ensures Valid()
      ensures this.config == config && this.plan == plan
      ensures this.encoderBytes == encoderBytes && this.decoderBytes == decoderBytes
      ensures this.otherBytes == otherBytes && this.tempSize == tempSize
      ensures encoder == seq(|encoderBytes|, _ => LayerState(NotLoaded, true))
      ensures decoder == seq(|decoderBytes|, _ => LayerState(NotLoaded, true))
      ensures others == seq(|otherBytes|, _ => LayerState(NotLoaded, true))
      ensures parameterUsed == 0 && variableUsed == 0
      ensures overlapUsed == [0, 0] && generation == [0, 0]
    {
      this.config := config;
      this.width := WindowWidth(config);
      this.encoderBytes := encoderBytes;
      this.decoderBytes := decoderBytes;
      this.otherBytes := otherBytes;
      this.tempSize := tempSize;
      this.plan := plan;
      encoder := seq(|encoderBytes|, _ => LayerState(NotLoaded, true));
      decoder := seq(|decoderBytes|, _ => LayerState(NotLoaded, true));
      others := seq(|otherBytes|, _ => LayerState(NotLoaded, true));
      parameterUsed := 0;
      variableUsed := 0;
      overlapUsed := [0, 0];
      generation := [0, 0];
      if plan.Overlapped? {
        OverlappedPlanFacts(config, encoderBytes, decoderBytes, otherBytes, tempSize, plan);
      }
    }

    /** `variable_allocator.alloc(DYNAMIC_MEMORY)`: the plan leaves room for it. */
    method Preallocate()
      requires Valid() && variableUsed == 0
      modifies this
      ensures Valid()
      ensures variableUsed == config.dynamicMemory
      ensures encoder == old(encoder) && decoder == old(decoder) && others == old(others)
      ensures parameterUsed == old(parameterUsed) && overlapUsed == old(overlapUsed)
      ensures generation == old(generation)
    {
      variableUsed := config.dynamicMemory;
    }

    /** The initial load: in overlap mode the first min(W, len) layers of each
        stack and every other sub-layer, in static mode the whole model. */
    method LoadInitial()
      requires Valid() && parameterUsed == 0
      modifies this
      ensures Valid()
      ensures config.memoryOverlap ==>
        && encoder == Placed(old(encoder), B.Min(width, |encoder|))
        && decoder == Placed(old(decoder), B.Min(width, |decoder|))
      ensures !config.memoryOverlap ==>
        encoder == Placed(old(encoder), |encoder|) && decoder == Placed(old(decoder), |decoder|)
      ensures others == Placed(old(others), |others|)
      ensures parameterUsed == B.InitialLoadBytes(otherBytes, encoderBytes, decoderBytes, width)
      ensures variableUsed == old(variableUsed) && overlapUsed == old(overlapUsed)
      ensures generation == old(generation)
    {
      var ne := if config.memoryOverlap then B.Min(width, |encoder|) else |encoder|;
      var nd := if config.memoryOverlap then B.Min(width, |decoder|) else |decoder|;
      assert ne == B.Min(width, |encoder|) && nd == B.Min(width, |decoder|);
      var used: nat;
      others, used := MoveToParameters(others, otherBytes, |others|, 0);
      encoder, used := MoveToParameters(encoder, encoderBytes, ne, used);
      decoder, used := MoveToParameters(decoder, decoderBytes, nd, used);
      assert otherBytes[..|otherBytes|] == otherBytes;
      parameterUsed := used;
      if plan.Static? {
        assert encoderBytes[..ne] == encoderBytes && decoderBytes[..nd] == decoderBytes;
      }
    }

    /** The purge of host copies, with the `min(W, len)` bound the initial
        load uses; static mode drops every host copy. */
    method Purge()
      requires Valid()
      modifies this
      ensures Valid()
      ensures config.memoryOverlap ==>
        && encoder == Purged(old(encoder), B.Min(width, |encoder|))
        && decoder == Purged(old(decoder), B.Min(width, |decoder|))
      ensures !config.memoryOverlap ==>
        encoder == Purged(old(encoder), |encoder|) && decoder == Purged(old(decoder), |decoder|)
      ensures others == Purged(old(others), |others|)
      ensures parameterUsed == old(parameterUsed) && variableUsed == old(variableUsed)
      ensures overlapUsed == old(overlapUsed) && generation == old(generation)
    {
      var ne := if config.memoryOverlap then B.Min(width, |encoder|) else |encoder|;
      var nd := if config.memoryOverlap then B.Min(width, |decoder|) else |decoder|;
      others := DropHostCopies(others, |others|);
      encoder := DropHostCopies(encoder, ne);
      decoder := DropHostCopies(decoder, nd);
    }

    /** `CPM2.__init__` with a model file: plan, preallocate, load, purge. */
    static method Create(config: Config, encoderBytes: seq<nat>, decoderBytes: seq<nat>,
                         otherBytes: seq<nat>, tempSize: nat)
      returns (r: B.Result<Model, B.PlanError>)
      requires |encoderBytes| == config.numEncoderLayers && |decoderBytes| == config.numDecoderLayers
      ensures r.Failure? <==> PlanFor(config, encoderBytes, decoderBytes, otherBytes, tempSize).Failure?
      ensures r.Failure? ==> r.error == PlanFor(config, encoderBytes, decoderBytes, otherBytes, tempSize).error
      ensures r.Success? ==> fresh(r.value) && r.value.Valid() && r.value.ForwardReady()
      ensures r.Success? ==> PlanFor(config, encoderBytes, decoderBytes, otherBytes, tempSize) == B.Success(r.value.plan)
      ensures r.Success? ==> r.value.config == config && r.value.encoderBytes == encoderBytes
      ensures r.Success? ==> r.value.variableUsed == config.dynamicMemory
      ensures r.Success? ==> r.value.parameterUsed ==
                             B.InitialLoadBytes(otherBytes, encoderBytes, decoderBytes, r.value.width)
      ensures r.Success? ==> r.value.width == WindowWidth(config) && r.value.decoderBytes == decoderBytes
      ensures r.Success? ==> r.value.otherBytes == otherBytes && r.value.tempSize == tempSize
      // the first min(W, len) layers of each stack and every other sub-layer
      // are on the device without a host copy; every other layer is on the host only
      ensures r.Success? ==> r.value.encoder == Loaded(|encoderBytes|, B.Min(r.value.width, |encoderBytes|))
      ensures r.Success? ==> r.value.decoder == Loaded(|decoderBytes|, B.Min(r.value.width, |decoderBytes|))
      ensures r.Success? ==> r.value.others == Loaded(|otherBytes|, |otherBytes|)
      ensures r.Success? ==> r.value.overlapUsed == [0, 0] && r.value.generation == [0, 0]
    {
      var plan: B.Result<B.Plan, B.PlanError>;
      if config.memoryOverlap {
        var mx := B.LargestLayerBytes(encoderBytes, decoderBytes);
        plan := B.PlanOverlapped(mx, WindowWidth(config), B.Sum(otherBytes), tempSize,
                                 config.memoryLimit, config.dynamicMemory);
      } else {
        plan := B.PlanStatic(B.Sum(otherBytes) + B.Sum(encoderBytes) + B.Sum(decoderBytes), tempSize,
                             config.memoryLimit, config.dynamicMemory);
      }
      assert plan == PlanFor(config, encoderBytes, decoderBytes, otherBytes, tempSize);
      if plan.Failure? {
        return B.Failure(plan.error);
      }
      var m := new Model(config, encoderBytes, decoderBytes, otherBytes, tempSize, plan.value);
      m.Preallocate();
      m.LoadInitial();
      m.Purge();
      if !config.memoryOverlap {
        assert B.Min(m.width, |encoderBytes|) == |encoderBytes|;
        assert B.Min(m.width, |decoderBytes|) == |decoderBytes|;
      }
      LoadThenPurge(|encoderBytes|, B.Min(m.width, |encoderBytes|));
      LoadThenPurge(|decoderBytes|, B.Min(m.width, |decoderBytes|));
      LoadThenPurge(|otherBytes|, |otherBytes|);
      r := B.Success(m);
    }

    /** The prefetch at boundary i: reset overlap allocator a, then stream
        the next window (layers i + 1 up to the corrected end) into it. */
    method ResetAndStream(i: nat, a: nat) returns (loads: seq<S.Action>)
      requires Valid() && ForwardReady() && Progress(i) && plan.Overlapped?
      requires width > 0 && S.Fires(i, config.numEncoderLayers, width) && a == S.Target(i, width)
      modifies this
      ensures decoder == old(decoder) && others == old(others)
      ensures parameterUsed == old(parameterUsed) && variableUsed == old(variableUsed)
      ensures Valid() && ForwardReady() && Progress(i + 1)
      ensures loads == S.Loads(i + 1, S.PrefetchEnd(i, config.numEncoderLayers, width), a)
      ensures generation == old(generation)[a := old(generation)[a] + 1]
      ensures overlapUsed == old(overlapUsed)[a := B.Sum(encoderBytes[i + 1..S.PrefetchEnd(i, config.numEncoderLayers, width)])]
      ensures encoder == Streamed(old(encoder), i + 1, S.PrefetchEnd(i, config.numEncoderLayers, width), a, generation[a])
      ensures HostCopies(encoder) == HostCopies(old(encoder))
    {
      var n := config.numEncoderLayers;
      var w := width;
      S.PrefetchIsNextWindow(i, n, w);
      var end := S.PrefetchEnd(i, n, w);
      generation := generation[a := generation[a] + 1];
      var streamed, used;
      streamed, used, loads := StreamWindow(encoder, encoderBytes, i + 1, end, a, generation[a]);
      B.WindowFits(encoderBytes, i + 1, end, w, plan.maxLayerBytes);
      StreamedWindowLive(encoder, generation, i, w);
      StreamedKeeps(encoder, i + 1, end, a, generation[a], w);
      encoder := streamed;
      overlapUsed := overlapUsed[a := used];
    }

    /** How far the encoder pass has got at layer i: the rest of i's window
        is usable, and every streamed layer so far sits in the overlap
        allocator of its window's parity. */
    ghost predicate Progress(i: nat)
      reads this
    {
      width > 0 ==> WindowLive(encoder, generation, i, width)
    }

    /** The end of one iteration of the encoder loop: at the last layer of a
        window with a next one, reset the target allocator, wait for the
        compute checkpoint, stream the next window and record both events;
        at any other layer, nothing. */
    method Boundary(i: nat, calcEvent: S.Event) returns (part: seq<S.Action>, event: S.Event)
      requires Valid() && ForwardReady() && Progress(i)
      requires width > 0 && i < config.numEncoderLayers && calcEvent == S.CurrentEvent(i, width)
      modifies this
      ensures decoder == old(decoder) && others == old(others)
      ensures parameterUsed == old(parameterUsed) && variableUsed == old(variableUsed)
      ensures Valid() && ForwardReady() && Progress(i + 1)
      ensures part == S.PrefetchPart(i, config.numEncoderLayers, width)
      ensures event == if S.Fires(i, config.numEncoderLayers, width) then S.AtBoundary(i) else calcEvent
      ensures HostCopies(encoder) == HostCopies(old(encoder))
      ensures forall k :: 0 <= k < |encoder| && k < width ==> encoder[k] == old(encoder[k])
      ensures Overlap(encoder, overlapUsed, generation) ==
              Step(Overlap(old(encoder), old(overlapUsed), old(generation)), encoderBytes, i, width)
    {
      var n := config.numEncoderLayers;
      var w := width;
      S.NextLayer(i, n, w);
      if n <= w {
        S.NoFireInWideWindow(i, n, w);
      }
      if i % w == w - 1 && i + 1 < n {
        assert plan.Overlapped?;
        var a := ((i + 1) / w) % 2;
        var loads := ResetAndStream(i, a);
        event := S.AtBoundary(i);
        part := [S.Reset(a), S.WaitCalc(calcEvent)] + loads + [S.RecordCalc(event), S.RecordLoad(event)];
      } else {
        part := [];
        event := calcEvent;
      }
    }

    /** One iteration of the encoder loop: wait at a window's first layer,
        compute layer i, and at a window's last layer prefetch the next one. */
    method EncoderLayer(i: nat, loadEvent: S.Event, calcEvent: S.Event)
      returns (step: seq<S.Action>, loadEvent': S.Event, calcEvent': S.Event)
      requires Valid() && ForwardReady() && Progress(i)
      requires width > 0 && i < config.numEncoderLayers
      requires loadEvent == S.CurrentEvent(i, width) && calcEvent == S.CurrentEvent(i, width)
      modifies this
      ensures decoder == old(decoder) && others == old(others)
      ensures parameterUsed == old(parameterUsed) && variableUsed == old(variableUsed)
      ensures Valid() && ForwardReady() && Progress(i + 1)
      ensures step == S.LayerStep(i, config.numEncoderLayers, width)
      ensures i + 1 < config.numEncoderLayers ==>
                loadEvent' == S.CurrentEvent(i + 1, width) && calcEvent' == S.CurrentEvent(i + 1, width)
      ensures HostCopies(encoder) == HostCopies(old(encoder))
      ensures forall k :: 0 <= k < |encoder| && k < width ==> encoder[k] == old(encoder[k])
      // a step that does not prefetch leaves the overlap state alone; one
      // that does has the effect of `ResetAndStream`
      ensures Overlap(encoder, overlapUsed, generation) ==
              Step(Overlap(old(encoder), old(overlapUsed), old(generation)), encoderBytes, i, width)
    {
      var n := config.numEncoderLayers;
      var w := width;
      S.NextLayer(i, n, w);
      step := if i % w == 0 then [S.WaitLoad(loadEvent)] else [];
      assert Usable(encoder[i], generation);
      var part, event := Boundary(i, calcEvent);
      step := step + [S.Compute(i)] + part + [S.Synchronize];
      loadEvent', calcEvent' := event, event;
    }

    /** The loop of the encoder pass: it enqueues exactly the schedule's
        trace, and leaves the overlap state that `Run` computes from the
        state it started in. */
    method EncoderPass() returns (trace: seq<S.Action>)
      requires Valid() && ForwardReady()
      requires width > 0 || config.numEncoderLayers == 0
      modifies this
      ensures decoder == old(decoder) && others == old(others)
      ensures parameterUsed == old(parameterUsed) && variableUsed == old(variableUsed)
      ensures Valid() && ForwardReady() && Progress(config.numEncoderLayers)
      ensures trace == S.Prelude() + S.Steps(config.numEncoderLayers, config.numEncoderLayers, width)
      ensures HostCopies(encoder) == HostCopies(old(encoder))
      ensures Overlap(encoder, overlapUsed, generation) ==
              Run(Overlap(old(encoder), old(overlapUsed), old(generation)), encoderBytes, config.numEncoderLayers, width)
    {
      var n := config.numEncoderLayers;
      var w := width;
      ghost var s0 := Overlap(encoder, overlapUsed, generation);
      trace := S.Prelude();
      var loadEvent, calcEvent := S.Initial, S.Initial;
      var i := 0;
      while i < n
        invariant i <= n
        invariant Valid() && ForwardReady() && Progress(i)
        invariant trace == S.Prelude() + S.Steps(i, n, w)
        invariant i < n ==> loadEvent == S.CurrentEvent(i, w) && calcEvent == S.CurrentEvent(i, w)
        invariant decoder == old(decoder) && others == old(others)
        invariant parameterUsed == old(parameterUsed) && variableUsed == old(variableUsed)
        invariant HostCopies(encoder) == HostCopies(old(encoder))
        invariant Overlap(encoder, overlapUsed, generation) == Run(s0, encoderBytes, i, w)
        decreases n - i
      {
        var step;
        step, loadEvent, calcEvent := EncoderLayer(i, loadEvent, calcEvent);
        RunSnoc(s0, encoderBytes, i, w);
        S.TraceSnoc(trace, i, n, w);
        trace := trace + step;
        i := i + 1;
      }
    }

    /** The encoder pass of `forward`, with the prefetch range corrected to
        stop at the last layer. It enqueues exactly the trace of the
        schedule, every computed layer is usable when its compute is
        enqueued, every streamed window fits its overlap allocator, and
        afterwards every layer of window m >= 1 sits in allocator m % 2,
        each overlap allocator's generation counts the resets of it, and
        each holds the last window streamed into it. */
    method Forward() returns (trace: seq<S.Action>)
      requires Valid() && ForwardReady()
      requires width > 0 || config.numEncoderLayers == 0
      modifies this
      ensures decoder == old(decoder) && others == old(others)
      ensures parameterUsed == old(parameterUsed) && variableUsed == old(variableUsed)
      ensures Valid() && ForwardReady()
      ensures trace == S.Trace(config.numEncoderLayers, width)
      ensures HostCopies(encoder) == HostCopies(old(encoder))
      ensures forall k :: 0 <= k < |encoder| && k >= width ==>
                encoder[k].placement.InOverlap? && encoder[k].placement.allocator == S.WindowOf(k, width) % 2
      // each overlap allocator was reset once per prefetch into it
      ensures generation[0] == old(generation)[0] + multiset(trace)[S.Reset(0)]
      ensures generation[1] == old(generation)[1] + multiset(trace)[S.Reset(1)]
      // and holds the last window streamed into it, in its current generation
      ensures width > 0 ==>
        Filled(Overlap(encoder, overlapUsed, generation), encoderBytes, old(overlapUsed), config.numEncoderLayers, width)
      // a window as wide as the stack streams nothing
      ensures config.numEncoderLayers <= width ==>
        encoder == old(encoder) && overlapUsed == old(overlapUsed) && generation == old(generation)
    {
      var n := config.numEncoderLayers;
      var w := width;
      ghost var s0 := Overlap(encoder, overlapUsed, generation);
      trace := EncoderPass();
      if w > 0 {
        assert S.WindowEnd(n, n, w) == n;
      }
      RunCounts(s0, encoderBytes, n, w, 0);
      RunCounts(s0, encoderBytes, n, w, 1);
      S.TraceResetsInto(n, n, w, 0);
      S.TraceResetsInto(n, n, w, 1);
      if w > 0 {
        RunFills(s0, encoderBytes, n, w, 0);
        RunFills(s0, encoderBytes, n, w, 1);
      }
      if n <= w {
        WideRunIsIdle(s0, encoderBytes, n, w);
      }
    }
  }

  /** With W = 4 over two encoder and two decoder layers the plan fits, yet
      the purge as written indexes layer 2 of a two-layer stack. */
  lemma PurgeAsWrittenOverruns(c: Config, encoder: seq<LayerState>)
    requires c == Config(true, 4, 2, 2, 100, 0) && |encoder| == 2
    ensures PlanFor(c, [1, 1], [1, 1], [], 0).Success?
    ensures PurgeStackAsWritten(encoder, WindowWidth(c)) == B.Failure(IndexError(2))
  {
    assert B.MaxBytes([1, 1] + [1, 1]) <= 1;
  }

  /** Static mode never prefetches: the encoder pass has no reset, no
      checkpoint wait and no load, whatever the width of the stacks. */
  lemma StaticModeNeverStreams(c: Config)
    requires !c.memoryOverlap && c.numEncoderLayers > 0
    ensures forall x :: x in S.Trace(c.numEncoderLayers, WindowWidth(c)) ==> !x.Load? && !x.Reset? && !x.WaitCalc?
  {
    S.WideWindowIsStatic(c.numEncoderLayers, WindowWidth(c), WindowWidth(c));
  }
}
