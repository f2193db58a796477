// Byte-budget planning done by the CPM2 constructor before any parameter is
// copied to the device: the largest layer, the overlap, other and temporary
// sizes, the guard that refuses a memory limit that is too small, and the
// capacities handed to the parameter, overlap and variable allocators.

module Budget {

  datatype Result<T, E> = Success(value: T) | Failure(error: E)

  /** The ValueError "memory limit not enough, at least <required> bytes, but got <limit> bytes". */
  datatype PlanError = MemoryLimitNotEnough(required: nat, limit: nat)

  /** First-argument capacities of the allocators built by the constructor. */
  datatype Plan =
    | Overlapped(maxLayerBytes: nat, tempSize: nat, parameterCapacity: nat,
                 overlapCapacity: nat, variableCapacity: nat)
    | Static(totalBytes: nat, tempSize: nat, parameterCapacity: nat, variableCapacity: nat)

  /** Capacities of the static branch exactly as its guard lets them through:
      the variable capacity may be negative there. */
  datatype StaticCapacities = StaticCapacities(parameterCapacity: nat, variableCapacity: int)

  /** Total bytes of a list of layers (the `nbytes` of a layer list). */
  function Sum(s: seq<nat>): nat
  {
    if s == [] then 0 else Sum(s[..|s| - 1]) + s[|s| - 1]
  }

  lemma SumAppend(s: seq<nat>, x: nat)
    ensures Sum(s + [x]) == Sum(s) + x
  {
    assert (s + [x])[..|s|] == s;
  }

  /** Largest layer size, folded from the left starting at 0 as `mx_size` is. */
  function MaxBytes(s: seq<nat>): (r: nat)
    ensures forall k :: 0 <= k < |s| ==> s[k] <= r
    ensures s == [] ==> r == 0
    ensures s != [] ==> r in s
  {
    if s == [] then 0
    else
      var m := MaxBytes(s[..|s| - 1]);
      assert forall k :: 0 <= k < |s| - 1 ==> s[k] == s[..|s| - 1][k];
      if s[|s| - 1] >= m then s[|s| - 1] else m
  }

  lemma MaxBytesSnoc(s: seq<nat>, x: nat)
    ensures MaxBytes(s + [x]) == if x >= MaxBytes(s) then x else MaxBytes(s)
  {
    assert (s + [x])[..|s|] == s;
  }

  /** The two `mx_size` loops over the encoder and decoder layers. */
  method LargestLayerBytes(encoder: seq<nat>, decoder: seq<nat>) returns (mx: nat)
    ensures mx == MaxBytes(encoder + decoder)
  {
    mx := 0;
    for i := 0 to |encoder|
      invariant mx == MaxBytes(encoder[..i])
    {
      assert encoder[..i + 1] == encoder[..i] + [encoder[i]];
      MaxBytesSnoc(encoder[..i], encoder[i]);
      mx := if encoder[i] >= mx then encoder[i] else mx;
    }
    assert encoder[..|encoder|] == encoder + decoder[..0];
    for i := 0 to |decoder|
      invariant mx == MaxBytes(encoder + decoder[..i])
    {
      assert encoder + decoder[..i + 1] == (encoder + decoder[..i]) + [decoder[i]];
      MaxBytesSnoc(encoder + decoder[..i], decoder[i]);
      mx := if decoder[i] >= mx then decoder[i] else mx;
    }
    assert decoder[..|decoder|] == decoder;
  }

  /** Bytes the overlap mode needs in all: `overlap_size + other_size + temp_size * 2 + DYNAMIC_MEMORY`. */
  function OverlapRequirement(mx: nat, w: nat, otherSize: nat, tempSize: nat, dynamic: nat): nat
  {
    mx * w * 4 + otherSize + tempSize * 2 + dynamic
  }

  /** The overlap branch of the constructor: guard, then allocator capacities. */
  function PlanOverlapped(mx: nat, w: nat, otherSize: nat, tempSize: nat, limit: nat, dynamic: nat)
    : (r: Result<Plan, PlanError>)
    ensures r.Failure? <==> OverlapRequirement(mx, w, otherSize, tempSize, dynamic) > limit
    ensures r.Failure? ==> r.error.required == OverlapRequirement(mx, w, otherSize, tempSize, dynamic)
    ensures r.Success? ==>
      && r.value.Overlapped?
      && r.value.maxLayerBytes == mx
      && r.value.tempSize == tempSize
      // each overlap allocator holds W of the largest layers
      && r.value.overlapCapacity == w * mx
      // the parameter allocator holds the other sub-layers and two windows
      && r.value.parameterCapacity == otherSize + 2 * (w * mx)
      // the four capacities share out the limit less the two temporary buffers
      && r.value.parameterCapacity + 2 * r.value.overlapCapacity + r.value.variableCapacity
         == limit - 2 * tempSize
      // the dynamic preallocation fits the variable allocator
      && r.value.variableCapacity >= dynamic
  {
    var overlapSize := mx * w * 4;
    var required := overlapSize + otherSize + tempSize * 2 + dynamic;
    if required > limit then Failure(MemoryLimitNotEnough(required, limit))
    else
      Success(Overlapped(mx, tempSize, otherSize + overlapSize / 2, overlapSize / 4,
                         limit - otherSize - overlapSize - tempSize * 2))
  }

  /** The static branch as its guard is evidently meant: refuse a limit below
      the total plus the dynamic reserve. */
  function PlanStatic(totalBytes: nat, tempSize: nat, limit: nat, dynamic: nat)
    : (r: Result<Plan, PlanError>)
    ensures r.Failure? <==> totalBytes + dynamic > limit
    ensures r.Success? ==>
      && r.value.Static?
      && r.value.totalBytes == totalBytes
      && r.value.parameterCapacity == totalBytes
      && r.value.parameterCapacity + r.value.variableCapacity == limit
      && r.value.variableCapacity >= dynamic
  {
    if totalBytes + dynamic > limit then Failure(MemoryLimitNotEnough(totalBytes + dynamic, limit))
    else Success(Static(totalBytes, tempSize, totalBytes, limit - totalBytes))
  }

  /** The static branch as written: it raises when the total plus the dynamic
      reserve is strictly BELOW the limit. */
  function PlanStaticAsWritten(totalBytes: nat, limit: nat, dynamic: nat)
    : (r: Result<StaticCapacities, PlanError>)
    ensures r.Failure? <==> totalBytes + dynamic < limit
    ensures r.Success? ==> r.value.variableCapacity <= dynamic
    ensures r.Success? ==> (r.value.variableCapacity >= dynamic <==> totalBytes + dynamic == limit)
  {
    if totalBytes + dynamic < limit then Failure(MemoryLimitNotEnough(totalBytes + dynamic, limit))
    else Success(StaticCapacities(totalBytes, limit - totalBytes))
  }

  /** A budget with ample room is refused by the written guard and accepted
      by the intended one; an over-full budget is the other way round, and
      the variable allocator it leaves has a negative capacity. */
  lemma StaticGuardInverted()
    ensures PlanStaticAsWritten(10, 100, 5).Failure? && PlanStatic(10, 0, 100, 5).Success?
    ensures PlanStaticAsWritten(100, 50, 5) == Success(StaticCapacities(100, -50))
    ensures PlanStatic(100, 0, 50, 5).Failure?
  {
  }

  /** Any run of at most W layers, each at most `mx` bytes, fits in W * mx bytes. */
  lemma {:induction false} RunFits(s: seq<nat>, mx: nat)
    requires forall k :: 0 <= k < |s| ==> s[k] <= mx
    ensures Sum(s) <= |s| * mx
  {
    if s != [] {
      var init := s[..|s| - 1];
      assert forall k :: 0 <= k < |init| ==> init[k] == s[k];
      RunFits(init, mx);
      assert Sum(s) == Sum(init) + s[|s| - 1];
      assert |s| * mx == |init| * mx + mx;
    }
  }

  /** A window of at most W consecutive layers fits one overlap allocator. */
  lemma WindowFits(bytes: seq<nat>, lo: nat, hi: nat, w: nat, mx: nat)
    requires lo <= hi <= |bytes| && hi - lo <= w
    requires forall k :: 0 <= k < |bytes| ==> bytes[k] <= mx
    ensures Sum(bytes[lo..hi]) <= w * mx
  {
    var s := bytes[lo..hi];
    assert forall k :: 0 <= k < |s| ==> s[k] == bytes[lo + k];
    RunFits(s, mx);
    assert |s| * mx <= w * mx by {
      MulMonotone(|s|, w, mx);
    }
  }

  lemma MulMonotone(a: nat, b: nat, c: nat)
    requires a <= b
    ensures a * c <= b * c
  {
  }

  function Min(a: nat, b: nat): nat { if a < b then a else b }

  /** What the initial load puts in the parameter allocator: every other
      sub-layer plus the first min(W, len) encoder and decoder layers. */
  function InitialLoadBytes(other: seq<nat>, encoder: seq<nat>, decoder: seq<nat>, w: nat): nat
  {
    Sum(other) + Sum(encoder[..Min(w, |encoder|)]) + Sum(decoder[..Min(w, |decoder|)])
  }

  /** The initial load fits the parameter allocator `other_size + overlap_size // 2`. */
  lemma InitialLoadFits(other: seq<nat>, encoder: seq<nat>, decoder: seq<nat>, w: nat)
    ensures InitialLoadBytes(other, encoder, decoder, w)
            <= Sum(other) + 2 * (w * MaxBytes(encoder + decoder))
  {
    var mx := MaxBytes(encoder + decoder);
    assert forall k :: 0 <= k < |encoder| ==> encoder[k] == (encoder + decoder)[k];
    assert forall k :: 0 <= k < |decoder| ==> decoder[k] == (encoder + decoder)[|encoder| + k];
    WindowFits(encoder, 0, Min(w, |encoder|), w, mx);
    WindowFits(decoder, 0, Min(w, |decoder|), w, mx);
  }
}
