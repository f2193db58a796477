// The windowed prefetch schedule of the CPM2 encoder pass, as an ordered trace
// of what the host enqueues on the compute stream and on the load stream.
// Window m holds the layers m*W .. m*W + W - 1; window 0 already sits in the
// parameter allocator, every later window is streamed into overlap allocator
// m % 2 at the last layer of the window before it.

module Schedule {

  import B = Budget

  /** A stream event, named by where it was recorded: before the loop, or in
      the step of the boundary layer whose prefetch recorded it. */
  datatype Event = Initial | AtBoundary(layer: nat)

  datatype Option<T> = None | Some(value: T)

  datatype Action =
    | WaitLoad(event: Event)          // compute stream waits on a load event
    | Compute(layer: nat)             // one encoder layer's forward
    | Reset(allocator: nat)           // an overlap allocator is rewound
    | WaitCalc(event: Event)          // load stream waits on a compute event
    | Load(layer: nat, allocator: nat) // a layer is copied into an overlap allocator
    | RecordCalc(event: Event)        // compute stream records an event
    | RecordLoad(event: Event)        // load stream records an event
    | Synchronize                     // the whole device is synchronised

  /** The window a layer belongs to. */
  function WindowOf(j: nat, w: nat): nat
    requires w > 0
  {
    j / w
  }

  /** A prefetch fires after layer i: the last layer of a window with a next one. */
  predicate Fires(i: nat, n: nat, w: nat)
    requires w > 0
  {
    i % w == w - 1 && i + 1 < n
  }

  /** The overlap allocator chosen at boundary i, `((i + 1) // W) % 2`. */
  function Target(i: nat, w: nat): nat
    requires w > 0
  {
    ((i + 1) / w) % 2
  }

  /** Exclusive end of the layers streamed at boundary i: `min(i + W, N - 1) + 1`. */
  function PrefetchEnd(i: nat, n: nat, w: nat): nat
  {
    if i + w + 1 < n then i + w + 1 else n
  }

  /** Exclusive end of the loop `range(i + 1, min(i + W, N) + 1)` as written. */
  function PrefetchEndAsWritten(i: nat, n: nat, w: nat): nat
  {
    (if i + w < n then i + w else n) + 1
  }

  /** The event that `load_event` and `calc_event` hold when step i begins:
      the one recorded at the last boundary before i, or the initial one. */
  function CurrentEvent(i: nat, w: nat): Event
    requires w > 0
  {
    if i < w then Initial else AtBoundary(i - i % w - 1)
  }

  /** Loads of layers lo .. hi - 1 into allocator a, in order. */
  function Loads(lo: nat, hi: nat, a: nat): seq<Action>
    decreases hi
  {
    if hi <= lo then [] else Loads(lo, hi - 1, a) + [Load(hi - 1, a)]
  }

  /** Reset, wait for the compute checkpoint, stream the next window, record both events. */
  function Prefetch(i: nat, n: nat, w: nat): seq<Action>
    requires w > 0
  {
    [Reset(Target(i, w)), WaitCalc(CurrentEvent(i, w))]
    + Loads(i + 1, PrefetchEnd(i, n, w), Target(i, w))
    + [RecordCalc(AtBoundary(i)), RecordLoad(AtBoundary(i))]
  }

  /** The compute stream's wait at the first layer of a window. */
  function WaitPart(i: nat, w: nat): seq<Action>
    requires w > 0
  {
    if i % w == 0 then [WaitLoad(CurrentEvent(i, w))] else []
  }

  function PrefetchPart(i: nat, n: nat, w: nat): seq<Action>
    requires w > 0
  {
    if Fires(i, n, w) then Prefetch(i, n, w) else []
  }

  /** What one iteration of the encoder loop enqueues for layer i. */
  function LayerStep(i: nat, n: nat, w: nat): seq<Action>
    requires w > 0
  {
    WaitPart(i, w) + [Compute(i)] + PrefetchPart(i, n, w) + [Synchronize]
  }

  /** The concatenation f(0) + f(1) + ... + f(k - 1). */
  function Concat(f: nat --> seq<Action>, k: nat): seq<Action>
    requires forall i: nat :: i < k ==> f.requires(i)
  {
    if k == 0 then [] else Concat(f, k - 1) + f(k - 1)
  }

  /** The steps of layers 0 .. k - 1. */
  function Steps(k: nat, n: nat, w: nat): seq<Action>
    requires w > 0 || k == 0
  {
    Concat((i: nat) requires w > 0 => LayerStep(i, n, w), k)
  }

  /** Both streams record their first event before the loop. */
  function Prelude(): seq<Action>
  {
    [RecordLoad(Initial), RecordCalc(Initial)]
  }

  /** The whole encoder pass over n layers with window width w. */
  function Trace(n: nat, w: nat): seq<Action>
    requires w > 0 || n == 0
  {
    Prelude() + Steps(n, n, w)
  }

  // ---------------------------------------------------------------------
  // Division facts

  lemma DivModUnique(x: nat, w: nat, q: nat, r: nat)
    requires w > 0 && r < w && x == q * w + r
    ensures x / w == q && x % w == r
  {
    var q0, r0 := x / w, x % w;
    assert x == q0 * w + r0;
    if q0 > q {
      assert (q0 - q) * w == r - r0;
      MulAtLeast(q0 - q, w);
    } else if q0 < q {
      assert (q - q0) * w == r0 - r;
      MulAtLeast(q - q0, w);
    }
  }

  lemma MulAtLeast(d: int, w: nat)
    requires d >= 1
    ensures d * w >= w
  {
  }

  /** How div and mod move from layer i to layer i + 1. */
  lemma DivStep(i: nat, w: nat)
    requires w > 0
    ensures i % w == w - 1 ==> (i + 1) % w == 0 && (i + 1) / w == i / w + 1
    ensures i % w != w - 1 ==> (i + 1) % w == i % w + 1 && (i + 1) / w == i / w
  {
    if i % w == w - 1 {
      DivModUnique(i + 1, w, i / w + 1, 0);
    } else {
      DivModUnique(i + 1, w, i / w, i % w + 1);
    }
  }

  /** Moving one window up keeps the position in the window. */
  lemma ShiftUp(x: nat, w: nat)
    requires w > 0
    ensures (x + w) % w == x % w && (x + w) / w == x / w + 1
  {
    DivModUnique(x + w, w, x / w + 1, x % w);
  }

  /** Moving one window down keeps the position in the window. */
  lemma ShiftDown(x: nat, w: nat)
    requires w > 0 && x >= w
    ensures (x - w) % w == x % w && (x - w) / w + 1 == x / w
  {
    ShiftUp(x - w, w);
  }

  /** Two indices at the same position in their windows are a whole window apart. */
  lemma SameResidueApart(x: nat, y: nat, w: nat)
    requires w > 0 && x % w == y % w && x < y
    ensures x + w <= y
  {
    var p, q := x / w, y / w;
    assert x == p * w + x % w;
    assert y == q * w + y % w;
    if p >= q {
      B.MulMonotone(q, p, w);
    }
    B.MulMonotone(p + 1, q, w);
    assert (p + 1) * w == p * w + w;
  }

  /** The first layer of the window holding j. */
  lemma WindowStart(j: nat, w: nat)
    requires w > 0
    ensures (j - j % w) % w == 0 && (j - j % w) / w == j / w
    ensures j >= w ==> j - j % w >= w
  {
    assert j == (j / w) * w + j % w;
    DivModUnique(j - j % w, w, j / w, 0);
    if j >= w {
      ShiftDown(j, w);
      MulAtLeast(j / w, w);
    }
  }

  /** Layers of one window lie between its first layer and the next window's. */
  lemma WindowBounds(j: nat, s: nat, w: nat)
    requires w > 0 && s % w == 0
    ensures WindowOf(j, w) == s / w <==> s <= j < s + w
  {
    if s <= j < s + w {
      DivModUnique(j, w, s / w, j - s);
    }
    if WindowOf(j, w) == s / w {
      assert j == (j / w) * w + j % w;
      assert s == (s / w) * w;
    }
  }

  // ---------------------------------------------------------------------
  // Where prefetches fire and what they stream

  /** A prefetch streams exactly the next window: W layers when W more fit,
      otherwise the remaining layers, never an index at or past N. */
  lemma PrefetchIsNextWindow(i: nat, n: nat, w: nat)
    requires w > 0 && Fires(i, n, w)
    ensures (i + 1) % w == 0 && w <= i + 1
    ensures i + 1 < PrefetchEnd(i, n, w) <= n
    ensures i + w < n ==> PrefetchEnd(i, n, w) == i + 1 + w
    ensures forall j: nat :: i + 1 <= j < PrefetchEnd(i, n, w) <==> j < n && WindowOf(j, w) == WindowOf(i + 1, w)
  {
    DivStep(i, w);
    forall j: nat
      ensures i + 1 <= j < PrefetchEnd(i, n, w) <==> j < n && WindowOf(j, w) == WindowOf(i + 1, w)
    {
      WindowBounds(j, i + 1, w);
    }
  }

  /** Consecutive prefetches alternate between the two overlap allocators,
      and every second prefetch returns to the same one. */
  lemma TargetsAlternate(i: nat, w: nat)
    requires w > 0 && i % w == w - 1
    ensures Target(i + w, w) != Target(i, w)
    ensures Target(i + 2 * w, w) == Target(i, w)
  {
    ShiftUp(i + 1, w);
    ShiftUp(i + 1 + w, w);
  }

  /** The wait at boundary i names the compute event recorded at the
      previous boundary, i - W. */
  lemma CheckpointIsPreviousBoundary(i: nat, n: nat, w: nat)
    requires w > 0 && Fires(i, n, w) && i >= w
    ensures CurrentEvent(i, w) == AtBoundary(i - w)
    ensures Fires(i - w, n, w) && Target(i - w, w) != Target(i, w)
  {
    ShiftDown(i, w);
    TargetsAlternate(i - w, w);
  }

  /** The allocator reset at boundary i was last filled at boundary i - 2W,
      with the window whose last layer, i - W, is the one computed just
      before the awaited checkpoint was recorded. */
  lemma PreviousOccupant(i: nat, n: nat, w: nat)
    requires w > 0 && Fires(i, n, w) && i >= 2 * w
    ensures Fires(i - 2 * w, n, w)
    ensures Target(i - 2 * w, w) == Target(i, w)
    ensures PrefetchEnd(i - 2 * w, n, w) == i - w + 1
  {
    ShiftDown(i, w);
    ShiftDown(i - w, w);
    TargetsAlternate(i - 2 * w, w);
  }

  /** Between boundary i - 2W and boundary i the only prefetch is the one at
      i - W, and it fills the other allocator. */
  lemma NoPrefetchBetween(i: nat, b: nat, n: nat, w: nat)
    requires w > 0 && Fires(i, n, w) && Fires(b, n, w)
    requires b < i < b + 2 * w
    ensures b == i - w && Target(b, w) != Target(i, w)
  {
    SameResidueApart(b, i, w);
    if b + w < i {
      ShiftDown(i, w);
      SameResidueApart(b, i - w, w);
    }
    TargetsAlternate(b, w);
  }

  /** The wait at the first layer of window m >= 1 names the load event
      recorded at the end of window m - 1, by the prefetch that streamed
      window m into allocator m % 2; in that prefetch the loads come before
      the record. */
  lemma WindowReady(s: nat, n: nat, w: nat)
    requires w > 0 && s % w == 0 && 0 < s < n
    ensures Fires(s - 1, n, w)
    ensures CurrentEvent(s, w) == AtBoundary(s - 1)
    ensures LayerStep(s, n, w)[0] == WaitLoad(AtBoundary(s - 1))
    ensures Target(s - 1, w) == WindowOf(s, w) % 2
    ensures PrefetchEnd(s - 1, n, w) == if s + w < n then s + w else n
    ensures Prefetch(s - 1, n, w)
            == [Reset(WindowOf(s, w) % 2), WaitCalc(CurrentEvent(s - 1, w))]
               + Loads(s, PrefetchEnd(s - 1, n, w), WindowOf(s, w) % 2)
               + [RecordCalc(AtBoundary(s - 1)), RecordLoad(AtBoundary(s - 1))]
  {
    DivStep(s - 1, w);
  }

  // ---------------------------------------------------------------------
  // Counting over the trace

  /** An action that step i contributes c times when i == b, and no other step does. */
  lemma {:induction false} CountOnce(f: nat --> seq<Action>, k: nat, x: Action, b: nat, c: nat)
    requires forall i: nat :: i < k ==> f.requires(i)
    requires forall i: nat :: i < k ==> multiset(f(i))[x] == if i == b then c else 0
    ensures multiset(Concat(f, k))[x] == if b < k then c else 0
  {
    if k > 0 {
      CountOnce(f, k - 1, x, b, c);
    }
  }

  /** Resets over the steps: one for each step at which a prefetch fires. */
  lemma {:induction false} CountFiring(f: nat --> seq<Action>, k: nat, n: nat, w: nat)
    requires w > 0
    requires forall i: nat :: i < k ==> f.requires(i)
    requires forall i: nat :: i < k ==>
      multiset(f(i))[Reset(0)] + multiset(f(i))[Reset(1)] == if Fires(i, n, w) then 1 else 0
    ensures multiset(Concat(f, k))[Reset(0)] + multiset(Concat(f, k))[Reset(1)] == FiresCount(k, n, w)
  {
    if k > 0 {
      CountFiring(f, k - 1, n, w);
    }
  }

  /** Two step functions that agree give the same concatenation. */
  lemma {:induction false} ConcatAgree(f: nat --> seq<Action>, g: nat --> seq<Action>, k: nat)
    requires forall i: nat :: i < k ==> f.requires(i) && g.requires(i) && f(i) == g(i)
    ensures Concat(f, k) == Concat(g, k)
  {
    if k > 0 {
      ConcatAgree(f, g, k - 1);
    }
  }

  /** No step holds a reset, a checkpoint wait or a load, so neither does the concatenation. */
  lemma {:induction false} ConcatWithoutPrefetch(f: nat --> seq<Action>, k: nat)
    requires forall i: nat :: i < k ==> f.requires(i)
    requires forall i: nat, x :: i < k && x in f(i) ==> !x.Load? && !x.Reset? && !x.WaitCalc?
    ensures forall x :: x in Concat(f, k) ==> !x.Load? && !x.Reset? && !x.WaitCalc?
  {
    if k > 0 {
      ConcatWithoutPrefetch(f, k - 1);
    }
  }

  lemma LoadsCount(lo: nat, hi: nat, a: nat, x: Action)
    ensures multiset(Loads(lo, hi, a))[x] ==
            if x.Load? && x.allocator == a && lo <= x.layer < hi then 1 else 0
    decreases hi
  {
    if hi > lo {
      LoadsCount(lo, hi - 1, a, x);
    }
  }

  lemma StepCount(i: nat, n: nat, w: nat, x: Action)
    requires w > 0
    ensures multiset(LayerStep(i, n, w))[x] ==
            multiset(WaitPart(i, w))[x] + multiset([Compute(i)])[x]
            + multiset(PrefetchPart(i, n, w))[x] + multiset([Synchronize])[x]
  {
  }

  /** Each step records the events of its own boundary and no other. */
  lemma StepRecords(i: nat, n: nat, w: nat, b: nat)
    requires w > 0
    ensures multiset(LayerStep(i, n, w))[RecordLoad(AtBoundary(b))] == if i == b && Fires(i, n, w) then 1 else 0
    ensures multiset(LayerStep(i, n, w))[RecordCalc(AtBoundary(b))] == if i == b && Fires(i, n, w) then 1 else 0
  {
    StepCount(i, n, w, RecordLoad(AtBoundary(b)));
    StepCount(i, n, w, RecordCalc(AtBoundary(b)));
    if Fires(i, n, w) {
      PrefetchRecords(i, n, w, b);
    }
  }

  /** A prefetch records one compute and one load event, both named after its boundary. */
  lemma PrefetchRecords(i: nat, n: nat, w: nat, b: nat)
    requires w > 0
    ensures multiset(Prefetch(i, n, w))[RecordLoad(AtBoundary(b))] == if i == b then 1 else 0
    ensures multiset(Prefetch(i, n, w))[RecordCalc(AtBoundary(b))] == if i == b then 1 else 0
  {
    var t := Target(i, w);
    var loads := Loads(i + 1, PrefetchEnd(i, n, w), t);
    LoadsCount(i + 1, PrefetchEnd(i, n, w), t, RecordLoad(AtBoundary(b)));
    LoadsCount(i + 1, PrefetchEnd(i, n, w), t, RecordCalc(AtBoundary(b)));
    assert Prefetch(i, n, w) == [Reset(t), WaitCalc(CurrentEvent(i, w))] + loads
                                + [RecordCalc(AtBoundary(i)), RecordLoad(AtBoundary(i))];
  }

  /** Each compute and load event is recorded once, at its own boundary. */
  lemma EventRecordedOnce(k: nat, n: nat, w: nat, b: nat)
    requires w > 0
    ensures multiset(Steps(k, n, w))[RecordLoad(AtBoundary(b))] == if b < k && Fires(b, n, w) then 1 else 0
    ensures multiset(Steps(k, n, w))[RecordCalc(AtBoundary(b))] == if b < k && Fires(b, n, w) then 1 else 0
  {
    var c := if Fires(b, n, w) then 1 else 0;
    forall i: nat | i < k
      ensures multiset(LayerStep(i, n, w))[RecordLoad(AtBoundary(b))] == if i == b then c else 0
      ensures multiset(LayerStep(i, n, w))[RecordCalc(AtBoundary(b))] == if i == b then c else 0
    {
      StepRecords(i, n, w, b);
    }
    CountOnce((i: nat) requires w > 0 => LayerStep(i, n, w), k, RecordLoad(AtBoundary(b)), b, c);
    CountOnce((i: nat) requires w > 0 => LayerStep(i, n, w), k, RecordCalc(AtBoundary(b)), b, c);
  }

  /** Each step loads layer j at most once, and only as part of its prefetch. */
  lemma StepLoads(i: nat, n: nat, w: nat, j: nat, a: nat)
    requires w > 0
    ensures multiset(LayerStep(i, n, w))[Load(j, a)] ==
            if Fires(i, n, w) && a == Target(i, w) && i + 1 <= j < PrefetchEnd(i, n, w) then 1 else 0
  {
    StepCount(i, n, w, Load(j, a));
    if Fires(i, n, w) {
      LoadsCount(i + 1, PrefetchEnd(i, n, w), Target(i, w), Load(j, a));
    }
  }

  /** Layer j is loaded at step i exactly when i is the boundary just before
      j's window, and then into the allocator of j's window. */
  lemma LoadedAtBoundary(i: nat, j: nat, n: nat, w: nat)
    requires w > 0
    ensures (Fires(i, n, w) && i + 1 <= j < PrefetchEnd(i, n, w))
            <==> (w <= j < n && i + 1 == j - j % w)
    ensures w <= j && i + 1 == j - j % w ==> Target(i, w) == WindowOf(j, w) % 2
  {
    WindowStart(j, w);
    DivStep(i, w);
    if Fires(i, n, w) && i + 1 <= j < PrefetchEnd(i, n, w) {
      WindowBounds(j, i + 1, w);
      assert j == (j / w) * w + j % w;
      assert i + 1 == ((i + 1) / w) * w;
      WindowStart(i, w);
    }
    if w <= j < n && i + 1 == j - j % w {
      WindowBounds(j, i + 1, w);
    }
  }

  /** Every layer from W on is streamed exactly once per pass, into the
      allocator of its window; window 0 and out-of-range indices never are. */
  lemma StreamedOnce(k: nat, n: nat, w: nat, j: nat, a: nat)
    requires w > 0
    ensures multiset(Steps(k, n, w))[Load(j, a)] ==
            if w <= j < n && j - j % w <= k && a == WindowOf(j, w) % 2 then 1 else 0
  {
    WindowStart(j, w);
    var b: nat := if j >= w then j - j % w - 1 else 0;
    var c := if w <= j < n && a == WindowOf(j, w) % 2 then 1 else 0;
    forall i: nat | i < k
      ensures multiset(LayerStep(i, n, w))[Load(j, a)] == if i == b then c else 0
    {
      StepLoads(i, n, w, j, a);
      LoadedAtBoundary(i, j, n, w);
    }
    CountOnce((i: nat) requires w > 0 => LayerStep(i, n, w), k, Load(j, a), b, c);
  }

  /** The whole pass streams each layer of windows 1, 2, ... once into
      allocator (j / W) % 2 and nothing else. */
  lemma TraceStreamsEachLayerOnce(n: nat, w: nat, j: nat, a: nat)
    requires w > 0
    ensures multiset(Trace(n, w))[Load(j, a)] ==
            if w <= j < n && a == WindowOf(j, w) % 2 then 1 else 0
  {
    StreamedOnce(n, n, w, j, a);
  }

  /** A prefetch resets its target allocator once and no other. */
  lemma PrefetchResetsInto(i: nat, n: nat, w: nat, a: nat)
    requires w > 0
    ensures multiset(Prefetch(i, n, w))[Reset(a)] == if a == Target(i, w) then 1 else 0
  {
    var t := Target(i, w);
    var loads := Loads(i + 1, PrefetchEnd(i, n, w), t);
    LoadsCount(i + 1, PrefetchEnd(i, n, w), t, Reset(a));
    var tail := [RecordCalc(AtBoundary(i)), RecordLoad(AtBoundary(i))];
    assert Prefetch(i, n, w) == [Reset(t), WaitCalc(CurrentEvent(i, w))] + loads + tail;
    assert multiset(tail)[Reset(a)] == 0;
  }

  /** A prefetch resets exactly one of the two overlap allocators. */
  lemma PrefetchResets(i: nat, n: nat, w: nat)
    requires w > 0
    ensures multiset(Prefetch(i, n, w))[Reset(0)] + multiset(Prefetch(i, n, w))[Reset(1)] == 1
  {
    PrefetchResetsInto(i, n, w, 0);
    PrefetchResetsInto(i, n, w, 1);
  }

  /** A step resets allocator a exactly when it prefetches into a. */
  lemma StepResetsInto(i: nat, n: nat, w: nat, a: nat)
    requires w > 0
    ensures multiset(LayerStep(i, n, w))[Reset(a)] == if Fires(i, n, w) && Target(i, w) == a then 1 else 0
  {
    StepCount(i, n, w, Reset(a));
    assert multiset(WaitPart(i, w))[Reset(a)] == 0;
    if Fires(i, n, w) {
      PrefetchResetsInto(i, n, w, a);
    }
  }

  /** A step resets one of the two overlap allocators exactly when it prefetches. */
  lemma StepResets(i: nat, n: nat, w: nat)
    requires w > 0
    ensures multiset(LayerStep(i, n, w))[Reset(0)] + multiset(LayerStep(i, n, w))[Reset(1)]
            == if Fires(i, n, w) then 1 else 0
  {
    StepResetsInto(i, n, w, 0);
    StepResetsInto(i, n, w, 1);
  }

  /** Number of boundaries among layers 0 .. k - 1 at which a prefetch fires. */
  function FiresCount(k: nat, n: nat, w: nat): nat
    requires w > 0
  {
    if k == 0 then 0 else FiresCount(k - 1, n, w) + (if Fires(k - 1, n, w) then 1 else 0)
  }

  lemma {:induction false} FiresCountValue(k: nat, n: nat, w: nat)
    requires w > 0 && k < n
    ensures FiresCount(k, n, w) == k / w
  {
    if k == 0 {
      DivModUnique(0, w, 0, 0);
    } else {
      FiresCountValue(k - 1, n, w);
      DivStep(k - 1, w);
      assert Fires(k - 1, n, w) <==> (k - 1) % w == w - 1;
    }
  }

  /** Number of prefetches among the first k steps. */
  lemma PrefetchesSoFar(k: nat, n: nat, w: nat)
    requires w > 0
    ensures multiset(Steps(k, n, w))[Reset(0)] + multiset(Steps(k, n, w))[Reset(1)]
            == FiresCount(k, n, w)
  {
    forall i: nat | i < k
      ensures multiset(LayerStep(i, n, w))[Reset(0)] + multiset(LayerStep(i, n, w))[Reset(1)]
              == if Fires(i, n, w) then 1 else 0
    {
      StepResets(i, n, w);
    }
    CountFiring((i: nat) requires w > 0 => LayerStep(i, n, w), k, n, w);
  }

  /** A pass over N >= 1 layers issues (N - 1) / W prefetches, one for each
      window after the first. */
  lemma PrefetchCount(n: nat, w: nat)
    requires w > 0 && n > 0
    ensures multiset(Trace(n, w))[Reset(0)] + multiset(Trace(n, w))[Reset(1)] == (n - 1) / w
  {
    PrefetchesSoFar(n, n, w);
    FiresCountValue(n - 1, n, w);
    assert !Fires(n - 1, n, w);
  }

  /** Eight layers with a window of three: windows [0,3), [3,6), [6,8) and
      two prefetches. */
  lemma EightLayersPrefetchTwice(n: nat, w: nat)
    requires n == 8 && w == 3
    ensures multiset(Trace(n, w))[Reset(0)] + multiset(Trace(n, w))[Reset(1)] == 2
  {
    PrefetchCount(n, w);
    EightLayersWindows(n, w);
  }

  /** Layers 3..5 are streamed into allocator 1 and layers 6..7 into allocator 0. */
  lemma EightLayersStreamed(n: nat, w: nat)
    requires n == 8 && w == 3
    ensures multiset(Trace(n, w))[Load(3, 1)] == 1
    ensures multiset(Trace(n, w))[Load(4, 1)] == 1
    ensures multiset(Trace(n, w))[Load(5, 1)] == 1
    ensures multiset(Trace(n, w))[Load(6, 0)] == 1
    ensures multiset(Trace(n, w))[Load(7, 0)] == 1
  {
    EightLayersWindows(n, w);
    TraceStreamsEachLayerOnce(n, w, 3, 1);
    TraceStreamsEachLayerOnce(n, w, 4, 1);
    TraceStreamsEachLayerOnce(n, w, 5, 1);
    TraceStreamsEachLayerOnce(n, w, 6, 0);
    TraceStreamsEachLayerOnce(n, w, 7, 0);
  }

  /** No load of layers 0..2, and none of the index past the end. */
  lemma EightLayersNoStrayLoad(n: nat, w: nat)
    requires n == 8 && w == 3
    ensures forall a: nat :: multiset(Trace(n, w))[Load(8, a)] == 0
    ensures forall j: nat, a: nat :: j < 3 ==> multiset(Trace(n, w))[Load(j, a)] == 0
  {
    forall j: nat, a: nat | j < 3 || j == 8
      ensures multiset(Trace(n, w))[Load(j, a)] == 0
    {
      TraceStreamsEachLayerOnce(n, w, j, a);
    }
  }

  lemma EightLayersWindows(n: nat, w: nat)
    requires n == 8 && w == 3
    ensures (n - 1) / w == 2
    ensures WindowOf(3, w) == 1 && WindowOf(4, w) == 1 && WindowOf(5, w) == 1
    ensures WindowOf(6, w) == 2 && WindowOf(7, w) == 2
  {
    DivModUnique(7, 3, 2, 1);
    DivModUnique(3, 3, 1, 0);
    DivModUnique(4, 3, 1, 1);
    DivModUnique(5, 3, 1, 2);
    DivModUnique(6, 3, 2, 0);
  }

  // ---------------------------------------------------------------------
  // What each overlap allocator holds

  /** The last boundary before layer k that prefetched into allocator a, if any. */
  function LastFill(k: nat, n: nat, w: nat, a: nat): (r: Option<nat>)
    requires w > 0
    ensures r.Some? ==> r.value < k && Fires(r.value, n, w) && Target(r.value, w) == a
    ensures r.Some? ==> forall b: nat :: r.value < b < k ==> !(Fires(b, n, w) && Target(b, w) == a)
    ensures r.None? ==> forall b: nat :: b < k ==> !(Fires(b, n, w) && Target(b, w) == a)
  {
    if k == 0 then None
    else if Fires(k - 1, n, w) && Target(k - 1, w) == a then Some(k - 1)
    else LastFill(k - 1, n, w, a)
  }

  /** The windows streamed at two boundaries do not overlap: an earlier
      prefetch ends no later than the layer after a later boundary. */
  lemma FillsApart(b: nat, i: nat, n: nat, w: nat)
    requires w > 0 && Fires(b, n, w) && Fires(i, n, w) && b < i
    ensures PrefetchEnd(b, n, w) <= i + 1
  {
    SameResidueApart(b, i, w);
  }

  /** Eight layers with a window of three: at the end of the pass allocator 1
      holds the window streamed at layer 2 and allocator 0 the one streamed
      at layer 5. */
  lemma EightLayersLastFills(n: nat, w: nat)
    requires n == 8 && w == 3
    ensures LastFill(n, n, w, 1) == Some(2) && PrefetchEnd(2, n, w) == 6
    ensures LastFill(n, n, w, 0) == Some(5) && PrefetchEnd(5, n, w) == 8
  {
    assert Fires(5, n, w) && Target(5, w) == 0;
    assert Fires(2, n, w) && Target(2, w) == 1;
    assert !Fires(6, n, w) && !Fires(7, n, w) && !Fires(4, n, w) && !Fires(3, n, w);
  }

  // ---------------------------------------------------------------------
  // Stepping through the encoder loop

  /** The steps of the first k + 1 layers extend those of the first k by layer k's step. */
  lemma StepsSnoc(k: nat, n: nat, w: nat)
    requires w > 0
    ensures Steps(k + 1, n, w) == Steps(k, n, w) + LayerStep(k, n, w)
  {
  }

  /** A trace of the first i steps grows by step i into the trace of i + 1 steps. */
  lemma TraceSnoc(t: seq<Action>, i: nat, n: nat, w: nat)
    requires w > 0 && t == Prelude() + Steps(i, n, w)
    ensures t + LayerStep(i, n, w) == Prelude() + Steps(i + 1, n, w)
  {
    StepsSnoc(i, n, w);
  }

  /** Layer k's step adds one reset of allocator a to the trace exactly when it prefetches into a. */
  lemma TraceResetsSnoc(k: nat, n: nat, w: nat, a: nat)
    requires w > 0
    ensures multiset(Prelude() + Steps(k + 1, n, w))[Reset(a)] ==
            multiset(Prelude() + Steps(k, n, w))[Reset(a)] + if Fires(k, n, w) && Target(k, w) == a then 1 else 0
  {
    var t := Prelude() + Steps(k, n, w);
    TraceSnoc(t, k, n, w);
    StepResetsInto(k, n, w, a);
    assert multiset(t + LayerStep(k, n, w)) == multiset(t) + multiset(LayerStep(k, n, w));
  }

  /** Number of steps among the first k that prefetch into allocator a. */
  function FillsInto(k: nat, n: nat, w: nat, a: nat): nat
    requires w > 0 || k == 0
  {
    if k == 0 then 0 else FillsInto(k - 1, n, w, a) + (if Fires(k - 1, n, w) && Target(k - 1, w) == a then 1 else 0)
  }

  /** The trace of the first k steps resets allocator a once per prefetch into a. */
  lemma TraceResetsInto(k: nat, n: nat, w: nat, a: nat)
    requires w > 0 || k == 0
    ensures multiset(Prelude() + Steps(k, n, w))[Reset(a)] == FillsInto(k, n, w, a)
  {
    assert Steps(0, n, w) == [] && Prelude() + [] == Prelude();
    var j := 0;
    while j < k
      invariant j <= k
      invariant multiset(Prelude() + Steps(j, n, w))[Reset(a)] == FillsInto(j, n, w, a)
    {
      TraceResetsSnoc(j, n, w, a);
      j := j + 1;
    }
  }

  /** Exclusive end of the window that holds layer i, cut at n. */
  function WindowEnd(i: nat, n: nat, w: nat): nat
    requires w > 0
  {
    if i - i % w + w < n then i - i % w + w else n
  }

  /** Inside a window the window's end and the awaited event stay the same;
      after the last layer of a window the next window ends where the
      prefetch stopped, and the awaited event is the one of this boundary. */
  lemma NextLayer(i: nat, n: nat, w: nat)
    requires w > 0
    ensures i < n ==> i < WindowEnd(i, n, w)
    ensures i < n && !Fires(i, n, w) ==> WindowEnd(i + 1, n, w) == WindowEnd(i, n, w)
    ensures i % w != w - 1 ==> CurrentEvent(i + 1, w) == CurrentEvent(i, w)
    ensures Fires(i, n, w) ==> WindowEnd(i + 1, n, w) == PrefetchEnd(i, n, w)
    ensures i % w == w - 1 ==> CurrentEvent(i + 1, w) == AtBoundary(i)
  {
    DivStep(i, w);
  }

  /** When the window is at least as wide as the stack no prefetch fires. */
  lemma NoFireInWideWindow(i: nat, n: nat, w: nat)
    requires 0 < w && n <= w
    ensures !Fires(i, n, w)
  {
    if i < w {
      DivModUnique(i, w, 0, i);
    }
  }

  // ---------------------------------------------------------------------
  // A window as wide as the stack: the static-mode schedule

  /** When W >= N no prefetch fires, and a step does not depend on W. */
  lemma WideWindowStep(i: nat, n: nat, w1: nat, w2: nat)
    requires i < n && 0 < w1 && 0 < w2 && n <= w1 && n <= w2
    ensures LayerStep(i, n, w1) == LayerStep(i, n, w2)
    ensures forall x :: x in LayerStep(i, n, w1) ==> !x.Load? && !x.Reset? && !x.WaitCalc?
  {
    DivModUnique(i, w1, 0, i);
    DivModUnique(i, w2, 0, i);
  }

  lemma WideWindowSteps(k: nat, n: nat, w1: nat, w2: nat)
    requires k <= n && 0 < w1 && 0 < w2 && n <= w1 && n <= w2
    ensures Steps(k, n, w1) == Steps(k, n, w2)
    ensures forall x :: x in Steps(k, n, w1) ==> !x.Load? && !x.Reset? && !x.WaitCalc?
  {
    forall i: nat | i < k
      ensures LayerStep(i, n, w1) == LayerStep(i, n, w2)
      ensures forall x :: x in LayerStep(i, n, w1) ==> !x.Load? && !x.Reset? && !x.WaitCalc?
    {
      WideWindowStep(i, n, w1, w2);
    }
    ConcatAgree((i: nat) requires w1 > 0 => LayerStep(i, n, w1), (i: nat) requires w2 > 0 => LayerStep(i, n, w2), k);
    ConcatWithoutPrefetch((i: nat) requires w1 > 0 => LayerStep(i, n, w1), k);
  }

  /** Overlapped mode with W >= N enqueues what static mode does, for any
      such W: no reset, no checkpoint wait and no load. */
  lemma WideWindowIsStatic(n: nat, w1: nat, w2: nat)
    requires 0 < w1 && 0 < w2 && n <= w1 && n <= w2
    ensures Trace(n, w1) == Trace(n, w2)
    ensures forall x :: x in Trace(n, w1) ==> !x.Load? && !x.Reset? && !x.WaitCalc?
  {
    WideWindowSteps(n, n, w1, w2);
  }

  // ---------------------------------------------------------------------
  // The range as written

  /** As written, every requested index stays below N when N is a multiple
      of W or the stack fits one window. */
  lemma AsWrittenInRange(n: nat, w: nat, i: nat)
    requires w > 0 && (n % w == 0 || n <= w)
    requires i < n && Fires(i, n, w)
    ensures PrefetchEndAsWritten(i, n, w) <= n
  {
    DivStep(i, w);
    if n <= w {
      DivModUnique(i, w, 0, i);
    } else {
      SameResidueApart(i + 1, n, w);
    }
  }

  /** Otherwise the last prefetch, at layer N - N % W - 1, requests index N. */
  lemma AsWrittenOverruns(n: nat, w: nat)
    requires w > 0 && n % w != 0 && n > w
    ensures Fires(n - n % w - 1, n, w)
    ensures PrefetchEndAsWritten(n - n % w - 1, n, w) == n + 1
  {
    WindowStart(n, w);
    var i: nat := n - n % w - 1;
    DivStep(i, w);
  }

  /** Both directions: all requested indices are below N exactly when N is
      a multiple of W or N <= W. */
  lemma AsWrittenInRangeIff(n: nat, w: nat)
    requires w > 0
    ensures (forall i: nat :: i < n && Fires(i, n, w) ==> PrefetchEndAsWritten(i, n, w) <= n)
            <==> (n % w == 0 || n <= w)
  {
    if n % w == 0 || n <= w {
      forall i: nat | i < n && Fires(i, n, w)
        ensures PrefetchEndAsWritten(i, n, w) <= n
      {
        AsWrittenInRange(n, w, i);
      }
    } else {
      AsWrittenOverruns(n, w);
    }
  }

  /** With 8 layers and W = 3 the written loop at layer 5 requests 6, 7 and 8. */
  lemma AsWrittenRequestsPastEnd()
    ensures Fires(5, 8, 3)
    ensures PrefetchEndAsWritten(5, 8, 3) == 9 && PrefetchEnd(5, 8, 3) == 8
  {
  }

  /** Away from the last window the written range and the corrected one agree. */
  lemma AsWrittenAgreesBeforeLastWindow(i: nat, n: nat, w: nat)
    requires i + w < n
    ensures PrefetchEndAsWritten(i, n, w) == PrefetchEnd(i, n, w)
  {
  }
}
