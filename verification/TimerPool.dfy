/** Who owns the slots of the timer manager, in builds with a bounded number of operations
    (client/lib/src/ExtConfig.h) and without: operations come and go, their timers are set,
    stopped, suspended and run out, and none of them ever goes without its own timers. */
module TimerPool {
  import opened Timers

  datatype Kind = ConnectOp | KeepAliveOp | SubscribeOp | UnsubscribeOp | RecvOp | SendOp

  function TimersOf(k: Kind): nat { if k.KeepAliveOp? then 3 else 1 }

  /** How many operations of each kind there may be. */
  datatype Limits = Limits(connect: int, keepAlive: int, subscribe: int, unsubscribe: int, recv: int, send: int)

  function Limit(l: Limits, k: Kind): int {
    match k
    case ConnectOp => l.connect
    case KeepAliveOp => l.keepAlive
    case SubscribeOp => l.subscribe
    case UnsubscribeOp => l.unsubscribe
    case RecvOp => l.recv
    case SendOp => l.send
  }

  /** MaxTimersLimit */
  function MaxTimers(l: Limits): int {
    l.connect * 1 + l.keepAlive * 3 + l.subscribe * 1 + l.unsubscribe * 1 + l.recv * 1 + l.send * 1
  }

  /** A live operation and the slots its timers were given. */
  datatype Owner = Owner(kind: Kind, slots: seq<Slot>)

  /** The bounds of a build: of each kind of operation, and of the slots. No bound on
      operations is a build with dynamic memory. */
  datatype Build = Build(opsBounded: bool, limits: Limits, maxTimers: nat)

  /** The slots are as many as the operations can need; without bounds on operations there is
      none on slots. */
  predicate Configured(b: Build) {
    && (forall k: Kind :: 0 <= Limit(b.limits, k))
    && b.maxTimers == if b.opsBounded then MaxTimers(b.limits) else 0
  }

  datatype World = World(timers: seq<Timer>, live: seq<Owner>)

  datatype Action = Wait(ms: nat, owner: int) | Cancel | Suspend(on: bool)

  datatype Input =
    | Make(kind: Kind)
    | Destroy(i: nat)
    | Touch(i: nat, j: nat, action: Action)
    | Tick(ms: nat)

  // ------------------------------------------------------------------ steps

  /** The timers of a new operation, one after the other. */
  function Taking(max: nat, ts: seq<Timer>, n: nat): (seq<Timer>, seq<Slot>) {
    if n == 0 then (ts, [])
    else
      var (us, slots) := Taking(max, ts, n - 1);
      if CanTake(max, us) then (Taken(us), slots + [Slot(FirstFree(us))]) else (us, slots + [Invalid])
  }

  function Freeing(ts: seq<Timer>, slots: seq<Slot>): seq<Timer>
    decreases |slots|
  {
    if slots == [] then ts else Freed(Freeing(ts, slots[..|slots| - 1]), slots[|slots| - 1])
  }

  /** How many operations of this kind are alive. */
  function Count(live: seq<Owner>, k: Kind): nat
    decreases |live|
  {
    if live == [] then 0 else Count(live[..|live| - 1], k) + if live[|live| - 1].kind == k then 1 else 0
  }

  /** How many timers live operations have. */
  function Needed(live: seq<Owner>): nat
    decreases |live|
  {
    if live == [] then 0 else Needed(live[..|live| - 1]) + TimersOf(live[|live| - 1].kind)
  }

  /** The pool of operations of this kind has one more. */
  predicate MayMake(b: Build, live: seq<Owner>, k: Kind) {
    b.opsBounded ==> Count(live, k) < Limit(b.limits, k)
  }

  function Made(b: Build, w: World, k: Kind): World {
    var r := Taking(b.maxTimers, w.timers, TimersOf(k));
    World(r.0, w.live + [Owner(k, r.1)])
  }

  function Touched(t: Timer, a: Action): Timer {
    match a
    case Wait(ms, owner) => if ms < UINT64_MAX then t.(active := true, timeout := ms, owner := owner) else t
    case Cancel => Cancelled(t)
    case Suspend(on) => if t.active then t.(suspended := on) else t
  }

  function Without(live: seq<Owner>, i: nat): seq<Owner>
    requires i < |live|
  {
    live[..i] + live[i + 1..]
  }

  /** A timer that belongs to a live operation, valid or not. */
  predicate Held(w: World, i: nat, j: nat) { i < |w.live| && j < |w.live[i].slots| }

  function OnTouch(w: World, i: nat, j: nat, a: Action): World {
    if Held(w, i, j) && w.live[i].slots[j].Slot? && w.live[i].slots[j].idx < |w.timers|
    then var k := w.live[i].slots[j].idx; w.(timers := w.timers[k := Touched(w.timers[k], a)])
    else w
  }

  function Step(b: Build, w: World, x: Input): World {
    match x
    case Make(k) => if MayMake(b, w.live, k) then Made(b, w, k) else w
    case Destroy(i) =>
      if i < |w.live| then World(Freeing(w.timers, w.live[i].slots), Without(w.live, i)) else w
    case Touch(i, j, a) => OnTouch(w, i, j, a)
    case Tick(ms) => w.(timers := Ticked(w.timers, ms))
  }

  function Run(b: Build, xs: seq<Input>): World
    decreases |xs|
  {
    if xs == [] then World([], []) else Step(b, Run(b, xs[..|xs| - 1]), xs[|xs| - 1])
  }

  // ------------------------------------------------------------------ who holds what

  function Times(slots: seq<Slot>, x: nat): nat
    decreases |slots|
  {
    if slots == [] then 0 else Times(slots[..|slots| - 1], x) + if slots[|slots| - 1] == Slot(x) then 1 else 0
  }

  /** How many timers of live operations have this slot. */
  function Holders(live: seq<Owner>, x: nat): nat
    decreases |live|
  {
    if live == [] then 0 else Holders(live[..|live| - 1], x) + Times(live[|live| - 1].slots, x)
  }

  function InUse(ts: seq<Timer>, x: nat): nat { if x < |ts| && ts[x].taken then 1 else 0 }

  ghost predicate AllValid(slots: seq<Slot>) {
    forall j | 0 <= j < |slots| :: slots[j].Slot?
  }

  /** Every slot in use has one holder, free slots have none. */
  ghost predicate OneEach(w: World) {
    forall x: nat :: Holders(w.live, x) == InUse(w.timers, x)
  }

  ghost predicate Within(live: seq<Owner>, l: Limits) {
    forall k: Kind :: Count(live, k) <= Limit(l, k)
  }

  ghost predicate Supplied(live: seq<Owner>) {
    forall i | 0 <= i < |live| :: |live[i].slots| == TimersOf(live[i].kind) && AllValid(live[i].slots)
  }

  /** Every slot in use has one holder; all timers of live operations have slots; there are as
      many slots in use as operations need. */
  ghost predicate Accounted(b: Build, w: World) {
    var ok :=
      && OneEach(w) && Supplied(w.live) && Allocated(w.timers) == Needed(w.live)
      && (b.opsBounded ==> Within(w.live, b.limits));
    ok
  }

  lemma {:induction false} TimesAt(slots: seq<Slot>, j: nat)
    requires j < |slots| && slots[j].Slot?
    ensures Times(slots, slots[j].idx) > 0
    decreases |slots|
  {
    if j < |slots| - 1 { TimesAt(slots[..|slots| - 1], j); }
  }

  lemma {:induction false} HoldersAt(live: seq<Owner>, i: nat, x: nat)
    requires i < |live|
    ensures Holders(live, x) == Holders(Without(live, i), x) + Times(live[i].slots, x)
    decreases |live|
  {
    var n := |live| - 1;
    if i < n {
      HoldersAt(live[..n], i, x);
      assert Without(live, i)[..n - 1] == Without(live[..n], i);
    } else {
      assert Without(live, i) == live[..n];
    }
  }

  lemma {:induction false} CountAt(live: seq<Owner>, i: nat, k: Kind)
    requires i < |live|
    ensures Count(live, k) == Count(Without(live, i), k) + if live[i].kind == k then 1 else 0
    decreases |live|
  {
    var n := |live| - 1;
    if i < n {
      CountAt(live[..n], i, k);
      assert Without(live, i)[..n - 1] == Without(live[..n], i);
    } else {
      assert Without(live, i) == live[..n];
    }
  }

  lemma {:induction false} NeededAt(live: seq<Owner>, i: nat)
    requires i < |live|
    ensures Needed(live) == Needed(Without(live, i)) + TimersOf(live[i].kind)
    decreases |live|
  {
    var n := |live| - 1;
    if i < n {
      NeededAt(live[..n], i);
      assert Without(live, i)[..n - 1] == Without(live[..n], i);
    } else {
      assert Without(live, i) == live[..n];
    }
  }

  /** The timers needed are the sum over the kinds. */
  lemma {:induction false} NeededIsSum(live: seq<Owner>)
    ensures Needed(live) == Count(live, ConnectOp) + Count(live, KeepAliveOp) * 3 + Count(live, SubscribeOp)
                              + Count(live, UnsubscribeOp) + Count(live, RecvOp) + Count(live, SendOp)
    decreases |live|
  {
    if live != [] { NeededIsSum(live[..|live| - 1]); }
  }

  /** One more operation that may be made does not need more than there can be. */
  lemma RoomForOneMore(b: Build, live: seq<Owner>, k: Kind)
    requires Configured(b) && b.opsBounded && Within(live, b.limits) && MayMake(b, live, k)
    ensures Needed(live) + TimersOf(k) <= b.maxTimers
  {
    NeededIsSum(live);
    assert forall l: Kind :: Count(live, l) <= Limit(b.limits, l);
    assert Count(live, ConnectOp) <= b.limits.connect && Count(live, KeepAliveOp) <= b.limits.keepAlive;
    assert Count(live, SubscribeOp) <= b.limits.subscribe && Count(live, UnsubscribeOp) <= b.limits.unsubscribe;
    assert Count(live, RecvOp) <= b.limits.recv && Count(live, SendOp) <= b.limits.send;
    assert Count(live, k) < Limit(b.limits, k);
  }

  // ------------------------------------------------------------------ making

  lemma TakenAllocates(ts: seq<Timer>)
    ensures Allocated(Taken(ts)) == Allocated(ts) + 1
    ensures forall x: nat :: InUse(Taken(ts), x) == InUse(ts, x) + if x == FirstFree(ts) then 1 else 0
  {
    var k := FirstFree(ts);
    if k < |ts| {
      AllocatedUpdated(ts, k, FREE.(taken := true));
    } else {
      assert Taken(ts)[..|ts|] == ts;
    }
  }

  /** There is a free slot as long as fewer are taken than there may be. */
  lemma RoomMeansFree(max: nat, ts: seq<Timer>)
    requires max == 0 || Allocated(ts) < max
    ensures CanTake(max, ts)
  {
    FreeIsWithin(ts);
  }

  lemma {:induction false} FreeIsWithin(ts: seq<Timer>)
    ensures FirstFree(ts) <= Allocated(ts)
  {
    PrefixTaken(ts, FirstFree(ts));
  }

  lemma {:induction false} PrefixTaken(ts: seq<Timer>, k: nat)
    requires k <= |ts| && forall i | 0 <= i < k :: ts[i].taken
    ensures k <= Allocated(ts)
    decreases |ts|
  {
    if ts != [] {
      var n := |ts| - 1;
      PrefixTaken(ts[..n], if k <= n then k else n);
    }
  }

  lemma {:induction false} TakingGives(max: nat, ts: seq<Timer>, n: nat)
    requires max == 0 || Allocated(ts) + n <= max
    ensures var (us, slots) := Taking(max, ts, n); Given(ts, us, slots, n)
  {
    if n > 0 {
      TakingGives(max, ts, n - 1);
      var (us, slots) := Taking(max, ts, n - 1);
      RoomMeansFree(max, us);
      GivenOneMore(ts, us, slots, n - 1);
    } else {
      assert Given(ts, ts, [], 0);
    }
  }

  ghost predicate Given(ts: seq<Timer>, us: seq<Timer>, slots: seq<Slot>, n: nat) {
    && Allocated(us) == Allocated(ts) + n && |slots| == n && AllValid(slots)
    && forall x: nat :: InUse(us, x) == InUse(ts, x) + Times(slots, x)
  }

  lemma GivenOneMore(ts: seq<Timer>, us: seq<Timer>, slots: seq<Slot>, n: nat)
    requires Given(ts, us, slots, n)
    ensures Given(ts, Taken(us), slots + [Slot(FirstFree(us))], n + 1)
  {
    TakenAllocates(us);
    var more := slots + [Slot(FirstFree(us))];
    assert more[..|slots|] == slots;
  }

  lemma RoomToMake(b: Build, w: World, k: Kind)
    requires Configured(b) && Accounted(b, w) && MayMake(b, w.live, k)
    ensures b.maxTimers == 0 || Allocated(w.timers) + TimersOf(k) <= b.maxTimers
  {
    if b.opsBounded { RoomForOneMore(b, w.live, k); }
  }

  lemma MakeKeeps(b: Build, w: World, k: Kind)
    requires Configured(b) && Accounted(b, w) && MayMake(b, w.live, k)
    ensures Accounted(b, Made(b, w, k))
  {
    RoomToMake(b, w, k);
    TakingGives(b.maxTimers, w.timers, TimersOf(k));
    var r := Taking(b.maxTimers, w.timers, TimersOf(k));
    var d := World(r.0, w.live + [Owner(k, r.1)]);
    OwnerGiven(w, r.0, Owner(k, r.1), d);
    if b.opsBounded { OwnerWithin(b, w.live, Owner(k, r.1)); }
  }

  lemma OwnerGiven(w: World, us: seq<Timer>, o: Owner, d: World)
    requires OneEach(w) && Supplied(w.live) && Allocated(w.timers) == Needed(w.live)
    requires Given(w.timers, us, o.slots, TimersOf(o.kind)) && d == World(us, w.live + [o])
    ensures OneEach(d) && Supplied(d.live) && Allocated(d.timers) == Needed(d.live)
  {
    OwnerAppended(w.live, o);
  }

  lemma OwnerWithin(b: Build, live: seq<Owner>, o: Owner)
    requires b.opsBounded && Within(live, b.limits) && MayMake(b, live, o.kind)
    ensures Within(live + [o], b.limits)
  {
    OwnerAppended(live, o);
  }

  lemma OwnerAppended(live: seq<Owner>, o: Owner)
    ensures forall x: nat :: Holders(live + [o], x) == Holders(live, x) + Times(o.slots, x)
    ensures forall k: Kind :: Count(live + [o], k) == Count(live, k) + if o.kind == k then 1 else 0
    ensures Needed(live + [o]) == Needed(live) + TimersOf(o.kind)
  {
    assert (live + [o])[..|live|] == live;
  }

  // ------------------------------------------------------------------ destroying

  lemma {:induction false} FreeingGives(ts: seq<Timer>, slots: seq<Slot>)
    requires AllValid(slots) && forall x: nat :: Times(slots, x) <= InUse(ts, x)
    ensures var us := Freeing(ts, slots);
      && |us| == |ts| && Allocated(us) + |slots| == Allocated(ts)
      && forall x: nat :: InUse(us, x) + Times(slots, x) == InUse(ts, x)
    decreases |slots|
  {
    if slots != [] {
      var n := |slots| - 1;
      var before := slots[..n];
      forall x: nat ensures Times(before, x) <= InUse(ts, x) {
        assert Times(before, x) <= Times(slots, x);
      }
      FreeingGives(ts, before);
      TimesAt(slots, n);
      var k := slots[n].idx;
      assert InUse(Freeing(ts, before), k) == 1;
      AllocatedUpdated(Freeing(ts, before), k, FREE);
    }
  }

  lemma DestroyKeeps(b: Build, w: World, i: nat)
    requires Accounted(b, w) && i < |w.live|
    ensures Accounted(b, World(Freeing(w.timers, w.live[i].slots), Without(w.live, i)))
  {
    var slots, rest := w.live[i].slots, Without(w.live, i);
    SlotsInUse(b, w, i);
    FreeingGives(w.timers, slots);
    forall x: nat ensures Holders(rest, x) == InUse(Freeing(w.timers, slots), x) { HoldersAt(w.live, i, x); }
    forall k: Kind ensures Count(rest, k) <= Count(w.live, k) { CountAt(w.live, i, k); }
    NeededAt(w.live, i);
    assert forall k | 0 <= k < |rest| :: rest[k] == w.live[if k < i then k else k + 1];
  }

  lemma SlotsInUse(b: Build, w: World, i: nat)
    requires Accounted(b, w) && i < |w.live|
    ensures forall x: nat :: Times(w.live[i].slots, x) <= InUse(w.timers, x)
    ensures AllValid(w.live[i].slots) && |w.live[i].slots| == TimersOf(w.live[i].kind)
  {
    forall x: nat ensures Times(w.live[i].slots, x) <= InUse(w.timers, x) { HoldersAt(w.live, i, x); }
  }

  // ------------------------------------------------------------------ every run

  /** Setting, stopping, suspending and running out change no ownership. */
  lemma LikeKeeps(b: Build, w: World, ts: seq<Timer>)
    requires Accounted(b, w) && |ts| == |w.timers| && forall k | 0 <= k < |ts| :: ts[k].taken == w.timers[k].taken
    ensures Accounted(b, w.(timers := ts))
  {
    AllocatedOfLike(ts, w.timers);
    assert forall x: nat :: InUse(ts, x) == InUse(w.timers, x);
  }

  lemma TouchKeeps(b: Build, w: World, i: nat, j: nat, a: Action)
    requires Accounted(b, w)
    ensures Accounted(b, OnTouch(w, i, j, a))
  {
    LikeKeeps(b, w, OnTouch(w, i, j, a).timers);
  }

  lemma StepKeeps(b: Build, w: World, x: Input)
    requires Configured(b) && Accounted(b, w)
    ensures Accounted(b, Step(b, w, x))
  {
    match x
    case Make(k) => if MayMake(b, w.live, k) { MakeKeeps(b, w, k); }
    case Destroy(i) => if i < |w.live| { DestroyKeeps(b, w, i); }
    case Touch(i, j, a) => TouchKeeps(b, w, i, j, a);
    case Tick(ms) => LikeKeeps(b, w, Ticked(w.timers, ms));
  }

  lemma NoneYet(b: Build, w: World)
    requires Configured(b) && w.timers == [] && w.live == []
    ensures Accounted(b, w)
  {
    NoneHeld(w);
  }

  lemma NoneHeld(w: World)
    requires w.timers == [] && w.live == []
    ensures OneEach(w)
  {
  }

  lemma {:induction false} RunKeeps(b: Build, xs: seq<Input>)
    requires Configured(b)
    ensures Accounted(b, Run(b, xs))
    decreases |xs|
  {
    if xs == [] {
      NoneYet(b, Run(b, xs));
    } else {
      RunKeeps(b, xs[..|xs| - 1]);
      StepKeeps(b, Run(b, xs[..|xs| - 1]), xs[|xs| - 1]);
    }
  }

  /** In every run no operation ever gets an invalid timer: all timers of every live operation
      have slots that are taken, and no other timer has the same slot. */
  lemma NobodyGoesWithout(b: Build, xs: seq<Input>, i: nat, j: nat)
    requires Configured(b) && i < |Run(b, xs).live| && j < TimersOf(Run(b, xs).live[i].kind)
    ensures var w := Run(b, xs);
      && |w.live[i].slots| == TimersOf(w.live[i].kind) && w.live[i].slots[j].Slot?
      && var x := w.live[i].slots[j].idx;
         && x < |w.timers| && w.timers[x].taken
         && forall k: nat, l: nat | Held(w, k, l) && w.live[k].slots[l] == Slot(x) :: k == i && l == j
  {
    RunKeeps(b, xs);
    var w := Run(b, xs);
    SlotsInUse(b, w, i);
    var x := w.live[i].slots[j].idx;
    TimesAt(w.live[i].slots, j);
    assert Holders(w.live, x) == InUse(w.timers, x);
    forall k: nat, l: nat | Held(w, k, l) && w.live[k].slots[l] == Slot(x) ensures k == i && l == j {
      SameTimer(w.live, x, i, j, k, l);
    }
  }

  lemma SameTimer(live: seq<Owner>, x: nat, i: nat, j: nat, k: nat, l: nat)
    requires Holders(live, x) <= 1 && i < |live| && k < |live| && j < |live[i].slots| && l < |live[k].slots|
    requires live[i].slots[j] == live[k].slots[l] == Slot(x)
    ensures k == i && l == j
  {
    HoldersAt(live, i, x);
    TimesAt(live[i].slots, j);
    if k != i {
      var rest, m := Without(live, i), if k < i then k else k - 1;
      assert rest[m] == live[k];
      HoldersAt(rest, m, x);
      TimesAt(rest[m].slots, l);
    } else if l != j {
      TwiceCounted(live[i].slots, if l < j then l else j, if l < j then j else l);
    }
  }

  lemma {:induction false} TwiceCounted(slots: seq<Slot>, j: nat, l: nat)
    requires j < l < |slots| && slots[j] == slots[l] && slots[j].Slot?
    ensures Times(slots, slots[j].idx) >= 2
    decreases |slots|
  {
    var n := |slots| - 1;
    if l < n { TwiceCounted(slots[..n], j, l); } else { TimesAt(slots[..n], j); }
  }

  /** Nor is a slot lost: those in use are as many as the live operations need, and each of
      them belongs to one. */
  lemma NoSlotIsLost(b: Build, xs: seq<Input>)
    requires Configured(b)
    ensures Allocated(Run(b, xs).timers) == Needed(Run(b, xs).live)
    ensures forall x: nat :: Holders(Run(b, xs).live, x) == InUse(Run(b, xs).timers, x)
  {
    RunKeeps(b, xs);
  }

  /** The sum is needed to the last slot: with every kind at its limit all are in use. */
  lemma LimitIsTight(b: Build, xs: seq<Input>)
    requires Configured(b) && b.opsBounded && forall k: Kind :: Count(Run(b, xs).live, k) == Limit(b.limits, k)
    ensures Allocated(Run(b, xs).timers) == b.maxTimers
  {
    RunKeeps(b, xs);
    var live := Run(b, xs).live;
    NeededIsSum(live);
    assert Count(live, ConnectOp) == b.limits.connect && Count(live, KeepAliveOp) == b.limits.keepAlive;
    assert Count(live, SubscribeOp) == b.limits.subscribe && Count(live, UnsubscribeOp) == b.limits.unsubscribe;
    assert Count(live, RecvOp) == b.limits.recv && Count(live, SendOp) == b.limits.send;
  }

  // ------------------------------------------------------------------ in the form of the source

  /** The constructor of an operation. */
  method MakeTimers(mgr: TimerMgr, n: nat) returns (slots: seq<Slot>)
    requires mgr.Valid()
    modifies mgr
    ensures mgr.Valid() && (mgr.timers, slots) == Taking(mgr.maxTimers, old(mgr.timers), n)
  {
    slots := [];
    while |slots| < n
      invariant mgr.Valid() && |slots| <= n
      invariant (mgr.timers, slots) == Taking(mgr.maxTimers, old(mgr.timers), |slots|)
    {
      var s := mgr.AllocTimer();
      slots := slots + [s];
    }
  }

  /** The destructor of an operation. */
  method FreeTimers(mgr: TimerMgr, slots: seq<Slot>)
    requires mgr.Valid() && AllValid(slots) && forall x: nat :: Times(slots, x) <= InUse(mgr.timers, x)
    modifies mgr
    ensures mgr.Valid() && mgr.timers == Freeing(old(mgr.timers), slots)
  {
    var k := 0;
    assert slots[..0] == [];
    while k < |slots|
      invariant k <= |slots| && mgr.Valid() && mgr.timers == Freeing(old(mgr.timers), slots[..k])
    {
      assert slots[..k + 1][..k] == slots[..k];
      StillTaken(old(mgr.timers), slots, k);
      mgr.FreeTimer(slots[k].idx);
      k := k + 1;
    }
    assert slots[..k] == slots;
  }

  lemma StillTaken(ts: seq<Timer>, slots: seq<Slot>, k: nat)
    requires AllValid(slots) && k < |slots| && forall x: nat :: Times(slots, x) <= InUse(ts, x)
    ensures InUse(Freeing(ts, slots[..k]), slots[k].idx) == 1
  {
    forall x: nat ensures Times(slots[..k + 1], x) <= InUse(ts, x) { PrefixTimes(slots, k + 1, x); }
    forall x: nat ensures Times(slots[..k], x) <= InUse(ts, x) { PrefixTimes(slots, k, x); }
    FreeingGives(ts, slots[..k]);
    assert slots[..k + 1][..k] == slots[..k];
    TimesAt(slots[..k + 1], k);
  }

  lemma {:induction false} PrefixTimes(slots: seq<Slot>, k: nat, x: nat)
    requires k <= |slots|
    ensures Times(slots[..k], x) <= Times(slots, x)
    decreases |slots|
  {
    if k < |slots| {
      var n := |slots| - 1;
      PrefixTimes(slots[..n], k, x);
      assert slots[..n][..k] == slots[..k];
    } else {
      assert slots[..k] == slots;
    }
  }

  /** The operations of a client, as far as their timers go. */
  class Operations {
    const build: Build
    const mgr: TimerMgr
    var live: seq<Owner>

    ghost predicate Valid()
      reads this, mgr
    {
      mgr.Valid() && Configured(build) && mgr.maxTimers == build.maxTimers && Accounted(build, State())
    }

    function State(): World
      reads this, mgr
    {
      World(mgr.timers, live)
    }

    constructor (b: Build)
      requires Configured(b)
      ensures Valid() && fresh(mgr) && build == b && State() == World([], [])
    {
      build, live := b, [];
      var m := new TimerMgr(b.maxTimers);
      mgr := m;
      new;
      NoneYet(b, State());
    }

    method Perform(x: Input)
      requires Valid()
      modifies this, mgr
      ensures Valid() && State() == Step(build, old(State()), x)
    {
      StepKeeps(build, State(), x);
      match x
      case Make(k) =>
        if MayMake(build, live, k) {
          var slots := MakeTimers(mgr, TimersOf(k));
          live := live + [Owner(k, slots)];
        }
      case Destroy(i) =>
        if i < |live| {
          SlotsInUse(build, State(), i);
          FreeTimers(mgr, live[i].slots);
          live := Without(live, i);
        }
      case Touch(i, j, a) =>
        if i < |live| && j < |live[i].slots| { UseTimer(i, j, a); }
      case Tick(ms) => var _ := mgr.Tick(ms);
    }

    method UseTimer(i: nat, j: nat, a: Action)
      requires Valid() && Held(State(), i, j)
      modifies mgr
      ensures mgr.Valid() && mgr.timers == OnTouch(old(State()), i, j, a).timers
    {
      SlotsInUse(build, State(), i);
      TimesAt(live[i].slots, j);
      var k := live[i].slots[j].idx;
      assert InUse(mgr.timers, k) == 1;
      match a
      case Wait(ms, owner) => if ms < UINT64_MAX { mgr.TimerWait(k, ms, owner); }
      case Cancel => mgr.TimerCancel(k);
      case Suspend(on) => mgr.SetSuspended(k, on);
    }
  }
}
