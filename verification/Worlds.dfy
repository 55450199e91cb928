/** Semaphores and mutexes that come and go behind their handles while the kernel runs. A call
    resolves its handle in one critical section and uses the object in a later one. */
module Worlds {
  import opened Lists
  import Budget
  import opened Kernel
  import opened Inheritance
  import opened Invariant
  import opened Preserved
  import opened PreservedMutex
  import opened PreservedHart
  import opened Runs
  import opened Accounts
  import opened Lifecycle
  import opened Handles
  import opened Resource
  import opened Waits

  // ---- Objects and the registry ------------------------------------------------------------------

  /** What a pointer refers to: one of the kernel's semaphores or mutexes. */
  datatype Ref = Ref(kind: Kind, id: nat)

  /** Where an object lies; zero is no address, and no two objects share one. */
  function Addr(x: Ref): (p: nat)
    ensures p != 0 && At(p) == x
  {
    if x.kind.Mutex? then 2 * x.id + 2 else 2 * x.id + 1
  }

  function At(p: nat): Ref {
    if p > 0 && p % 2 == 0 then Ref(Mutex, p / 2 - 1) else Ref(Semaphore, p / 2)
  }

  /** The kernel has room for this object. */
  predicate Placeable(k: K, x: Ref) {
    if x.kind.Mutex? then x.id < |k.owner| else x.id < |k.count|
  }

  /** An occupied slot has the address and the kind of an object, and no other slot has it. */
  ghost predicate Registry(k: K, slots: seq<Slot>) {
    && GoodSlots(slots)
    && (forall i :: 0 <= i < |slots| && slots[i].pointer != 0 ==>
          var x := At(slots[i].pointer); Addr(x) == slots[i].pointer && x.kind == slots[i].kind && Placeable(k, x))
    && (forall i, j :: 0 <= i < j < |slots| && slots[i].pointer != 0 ==> slots[i].pointer != slots[j].pointer)
  }

  /** The object has a live slot, hence a handle. */
  ghost predicate Live(slots: seq<Slot>, x: Ref) {
    exists i :: 0 <= i < |slots| && slots[i].pointer == Addr(x)
  }

  /** Some task waits for the object, owns it, or holds an unconsumed grant of it. */
  ghost predicate Uses(k: K, x: Ref)
    requires Sized(k)
  {
    if x.kind.Mutex? then UsesMtx(k, x.id) else UsesSem(k, x.id)
  }

  /** What the destroy call looks at. */
  ghost predicate Idle(k: K, x: Ref)
    requires Sized(k) && Placeable(k, x)
  {
    if x.kind.Mutex? then MutexIdle(k, x.id) else SemIdle(k, x.id)
  }

  // ---- Moves -----------------------------------------------------------------------------------------

  /** The kernel, the registry, and the reference each caller has resolved and not yet used. A
      caller below the table size is a task; any other is an interrupt handler. */
  datatype World = World(k: K, slots: seq<Slot>, held: map<nat, Ref>)

  datatype Move =
    | Sys(op: Op)
    | Resolves(c: nat, raw: nat, kind: Kind)
    | CallsOn(c: nat, op: Op)
    | Creates(x: Ref, count: nat)
    | Destroys(raw: nat, kind: Kind)

  /** The object an operation goes to through a reference. */
  function Target(op: Op): Option<Ref> {
    match op
    case Downs(s, _, _) => Some(Ref(Semaphore, s))
    case Posts(s) => Some(Ref(Semaphore, s))
    case LocksMutex(m, _, _) => Some(Ref(Mutex, m))
    case UnlocksMutex(m) => Some(Ref(Mutex, m))
    case _ => None
  }

  ghost predicate Formed(w: World) {
    Sized(w.k) && Registry(w.k, w.slots)
  }

  /** A task in the middle of a call does nothing else; interrupts and traps come at any time. An
      allocation never returns memory that is still in use. */
  ghost predicate Possible(w: World, e: Move)
    requires Formed(w)
  {
    match e
    case Sys(op) => Enabled(w.k, op) && Target(op).None? && (op.TimerFires? || op.Traps? || w.k.current !in w.held)
    case Resolves(c, _, _) => c !in w.held && (c >= N(w.k) || (c == w.k.current && InUserCode(w.k)))
    case CallsOn(c, op) =>
      && Enabled(w.k, op) && c in w.held && Target(op) == Some(w.held[c])
      && (c == w.k.current || ((op.Posts? || (op.Downs? && !op.deliverable)) && c >= N(w.k)))
    case Creates(x, _) => InUserCode(w.k) && w.k.current !in w.held && Placeable(w.k, x) && !Live(w.slots, x)
    case Destroys(_, _) => InUserCode(w.k) && w.k.current !in w.held
  }

  /** The object a destroy call really destroys. */
  ghost function Destroyed(w: World, e: Move): Option<Ref>
    requires Formed(w)
  {
    if !e.Destroys? || Resolved(w.slots, e.raw, e.kind).Err? then None
    else
      ResolvedIs(w, e.raw, e.kind);
      var x := At(Resolved(w.slots, e.raw, e.kind).value);
      if Idle(w.k, x) then Some(x) else None
  }

  predicate Created(w: World, e: Move)
    requires Formed(w)
  {
    e.Creates? && FirstEmpty(w.slots, 0) < |w.slots|
  }

  /** `Semaphore::new` or `RtosMutex::new` in the place of the object. */
  function Initialized(k: K, x: Ref, count: nat): (r: K)
    requires Sized(k) && Placeable(k, x)
    ensures Sized(r)
  {
    if x.kind.Semaphore? then k.(count := k.count[x.id := count])
    else k.(owner := k.owner[x.id := None], depth := k.depth[x.id := 0])
  }

  ghost function Moved(w: World, e: Move): (r: World)
    requires Formed(w) && Possible(w, e)
    ensures Sized(r.k)
  {
    match e
    case Sys(op) => w.(k := Apply(w.k, op).0)
    case Resolves(c, raw, kind) =>
      var p := Resolved(w.slots, raw, kind);
      if p.Ok? then w.(held := w.held[c := At(p.value)]) else w
    case CallsOn(c, op) => World(Apply(w.k, op).0, w.slots, w.held - {c})
    case Creates(x, count) =>
      if !Created(w, e) then w
      else w.(slots := After(w.slots, Inserting(Addr(x), x.kind)),
              k := Initialized(w.k, x, count))
    case Destroys(raw, kind) =>
      if Destroyed(w, e).Some? then w.(slots := After(w.slots, Removing(raw, kind))) else w
  }

  /** A handle that resolves names a live object of its kind. */
  lemma ResolvedIs(w: World, raw: nat, kind: Kind)
    requires Formed(w) && Resolved(w.slots, raw, kind).Ok?
    ensures var x := At(Resolved(w.slots, raw, kind).value);
      Placeable(w.k, x) && x.kind == kind && Addr(x) == Resolved(w.slots, raw, kind).value && Live(w.slots, x)
  {
    hide Sized;
    var (i, _) := Decode(GENERATION_MAX, |w.slots|, raw).value;
    assert w.slots[i].pointer == Resolved(w.slots, raw, kind).value;
  }

  // ---- What is live after a move -----------------------------------------------------------------------

  lemma CreatedLive(k: K, slots: seq<Slot>, x: Ref, y: Ref)
    requires Registry(k, slots) && FirstEmpty(slots, 0) < |slots| && Placeable(k, x) && !Live(slots, x)
    ensures var after := After(slots, Inserting(Addr(x), x.kind));
      Registry(k, after) && (Live(after, y) <==> y == x || Live(slots, y))
  {
    var i := FirstEmpty(slots, 0);
    var after := After(slots, Inserting(Addr(x), x.kind));
    assert after[i].pointer == Addr(x);
    if Live(slots, y) {
      var j :| 0 <= j < |slots| && slots[j].pointer == Addr(y);
      assert after[j].pointer == Addr(y);
    }
    if Live(after, y) && y != x {
      var j :| 0 <= j < |after| && after[j].pointer == Addr(y);
      assert At(Addr(y)) == y && At(Addr(x)) == x;
      assert slots[j].pointer == Addr(y);
    }
  }

  lemma RemovedLive(w: World, raw: nat, kind: Kind, y: Ref)
    requires Formed(w) && Resolved(w.slots, raw, kind).Ok?
    ensures var (x, after) := (At(Resolved(w.slots, raw, kind).value), After(w.slots, Removing(raw, kind)));
      Registry(w.k, after) && (Live(after, y) <==> y != x && Live(w.slots, y))
  {
    hide Sized;
    ResolvedIs(w, raw, kind);
    var (i, _) := Decode(GENERATION_MAX, |w.slots|, raw).value;
    var x, after := At(w.slots[i].pointer), After(w.slots, Removing(raw, kind));
    assert after == w.slots[i := w.slots[i].(pointer := 0)];
    if Live(after, y) {
      var j :| 0 <= j < |after| && after[j].pointer == Addr(y);
      assert w.slots[j].pointer == Addr(y) && j != i;
    }
    if Live(w.slots, y) && y != x {
      var j :| 0 <= j < |w.slots| && w.slots[j].pointer == Addr(y);
      assert j != i;
      assert after[j].pointer == Addr(y);
    }
  }

  // ---- The invariant -------------------------------------------------------------------------------------

  /** Every object a task waits for, owns or holds a grant of is live. */
  ghost predicate NoDangling(w: World)
    requires Sized(w.k)
  {
    forall x :: Placeable(w.k, x) && Uses(w.k, x) ==> Live(w.slots, x)
  }

  ghost predicate WorldInv(w: World) {
    Formed(w) && Inv(w.k) && NoDangling(w)
  }

  /** Every reference a caller still has to use is to a live object. */
  ghost predicate HeldLive(w: World) {
    forall c :: c in w.held ==> Live(w.slots, w.held[c])
  }

  /** Steps make room for nothing and take none away. */
  lemma SameRoom(k: K, op: Op, x: Ref)
    requires Inv(k) && Enabled(k, op)
    ensures var r := Apply(k, op).0; |r.count| == |k.count| && |r.owner| == |k.owner| && Placeable(r, x) == Placeable(k, x)
  {
    hide Core, Side, Apply, UsesSem, UsesMtx;
    StepKeeps(k, op);
    StepSemUsers(k, op, |k.count|);
    StepMtxUsers(k, op, |k.owner|);
  }

  /** Only a wait on the object itself adds to its users. */
  lemma StepUses(k: K, op: Op, x: Ref)
    requires Inv(k) && Enabled(k, op) && !((op.Downs? || op.LocksMutex?) && Target(op) == Some(x))
    ensures Uses(Apply(k, op).0, x) ==> Uses(k, x)
  {
    hide Core, Side, Apply, UsesSem, UsesMtx, Enabled;
    if x.kind.Mutex? {
      StepMtxUsers(k, op, x.id);
    } else {
      StepSemUsers(k, op, x.id);
    }
  }

  lemma SameRegistry(k: K, r: K, slots: seq<Slot>)
    requires Registry(k, slots) && |r.count| == |k.count| && |r.owner| == |k.owner|
    ensures Registry(r, slots)
  {
    hide GoodSlots;
  }

  /** The call leaves its task naming the object: it takes the mutex or waits for it, or waits for
      the semaphore. */
  predicate Entangles(k: K, op: Op)
    requires Sized(k) && Fits(k, op)
  {
    || op.LocksMutex?
    || (op.Downs? && k.count[op.s] == 0 && !op.patience.NoWait? && op.deliverable && k.lockDepth[k.current] == 0)
  }

  lemma DeadDown(k: K, s: nat, patience: Patience, deliverable: bool)
    requires Inv(k) && s < |k.count| && !UsesSem(k, s)
    ensures UsesSem(SemDown(k, s, patience, deliverable).0, s) <==>
      k.count[s] == 0 && !patience.NoWait? && deliverable && k.lockDepth[k.current] == 0
  {
    hide Core, Side, SwitchAway, Insert;
    if SemDown(k, s, patience, deliverable).1.Suspended? {
      SemWaitBegins(k, s, patience, deliverable);
    }
  }

  lemma DeadLock(k: K, m: nat, patience: Patience, deliverable: bool)
    requires Sized(k) && m < |k.owner| && !UsesMtx(k, m)
    ensures UsesMtx(MutexLock(k, m, patience, deliverable).0, m)
  {
    hide Enlist, ChainContains, SwitchAway;
  }

  /** Nobody uses a dead object before, so afterwards somebody does exactly if the call entangles. */
  lemma DeadUse(k: K, op: Op, x: Ref)
    requires Inv(k) && Enabled(k, op) && Target(op) == Some(x) && Placeable(k, x) && !Uses(k, x)
    ensures Uses(Apply(k, op).0, x) <==> Entangles(k, op)
  {
    hide Core, Side, SemDown, MutexLock, ReleaseSem, MutexUnlock, UsesSem, UsesMtx;
    match op
    case Downs(s, patience, deliverable) => DeadDown(k, s, patience, deliverable);
    case LocksMutex(m, patience, deliverable) => DeadLock(k, m, patience, deliverable);
    case _ => StepUses(k, op, x);
  }

  /** A step that entangles its task with no dead object leaves nothing dangling. */
  lemma StepSafe(w: World, op: Op, held: map<nat, Ref>)
    requires WorldInv(w) && Enabled(w.k, op)
    requires (op.Downs? || op.LocksMutex?) ==> Live(w.slots, Target(op).value) || !Entangles(w.k, op)
    ensures WorldInv(World(Apply(w.k, op).0, w.slots, held))
  {
    hide Core, Side, Apply, Uses, Live, Registry, Sized;
    var r := Apply(w.k, op).0;
    StepKeeps(w.k, op);
    SameRoom(w.k, op, Ref(Semaphore, 0));
    SameRegistry(w.k, r, w.slots);
    forall x | Placeable(r, x) && Uses(r, x) ensures Live(w.slots, x) {
      SameRoom(w.k, op, x);
      if !((op.Downs? || op.LocksMutex?) && Target(op) == Some(x)) {
        StepUses(w.k, op, x);
      } else if !Live(w.slots, x) {
        DeadUse(w.k, op, x);
      }
    }
  }

  lemma InitializedKeeps(k: K, x: Ref, count: nat)
    requires Inv(k) && Placeable(k, x) && !Uses(k, x)
    ensures var r := Initialized(k, x, count); Inv(r) && |r.count| == |k.count| && |r.owner| == |k.owner|
    ensures forall y :: Uses(Initialized(k, x, count), y) ==> Uses(k, y)
  {
    hide Core, Hart, Calls, HandedOff, Reasons, Locks, Quotas;
    var r := Initialized(k, x, count);
    if x.kind.Semaphore? {
      SameCoreKeeps(k, r);
    } else {
      assert r == k;
    }
  }

  lemma CreateSafe(w: World, x: Ref, count: nat)
    requires WorldInv(w) && Possible(w, Creates(x, count))
    ensures WorldInv(Moved(w, Creates(x, count)))
  {
    hide Core, Side, Uses, Live, Registry, Initialized;
    if Created(w, Creates(x, count)) {
      InitializedKeeps(w.k, x, count);
      var r := Moved(w, Creates(x, count));
      CreatedLive(w.k, w.slots, x, x);
      SameRegistry(w.k, r.k, r.slots);
      forall y | Placeable(r.k, y) && Uses(r.k, y) ensures Live(r.slots, y) {
        CreatedLive(w.k, w.slots, x, y);
      }
    }
  }

  /** A destroy call is refused exactly while some task uses the object. */
  lemma IdleExact(k: K, x: Ref)
    requires Inv(k) && Placeable(k, x)
    ensures Idle(k, x) <==> !Uses(k, x)
  {
    hide Core, Side, UsesSem, UsesMtx, SemIdle, MutexIdle;
    if x.kind.Mutex? {
      MutexIdleExact(k, x.id);
    } else {
      SemIdleExact(k, x.id);
    }
  }

  lemma DestroySafe(w: World, raw: nat, kind: Kind)
    requires WorldInv(w) && Possible(w, Destroys(raw, kind))
    ensures WorldInv(Moved(w, Destroys(raw, kind)))
  {
    hide Core, Side, Uses, Live, Idle;
    var e := Destroys(raw, kind);
    if Destroyed(w, e).Some? {
      ResolvedIs(w, raw, kind);
      var x, r := At(Resolved(w.slots, raw, kind).value), Moved(w, e);
      IdleExact(w.k, x);
      RemovedLive(w, raw, kind, x);
      forall y | Placeable(r.k, y) && Uses(r.k, y) ensures Live(r.slots, y) {
        RemovedLive(w, raw, kind, y);
      }
    }
  }

  /** Every move that does not use a dead reference in a way that entangles its task leaves nothing
      dangling. */
  lemma WorldStep(w: World, e: Move)
    requires WorldInv(w) && Possible(w, e) && (e.CallsOn? ==> Live(w.slots, w.held[e.c]) || !Entangles(w.k, e.op))
    ensures WorldInv(Moved(w, e))
  {
    hide Core, Side, Apply, Enabled, Uses, Live, Registry, Sized, Idle;
    match e
    case Sys(op) => StepSafe(w, op, w.held);
    case Resolves(_, _, _) =>
    case CallsOn(c, op) => StepSafe(w, op, w.held - {c});
    case Creates(x, count) => CreateSafe(w, x, count);
    case Destroys(raw, kind) => DestroySafe(w, raw, kind);
  }

  // ---- Which objects are live -----------------------------------------------------------------------

  /** Creation makes an object live, destruction ends it, and nothing else does either. */
  lemma LiveStep(w: World, e: Move, x: Ref)
    requires WorldInv(w) && Possible(w, e)
    ensures Live(Moved(w, e).slots, x) <==> (Created(w, e) && e.x == x) || (Live(w.slots, x) && Destroyed(w, e) != Some(x))
  {
    hide Core, Side, Apply, Enabled, Live, Idle, Sized;
    match e
    case Creates(y, count) =>
      if Created(w, e) {
        CreatedLive(w.k, w.slots, y, x);
      }
    case Destroys(raw, kind) =>
      if Destroyed(w, e).Some? {
        RemovedLive(w, raw, kind, x);
      }
    case _ =>
  }

  /** The reference `c` holds changes only by its own call. */
  lemma HeldStep(w: World, e: Move, c: nat)
    requires Formed(w) && Possible(w, e) && c in w.held && !(e.CallsOn? && e.c == c)
    ensures c in Moved(w, e).held && Moved(w, e).held[c] == w.held[c]
  {
    hide Apply, Enabled, Registry, Sized, Idle, Initialized;
  }

  // ---- Runs ----------------------------------------------------------------------------------------------

  /** Possible moves, one after the other, that leave nothing dangling: each reference is live when
      it is used, or its use does not entangle. */
  ghost predicate Happens(w: World, es: seq<Move>)
    decreases |es|
  {
    es == [] ||
    (WorldInv(w) && Possible(w, es[0]) && (es[0].CallsOn? ==> Live(w.slots, w.held[es[0].c]) || !Entangles(w.k, es[0].op)) && Happens(Moved(w, es[0]), es[1..]))
  }

  ghost function Result(w: World, es: seq<Move>): World
    requires Happens(w, es)
    decreases |es|
  {
    if es == [] then w else Result(Moved(w, es[0]), es[1..])
  }

  /** No object is destroyed while some caller holds a reference to it. */
  ghost predicate Careful(w: World, e: Move)
    requires Formed(w)
  {
    forall c :: c in w.held ==> Destroyed(w, e) != Some(w.held[c])
  }

  /** Possible moves of callers that keep to the contract of the destroy calls. */
  ghost predicate Disciplined(w: World, es: seq<Move>)
    decreases |es|
  {
    es == [] || (Formed(w) && Possible(w, es[0]) && Careful(w, es[0]) && Disciplined(Moved(w, es[0]), es[1..]))
  }

  lemma CarefulKeeps(w: World, e: Move)
    requires WorldInv(w) && HeldLive(w) && Possible(w, e) && Careful(w, e)
    ensures WorldInv(Moved(w, e)) && HeldLive(Moved(w, e))
  {
    hide Core, Side, Apply, Enabled, Live, Registry, Idle, Sized, Initialized, NoDangling;
    WorldStep(w, e);
    var r := Moved(w, e);
    forall c | c in r.held ensures Live(r.slots, r.held[c]) {
      if c in w.held {
        LiveStep(w, e, w.held[c]);
      } else {
        ResolvedIs(w, e.raw, e.kind);
      }
    }
  }

  /** While callers keep to the contract, every use meets a live object and nothing dangles. */
  lemma {:induction false} DisciplineKeeps(w: World, es: seq<Move>)
    requires WorldInv(w) && HeldLive(w) && Disciplined(w, es)
    ensures Happens(w, es) && WorldInv(Result(w, es)) && HeldLive(Result(w, es))
    decreases |es|
  {
    hide Core, Side, Possible, Moved, HeldLive, Careful, WorldInv;
    if es != [] {
      CarefulKeeps(w, es[0]);
      assert es[0].CallsOn? ==> es[0].c in w.held && Live(w.slots, w.held[es[0].c]) by { UsesHeld(w, es[0]); }
      DisciplineKeeps(Moved(w, es[0]), es[1..]);
    }
  }

  lemma UsesHeld(w: World, e: Move)
    requires Formed(w) && HeldLive(w) && Possible(w, e)
    ensures e.CallsOn? ==> e.c in w.held && Live(w.slots, w.held[e.c])
  {
    hide Enabled, Sized, Registry, Live;
  }

  // ---- Start -----------------------------------------------------------------------------------------------

  /** The kernel after `init` and an empty registry. */
  function Empty(n: nat, counts: seq<nat>, mutexes: nat, handles: nat): (w: World)
    requires 2 <= n <= SLOT_LIMIT && 0 < handles < SLOT_RADIX
  {
    World(Boot(n, counts, mutexes), Fill(handles, Slot(0, 0, Semaphore)), map[])
  }

  lemma EmptyInv(n: nat, counts: seq<nat>, mutexes: nat, handles: nat)
    requires 2 <= n <= SLOT_LIMIT && 0 < handles < SLOT_RADIX
    ensures WorldInv(Empty(n, counts, mutexes, handles)) && HeldLive(Empty(n, counts, mutexes, handles))
  {
    hide Core, Side;
    BootKeeps(n, counts, mutexes);
  }

  /** However objects come and go, if no destroy call falls between another caller's resolving its
      handle and using the object, then no task ever waits for, owns or holds a grant of an object
      that is gone, and every reference still to be used is to a live object. */
  lemma WorldsSafe(n: nat, counts: seq<nat>, mutexes: nat, handles: nat, es: seq<Move>)
    requires 2 <= n <= SLOT_LIMIT && 0 < handles < SLOT_RADIX && Disciplined(Empty(n, counts, mutexes, handles), es)
    ensures var w := Empty(n, counts, mutexes, handles);
      Happens(w, es) && WorldInv(Result(w, es)) && HeldLive(Result(w, es))
  {
    hide Empty, WorldInv, HeldLive, Disciplined, Happens;
    EmptyInv(n, counts, mutexes, handles);
    DisciplineKeeps(Empty(n, counts, mutexes, handles), es);
  }

  // ---- Without the contract --------------------------------------------------------------------------

  /** What one use of a reference leaves: nothing dangles if and only if the object is still live,
      or the call does not entangle its task with it. */
  lemma UseExact(w: World, c: nat, op: Op)
    requires WorldInv(w) && Possible(w, CallsOn(c, op))
    ensures NoDangling(Moved(w, CallsOn(c, op))) <==> Live(w.slots, w.held[c]) || !Entangles(w.k, op)
  {
    hide Core, Side, Apply, Uses, Live, Registry, Sized, Entangles;
    var x, r := w.held[c], Moved(w, CallsOn(c, op));
    TargetPlaced(w.k, op);
    if Live(w.slots, x) {
      StepSafe(w, op, r.held);
    } else {
      DeadUse(w.k, op, x);
      SameRoom(w.k, op, x);
      forall y | Placeable(r.k, y) && Uses(r.k, y) && y != x ensures Live(w.slots, y) {
        SameRoom(w.k, op, y);
        StepUses(w.k, op, y);
      }
    }
  }

  lemma TargetPlaced(k: K, op: Op)
    requires Sized(k) && Fits(k, op) && Target(op).Some?
    ensures Placeable(k, Target(op).value)
  {
    hide Sized;
  }

  /** Whether an object that is live at first is live after the moves: it is destroyed by none of
      them, or created anew at the same address after that. */
  ghost predicate Survives(w: World, es: seq<Move>, x: Ref, live: bool)
    requires Happens(w, es)
    decreases |es|
  {
    if es == [] then live
    else Survives(Moved(w, es[0]), es[1..], x, (Created(w, es[0]) && es[0].x == x) || (live && Destroyed(w, es[0]) != Some(x)))
  }

  /** `c` makes no call of its own. */
  predicate Pauses(es: seq<Move>, c: nat) {
    forall i :: 0 <= i < |es| ==> !(es[i].CallsOn? && es[i].c == c)
  }

  lemma {:induction false} SurvivesExact(w: World, es: seq<Move>, c: nat, x: Ref)
    requires WorldInv(w) && Happens(w, es) && c in w.held && w.held[c] == x && Pauses(es, c)
    ensures var r := Result(w, es);
      && WorldInv(r) && c in r.held && r.held[c] == x
      && (Live(r.slots, x) <==> Survives(w, es, x, Live(w.slots, x)))
    decreases |es|
  {
    hide Core, Side, Possible, Moved, WorldInv, Live;
    if es != [] {
      assert Formed(w) by { InvFormed(w); }
      WorldStep(w, es[0]);
      LiveStep(w, es[0], x);
      HeldStep(w, es[0], c);
      assert forall i :: 0 <= i < |es[1..]| ==> es[1..][i] == es[i + 1];
      SurvivesExact(Moved(w, es[0]), es[1..], c, x);
    }
  }

  lemma InvFormed(w: World)
    requires WorldInv(w)
    ensures Formed(w)
  {
    hide Core, Side;
  }

  /** The two critical sections of a call with anything between them that itself leaves nothing
      dangling: after the use nothing dangles if and only if no destroy of the object fell between, not made up for by a creation
      in the same place, or the call does not entangle its task. */
  lemma BetweenExact(w: World, es: seq<Move>, c: nat, raw: nat, kind: Kind, op: Op)
    requires WorldInv(w) && Possible(w, Resolves(c, raw, kind)) && Resolved(w.slots, raw, kind).Ok?
    requires var w1 := Moved(w, Resolves(c, raw, kind));
      Happens(w1, es) && Pauses(es, c) && Formed(Result(w1, es)) && Possible(Result(w1, es), CallsOn(c, op))
    ensures var w1 := Moved(w, Resolves(c, raw, kind));
      var r := Result(w1, es);
      NoDangling(Moved(r, CallsOn(c, op))) <==> Survives(w1, es, At(Resolved(w.slots, raw, kind).value), true) || !Entangles(r.k, op)
  {
    hide Core, Side, Apply, Enabled, Uses, Live, Sized, Entangles, NoDangling, Happens, Survives;
    var e := Resolves(c, raw, kind);
    var w1, x := Moved(w, e), At(Resolved(w.slots, raw, kind).value);
    WorldStep(w, e);
    ResolvedIs(w, raw, kind);
    SurvivesExact(w1, es, c, x);
    UseExact(Result(w1, es), c, op);
  }

  // ---- A run that breaks the contract -------------------------------------------------------------

  /** The first task and a more urgent one at slot 2, with one semaphore that has no permit. */
  predicate Trio(k: K, s0: Status, s2: Status, cur: nat, target: Option<nat>, low: seq<nat>, top: seq<nat>) {
    && Sized(k) && k.state == [s0, Ready, s2] && k.current == cur && k.count == [0] && k.owner == []
    && (target.None? ==> k.pending.None?)
    && (target.Some? ==> k.pending.Some? && k.pending.value.target == target.value && k.pending.value.previous == cur)
    && k.policy[0].Preemptive? && k.prio == [31, 31, 0] && k.lockDepth == [0, 0, 0] && k.call == [User, User, User]
    && k.grantSem == [None, None, None] && |k.q| == 33 && k.q[32] == []
    && k.q[31] == low && k.q[0] == top && forall l :: 0 < l < 31 ==> k.q[l] == []
  }

  lemma Highest(q: seq<seq<nat>>, l: nat)
    requires |q| >= LEVELS && 0 < l <= 31 && q[31] != [] && forall i :: 0 < i < 31 ==> q[i] == []
    ensures FirstBucket(q, l) == 31
    decreases LEVELS - l
  {
    if l < 31 {
      Highest(q, l + 1);
    }
  }

  /** The first task with a time slice, at boot. */
  predicate Solo(k: K) {
    && Sized(k) && k.state == [Running, Ready, Free] && k.current == 0 && k.count == [0] && k.owner == [] && k.pending.None?
    && k.policy[0].Preemptive? && k.prio == [31, 31, 31] && k.lockDepth == [0, 0, 0] && k.call == [User, User, User]
    && k.grantSem == [None, None, None] && |k.q| == 33 && forall l :: 0 <= l < 33 ==> k.q[l] == []
  }

  const INSTALL: Op := SetsPolicy(0, Budget.Preemptive(1), 0)
  const SPAWN: Op := Spawns(2, 0, Budget.Cooperative, 0)

  lemma InstallSolo()
    ensures var k := Boot(3, [0], 0); Enabled(k, INSTALL) && Solo(Apply(k, INSTALL).0)
  {
    hide InReady, Without, Budget.ForPolicy, Budget.OnDispatch, FreshBudget;
  }

  lemma SpawnTrio(k: K)
    requires Solo(k)
    ensures Enabled(k, SPAWN) && Trio(Apply(k, SPAWN).0, Running, Ready, 0, None, [], [2])
  {
  }

  lemma PreemptTrio(k: K, now: nat)
    requires Trio(k, Running, Ready, 0, None, [], [2]) && now <= Budget.U64_MAX
    ensures Enabled(k, Traps(now)) && Trio(Apply(k, Traps(now)).0, Ready, Running, 2, None, [0], [])
  {
  }

  lemma SleepTrio(k: K, until: nat)
    requires Trio(k, Ready, Running, 2, None, [0], [])
    ensures Enabled(k, Sleeps(until, true)) && Trio(Apply(k, Sleeps(until, true)).0, Ready, Sleeping, 2, Some(0), [], [])
  {
    Highest(k.q, 1);
  }

  lemma BackTrio(k: K, now: nat)
    requires Trio(k, Ready, Sleeping, 2, Some(0), [], []) && now <= Budget.U64_MAX
    ensures Enabled(k, Traps(now)) && Trio(Apply(k, Traps(now)).0, Running, Sleeping, 0, None, [], [])
  {
  }

  const SEM: Ref := Ref(Semaphore, 0)
  const HANDLE: nat := SLOT_RADIX + 1
  const BARE: seq<Slot> := [Slot(0, 0, Semaphore)]
  const MADE: seq<Slot> := [Slot(1, 1, Semaphore)]
  const GONE: seq<Slot> := [Slot(0, 1, Semaphore)]
  const WAIT: Op := Downs(0, Forever, true)

  /** Task 0 resolves the handle and is preempted; task 2 destroys the semaphore and sleeps. */
  const BREACH: seq<Move> := [
    Sys(INSTALL), Sys(SPAWN), Creates(SEM, 0), Resolves(0, HANDLE, Semaphore), Sys(Traps(0)),
    Destroys(HANDLE, Semaphore), Sys(Sleeps(9, true)), Sys(Traps(0))]

  ghost predicate HappensTo(w: World, es: seq<Move>, r: World) {
    Happens(w, es) && Result(w, es) == r
  }

  lemma HappensBy(w: World, es: seq<Move>, r: World)
    requires es != [] && WorldInv(w) && Possible(w, es[0]) && !es[0].CallsOn? && HappensTo(Moved(w, es[0]), es[1..], r)
    ensures HappensTo(w, es, r)
  {
    hide WorldInv, Moved, Possible;
  }

  lemma SysMoved(w: World, op: Op)
    requires WorldInv(w) && Enabled(w.k, op) && Target(op).None? && (op.Traps? || w.k.current !in w.held)
    ensures Possible(w, Sys(op)) && Moved(w, Sys(op)) == World(Apply(w.k, op).0, w.slots, w.held) && WorldInv(Moved(w, Sys(op)))
  {
    hide Core, Side, Apply, Enabled, NoDangling, Registry, Sized;
    WorldStep(w, Sys(op));
  }

  lemma CreateMoved(k: K)
    requires WorldInv(World(k, BARE, map[])) && Trio(k, Running, Ready, 0, None, [], [2])
    ensures var (w, e) := (World(k, BARE, map[]), Creates(SEM, 0));
      Possible(w, e) && Moved(w, e) == World(k, MADE, map[]) && WorldInv(Moved(w, e))
  {
    hide Core, Side;
    var w := World(k, BARE, map[]);
    assert k.count[0 := 0] == k.count;
    assert FirstEmpty(BARE, 0) == 0;
    WorldStep(w, Creates(SEM, 0));
  }

  lemma ResolveMoved(k: K)
    requires WorldInv(World(k, MADE, map[])) && Trio(k, Running, Ready, 0, None, [], [2])
    ensures var (w, e) := (World(k, MADE, map[]), Resolves(0, HANDLE, Semaphore));
      Possible(w, e) && Moved(w, e) == World(k, MADE, map[0 := SEM]) && WorldInv(Moved(w, e))
  {
    hide Core, Side;
    var w := World(k, MADE, map[]);
    assert Resolved(MADE, HANDLE, Semaphore) == Ok(1);
    WorldStep(w, Resolves(0, HANDLE, Semaphore));
  }

  lemma DestroyMoved(k: K)
    requires WorldInv(World(k, MADE, map[0 := SEM])) && Trio(k, Ready, Running, 2, None, [0], [])
    ensures var (w, e) := (World(k, MADE, map[0 := SEM]), Destroys(HANDLE, Semaphore));
      Possible(w, e) && Moved(w, e) == World(k, GONE, map[0 := SEM]) && WorldInv(Moved(w, e))
  {
    hide Core, Side;
    var w := World(k, MADE, map[0 := SEM]);
    assert Resolved(MADE, HANDLE, Semaphore) == Ok(1);
    assert SemIdle(k, 0);
    WorldStep(w, Destroys(HANDLE, Semaphore));
  }

  lemma TrioCurrent(k: K, s0: Status, s2: Status, cur: nat, target: Option<nat>, low: seq<nat>, top: seq<nat>)
    requires Trio(k, s0, s2, cur, target, low, top)
    ensures Sized(k) && k.current == cur
  {
  }

  /** From the resolved reference to the point where task 0 runs again. */
  lemma BreachEnds(k: K) returns (r: World)
    requires WorldInv(World(k, MADE, map[0 := SEM])) && Trio(k, Running, Ready, 0, None, [], [2])
    ensures HappensTo(World(k, MADE, map[0 := SEM]), BREACH[4..], r)
    ensures WorldInv(r) && r.slots == GONE && r.held == map[0 := SEM] && Trio(r.k, Running, Sleeping, 0, None, [], [])
  {
    hide Core, Side, Apply, Enabled, WorldInv, Possible, Moved, HappensTo, Trio;
    var held := map[0 := SEM];
    var w4 := World(k, MADE, held);
    TrioCurrent(k, Running, Ready, 0, None, [], [2]);
    PreemptTrio(k, 0);
    var k1 := Apply(k, Traps(0)).0;
    SysMoved(w4, Traps(0));
    DestroyMoved(k1);
    SleepTrio(k1, 9);
    TrioCurrent(k1, Ready, Running, 2, None, [0], []);
    SysMoved(World(k1, GONE, held), Sleeps(9, true));
    var k2 := Apply(k1, Sleeps(9, true)).0;
    BackTrio(k2, 0);
    SysMoved(World(k2, GONE, held), Traps(0));
    r := World(Apply(k2, Traps(0)).0, GONE, held);
    var es := BREACH[4..];
    assert es == [Sys(Traps(0)), Destroys(HANDLE, Semaphore), Sys(Sleeps(9, true)), Sys(Traps(0))];
    assert es[1..][1..] == es[2..] && es[2..][1..] == es[3..] && es[3..][1..] == [];
    HappensNothing(r);
    HappensBy(World(k2, GONE, held), es[3..], r);
    HappensBy(World(k1, GONE, held), es[2..], r);
    HappensBy(World(k1, MADE, held), es[1..], r);
    HappensBy(w4, es, r);
  }

  lemma HappensNothing(w: World)
    ensures HappensTo(w, [], w)
  {
  }

  /** The contract matters: a run from the empty world in which only it is broken, and after which
      task 0 waits for a semaphore that is gone. */
  lemma BreachDangles() returns (r: World)
    ensures HappensTo(Empty(3, [0], 0, 1), BREACH, r)
    ensures WorldInv(r) && Possible(r, CallsOn(0, WAIT)) && !NoDangling(Moved(r, CallsOn(0, WAIT)))
  {
    hide Core, Side, Apply, Enabled, WorldInv, Possible, Moved, HappensTo, Trio, Solo, NoDangling, Boot;
    var k0 := Boot(3, [0], 0);
    var w0 := World(k0, BARE, map[]);
    EmptyInv(3, [0], 0, 1);
    assert w0 == Empty(3, [0], 0, 1);
    InstallSolo();
    SysMoved(w0, INSTALL);
    var k1 := Apply(k0, INSTALL).0;
    SpawnTrio(k1);
    SysMoved(World(k1, BARE, map[]), SPAWN);
    var k2 := Apply(k1, SPAWN).0;
    CreateMoved(k2);
    ResolveMoved(k2);
    r := BreachEnds(k2);
    assert BREACH[1..][1..] == BREACH[2..] && BREACH[2..][1..] == BREACH[3..] && BREACH[3..][1..] == BREACH[4..];
    HappensBy(World(k2, MADE, map[]), BREACH[3..], r);
    HappensBy(World(k2, BARE, map[]), BREACH[2..], r);
    HappensBy(World(k1, BARE, map[]), BREACH[1..], r);
    HappensBy(w0, BREACH, r);
    WaitDangles(r);
  }

  lemma WaitDangles(w: World)
    requires WorldInv(w) && w.slots == GONE && w.held == map[0 := SEM] && Trio(w.k, Running, Sleeping, 0, None, [], [])
    ensures Possible(w, CallsOn(0, WAIT)) && !NoDangling(Moved(w, CallsOn(0, WAIT)))
  {
    hide Core, Side, NoDangling, Moved;
    assert !Live(w.slots, SEM);
    UseExact(w, 0, WAIT);
  }
}
