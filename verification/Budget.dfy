/**
 Query budgets: one shared counter of work, and one of reserved workspace.  A ghost ledger
 gives every reservation its own slot; the counter is the ledger's total, and every method
 takes the ledger the step its operation stands for.
 */
module Budget {
  import opened Prelude

  const MAX_U64: nat := 0xffff_ffff_ffff_ffff

  function Saturated(n: nat): (r: nat)
    ensures r <= MAX_U64
  {
    if n <= MAX_U64 then n else MAX_U64
  }

  function Total(ledger: seq<nat>): nat {
    if ledger == [] then 0 else Total(ledger[..|ledger| - 1]) + ledger[|ledger| - 1]
  }

  lemma {:induction false} TotalUpdate(ledger: seq<nat>, slot: nat, bytes: nat)
    requires slot < |ledger|
    ensures ledger[slot] <= Total(ledger)
    ensures Total(ledger[slot := bytes]) == Total(ledger) - ledger[slot] + bytes
  {
    var n := |ledger| - 1;
    if slot < n {
      TotalUpdate(ledger[..n], slot, bytes);
      assert ledger[slot := bytes][..n] == ledger[..n][slot := bytes];
    } else {
      assert ledger[slot := bytes][..n] == ledger[..n];
    }
  }

  lemma TotalSnoc(ledger: seq<nat>, bytes: nat)
    ensures Total(ledger + [bytes]) == Total(ledger) + bytes
  {
    assert (ledger + [bytes])[..|ledger|] == ledger;
  }

  // --------------------------------------------------------------------- the ledger

  /** The bytes of every slot ever given out, the slots whose reservations still live, and the most held at once. */
  datatype Ledger = Ledger(slots: seq<nat>, live: set<nat>, peak: nat)

  const NEW_LEDGER := Ledger([], {}, 0)

  function Max(a: nat, b: nat): nat {
    if a < b then b else a
  }

  /** Dropped and refused reservations hold nothing, and no slot is given out twice. */
  ghost predicate Kept(l: Ledger) {
    && Total(l.slots) <= l.peak
    && (forall slot :: slot in l.live ==> slot < |l.slots|)
    && (forall slot :: 0 <= slot < |l.slots| && slot !in l.live ==> l.slots[slot] == 0)
  }

  predicate Fits(l: Ledger, limit: nat, slot: nat, bytes: nat)
    requires slot < |l.slots|
  {
    Total(l.slots[slot := bytes]) <= limit
  }

  function With(l: Ledger, slot: nat, bytes: nat): Ledger
    requires slot < |l.slots|
  {
    l.(slots := l.slots[slot := bytes], peak := Max(l.peak, Total(l.slots[slot := bytes])))
  }

  lemma WithSame(l: Ledger, slot: nat)
    requires Kept(l) && slot < |l.slots|
    ensures With(l, slot, l.slots[slot]) == l
  {
    assert l.slots[slot := l.slots[slot]] == l.slots;
  }

  /** Shrinking in steps is shrinking at once. */
  lemma WithTwice(l: Ledger, slot: nat, bytes: nat, fewer: nat)
    requires Kept(l) && slot < |l.slots| && bytes <= l.slots[slot]
    ensures With(With(l, slot, bytes), slot, fewer) == With(l, slot, fewer) && Dropped(With(l, slot, bytes), slot) == Dropped(l, slot)
  {
    TotalUpdate(l.slots, slot, bytes);
    assert l.slots[slot := bytes][slot := fewer] == l.slots[slot := fewer];
    assert l.slots[slot := bytes][slot := 0] == l.slots[slot := 0];
  }

  /** A resize: granted when the total stays within the limit, and otherwise nothing changes. */
  function Sized(l: Ledger, limit: nat, slot: nat, bytes: nat): (r: Ledger)
    requires slot < |l.slots|
    ensures |r.slots| == |l.slots| && r.live == l.live
  {
    if Fits(l, limit, slot, bytes) then With(l, slot, bytes) else l
  }

  datatype Op =
    | Take(bytes: nat)
    | Resize(slot: nat, bytes: nat)
    | Grow(slot: nat, more: nat)
    | Push(slot: nat, first: nat, second: Option<nat>)
    | Release(slot: nat, count: nat)
    | Drop(slot: nat)

  /** A new reservation: its slot holds the bytes, or is given up at once. */
  function Taken(l: Ledger, limit: nat, bytes: nat): Ledger {
    if Total(l.slots) + bytes <= limit then Ledger(l.slots + [bytes], l.live + {|l.slots|}, Max(l.peak, Total(l.slots) + bytes))
    else l.(slots := l.slots + [0])
  }

  /** A push: a first resize before growing, and a second one for what was allocated, if anything was. */
  function Pushed(l: Ledger, limit: nat, slot: nat, first: nat, second: Option<nat>): Ledger
    requires slot < |l.slots|
  {
    if !Fits(l, limit, slot, first) || second.None? then Sized(l, limit, slot, first)
    else Sized(With(l, slot, first), limit, slot, second.value)
  }

  /** Whether both resizes of a push are granted. */
  predicate Granted(l: Ledger, limit: nat, slot: nat, first: nat, second: Option<nat>)
    requires slot < |l.slots|
  {
    Fits(l, limit, slot, first) && second.Some? && Fits(With(l, slot, first), limit, slot, second.value)
  }

  function Dropped(l: Ledger, slot: nat): Ledger
    requires slot < |l.slots|
  {
    l.(slots := l.slots[slot := 0], live := l.live - {slot})
  }

  /** One operation; those on a reservation that does not live change nothing. */
  function Apply(l: Ledger, limit: nat, op: Op): Ledger {
    match op
    case Take(bytes) => Taken(l, limit, bytes)
    case Resize(slot, bytes) => if slot in l.live && slot < |l.slots| then Sized(l, limit, slot, bytes) else l
    case Grow(slot, more) => if slot in l.live && slot < |l.slots| then Sized(l, limit, slot, l.slots[slot] + more) else l
    case Push(slot, first, second) => if slot in l.live && slot < |l.slots| then Pushed(l, limit, slot, first, second) else l
    case Release(slot, count) =>
      if slot in l.live && slot < |l.slots| && count <= l.slots[slot] then With(l, slot, l.slots[slot] - count) else l
    case Drop(slot) => if slot in l.live && slot < |l.slots| then Dropped(l, slot) else l
  }

  function Run(ops: seq<Op>, limit: nat): Ledger {
    if ops == [] then NEW_LEDGER else Apply(Run(ops[..|ops| - 1], limit), limit, ops[|ops| - 1])
  }

  lemma SizedKeeps(l: Ledger, limit: nat, slot: nat, bytes: nat)
    requires Kept(l) && Total(l.slots) <= limit && slot in l.live
    ensures Kept(Sized(l, limit, slot, bytes)) && Total(Sized(l, limit, slot, bytes).slots) <= limit
  {
  }

  lemma ApplyKeeps(l: Ledger, limit: nat, op: Op)
    requires Kept(l) && Total(l.slots) <= limit
    ensures Kept(Apply(l, limit, op)) && Total(Apply(l, limit, op).slots) <= limit
  {
    hide Total;
    match op {
      case Take(bytes) =>
        TotalSnoc(l.slots, bytes);
        TotalSnoc(l.slots, 0);
      case Resize(slot, bytes) =>
      case Grow(slot, more) =>
      case Push(slot, first, second) =>
        if slot in l.live {
          SizedKeeps(l, limit, slot, first);
        }
      case Release(slot, count) =>
        if slot in l.live && count <= l.slots[slot] {
          TotalUpdate(l.slots, slot, l.slots[slot] - count);
        }
      case Drop(slot) =>
        if slot in l.live {
          TotalUpdate(l.slots, slot, 0);
        }
    }
  }

  /** Whatever is reserved, grown, pushed, iterated and dropped, the total stays within the limit. */
  lemma {:induction false} RunsStayWithinTheLimit(ops: seq<Op>, limit: nat)
    ensures Kept(Run(ops, limit)) && Total(Run(ops, limit).slots) <= limit
  {
    hide Apply;
    if ops != [] {
      RunsStayWithinTheLimit(ops[..|ops| - 1], limit);
      ApplyKeeps(Run(ops[..|ops| - 1], limit), limit, ops[|ops| - 1]);
    }
  }

  /** The total while an operation is under way: a push holds its first amount for a moment. */
  function Midway(l: Ledger, limit: nat, op: Op): nat {
    if op.Push? && op.slot in l.live && op.slot < |l.slots| && Fits(l, limit, op.slot, op.first) then Total(l.slots[op.slot := op.first])
    else Total(Apply(l, limit, op).slots)
  }

  /** Some operation of a run held so much, midway or when it was done. */
  ghost predicate HeldDuring(ops: seq<Op>, limit: nat, bytes: nat) {
    exists i :: 0 <= i < |ops| && (bytes == Midway(Run(ops[..i], limit), limit, ops[i]) || bytes == Total(Apply(Run(ops[..i], limit), limit, ops[i]).slots))
  }

  lemma ApplyPeaks(l: Ledger, limit: nat, op: Op)
    requires Kept(l)
    ensures Apply(l, limit, op).peak == Max(l.peak, Max(Midway(l, limit, op), Total(Apply(l, limit, op).slots)))
  {
    hide Total;
    match op {
      case Take(bytes) =>
        TotalSnoc(l.slots, bytes);
        TotalSnoc(l.slots, 0);
      case Resize(slot, bytes) =>
      case Grow(slot, more) =>
      case Push(slot, first, second) =>
      case Release(slot, count) =>
      case Drop(slot) =>
        if slot in l.live && slot < |l.slots| {
          TotalUpdate(l.slots, slot, 0);
        }
    }
  }

  lemma {:induction false} HeldEarlier(ops: seq<Op>, op: Op, limit: nat, bytes: nat)
    ensures HeldDuring(ops + [op], limit, bytes)
            <==> HeldDuring(ops, limit, bytes) || bytes == Midway(Run(ops, limit), limit, op) || bytes == Total(Apply(Run(ops, limit), limit, op).slots)
  {
    hide Midway;
    hide Total;
    hide Apply;
    hide Run;
    var all := ops + [op];
    assert all[..|ops|] == ops && all[|ops|] == op;
    forall i | 0 <= i < |ops| ensures all[..i] == ops[..i] && all[i] == ops[i] {
    }
  }

  /** The peak is the most bytes held at any moment of a run, and none when nothing ever was. */
  lemma {:induction false} PeakIsTheHighest(ops: seq<Op>, limit: nat)
    ensures forall bytes: nat :: HeldDuring(ops, limit, bytes) ==> bytes <= Run(ops, limit).peak
    ensures Run(ops, limit).peak == 0 || HeldDuring(ops, limit, Run(ops, limit).peak)
  {
    if ops != [] {
      var (init, op) := (ops[..|ops| - 1], ops[|ops| - 1]);
      assert ops == init + [op];
      PeakIsTheHighest(init, limit);
      RunsStayWithinTheLimit(init, limit);
      ApplyPeaks(Run(init, limit), limit, op);
      forall bytes: nat ensures HeldDuring(ops, limit, bytes)
          <==> HeldDuring(init, limit, bytes) || bytes == Midway(Run(init, limit), limit, op) || bytes == Total(Apply(Run(init, limit), limit, op).slots) {
        HeldEarlier(init, op, limit, bytes);
      }
      hide HeldDuring;
      hide Midway;
      hide Total;
      hide Apply;
      hide Kept;
    }
  }

  lemma {:induction false} ZeroTotal(slots: seq<nat>)
    ensures Total(slots) == 0 <==> forall slot :: 0 <= slot < |slots| ==> slots[slot] == 0
  {
    if slots != [] {
      var n := |slots| - 1;
      ZeroTotal(slots[..n]);
      assert (forall slot :: 0 <= slot < n ==> slots[..n][slot] == 0) <==> (forall slot :: 0 <= slot < n ==> slots[slot] == 0) by {
        assert forall slot :: 0 <= slot < n ==> slots[..n][slot] == slots[slot];
      }
    }
  }

  /** After any run, once every reservation is dropped the counter is back at zero. */
  lemma NothingIsLeft(ops: seq<Op>, limit: nat)
    requires Run(ops, limit).live == {}
    ensures Total(Run(ops, limit).slots) == 0
  {
    RunsStayWithinTheLimit(ops, limit);
    ZeroTotal(Run(ops, limit).slots);
  }

  /** No operation touches the bytes of another live slot, nor ends its life. */
  lemma OthersStay(l: Ledger, limit: nat, op: Op, slot: nat)
    requires Kept(l) && slot in l.live && !(op.Drop? && op.slot == slot)
    requires op.Take? || op.slot != slot
    ensures slot in Apply(l, limit, op).live && slot < |Apply(l, limit, op).slots| && Apply(l, limit, op).slots[slot] == l.slots[slot]
  {
  }

  // ------------------------------------------------------------- the shared counters

  /** Counters shared by every search of one script; None is unlimited. */
  class State {
    const maxWork: Option<nat>
    const maxMemory: Option<nat>
    var work: nat
    var memory: nat
    var peak: nat
    ghost var ledger: Ledger

    ghost predicate Valid()
      reads this
    {
      && Kept(ledger) && memory == Total(ledger.slots) && peak == ledger.peak <= MAX_U64 && work <= MAX_U64
      && (maxMemory.Some? ==> peak <= maxMemory.value <= MAX_U64)
      && (maxWork.Some? ==> work <= maxWork.value <= MAX_U64)
    }

    constructor (maxWork: Option<nat>, maxMemory: Option<nat>)
      requires maxWork.Some? ==> maxWork.value <= MAX_U64
      requires maxMemory.Some? ==> maxMemory.value <= MAX_U64
      ensures Valid() && this.maxWork == maxWork && this.maxMemory == maxMemory && ledger == NEW_LEDGER && memory == 0 && work == 0
    {
      this.maxWork, this.maxMemory := maxWork, maxMemory;
      work, memory, peak, ledger := 0, 0, 0, NEW_LEDGER;
    }

    /** Charges work only when the whole charge stays within the limit. */
    method Work(units: nat) returns (charged: bool)
      requires Valid()
      modifies this`work
      ensures Valid() && (charged <==> maxWork.None? || old(work) + units <= maxWork.value)
      ensures work == if charged && maxWork.Some? then old(work) + units else old(work)
    {
      if maxWork.None? {
        return true;
      }
      var used := work + units;
      if used > MAX_U64 || used > maxWork.value {
        return false;
      }
      work := used;
      return true;
    }
  }

  class Reservation {
    const state: State?
    var bytes: nat
    ghost const slot: nat

    /** An active reservation owns one live slot of a valid ledger. */
    ghost predicate Valid()
      reads this, state
    {
      state != null ==>
        state.Valid() && state.maxMemory.Some? && slot in state.ledger.live && slot < |state.ledger.slots| && state.ledger.slots[slot] == bytes
    }

    function Footprint(): set<object>
      reads this
    {
      if state == null then {this} else {this, state}
    }

    /** A new live slot at the end of the ledger, holding nothing; inactive without a memory limit. */
    constructor (shared: State?)
      requires shared != null ==> shared.Valid()
      modifies if shared == null then {} else {shared}
      ensures Valid() && bytes == 0 && state == (if shared != null && shared.maxMemory.Some? then shared else null)
      ensures state != null ==>
                && slot == |old(shared.ledger.slots)|
                && state.ledger == old(shared.ledger).(slots := old(shared.ledger.slots) + [0], live := old(shared.ledger.live) + {slot})
      ensures shared != null && state == null ==> shared.ledger == old(shared.ledger)
      ensures shared != null ==> shared.Valid() && shared.memory == old(shared.memory) && shared.work == old(shared.work)
    {
      state := if shared != null && shared.maxMemory.Some? then shared else null;
      bytes := 0;
      slot := if shared == null then 0 else |shared.ledger.slots|;
      new;
      if state != null {
        TotalSnoc(state.ledger.slots, 0);
        state.ledger := state.ledger.(slots := state.ledger.slots + [0], live := state.ledger.live + {slot});
      }
    }

    predicate Active()
    {
      state != null
    }

    /** A refused resize changes neither the counter nor this reservation. */
    method Resize(target: nat) returns (ok: bool)
      requires Valid() && target <= MAX_U64
      modifies Footprint()
      ensures Valid()
      ensures !Active() ==> ok && bytes == old(bytes)
      ensures Active() ==>
                && (ok <==> Fits(old(state.ledger), state.maxMemory.value, slot, target))
                && state.ledger == Sized(old(state.ledger), state.maxMemory.value, slot, target)
                && bytes == (if ok then target else old(bytes)) && state.work == old(state.work)
      ensures Active() && ok ==> state.memory == old(state.memory) - old(bytes) + target && state.peak == Max(old(state.peak), state.memory)
      ensures Active() && !ok ==> state.ledger == old(state.ledger) && state.memory == old(state.memory) && state.peak == old(state.peak)
    {
      if state == null {
        return true;
      }
      TotalUpdate(state.ledger.slots, slot, target);
      var other := state.memory - bytes;
      var total := other + target;
      if total > MAX_U64 || total > state.maxMemory.value {
        return false;
      }
      state.memory := total;
      if total > state.peak {
        state.peak := total;
      }
      bytes := target;
      state.ledger := With(state.ledger, slot, target);
      return true;
    }

    method Grow(more: nat) returns (ok: bool)
      requires Valid() && more <= MAX_U64
      modifies Footprint()
      ensures Valid()
      ensures !Active() ==> ok && bytes == old(bytes)
      ensures Active() ==>
                && (ok <==> Fits(old(state.ledger), state.maxMemory.value, slot, old(bytes) + more))
                && state.ledger == Sized(old(state.ledger), state.maxMemory.value, slot, old(bytes) + more)
                && bytes == (if ok then old(bytes) + more else old(bytes))
    {
      if state == null {
        return true;
      }
      if bytes + more > MAX_U64 {
        TotalUpdate(state.ledger.slots, slot, bytes + more);
        return false;
      }
      ok := Resize(bytes + more);
    }

    /** Gives bytes back.  Shrinking is never refused; giving back more than is held would underflow. */
    method Release(count: nat)
      requires Valid() && (Active() ==> count <= bytes)
      modifies Footprint()
      ensures Valid()
      ensures !Active() ==> bytes == old(bytes)
      ensures Active() ==>
                && bytes == old(bytes) - count
                && state.ledger == With(old(state.ledger), slot, old(bytes) - count)
    {
      if state != null {
        TotalUpdate(state.ledger.slots, slot, bytes - count);
        TotalUpdate(state.ledger.slots, slot, bytes);
        var _ := Resize(bytes - count);
      }
    }

    /** The end of a reservation's life: its slot holds nothing and no longer lives. */
    method Drop()
      requires Valid()
      modifies Footprint()
      ensures Active() ==>
                && state.Valid() && state.memory == old(state.memory) - old(bytes)
                && state.ledger == Dropped(old(state.ledger), slot)
    {
      if state != null {
        TotalUpdate(state.ledger.slots, slot, 0);
        state.memory := state.memory - bytes;
        state.ledger := Dropped(state.ledger, slot);
        bytes := 0;
      }
    }
  }

  lemma TakenSteps(l: Ledger, limit: nat, bytes: nat)
    requires Kept(l) && Total(l.slots) <= limit
    ensures var slot := |l.slots|;
            var more := l.(slots := l.slots + [0], live := l.live + {slot});
            && (Fits(more, limit, slot, bytes) <==> Total(l.slots) + bytes <= limit)
            && Taken(l, limit, bytes) == (if Fits(more, limit, slot, bytes) then With(more, slot, bytes) else Dropped(more, slot))
  {
    hide Total;
    TotalSnoc(l.slots, bytes);
    assert (l.slots + [0])[|l.slots| := bytes] == l.slots + [bytes];
    assert (l.slots + [0])[|l.slots| := 0] == l.slots + [0];
  }

  /** Reserves so many bytes, or leaves nothing behind but an empty slot. */
  method Reserve(shared: State?, bytes: nat) returns (reservation: Option<Reservation>)
    requires bytes <= MAX_U64 && (shared != null ==> shared.Valid())
    modifies if shared == null then {} else {shared}
    ensures reservation.Some? ==> fresh(reservation.value) && reservation.value.Valid()
    ensures reservation.Some? ==> reservation.value.state == if shared != null && shared.maxMemory.Some? then shared else null
    ensures shared != null ==> shared.Valid()
    ensures shared != null && shared.maxMemory.Some? ==>
              && (reservation.Some? <==> old(shared.memory) + bytes <= shared.maxMemory.value)
              && (reservation.Some? ==> reservation.value.bytes == bytes && reservation.value.slot == |old(shared.ledger.slots)|)
              && shared.ledger == Taken(old(shared.ledger), shared.maxMemory.value, bytes)
    ensures shared == null || shared.maxMemory.None? ==> reservation.Some?
  {
    if shared != null && shared.maxMemory.Some? {
      TakenSteps(shared.ledger, shared.maxMemory.value, bytes);
    }
    hide Total;
    hide Kept;
    hide Fits;
    hide Taken;
    var r := new Reservation(shared);
    ghost var begun := if shared == null then NEW_LEDGER else shared.ledger;
    var ok := r.Resize(bytes);
    assert r.Active() ==> shared.ledger == Sized(begun, shared.maxMemory.value, r.slot, bytes);
    if !ok {
      r.Drop();
      return None;
    }
    return Some(r);
  }

  // --------------------------------------------------------------------- whole runs

  ghost function SlotsOf(held: seq<Reservation>): seq<nat> {
    seq(|held|, i requires 0 <= i < |held| => held[i].slot)
  }

  predicate Distinct(slots: seq<nat>) {
    forall i, j :: 0 <= i < j < |slots| ==> slots[i] != slots[j]
  }

  /** All the live reservations of one state; each has a slot of its own. */
  ghost predicate Holding(shared: State, held: seq<Reservation>)
    reads shared, held
  {
    && shared.Valid() && shared.maxMemory.Some?
    && (forall i :: 0 <= i < |held| ==> held[i].state == shared && held[i].Valid())
    && Distinct(SlotsOf(held)) && forall slot :: slot in shared.ledger.live <==> slot in SlotsOf(held)
  }

  /** An operation on the reservation at a position, as an operation on its slot. */
  ghost function Located(held: seq<Reservation>, op: Op): Op
    requires op.Take? || op.slot < |held|
  {
    if op.Take? then op else op.(slot := held[op.slot].slot)
  }

  /** What a caller may ask of a live reservation, or of the state. */
  predicate Askable(held: seq<Reservation>, op: Op)
    reads held
  {
    && (op.Take? || op.slot < |held|)
    && match op {
         case Take(bytes) => bytes <= MAX_U64
         case Resize(_, bytes) => bytes <= MAX_U64
         case Grow(_, more) => more <= MAX_U64
         case Push(_, first, second) => first <= MAX_U64 && (second.Some? ==> second.value <= MAX_U64)
         case Release(i, count) => count <= held[i].bytes
         case Drop(_) => true
       }
  }

  /** One operation on a live reservation: the ledger takes exactly its step. */
  method PerformOn(r: Reservation, op: Op)
    requires r.Valid() && r.Active() && !op.Take? && Askable([r], op.(slot := 0))
    modifies r, r.state
    ensures r.state.Valid() && (!op.Drop? ==> r.Valid())
    ensures r.state.ledger == Apply(old(r.state.ledger), r.state.maxMemory.value, op.(slot := r.slot))
  {
    hide Total;
    match op {
      case Resize(_, bytes) =>
        var _ := r.Resize(bytes);
      case Grow(_, more) =>
        var _ := r.Grow(more);
      case Push(_, first, second) =>
        var ok := r.Resize(first);
        if ok && second.Some? {
          var _ := r.Resize(second.value);
        }
      case Release(_, count) =>
        r.Release(count);
      case Drop(_) =>
        r.Drop();
    }
  }

  method TakeOne(shared: State, held: seq<Reservation>, bytes: nat) returns (after: seq<Reservation>)
    requires Holding(shared, held) && bytes <= MAX_U64
    modifies shared
    ensures Holding(shared, after) && (after == held || exists r :: fresh(r) && after == held + [r])
    ensures shared.ledger == Taken(old(shared.ledger), shared.maxMemory.value, bytes)
  {
    hide Total;
    var r := Reserve(shared, bytes);
    if r.None? {
      return held;
    }
    after := held + [r.value];
    assert SlotsOf(after) == SlotsOf(held) + [r.value.slot];
    assert r.value.slot !in SlotsOf(held);
  }

  method ChangeOne(shared: State, held: seq<Reservation>, op: Op)
    requires Holding(shared, held) && Askable(held, op) && !op.Take? && !op.Drop?
    modifies shared, held
    ensures Holding(shared, held) && shared.ledger == Apply(old(shared.ledger), shared.maxMemory.value, Located(held, op))
  {
    hide Total;
    ghost var before := shared.ledger;
    DistinctSlots(held, op.slot);
    PerformOn(held[op.slot], op);
    forall i | 0 <= i < |held| && i != op.slot ensures held[i].Valid() {
      OthersStay(before, shared.maxMemory.value, Located(held, op), held[i].slot);
    }
    LiveStays(before, shared.maxMemory.value, Located(held, op));
  }

  lemma LiveStays(l: Ledger, limit: nat, op: Op)
    requires !op.Take? && !op.Drop?
    ensures Apply(l, limit, op).live == l.live
  {
  }

  method DropOne(shared: State, held: seq<Reservation>, at: nat) returns (after: seq<Reservation>)
    requires Holding(shared, held) && at < |held|
    modifies shared, held
    ensures Holding(shared, after) && after == held[..at] + held[at + 1..]
    ensures shared.ledger == Dropped(old(shared.ledger), held[at].slot)
  {
    hide Total;
    hide Distinct;
    ghost var before := shared.ledger;
    DistinctSlots(held, at);
    held[at].Drop();
    forall i | 0 <= i < |held| && i != at ensures held[i].Valid() {
      OthersStay(before, shared.maxMemory.value, Op.Drop(held[at].slot), held[i].slot);
    }
    after := held[..at] + held[at + 1..];
    SlotsWithout(SlotsOf(held), at);
    assert SlotsOf(after) == SlotsOf(held)[..at] + SlotsOf(held)[at + 1..];
  }

  lemma DistinctSlots(held: seq<Reservation>, at: nat)
    requires Distinct(SlotsOf(held)) && at < |held|
    ensures forall i :: 0 <= i < |held| && i != at ==> held[i].slot != held[at].slot
  {
    var slots := SlotsOf(held);
    forall i | 0 <= i < |held| && i != at ensures held[i].slot != held[at].slot {
      assert slots[i] == held[i].slot && slots[at] == held[at].slot;
    }
  }

  lemma SlotsWithout(slots: seq<nat>, at: nat)
    requires at < |slots| && Distinct(slots)
    ensures var left := slots[..at] + slots[at + 1..];
            Distinct(left) && forall slot :: slot in left <==> slot in slots && slot != slots[at]
  {
    var left := slots[..at] + slots[at + 1..];
    forall slot ensures slot in left <==> slot in slots && slot != slots[at] {
      if slot in slots && slot != slots[at] {
        var i :| 0 <= i < |slots| && slots[i] == slot;
        assert left[if i < at then i else i - 1] == slot;
      }
      if slot in left {
        var k :| 0 <= k < |left| && left[k] == slot;
        assert slots[if k < at then k else k + 1] == slot;
      }
    }
  }

  /** Performs one operation: the ledger takes exactly its step, and every other reservation stays valid. */
  method Perform(shared: State, held: seq<Reservation>, op: Op) returns (after: seq<Reservation>)
    requires Holding(shared, held) && Askable(held, op)
    modifies shared, held
    ensures Holding(shared, after) && forall i :: 0 <= i < |after| ==> after[i] in held || fresh(after[i])
    ensures shared.ledger == Apply(old(shared.ledger), shared.maxMemory.value, Located(held, op))
  {
    hide Total;
    hide Kept;
    match op {
      case Take(bytes) =>
        after := TakeOne(shared, held, bytes);
      case Drop(i) =>
        after := DropOne(shared, held, i);
      case _ =>
        ChangeOne(shared, held, op);
        after := held;
    }
  }

  /** Performs any run of operations, each askable when its turn comes; a dropped state holds nothing. */
  method PerformAll(shared: State, ops: seq<Op>) returns (held: seq<Reservation>, done: nat, ghost run: seq<Op>)
    requires shared.Valid() && shared.maxMemory.Some? && shared.ledger == NEW_LEDGER
    modifies shared
    ensures done <= |ops| && Holding(shared, held) && shared.memory <= shared.maxMemory.value
    ensures |run| == done && shared.ledger == Run(run, shared.maxMemory.value)
    ensures done < |ops| ==> !Askable(held, ops[done])
    ensures held == [] ==> shared.memory == 0
  {
    hide Total;
    held, run := [], [];
    for i := 0 to |ops|
      invariant Holding(shared, held) && fresh(held)
      invariant |run| == i && shared.ledger == Run(run, shared.maxMemory.value)
    {
      if !Askable(held, ops[i]) {
        AllDropped(shared, held);
        return held, i, run;
      }
      RunSnoc(run, Located(held, ops[i]), shared.maxMemory.value);
      run := run + [Located(held, ops[i])];
      held := Perform(shared, held, ops[i]);
    }
    AllDropped(shared, held);
    return held, |ops|, run;
  }

  lemma RunSnoc(ops: seq<Op>, op: Op, limit: nat)
    ensures Run(ops + [op], limit) == Apply(Run(ops, limit), limit, op)
  {
    assert (ops + [op])[..|ops|] == ops;
  }

  lemma AllDropped(shared: State, held: seq<Reservation>)
    requires Holding(shared, held)
    ensures held == [] ==> shared.memory == 0
  {
    ZeroTotal(shared.ledger.slots);
  }

  // --------------------------------------------------------------- accounted vectors

  /** The exact heap payload of values, before any saturation. */
  function Payload<T>(values: seq<T>, heap: T -> nat): nat {
    if values == [] then 0 else Payload(values[..|values| - 1], heap) + heap(values[|values| - 1])
  }

  lemma {:induction false} PayloadFront<T>(values: seq<T>, heap: T -> nat)
    requires values != []
    ensures Payload(values, heap) == heap(values[0]) + Payload(values[1..], heap)
  {
    var n := |values| - 1;
    if n > 0 {
      PayloadFront(values[..n], heap);
      assert values[..n][1..] == values[1..][..n - 1];
    } else {
      assert values[..0] == [];
      assert Payload(values[..0], heap) == 0;
    }
  }

  lemma PayloadSnoc<T>(values: seq<T>, value: T, heap: T -> nat)
    ensures Payload(values + [value], heap) == Payload(values, heap) + heap(value)
  {
    assert (values + [value])[..|values|] == values;
  }

  /** A vector's slots and payload, saturating like the counters it is reserved in. */
  function Needed(capacity: nat, size: nat, payload: nat): nat {
    Saturated(Saturated(capacity * size) + payload)
  }

  /** Saturating in two steps is saturating once. */
  lemma NeededMeans(capacity: nat, size: nat, payload: nat)
    ensures Needed(capacity, size, payload) == Saturated(capacity * size + payload)
  {
  }

  class BudgetVec<T> {
    const heap: T -> nat
    const size: nat
    const memory: Reservation
    var values: seq<T>
    var capacity: nat
    var payload: nat

    /** The recorded payload is the saturated one, and the reservation covers it. */
    ghost predicate Valid()
      reads this, memory, memory.Footprint()
    {
      && memory.Valid()
      && (memory.Active() ==> payload == Saturated(Payload(values, heap)) && payload <= memory.bytes <= MAX_U64 && |values| <= capacity)
    }

    constructor (memory: Reservation, heap: T -> nat, size: nat)
      requires memory.Valid() && memory.bytes == 0
      ensures Valid() && this.memory == memory && this.heap == heap && this.size == size && values == [] && capacity == 0 && payload == 0
    {
      this.heap, this.size, this.memory := heap, size, memory;
      values, capacity, payload := [], 0, 0;
    }

    function NextCapacity(): nat
      reads this
    {
      if |values| == capacity then (if 2 * capacity < 4 then 4 else 2 * capacity) else capacity
    }

    /** What a push reserves before growing. */
    function FirstTarget(value: T): nat
      reads this
    {
      Needed(NextCapacity(), size, Saturated(payload + heap(value)))
    }

    /** What it reserves for the capacity then allocated; None when the allocation fails. */
    function SecondTarget(value: T, granted: Option<nat>): Option<nat>
      reads this
    {
      if NextCapacity() == capacity then Some(FirstTarget(value))
      else if granted.None? then None
      else Some(Needed(granted.value, size, Saturated(payload + heap(value))))
    }

    /**
     Reserves before growing and again for the capacity actually allocated.  A refused push
     leaves the values alone; None stands for an allocation that fails.
     */
    method Push(value: T, granted: Option<nat>) returns (ok: bool)
      requires Valid() && heap(value) <= MAX_U64
      requires granted.Some? ==> granted.value >= NextCapacity()
      modifies this`values, this`capacity, this`payload, memory.Footprint()
      ensures Valid() && |values| <= old(|values|) + 1
      ensures values == if ok then old(values) + [value] else old(values)
      ensures memory.Active() && ok ==> memory.bytes == Needed(capacity, size, payload)
      ensures !memory.Active() ==> ok
      ensures memory.Active() && ok ==> payload == Saturated(old(payload) + heap(value))
      ensures capacity == old(capacity) || (granted.Some? && capacity == granted.value)
      ensures memory.Active() ==>
                && (ok <==> Granted(old(memory.state.ledger), memory.state.maxMemory.value, memory.slot, old(FirstTarget(value)), old(SecondTarget(value, granted))))
                && memory.state.ledger == Pushed(old(memory.state.ledger), memory.state.maxMemory.value, memory.slot, old(FirstTarget(value)), old(SecondTarget(value, granted)))
                && memory.state.ledger.slots == old(memory.state.ledger.slots)[memory.slot := memory.bytes]
    {
      hide Total;
      PayloadSnoc(values, value, heap);
      if memory.Active() {
        var target := NextCapacity();
        var more := Saturated(payload + heap(value));
        ok := memory.Resize(Needed(target, size, more));
        if !ok {
          return;
        }
        if target > capacity {
          if granted.None? {
            return false;
          }
          capacity := granted.value;
        }
        ok := memory.Resize(Needed(capacity, size, more));
        if !ok {
          return;
        }
        payload := more;
      }
      values := values + [value];
      ok := true;
    }
  }

  /** What is left to iterate over; each value's payload is given back as it is handed out. */
  class BudgetIntoIter<T> {
    const heap: T -> nat
    const memory: Reservation
    var values: seq<T>

    constructor (vec: BudgetVec<T>)
      requires vec.Valid()
      ensures heap == vec.heap && memory == vec.memory && values == vec.values && memory.Valid()
    {
      heap, memory, values := vec.heap, vec.memory, vec.values;
    }

    /** Hands out the next value; false when giving its payload back would underflow. */
    method Next() returns (ok: bool)
      requires memory.Valid() && values != []
      modifies this`values, memory.Footprint()
      ensures memory.Valid() && (ok <==> !memory.Active() || heap(old(values)[0]) <= old(memory.bytes))
      ensures ok ==> values == old(values)[1..] && memory.bytes == old(memory.bytes) - (if memory.Active() then heap(old(values)[0]) else 0)
      ensures !ok ==> values == old(values) && memory.bytes == old(memory.bytes)
      ensures memory.Active() ==>
                && memory.state.ledger == With(old(memory.state.ledger), memory.slot, memory.bytes)
    {
      if memory.Active() && heap(values[0]) > memory.bytes {
        WithSame(memory.state.ledger, memory.slot);
        return false;
      }
      if memory.Active() {
        memory.Release(heap(values[0]));
      }
      values := values[1..];
      return true;
    }

    /** Iterating to the end underflows exactly when the payload exceeds what is reserved. */
    method Drain() returns (ok: bool)
      requires memory.Valid()
      modifies this`values, memory.Footprint()
      ensures memory.Valid() && (ok <==> !memory.Active() || Payload(old(values), heap) <= old(memory.bytes))
      ensures ok ==> values == [] && (memory.Active() ==> memory.bytes == old(memory.bytes) - Payload(old(values), heap))
      ensures memory.Active() ==> memory.state.ledger == With(old(memory.state.ledger), memory.slot, memory.bytes)
    {
      ok := true;
      if memory.Active() {
        WithSame(memory.state.ledger, memory.slot);
      }
      hide Total;
      ghost var begun := if memory.Active() then memory.state.ledger else NEW_LEDGER;
      while values != []
        invariant memory.Valid() && memory.bytes <= old(memory.bytes)
        invariant memory.Active() ==> Payload(old(values), heap) - old(memory.bytes) == Payload(values, heap) - memory.bytes
        invariant memory.Active() ==> memory.state.ledger == With(old(memory.state.ledger), memory.slot, memory.bytes)
        decreases |values|
      {
        PayloadFront(values, heap);
        if memory.Active() {
          WithTwice(begun, memory.slot, memory.bytes, if heap(values[0]) <= memory.bytes then memory.bytes - heap(values[0]) else memory.bytes);
        }
        ok := Next();
        if !ok {
          return;
        }
      }
      return true;
    }
  }

  /**
   Draining a vector underflows exactly when its payload has saturated 64 bits, which a
   limit below the largest one never allows.
   */
  lemma DrainCondition(payload: nat, recorded: nat, bytes: nat, limit: nat)
    requires recorded == Saturated(payload) && recorded <= bytes <= limit <= MAX_U64
    ensures payload <= bytes <==> payload <= MAX_U64
    ensures limit < MAX_U64 ==> payload <= bytes
  {
  }

  /** Iterates a vector to its end; its reservation ends with the iteration. */
  method IterateVector<T>(vec: BudgetVec<T>) returns (ok: bool)
    requires vec.Valid()
    modifies vec.memory.Footprint()
    ensures ok <==> !vec.memory.Active() || Payload(vec.values, vec.heap) <= MAX_U64
    ensures vec.memory.Active() && vec.memory.state.maxMemory.value < MAX_U64 ==> ok
    ensures vec.memory.Active() && ok ==>
              && vec.memory.state.Valid() && vec.memory.state.ledger == Dropped(old(vec.memory.state.ledger), vec.memory.slot)
  {
    if vec.memory.state != null {
      TotalUpdate(vec.memory.state.ledger.slots, vec.memory.slot, 0);
      DrainCondition(Payload(vec.values, vec.heap), vec.payload, vec.memory.bytes, vec.memory.state.maxMemory.value);
    }
    hide Total;
    ghost var begun := if vec.memory.Active() then vec.memory.state.ledger else NEW_LEDGER;
    var rest := new BudgetIntoIter(vec);
    ok := rest.Drain();
    if ok {
      if vec.memory.Active() {
        WithTwice(begun, vec.memory.slot, vec.memory.bytes, 0);
      }
      rest.memory.Drop();
    }
  }

  lemma SingleSlot(limit: nat)
    ensures forall l: Ledger, bytes: nat :: |l.slots| == 1 ==> (Fits(l, limit, 0, bytes) <==> bytes <= limit)
  {
    forall l: Ledger, bytes: nat | |l.slots| == 1 ensures Fits(l, limit, 0, bytes) <==> bytes <= limit {
      assert l.slots[0 := bytes] == [] + [bytes];
      TotalSnoc([], bytes);
    }
  }

  function HalfTheCounter(value: int): nat {
    0x8000_0000_0000_0000
  }

  lemma TwoHalves(values: seq<int>)
    requires |values| == 2
    ensures Payload(values, HalfTheCounter) == 0x1_0000_0000_0000_0000
  {
    assert values[..1][..0] == [];
    assert Payload(values[..1], HalfTheCounter) == HalfTheCounter(values[0]);
  }

  /** Half of the counter's range fits twice: the payload saturates instead of growing past it. */
  method PushTwice(vec: BudgetVec<int>)
    requires vec.Valid() && vec.heap == HalfTheCounter && vec.size == 0 && vec.values == [] && vec.capacity == 0 && vec.payload == 0
    requires vec.memory.Active() && |vec.memory.state.ledger.slots| == 1 && vec.memory.state.maxMemory == Some(MAX_U64)
    modifies vec, vec.memory.Footprint()
    ensures vec.Valid() && |vec.values| == 2
  {
    hide Total;
    hide Payload;
    hide Fits;
    SingleSlot(MAX_U64);
    assert Needed(4, 0, 0x8000_0000_0000_0000) <= MAX_U64;
    var first := vec.Push(1, Some(4));
    var second := vec.Push(2, Some(4));
  }

  /**
   Two pushes whose payloads add up past 64 bits, under the largest limit, and the
   iteration that underflows.  The heap size is a parameter here: no two values in memory
   are so large, so a running program does not reach this.
   */
  method SaturateAndIterate() returns (ok: bool)
    ensures !ok
  {
    hide Total;
    hide Fits;
    hide Payload;
    var shared := new State(None, Some(MAX_U64));
    NothingTaken();
    var memory := Reserve(shared, 0);
    var vec := new BudgetVec<int>(memory.value, HalfTheCounter, 0);
    PushTwice(vec);
    TwoHalves(vec.values);
    ok := IterateVector(vec);
  }

  lemma NothingTaken()
    ensures Total(NEW_LEDGER.slots) == 0 && |Taken(NEW_LEDGER, MAX_U64, 0).slots| == 1
  {
  }
}
