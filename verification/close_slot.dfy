/** ensureCloseState (close.go): a handle gets its closeState when it is first closed, in
    a pointer slot guarded by one mutex for all handles. CloseOnce numbers the closeStates
    by their handles; this module shows that it may: all callers of one handle get one
    closeState, and no other handle gets it. */
module CloseSlot {
  import opened Common

  /** Where a goroutine stands in its call for a handle. Allocated closeStates are
      numbered. */
  datatype Pc =
    | Enter(handle: nat)
    | Checking(handle: nat)
    | Allocating(handle: nat)
    | Reading(handle: nat)
    | Unlocking(handle: nat, cell: nat)
    | Returned(handle: nat, cell: nat)

  datatype State = State(mutex: Option<nat>, slots: seq<Option<nat>>, cells: nat, threads: seq<Pc>)

  ghost predicate Initial(s: State) {
    && s.mutex == None && s.cells == 0
    && (forall h :: 0 <= h < |s.slots| ==> s.slots[h] == None)
    && (forall t :: 0 <= t < |s.threads| ==> s.threads[t].Enter? && s.threads[t].handle < |s.slots|)
  }

  function Move(s: State, t: nat, pc: Pc): State
    requires t < |s.threads|
  {
    s.(threads := s.threads[t := pc])
  }

  function Next(s: State, t: nat): Option<State>
    requires t < |s.threads| && s.threads[t].handle < |s.slots|
  {
    var h := s.threads[t].handle;
    match s.threads[t]
    case Enter(_) => if s.mutex.Some? then None else Some(Move(s, t, Checking(h)).(mutex := Some(t)))
    case Checking(_) => Some(Move(s, t, if s.slots[h].None? then Allocating(h) else Reading(h)))
    case Allocating(_) =>
      Some(Move(s, t, Reading(h)).(slots := s.slots[h := Some(s.cells)], cells := s.cells + 1))
    case Reading(_) => if s.slots[h].None? then None else Some(Move(s, t, Unlocking(h, s.slots[h].value)))
    case Unlocking(_, c) => Some(Move(s, t, Returned(h, c)).(mutex := None))
    case Returned(_, _) => None
  }

  ghost predicate Step(a: State, b: State) {
    exists t: nat :: t < |a.threads| && a.threads[t].handle < |a.slots| && Next(a, t) == Some(b)
  }

  ghost predicate IsRun(run: seq<State>) {
    && run != [] && Initial(run[0])
    && forall k :: 0 <= k < |run| - 1 ==> Step(run[k], run[k + 1])
  }

  predicate Inside(pc: Pc) {
    pc.Checking? || pc.Allocating? || pc.Reading? || pc.Unlocking?
  }

  /** What a goroutine in this place relies on. */
  predicate ThreadOk(s: State, t: nat, pc: Pc) {
    && pc.handle < |s.slots|
    && (Inside(pc) <==> s.mutex == Some(t))
    && (pc.Allocating? ==> s.slots[pc.handle] == None)
    && (pc.Reading? ==> s.slots[pc.handle].Some?)
    && (pc.Unlocking? || pc.Returned? ==> s.slots[pc.handle] == Some(pc.cell))
  }

  ghost predicate Inv(s: State) {
    && (forall t :: 0 <= t < |s.threads| ==> ThreadOk(s, t, s.threads[t]))
    && (s.mutex.Some? ==> s.mutex.value < |s.threads|)
    && (forall h :: 0 <= h < |s.slots| && s.slots[h].Some? ==> s.slots[h].value < s.cells)
    && (forall g, h :: 0 <= g < h < |s.slots| && s.slots[g].Some? ==> s.slots[g] != s.slots[h])
  }

  /** A slot that is filled stays as it is. */
  ghost predicate Later(a: State, b: State) {
    && |a.slots| == |b.slots| && |a.threads| == |b.threads|
    && (forall h :: 0 <= h < |a.slots| && a.slots[h].Some? ==> b.slots[h] == a.slots[h])
    && (forall t :: 0 <= t < |a.threads| ==> b.threads[t].handle == a.threads[t].handle)
  }

  lemma InvStep(a: State, t: nat)
    requires Inv(a) && t < |a.threads| && a.threads[t].handle < |a.slots| && Next(a, t).Some?
    ensures Inv(Next(a, t).value) && Later(a, Next(a, t).value)
  {
    var b := Next(a, t).value;
    assert ThreadOk(a, t, a.threads[t]);
    forall u | 0 <= u < |b.threads| ensures ThreadOk(b, u, b.threads[u]) {
      assert ThreadOk(a, u, a.threads[u]);
    }
  }

  lemma {:induction false} RunKeepsInv(run: seq<State>, i: nat, j: nat)
    requires IsRun(run) && i <= j < |run|
    ensures Inv(run[i]) && Inv(run[j]) && Later(run[i], run[j])
    decreases j
  {
    hide Next;
    if i < j {
      RunKeepsInv(run, i, j - 1);
    } else if 0 < j {
      RunKeepsInv(run, i - 1, j - 1);
    }
    if 0 < j {
      assert Step(run[j - 1], run[j - 1 + 1]);
      var t: nat :| t < |run[j - 1].threads| && run[j - 1].threads[t].handle < |run[j - 1].slots|
          && Next(run[j - 1], t) == Some(run[j]);
      InvStep(run[j - 1], t);
    }
  }

  /** Over any interleaving, two calls return the same closeState exactly when they are
      calls for the same handle. */
  lemma OneCellEach(run: seq<State>, i: nat, j: nat, t: nat, u: nat)
    requires IsRun(run) && i <= j < |run| && t < |run[i].threads| && u < |run[j].threads|
    requires run[i].threads[t].Returned? && run[j].threads[u].Returned?
    ensures run[i].threads[t].cell == run[j].threads[u].cell <==> run[i].threads[t].handle == run[j].threads[u].handle
  {
    RunKeepsInv(run, i, j);
    assert ThreadOk(run[i], t, run[i].threads[t]) && ThreadOk(run[j], u, run[j].threads[u]);
  }

  /** While a call has not returned, some goroutine has a step: the one that holds the
      mutex, or else any other. */
  lemma Progress(run: seq<State>, i: nat, t: nat)
    requires IsRun(run) && i < |run| && t < |run[i].threads| && !run[i].threads[t].Returned?
    ensures exists u: nat :: u < |run[i].threads| && run[i].threads[u].handle < |run[i].slots| && Next(run[i], u).Some?
  {
    RunKeepsInv(run, i, i);
    var s := run[i];
    var u := if s.mutex.Some? then s.mutex.value else t;
    assert ThreadOk(s, u, s.threads[u]) && ThreadOk(s, t, s.threads[t]);
    assert Next(s, u).Some?;
  }

  // ------------------------------------------------------------------------
  // The same code, one call at a time
  // ------------------------------------------------------------------------

  class CloseState {
    constructor () {
    }
  }

  class Handle {
    var slot: CloseState?

    /** ensureCloseState. */
    method EnsureCloseState() returns (state: CloseState)
      modifies this`slot
      ensures slot == state
      ensures if old(slot) != null then state == old(slot) else fresh(state)
    {
      if slot == null {
        slot := new CloseState();
      }
      return slot;
    }
  }
}
