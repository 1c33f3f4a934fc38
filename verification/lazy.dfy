/** The lazy start / close protocol of lazyRuntimeState (lazy.go): two sync.Once cells
    shared by any number of goroutines that call get or close.

    The protocol is a transition system over its atomic steps. LazyRuntimeState is the
    same code run by one goroutine at a time; LoneGet and LoneClose tie the two. */
module Lazy {
  import opened Common

  datatype RuntimeRef = Nil | TypedNil | Live(id: int)

  datatype Failure = MissingRuntime | Failure(code: int)

  /** How a start function can end: any runtime value with any error, or a panic. */
  datatype StartOutcome = Returned(runtime: RuntimeRef, err: Option<Failure>) | Panicked(value: int)

  datatype GetResult = Value(runtime: RuntimeRef, err: Option<Failure>) | Repanic(value: int)

  /** sync.Once: callers that find it running block until it is done. */
  datatype Once = Idle | Running(runner: nat) | Done

  /** The fields of lazyRuntimeState, and how often start and runtime.Close ran. */
  datatype Cell = Cell(
    once: Once,
    runtime: RuntimeRef,
    err: Option<Failure>,
    panicked: bool,
    panicValue: int,
    closeOnce: Once,
    closeErr: Option<Failure>,
    starts: nat,
    closes: nat)

  const FRESH := Cell(Idle, Nil, None, false, 0, Idle, None, 0, 0)

  /** Where a goroutine stands in its call of get or close. */
  datatype Pc =
    | GetEnter
    | Starting
    | StartReturned
    | GetRead
    | GetReturned(result: GetResult)
    | CloseEnter
    | NoopDoing
    | CloseSecond
    | CloseBody
    | ClosingRuntime
    | CloseBodyDone
    | CloseRead
    | CloseReturned(closeResult: Option<Failure>)

  datatype State = State(cell: Cell, threads: seq<Pc>)

  /** What the outside world decides: how start ends, what runtime.Close returns. */
  datatype Choice = Choice(outcome: StartOutcome, closeErr: Option<Failure>)

  predicate IsLive(cell: Cell) {
    cell.runtime.Live?
  }

  /** The part of get after its once.Do. */
  function ResultOf(cell: Cell): GetResult {
    if cell.panicked then Repanic(cell.panicValue)
    else if !IsLive(cell) && cell.err.None? then Value(Nil, Some(MissingRuntime))
    else if !IsLive(cell) then Value(Nil, cell.err)
    else Value(cell.runtime, cell.err)
  }

  /** start has ended this way. */
  function Record(cell: Cell, outcome: StartOutcome): Cell {
    match outcome
    case Returned(r, e) => cell.(runtime := r, err := e)
    case Panicked(v) => cell.(panicked := true, panicValue := v)
  }

  /** One atomic step of thread t, if it has one. */
  function Next(s: State, t: nat, c: Choice): Option<State>
    requires t < |s.threads|
  {
    var cell := s.cell;
    match s.threads[t]
    case GetEnter =>
      (match cell.once
       case Idle => Some(State(cell.(once := Running(t), starts := cell.starts + 1), s.threads[t := Starting]))
       case Running(_) => None
       case Done => Some(s.(threads := s.threads[t := GetRead])))
    case Starting => Some(State(Record(cell, c.outcome), s.threads[t := StartReturned]))
    case StartReturned =>
      Some(State(cell.(once := Done),
                 s.threads[t := if cell.panicked then GetReturned(Repanic(cell.panicValue)) else GetRead]))
    case GetRead => Some(s.(threads := s.threads[t := GetReturned(ResultOf(cell))]))
    case CloseEnter =>
      (match cell.once
       case Idle => Some(State(cell.(once := Running(t)), s.threads[t := NoopDoing]))
       case Running(_) => None
       case Done => Some(s.(threads := s.threads[t := CloseSecond])))
    case NoopDoing => Some(State(cell.(once := Done), s.threads[t := CloseSecond]))
    case CloseSecond =>
      (match cell.closeOnce
       case Idle => Some(State(cell.(closeOnce := Running(t)), s.threads[t := CloseBody]))
       case Running(_) => None
       case Done => Some(s.(threads := s.threads[t := CloseRead])))
    case CloseBody =>
      if IsLive(cell) then Some(State(cell.(closes := cell.closes + 1), s.threads[t := ClosingRuntime]))
      else Some(s.(threads := s.threads[t := CloseBodyDone]))
    case ClosingRuntime => Some(State(cell.(closeErr := c.closeErr), s.threads[t := CloseBodyDone]))
    case CloseBodyDone => Some(State(cell.(closeOnce := Done), s.threads[t := CloseRead]))
    case CloseRead => Some(s.(threads := s.threads[t := CloseReturned(cell.closeErr)]))
    case GetReturned(_) => None
    case CloseReturned(_) => None
  }

  predicate Finished(pc: Pc) {
    pc.GetReturned? || pc.CloseReturned?
  }

  predicate Initial(s: State) {
    s.cell == FRESH && forall t :: 0 <= t < |s.threads| ==> s.threads[t].GetEnter? || s.threads[t].CloseEnter?
  }

  ghost predicate Step(a: State, b: State) {
    exists t: nat, c: Choice :: t < |a.threads| && Next(a, t, c) == Some(b)
  }

  /** A run: any interleaving, of any length, with any outcomes. */
  ghost predicate IsRun(run: seq<State>) {
    && run != [] && Initial(run[0])
    && forall i :: 0 <= i < |run| - 1 ==> Step(run[i], run[i + 1])
  }

  // ------------------------------------------------------------------------
  // The invariant
  // ------------------------------------------------------------------------

  predicate Unset(cell: Cell) {
    cell.runtime == Nil && cell.err == None && !cell.panicked
  }

  predicate ThreadOk(cell: Cell, t: nat, pc: Pc) {
    match pc
    case GetEnter => true
    case Starting => cell.once == Running(t) && cell.starts == 1 && Unset(cell)
    case StartReturned => cell.once == Running(t) && cell.starts == 1
    case GetRead => cell.once == Done
    case GetReturned(r) => cell.once == Done && r == ResultOf(cell)
    case CloseEnter => true
    case NoopDoing => cell.once == Running(t) && cell.starts == 0
    case CloseSecond => cell.once == Done
    case CloseBody => cell.once == Done && cell.closeOnce == Running(t) && cell.closes == 0
    case ClosingRuntime => cell.once == Done && cell.closeOnce == Running(t) && cell.closes == 1 && IsLive(cell)
    case CloseBodyDone =>
      cell.once == Done && cell.closeOnce == Running(t) && cell.closes == if IsLive(cell) then 1 else 0
    case CloseRead => cell.once == Done && cell.closeOnce == Done
    case CloseReturned(e) => cell.once == Done && cell.closeOnce == Done && e == cell.closeErr
  }

  predicate RunsOnce(pc: Pc) {
    pc.Starting? || pc.StartReturned? || pc.NoopDoing?
  }

  predicate RunsCloseOnce(pc: Pc) {
    pc.CloseBody? || pc.ClosingRuntime? || pc.CloseBodyDone?
  }

  predicate CellOk(s: State) {
    var cell := s.cell;
    && cell.starts <= 1
    && (cell.starts == 0 ==> Unset(cell))
    && (cell.once == Idle ==> cell.starts == 0)
    && (cell.once.Running? ==> cell.once.runner < |s.threads| && RunsOnce(s.threads[cell.once.runner]))
    && (cell.once != Done ==> cell.closeOnce == Idle)
    && (cell.closeOnce == Idle ==> cell.closes == 0)
    && (cell.closeOnce.Running? ==>
        cell.closeOnce.runner < |s.threads| && RunsCloseOnce(s.threads[cell.closeOnce.runner]))
    && (cell.closeOnce == Done ==> cell.closes == if IsLive(cell) then 1 else 0)
  }

  predicate Inv(s: State) {
    CellOk(s) && forall t :: 0 <= t < |s.threads| ==> ThreadOk(s.cell, t, s.threads[t])
  }

  /** The start outcome never changes once the first once is done. */
  predicate SameOutcome(a: Cell, b: Cell) {
    && a.starts == b.starts && a.runtime == b.runtime && a.err == b.err
    && a.panicked == b.panicked && a.panicValue == b.panicValue
  }

  lemma InvStep(a: State, t: nat, c: Choice)
    requires Inv(a) && t < |a.threads| && Next(a, t, c).Some?
    ensures Inv(Next(a, t, c).value)
  {
    var b := Next(a, t, c).value;
    assert ThreadOk(a.cell, t, a.threads[t]);
    forall u | 0 <= u < |b.threads| ensures ThreadOk(b.cell, u, b.threads[u]) {
      assert ThreadOk(a.cell, u, a.threads[u]);
    }
  }

  predicate Later(a: State, b: State) {
    && |a.threads| == |b.threads|
    && (a.cell.once == Done ==> b.cell.once == Done && SameOutcome(a.cell, b.cell))
    && (a.cell.closeOnce == Done ==>
          b.cell.closeOnce == Done && b.cell.closes == a.cell.closes && b.cell.closeErr == a.cell.closeErr)
  }

  lemma LaterReflexive(a: State)
    ensures Later(a, a)
  {
  }

  lemma LaterTransitive(a: State, b: State, c: State)
    requires Later(a, b) && Later(b, c)
    ensures Later(a, c)
  {
  }

  /** Nothing reopens a finished once, and then the outcome stays. */
  lemma StepKeepsOutcome(a: State, t: nat, c: Choice)
    requires Inv(a) && t < |a.threads| && Next(a, t, c).Some?
    ensures var b := Next(a, t, c).value;
      && Later(a, b)
      && !Finished(a.threads[t])
      && forall u :: 0 <= u < |a.threads| && Finished(a.threads[u]) ==> b.threads[u] == a.threads[u]
  {
    assert ThreadOk(a.cell, t, a.threads[t]);
  }

  lemma {:induction false} RunKeepsInv(run: seq<State>, i: nat)
    requires IsRun(run) && i < |run|
    ensures Inv(run[i])
    decreases i
  {
    if i == 0 {
    } else {
      RunKeepsInv(run, i - 1);
      assert Step(run[i - 1], run[i - 1 + 1]);
      var t: nat, c: Choice :| t < |run[i - 1].threads| && Next(run[i - 1], t, c) == Some(run[i]);
      InvStep(run[i - 1], t, c);
    }
  }

  lemma {:induction false} RunKeepsOutcome(run: seq<State>, i: nat, j: nat)
    requires IsRun(run) && i <= j < |run|
    ensures Later(run[i], run[j])
    decreases j
  {
    hide Inv, Next, Later;
    if i == j {
      LaterReflexive(run[i]);
    } else {
      RunKeepsOutcome(run, i, j - 1);
      RunKeepsInv(run, j - 1);
      assert Step(run[j - 1], run[j - 1 + 1]);
      var t: nat, c: Choice :| t < |run[j - 1].threads| && Next(run[j - 1], t, c) == Some(run[j]);
      StepKeepsOutcome(run[j - 1], t, c);
      LaterTransitive(run[i], run[j - 1], run[j]);
    }
  }

  // ------------------------------------------------------------------------
  // Safety
  // ------------------------------------------------------------------------

  /** In every state of every run: start has run at most once, the runtime has been
      closed at most once and only after start was over, no get has handed out a
      typed nil, and all gets that returned agree. */
  lemma LazySafety(run: seq<State>, i: nat)
    requires IsRun(run) && i < |run|
    ensures var s := run[i];
      && s.cell.starts <= 1 && s.cell.closes <= 1
      && (s.cell.closes > 0 ==> s.cell.once == Done && IsLive(s.cell))
      && forall t :: 0 <= t < |s.threads| && s.threads[t].GetReturned? ==>
           && s.threads[t].result == ResultOf(s.cell)
           && !(s.threads[t].result.Value? && s.threads[t].result.runtime == TypedNil)
  {
    RunKeepsInv(run, i);
    var s := run[i];
    assert s.cell.closeOnce.Running? ==> ThreadOk(s.cell, s.cell.closeOnce.runner, s.threads[s.cell.closeOnce.runner]);
    forall t | 0 <= t < |s.threads| && s.threads[t].GetReturned?
      ensures s.threads[t].result == ResultOf(s.cell)
      ensures !(s.threads[t].result.Value? && s.threads[t].result.runtime == TypedNil)
    {
      assert ThreadOk(s.cell, t, s.threads[t]);
    }
  }

  /** Two gets that return, at whatever points of a run, return the same value and
      error, or repanic with the same value. */
  lemma GetsAgree(run: seq<State>, i: nat, j: nat, t: nat, u: nat)
    requires IsRun(run) && i <= j < |run|
    requires t < |run[i].threads| && run[i].threads[t].GetReturned?
    requires u < |run[j].threads| && run[j].threads[u].GetReturned?
    ensures run[i].threads[t].result == run[j].threads[u].result
  {
    RunKeepsInv(run, i);
    RunKeepsInv(run, j);
    RunKeepsOutcome(run, i, j);
    assert ThreadOk(run[i].cell, t, run[i].threads[t]);
    assert ThreadOk(run[j].cell, u, run[j].threads[u]);
  }

  /** Every close returns the result of the first one. */
  lemma ClosesAgree(run: seq<State>, i: nat, j: nat, t: nat, u: nat)
    requires IsRun(run) && i <= j < |run|
    requires t < |run[i].threads| && run[i].threads[t].CloseReturned?
    requires u < |run[j].threads| && run[j].threads[u].CloseReturned?
    ensures run[i].threads[t].closeResult == run[j].threads[u].closeResult
  {
    RunKeepsInv(run, i);
    RunKeepsInv(run, j);
    RunKeepsOutcome(run, i, j);
    assert ThreadOk(run[i].cell, t, run[i].threads[t]);
    assert ThreadOk(run[j].cell, u, run[j].threads[u]);
  }

  // ------------------------------------------------------------------------
  // Where results come from
  // ------------------------------------------------------------------------

  /** What a get owes its caller after start has ended in this way: a panic again; a live
      runtime as it is, with its error; without one, the error of start, or the missing
      runtime if there is none. */
  predicate Delivers(outcome: StartOutcome, r: GetResult) {
    match outcome
    case Panicked(v) => r == Repanic(v)
    case Returned(Live(id), e) => r == Value(Live(id), e)
    case Returned(_, Some(e)) => r == Value(Nil, Some(e))
    case Returned(_, None) => r == Value(Nil, Some(MissingRuntime))
  }

  /** The fields hold how start ended. */
  predicate Holds(cell: Cell, outcome: StartOutcome) {
    match outcome
    case Panicked(v) => cell.panicked && cell.panicValue == v
    case Returned(r, e) => !cell.panicked && cell.runtime == r && cell.err == e
  }

  lemma HoldsDelivers(cell: Cell, outcome: StartOutcome)
    requires Holds(cell, outcome)
    ensures Delivers(outcome, ResultOf(cell))
  {
  }

  /** Thread t ends start in this way between states k and k + 1. */
  ghost predicate StartEnds(run: seq<State>, k: nat, t: nat, outcome: StartOutcome) {
    && k < |run| - 1 && t < |run[k].threads| && run[k].threads[t].Starting?
    && exists c: Choice :: c.outcome == outcome && Next(run[k], t, c) == Some(run[k + 1])
  }

  /** start has ended, and nothing overwrites how. */
  predicate Settled(s: State, outcome: StartOutcome) {
    && s.cell.starts == 1 && Holds(s.cell, outcome)
    && forall u :: 0 <= u < |s.threads| ==> !s.threads[u].Starting?
  }

  lemma StartSettles(run: seq<State>, k: nat, t: nat, outcome: StartOutcome)
    requires IsRun(run) && StartEnds(run, k, t, outcome)
    ensures Settled(run[k + 1], outcome)
  {
    RunKeepsInv(run, k);
    var s := run[k];
    assert ThreadOk(s.cell, t, s.threads[t]);
    forall u | 0 <= u < |s.threads| && u != t ensures !s.threads[u].Starting? {
      assert ThreadOk(s.cell, u, s.threads[u]);
    }
  }

  lemma SettledStep(a: State, t: nat, c: Choice, outcome: StartOutcome)
    requires Inv(a) && t < |a.threads| && Next(a, t, c).Some? && Settled(a, outcome)
    ensures Settled(Next(a, t, c).value, outcome)
  {
    assert ThreadOk(a.cell, t, a.threads[t]);
  }

  lemma {:induction false} StaysSettled(run: seq<State>, k: nat, j: nat, outcome: StartOutcome)
    requires IsRun(run) && k <= j < |run| && Settled(run[k], outcome)
    ensures Settled(run[j], outcome)
    decreases j
  {
    hide Inv, Next, Settled;
    if k == j {
    } else {
      StaysSettled(run, k, j - 1, outcome);
      RunKeepsInv(run, j - 1);
      assert Step(run[j - 1], run[j - 1 + 1]);
      var t: nat, c: Choice :| t < |run[j - 1].threads| && Next(run[j - 1], t, c) == Some(run[j]);
      SettledStep(run[j - 1], t, c, outcome);
    }
  }

  /** Once start has ended, every get that returns hands out how it ended. */
  lemma GetsDeliver(run: seq<State>, k: nat, t: nat, outcome: StartOutcome, j: nat, u: nat)
    requires IsRun(run) && StartEnds(run, k, t, outcome) && k < j < |run|
    requires u < |run[j].threads| && run[j].threads[u].GetReturned?
    ensures Delivers(outcome, run[j].threads[u].result)
  {
    StartSettles(run, k, t, outcome);
    StaysSettled(run, k + 1, j, outcome);
    RunKeepsInv(run, j);
    assert ThreadOk(run[j].cell, u, run[j].threads[u]);
    HoldsDelivers(run[j].cell, outcome);
  }

  /** Some close has taken the first once before state j. */
  ghost predicate ClosedFirst(run: seq<State>, j: nat) {
    exists k, u :: 0 <= k <= j < |run| && 0 <= u < |run[k].threads| && run[k].threads[u].NoopDoing?
  }

  ghost predicate Started(run: seq<State>, j: nat) {
    exists k: nat, t: nat, outcome: StartOutcome :: k < j < |run| && StartEnds(run, k, t, outcome)
  }

  /** What has happened by state j to the first once. */
  ghost predicate OnceExplained(run: seq<State>, j: nat)
    requires j < |run|
  {
    var s := run[j];
    && (s.cell.once == Done ==> Started(run, j) || ClosedFirst(run, j))
    && (s.cell.once.Running? ==>
          && s.cell.once.runner < |s.threads|
          && match s.threads[s.cell.once.runner]
             case Starting => true
             case StartReturned => Started(run, j)
             case NoopDoing => ClosedFirst(run, j)
             case _ => false)
  }

  lemma OnceStep(run: seq<State>, j: nat, t: nat, c: Choice)
    requires 0 < j < |run| && OnceExplained(run, j - 1) && Inv(run[j - 1])
    requires t < |run[j - 1].threads| && Next(run[j - 1], t, c) == Some(run[j])
    ensures OnceExplained(run, j)
  {
    var a, b := run[j - 1], run[j];
    InvStep(a, t, c);
    assert Started(run, j - 1) ==> Started(run, j);
    assert ClosedFirst(run, j - 1) ==> ClosedFirst(run, j);
    assert a.threads[t].Starting? ==> StartEnds(run, j - 1, t, c.outcome);
    assert b.threads[t].NoopDoing? ==> ClosedFirst(run, j);
    hide Started, ClosedFirst, StartEnds, ResultOf, Unset, Record;
    assert ThreadOk(a.cell, t, a.threads[t]);
    assert b.cell.once.Running? ==> ThreadOk(b.cell, b.cell.once.runner, b.threads[b.cell.once.runner]);
  }

  lemma {:induction false} OnceIsExplained(run: seq<State>, j: nat)
    requires IsRun(run) && j < |run|
    ensures OnceExplained(run, j)
    decreases j
  {
    if j == 0 {
    } else {
      OnceIsExplained(run, j - 1);
      RunKeepsInv(run, j - 1);
      hide Inv, Next, OnceExplained;
      assert Step(run[j - 1], run[j - 1 + 1]);
      var t: nat, c: Choice :| t < |run[j - 1].threads| && Next(run[j - 1], t, c) == Some(run[j]);
      OnceStep(run, j, t, c);
    }
  }

  /** No get returns out of nothing: start has ended before, or a close was there first. */
  lemma GetsHaveACause(run: seq<State>, j: nat, u: nat)
    requires IsRun(run) && j < |run|
    requires u < |run[j].threads| && run[j].threads[u].GetReturned?
    ensures Started(run, j) || ClosedFirst(run, j)
  {
    OnceIsExplained(run, j);
    RunKeepsInv(run, j);
    assert ThreadOk(run[j].cell, u, run[j].threads[u]);
  }

  /** Thread t closes the runtime between states k and k + 1, with this result. */
  ghost predicate CloseEnds(run: seq<State>, k: nat, t: nat, e: Option<Failure>) {
    && k < |run| - 1 && t < |run[k].threads| && run[k].threads[t].ClosingRuntime?
    && exists c: Choice :: c.closeErr == e && Next(run[k], t, c) == Some(run[k + 1])
  }

  ghost predicate ClosedWith(run: seq<State>, j: nat, e: Option<Failure>) {
    exists k: nat, t: nat :: k < j < |run| && CloseEnds(run, k, t, e)
  }

  /** What the recorded error of close is, by state j. */
  ghost predicate CloseExplained(run: seq<State>, j: nat)
    requires j < |run|
  {
    var cell := run[j].cell;
    && (!IsLive(cell) || cell.closeOnce == Idle ==> cell.closeErr == None)
    && (IsLive(cell) && cell.closeOnce == Done ==> ClosedWith(run, j, cell.closeErr))
    && (IsLive(cell) && cell.closeOnce.Running? && cell.closeOnce.runner < |run[j].threads| ==>
          run[j].threads[cell.closeOnce.runner].CloseBodyDone? ==> ClosedWith(run, j, cell.closeErr))
  }

  lemma CloseStep(run: seq<State>, j: nat, t: nat, c: Choice)
    requires 0 < j < |run| && CloseExplained(run, j - 1) && Inv(run[j - 1])
    requires t < |run[j - 1].threads| && Next(run[j - 1], t, c) == Some(run[j])
    ensures CloseExplained(run, j)
  {
    var a, b := run[j - 1], run[j];
    InvStep(a, t, c);
    assert forall e :: ClosedWith(run, j - 1, e) ==> ClosedWith(run, j, e);
    assert a.threads[t].ClosingRuntime? ==> CloseEnds(run, j - 1, t, c.closeErr);
    assert a.threads[t].ClosingRuntime? ==> ClosedWith(run, j, c.closeErr);
    hide ClosedWith, CloseEnds, ResultOf;
    assert ThreadOk(a.cell, t, a.threads[t]);
    assert b.cell.closeOnce.Running? ==>
        ThreadOk(b.cell, b.cell.closeOnce.runner, b.threads[b.cell.closeOnce.runner]);
  }

  lemma {:induction false} CloseIsExplained(run: seq<State>, j: nat)
    requires IsRun(run) && j < |run|
    ensures CloseExplained(run, j)
    decreases j
  {
    if j == 0 {
    } else {
      CloseIsExplained(run, j - 1);
      RunKeepsInv(run, j - 1);
      hide Inv, Next, CloseExplained;
      assert Step(run[j - 1], run[j - 1 + 1]);
      var t: nat, c: Choice :| t < |run[j - 1].threads| && Next(run[j - 1], t, c) == Some(run[j]);
      CloseStep(run, j, t, c);
    }
  }

  /** Every close returns what closing the live runtime returned, or nil without one. */
  lemma ClosesDeliver(run: seq<State>, j: nat, u: nat)
    requires IsRun(run) && j < |run|
    requires u < |run[j].threads| && run[j].threads[u].CloseReturned?
    ensures if IsLive(run[j].cell) then ClosedWith(run, j, run[j].threads[u].closeResult)
            else run[j].threads[u].closeResult == None
  {
    CloseIsExplained(run, j);
    RunKeepsInv(run, j);
    assert ThreadOk(run[j].cell, u, run[j].threads[u]);
  }

  // ------------------------------------------------------------------------
  // Leak freedom
  // ------------------------------------------------------------------------

  /** Once any close has returned: whatever was started has been closed, and for the
      rest of the run nothing starts and nothing is closed again. */
  lemma NoLeakAfterClose(run: seq<State>, i: nat, j: nat, t: nat)
    requires IsRun(run) && i <= j < |run|
    requires t < |run[i].threads| && run[i].threads[t].CloseReturned?
    ensures IsLive(run[j].cell) ==> run[j].cell.closes == 1
    ensures !IsLive(run[j].cell) ==> run[j].cell.closes == 0
    ensures run[j].cell.starts == run[i].cell.starts
    ensures forall u :: 0 <= u < |run[j].threads| ==> !RunsOnce(run[j].threads[u]) && !RunsCloseOnce(run[j].threads[u])
  {
    RunKeepsInv(run, i);
    RunKeepsInv(run, j);
    RunKeepsOutcome(run, i, j);
    assert ThreadOk(run[i].cell, t, run[i].threads[t]);
    forall u | 0 <= u < |run[j].threads|
      ensures !RunsOnce(run[j].threads[u]) && !RunsCloseOnce(run[j].threads[u])
    {
      assert ThreadOk(run[j].cell, u, run[j].threads[u]);
    }
  }

  lemma NoopTookOnce(s: State, t: nat)
    requires Inv(s) && t < |s.threads| && s.threads[t].NoopDoing?
    ensures s.cell.starts == 0 && s.cell.once != Idle
  {
  }

  /** No start begins once the Once is taken. */
  lemma BusyStep(a: State, t: nat, c: Choice)
    requires Inv(a) && t < |a.threads| && Next(a, t, c).Some? && a.cell.once != Idle
    ensures Next(a, t, c).value.cell.starts == a.cell.starts && Next(a, t, c).value.cell.once != Idle
  {
  }

  lemma {:induction false} NoopKeepsStarts(run: seq<State>, i: nat, j: nat, t: nat)
    requires IsRun(run) && i <= j < |run|
    requires t < |run[i].threads| && run[i].threads[t].NoopDoing?
    ensures run[j].cell.starts == 0 && run[j].cell.once != Idle
    decreases j
  {
    hide Inv, ThreadOk, Next;
    RunKeepsInv(run, i);
    NoopTookOnce(run[i], t);
    if i == j {
    } else {
      NoopKeepsStarts(run, i, j - 1, t);
      RunKeepsInv(run, j - 1);
      var a := run[j - 1];
      assert Step(a, run[j - 1 + 1]);
      var u: nat, c: Choice :| u < |a.threads| && Next(a, u, c) == Some(run[j]);
      BusyStep(a, u, c);
    }
  }

  /** If a close got to the first once before any get, start never runs, every get
      reports the missing runtime, and no runtime is ever closed. */
  lemma CloseWins(run: seq<State>, i: nat, j: nat, t: nat)
    requires IsRun(run) && i <= j < |run|
    requires t < |run[i].threads| && run[i].threads[t].NoopDoing?
    ensures run[j].cell.starts == 0 && run[j].cell.closes == 0
    ensures forall u :: 0 <= u < |run[j].threads| && run[j].threads[u].GetReturned? ==>
      run[j].threads[u].result == Value(Nil, Some(MissingRuntime))
  {
    NoopKeepsStarts(run, i, j, t);
    LazySafety(run, j);
    RunKeepsInv(run, j);
  }

  // ------------------------------------------------------------------------
  // Progress
  // ------------------------------------------------------------------------

  predicate Enabled(s: State, t: nat)
    requires t < |s.threads|
  {
    match s.threads[t]
    case GetEnter => !s.cell.once.Running?
    case CloseEnter => !s.cell.once.Running?
    case CloseSecond => !s.cell.closeOnce.Running?
    case GetReturned(_) => false
    case CloseReturned(_) => false
    case _ => true
  }

  /** The thread has a step, whatever the outside world chooses. */
  ghost predicate CanStep(s: State, t: nat)
    requires t < |s.threads|
  {
    forall c: Choice :: Next(s, t, c).Some?
  }

  lemma EnabledMeansStep(s: State, t: nat, c: Choice)
    requires t < |s.threads|
    ensures Enabled(s, t) <==> Next(s, t, c).Some?
  {
  }

  /** No reachable state is stuck: while some call has not returned, some thread has a
      step, whatever the outside world chooses. */
  lemma Progress(run: seq<State>, i: nat, t: nat)
    requires IsRun(run) && i < |run|
    requires t < |run[i].threads| && !Finished(run[i].threads[t])
    ensures exists u: nat :: u < |run[i].threads| && CanStep(run[i], u)
  {
    RunKeepsInv(run, i);
    var s := run[i];
    var u := if s.cell.once.Running? then s.cell.once.runner
             else if s.cell.closeOnce.Running? then s.cell.closeOnce.runner
             else t;
    assert Enabled(s, u);
    forall c: Choice ensures Next(s, u, c).Some? {
      EnabledMeansStep(s, u, c);
    }
    assert CanStep(s, u);
  }

  /** Steps a call can still take. */
  function Rank(pc: Pc): nat {
    match pc
    case GetEnter => 4
    case Starting => 3
    case StartReturned => 2
    case GetRead => 1
    case GetReturned(_) => 0
    case CloseEnter => 7
    case NoopDoing => 6
    case CloseSecond => 5
    case CloseBody => 4
    case ClosingRuntime => 3
    case CloseBodyDone => 2
    case CloseRead => 1
    case CloseReturned(_) => 0
  }

  function Total(threads: seq<Pc>): nat {
    if threads == [] then 0 else Rank(threads[0]) + Total(threads[1..])
  }

  lemma {:induction false} TotalUpdate(threads: seq<Pc>, t: nat, pc: Pc)
    requires t < |threads|
    ensures Total(threads[t := pc]) + Rank(threads[t]) == Total(threads) + Rank(pc)
    decreases |threads|
  {
    if t == 0 {
      assert threads[t := pc][1..] == threads[1..];
    } else {
      assert threads[t := pc][1..] == threads[1..][t - 1 := pc];
      TotalUpdate(threads[1..], t - 1, pc);
    }
  }

  lemma {:induction false} TotalBound(threads: seq<Pc>)
    ensures Total(threads) <= 7 * |threads|
    decreases |threads|
  {
    if threads == [] {
    } else {
      TotalBound(threads[1..]);
    }
  }

  lemma StepLowersTotal(a: State, t: nat, c: Choice)
    requires t < |a.threads| && Next(a, t, c).Some?
    ensures Total(Next(a, t, c).value.threads) < Total(a.threads)
  {
    var b := Next(a, t, c).value;
    assert b.threads == a.threads[t := b.threads[t]];
    TotalUpdate(a.threads, t, b.threads[t]);
  }

  /** Runs are short: n calls take at most 7n steps, whatever the schedule. With
      Progress, every maximal run ends with all calls returned. */
  lemma {:induction false} RunLength(run: seq<State>, i: nat)
    requires IsRun(run) && i < |run|
    ensures i + Total(run[i].threads) <= 7 * |run[0].threads|
    decreases i
  {
    if i == 0 {
      TotalBound(run[0].threads);
    } else {
      RunLength(run, i - 1);
      var a := run[i - 1];
      assert Step(a, run[i - 1 + 1]);
      var t: nat, c: Choice :| t < |a.threads| && Next(a, t, c) == Some(run[i]);
      StepLowersTotal(a, t, c);
      hide Total;
    }
  }

  // ------------------------------------------------------------------------
  // The same code, one call at a time
  // ------------------------------------------------------------------------

  function GetCall(cell: Cell, outcome: StartOutcome): Cell {
    if cell.once == Done then cell else Record(cell.(once := Done, starts := cell.starts + 1), outcome)
  }

  function CloseCall(cell: Cell, closeErr: Option<Failure>): Cell {
    if cell.closeOnce == Done then cell.(once := Done)
    else if IsLive(cell) then cell.(once := Done, closeOnce := Done, closes := cell.closes + 1, closeErr := closeErr)
    else cell.(once := Done, closeOnce := Done)
  }

  class LazyRuntimeState {
    var onceDone: bool
    var runtime: RuntimeRef
    var err: Option<Failure>
    var panicked: bool
    var panicValue: int
    var closeOnceDone: bool
    var closeErr: Option<Failure>
    ghost var starts: nat
    ghost var closes: nat

    ghost function View(): Cell
      reads this
    {
      Cell(if onceDone then Done else Idle, runtime, err, panicked, panicValue,
           if closeOnceDone then Done else Idle, closeErr, starts, closes)
    }

    constructor ()
      ensures View() == FRESH
    {
      onceDone, runtime, err, panicked, panicValue := false, Nil, None, false, 0;
      closeOnceDone, closeErr, starts, closes := false, None, 0, 0;
    }

    /** get, with the way start ends as a parameter. */
    method Get(outcome: StartOutcome) returns (r: GetResult)
      modifies this
      ensures View() == GetCall(old(View()), outcome)
      ensures r == ResultOf(View())
      ensures !old(onceDone) && !old(panicked) ==> Delivers(outcome, r)
      ensures old(onceDone) ==> View() == old(View())
    {
      if !onceDone {
        starts := starts + 1;
        match outcome
        case Panicked(v) =>
          panicked := true;
          panicValue := v;
          onceDone := true;
          return Repanic(v);
        case Returned(rt, e) =>
          runtime, err := rt, e;
          onceDone := true;
      }
      if panicked {
        return Repanic(panicValue);
      }
      if (runtime == Nil || runtime == TypedNil) && err == None {
        return Value(Nil, Some(MissingRuntime));
      }
      if runtime == Nil || runtime == TypedNil {
        return Value(Nil, err);
      }
      return Value(runtime, err);
    }

    /** close, with what runtime.Close returns as a parameter. */
    method Close(runtimeClose: Option<Failure>) returns (e: Option<Failure>)
      modifies this
      ensures View() == CloseCall(old(View()), runtimeClose)
      ensures e == View().closeErr
      ensures !old(closeOnceDone) && runtime.Live? ==> e == runtimeClose
      ensures old(closeOnceDone) || !runtime.Live? ==> e == old(closeErr)
    {
      onceDone := true;
      if !closeOnceDone {
        if runtime != Nil && runtime != TypedNil {
          closes := closes + 1;
          closeErr := runtimeClose;
        }
        closeOnceDone := true;
      }
      return closeErr;
    }
  }

  function Repeat(s: State, t: nat, c: Choice, steps: nat): Option<State>
    requires t < |s.threads|
    ensures Repeat(s, t, c, steps).Some? ==> |Repeat(s, t, c, steps).value.threads| == |s.threads|
    decreases steps
  {
    if steps == 0 then Some(s)
    else match Next(s, t, c) case None => None case Some(n) => Repeat(n, t, c, steps - 1)
  }

  /** A get that nobody disturbs does in the protocol what LazyRuntimeState.Get does. */
  lemma LoneGet(s: State, t: nat, c: Choice)
    requires t < |s.threads| && s.threads[t] == GetEnter && !s.cell.once.Running?
              && (s.cell.panicked ==> s.cell.once == Done)
    ensures exists steps: nat ::
      var end := Repeat(s, t, c, steps);
      && end.Some?
      && end.value.cell == GetCall(s.cell, c.outcome)
      && end.value.threads[t] == GetReturned(ResultOf(GetCall(s.cell, c.outcome)))
  {
    var one := Next(s, t, c).value;
    var two := Next(one, t, c).value;
    if s.cell.once == Done {
      assert Repeat(one, t, c, 1) == Some(two);
      assert Repeat(s, t, c, 2) == Some(two);
    } else {
      var three := Next(two, t, c).value;
      if c.outcome.Panicked? {
        assert Repeat(two, t, c, 1) == Some(three) && Repeat(one, t, c, 2) == Some(three);
        assert Repeat(s, t, c, 3) == Some(three);
      } else {
        var four := Next(three, t, c).value;
        assert Repeat(three, t, c, 1) == Some(four) && Repeat(two, t, c, 2) == Some(four);
        assert Repeat(one, t, c, 3) == Some(four) && Repeat(s, t, c, 4) == Some(four);
      }
    }
  }

  lemma CloseFromSecond(s: State, t: nat, c: Choice) returns (steps: nat)
    requires t < |s.threads| && s.threads[t] == CloseSecond && s.cell.once == Done && !s.cell.closeOnce.Running?
    ensures var end := Repeat(s, t, c, steps);
      && end.Some?
      && end.value.cell == CloseCall(s.cell, c.closeErr)
      && end.value.threads[t] == CloseReturned(CloseCall(s.cell, c.closeErr).closeErr)
  {
    var one := Next(s, t, c).value;
    var two := Next(one, t, c).value;
    if s.cell.closeOnce == Done {
      assert Repeat(one, t, c, 1) == Some(two);
      return 2;
    }
    var three := Next(two, t, c).value;
    var four := Next(three, t, c).value;
    if !IsLive(s.cell) {
      assert Repeat(three, t, c, 1) == Some(four) && Repeat(two, t, c, 2) == Some(four);
      assert Repeat(one, t, c, 3) == Some(four);
      return 4;
    }
    var five := Next(four, t, c).value;
    assert Repeat(four, t, c, 1) == Some(five) && Repeat(three, t, c, 2) == Some(five);
    assert Repeat(two, t, c, 3) == Some(five) && Repeat(one, t, c, 4) == Some(five);
    return 5;
  }

  /** A close that nobody disturbs does what LazyRuntimeState.Close does. */
  lemma LoneClose(s: State, t: nat, c: Choice)
    requires t < |s.threads| && s.threads[t] == CloseEnter && !s.cell.once.Running? && !s.cell.closeOnce.Running?
    ensures exists steps: nat ::
      var end := Repeat(s, t, c, steps);
      && end.Some?
      && end.value.cell == CloseCall(s.cell, c.closeErr)
      && end.value.threads[t] == CloseReturned(CloseCall(s.cell, c.closeErr).closeErr)
  {
    var one := Next(s, t, c).value;
    if s.cell.once == Done {
      var steps := CloseFromSecond(one, t, c);
      assert Repeat(s, t, c, steps + 1) == Repeat(one, t, c, steps);
    } else {
      var two := Next(one, t, c).value;
      var steps := CloseFromSecond(two, t, c);
      assert Repeat(one, t, c, steps + 1) == Repeat(two, t, c, steps);
      assert Repeat(s, t, c, steps + 2) == Repeat(one, t, c, steps + 1);
    }
  }
}
