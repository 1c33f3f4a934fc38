/** Close-once cells that call each other (close.go, emulator.go, runtime.go).

    Every handle has one closeState, a sync.Once whose function runs effects (close a
    client, drop a resource, terminate a container) and calls Close on other handles.
    Any number of goroutines call Close on any handles. A program gives the body of
    each cell; a body only calls cells with smaller numbers, as owners only close what
    they own. */
module CloseOnce {
  import opened Common

  datatype Instr = Effect(name: string) | Call(cell: nat)

  type Program = seq<seq<Instr>>

  ghost predicate Acyclic(p: Program) {
    forall c, k :: 0 <= c < |p| && 0 <= k < |p[c]| && p[c][k].Call? ==> p[c][k].cell < c
  }

  /** An error as the codes it joins; [] is nil. */
  type Errors = seq<int>

  /** closeState: not begun, its function in progress in some goroutine at some
      instruction with the errors so far, or done with its error. */
  datatype Cell = Idle | Running(runner: nat, pc: nat, errs: Errors) | Done(result: Errors)

  /** One goroutine's call of Close on `target`: the once functions it is inside of,
      innermost last, and the once it is about to do. */
  datatype Thread = Thread(target: nat, stack: seq<nat>, entering: Option<nat>, result: Option<Errors>)

  /** log lists the effects performed, as (cell, instruction) pairs; returned holds what
      each of them returned. */
  datatype State = State(cells: seq<Cell>, threads: seq<Thread>, log: seq<(nat, nat)>,
                         returned: map<(nat, nat), Errors>)

  ghost predicate Initial(p: Program, s: State) {
    && |s.cells| == |p| && (forall c :: 0 <= c < |p| ==> s.cells[c] == Idle)
    && s.log == [] && s.returned == map[]
    && forall t :: 0 <= t < |s.threads| ==>
         && s.threads[t].target < |p|
         && s.threads[t] == Thread(s.threads[t].target, [], Some(s.threads[t].target), None)
  }

  function Top(th: Thread): nat
    requires th.stack != []
  {
    th.stack[|th.stack| - 1]
  }

  /** The body of cell b moves past its current instruction. */
  function Advance(s: State, b: nat, e: Errors): State
    requires b < |s.cells| && s.cells[b].Running?
  {
    var f := s.cells[b];
    s.(cells := s.cells[b := Running(f.runner, f.pc + 1, f.errs + e)])
  }

  function WithThread(s: State, t: nat, th: Thread): State
    requires t < |s.threads|
  {
    s.(threads := s.threads[t := th])
  }

  /** Thread t does the once of cell c. */
  function Enter(s: State, t: nat, c: nat): Option<State>
    requires t < |s.threads| && c < |s.cells|
  {
    var th := s.threads[t];
    match s.cells[c]
    case Idle =>
      Some(WithThread(s.(cells := s.cells[c := Running(t, 0, [])]), t, th.(stack := th.stack + [c], entering := None)))
    case Running(_, _, _) => None
    case Done(e) =>
      if th.stack == [] then Some(WithThread(s, t, th.(entering := None, result := Some(e))))
      else if Top(th) < |s.cells| && s.cells[Top(th)].Running? then
        Some(WithThread(Advance(s, Top(th), e), t, th.(entering := None)))
      else None
  }

  /** Thread t runs one instruction of cell b, its innermost body. */
  function Execute(p: Program, s: State, t: nat, b: nat, e: Errors): Option<State>
    requires t < |s.threads| && s.threads[t].stack != [] && b < |s.cells| == |p| && s.cells[b].Running?
  {
    var th := s.threads[t];
    var f := s.cells[b];
    if f.pc >= |p[b]| then
      Some(WithThread(s.(cells := s.cells[b := Done(f.errs)]), t,
                      th.(stack := th.stack[..|th.stack| - 1], entering := Some(b))))
    else
      match p[b][f.pc]
      case Effect(_) =>
        Some(Advance(s, b, e).(log := s.log + [(b, f.pc)], returned := s.returned[(b, f.pc) := e]))
      case Call(c) => Some(WithThread(s, t, th.(entering := Some(c))))
  }

  /** One atomic step of thread t, if it has one; e is what an effect returns. */
  function Next(p: Program, s: State, t: nat, e: Errors): Option<State>
    requires t < |s.threads|
  {
    var th := s.threads[t];
    if th.result.Some? || |s.cells| != |p| then None
    else if th.entering.Some? then
      if th.entering.value < |p| then Enter(s, t, th.entering.value) else None
    else if th.stack != [] && Top(th) < |p| && s.cells[Top(th)].Running? then Execute(p, s, t, Top(th), e)
    else None
  }

  ghost predicate Step(p: Program, a: State, b: State) {
    exists t: nat, e: Errors :: t < |a.threads| && Next(p, a, t, e) == Some(b)
  }

  ghost predicate IsRun(p: Program, run: seq<State>) {
    && run != [] && Initial(p, run[0])
    && forall i :: 0 <= i < |run| - 1 ==> Step(p, run[i], run[i + 1])
  }

  // ------------------------------------------------------------------------
  // The invariant
  // ------------------------------------------------------------------------

  /** Thread t is inside the body of cell b. */
  ghost predicate Inside(p: Program, s: State, t: int, b: nat)
    requires |s.cells| == |p|
  {
    b < |p| && s.cells[b].Running? && s.cells[b].runner == t && s.cells[b].pc <= |p[b]|
  }

  /** The body of cell b stands at a call of cell c. */
  ghost predicate AtCall(p: Program, s: State, b: nat, c: nat)
    requires |s.cells| == |p|
  {
    && b < |p| && s.cells[b].Running? && s.cells[b].pc < |p[b]|
    && p[b][s.cells[b].pc] == Call(c) && c < b
  }

  ghost predicate ThreadOk(p: Program, s: State, t: int, th: Thread)
    requires |s.cells| == |p|
  {
    && th.target < |p|
    && (forall k :: 0 <= k < |th.stack| ==> Inside(p, s, t, th.stack[k]))
    && (forall k :: 0 <= k < |th.stack| - 1 ==> AtCall(p, s, th.stack[k], th.stack[k + 1]))
    && (forall j, k :: 0 <= j < k < |th.stack| ==> th.stack[k] < th.stack[j])
    && (th.stack != [] ==> th.stack[0] == th.target)
    && (th.entering.Some? ==>
          if th.stack == [] then th.entering.value == th.target else AtCall(p, s, Top(th), th.entering.value))
    && (th.result.None? <==> th.entering.Some? || th.stack != [])
    && (th.result.Some? ==> s.cells[th.target] == Done(th.result.value))
  }

  ghost predicate OwnersOk(s: State) {
    forall c :: 0 <= c < |s.cells| && s.cells[c].Running? ==>
      s.cells[c].runner < |s.threads| && c in s.threads[s.cells[c].runner].stack
  }

  /** Instruction i of cell c is over. */
  predicate Passed(s: State, c: nat, i: nat) {
    c < |s.cells| && (s.cells[c].Done? || (s.cells[c].Running? && i < s.cells[c].pc))
  }

  /** The effects of one cell appear in the order of its body. */
  ghost predicate InBodyOrder(log: seq<(nat, nat)>) {
    forall m, n :: 0 <= m < n < |log| && log[m].0 == log[n].0 ==> log[m].1 < log[n].1
  }

  ghost predicate IsEffect(p: Program, c: nat, i: nat) {
    c < |p| && i < |p[c]| && p[c][i].Effect?
  }

  /** The log holds exactly the effects that are over, each once and in
      order. */
  ghost predicate LogOk(p: Program, s: State) {
    && InBodyOrder(s.log)
    && forall c: nat, i: nat :: (c, i) in s.log <==> IsEffect(p, c, i) && Passed(s, c, i)
  }

  /** A call that is over has completed the cell it called. */
  ghost predicate CallsOk(p: Program, s: State)
    requires |s.cells| == |p|
  {
    forall c: nat, i: nat :: c < |p| && i < |p[c]| && p[c][i].Call? && Passed(s, c, i) ==>
      p[c][i].cell < |p| && s.cells[p[c][i].cell].Done?
  }

  ghost predicate Inv(p: Program, s: State) {
    && |s.cells| == |p|
    && (forall t :: 0 <= t < |s.threads| ==> ThreadOk(p, s, t, s.threads[t]))
    && OwnersOk(s) && LogOk(p, s) && CallsOk(p, s)
  }

  /** What a change of one cell must respect for the other threads and cells. */
  ghost predicate OnlyCell(a: State, b: State, t: nat, c: nat) {
    && |b.cells| == |a.cells| && |b.threads| == |a.threads|
    && t < |a.threads| && c < |a.cells|
    && (forall d :: 0 <= d < |a.cells| && d != c ==> b.cells[d] == a.cells[d])
    && (forall u :: 0 <= u < |a.threads| && u != t ==> b.threads[u] == a.threads[u])
    && (a.cells[c].Idle? || (a.cells[c].Running? && a.cells[c].runner == t))
  }

  /** The other threads do not notice what happens to a cell they do not run. */
  lemma OthersUnaffected(p: Program, a: State, b: State, t: nat, c: nat, u: nat)
    requires Inv(p, a) && OnlyCell(a, b, t, c) && u < |a.threads| && u != t
    ensures ThreadOk(p, b, u, b.threads[u])
  {
    var th := a.threads[u];
    assert ThreadOk(p, a, u, th);
    forall k | 0 <= k < |th.stack| ensures Inside(p, b, u, th.stack[k]) && th.stack[k] != c {
      assert Inside(p, a, u, th.stack[k]);
    }
    forall k | 0 <= k < |th.stack| - 1 ensures AtCall(p, b, th.stack[k], th.stack[k + 1]) {
      assert AtCall(p, a, th.stack[k], th.stack[k + 1]);
      assert Inside(p, a, u, th.stack[k]);
    }
    if th.entering.Some? && th.stack != [] {
      assert Inside(p, a, u, Top(th));
    }
  }

  lemma EnterIdleThread(p: Program, a: State, t: nat, c: nat)
    requires Acyclic(p) && Inv(p, a) && t < |a.threads|
    requires a.threads[t].result.None? && a.threads[t].entering == Some(c) && c < |p| && a.cells[c].Idle?
    ensures var b := Enter(a, t, c).value; ThreadOk(p, b, t, b.threads[t])
  {
    var b := Enter(a, t, c).value;
    var th := a.threads[t];
    assert ThreadOk(p, a, t, th);
    hide Inv, Acyclic;
    var st := b.threads[t].stack;
    assert th.stack != [] ==> AtCall(p, a, Top(th), c);
    forall k | 0 <= k < |st| ensures Inside(p, b, t, st[k]) {
      if k < |th.stack| {
        assert Inside(p, a, t, th.stack[k]);
      }
    }
    forall k | 0 <= k < |st| - 1 ensures AtCall(p, b, st[k], st[k + 1]) {
      if k < |th.stack| - 1 {
        assert AtCall(p, a, th.stack[k], th.stack[k + 1]);
      }
      assert Inside(p, a, t, th.stack[k]);
    }
  }

  lemma EnterIdleOwners(p: Program, a: State, t: nat, c: nat)
    requires OwnersOk(a) && t < |a.threads| && c < |a.cells|
    requires a.threads[t].entering == Some(c) && a.cells[c].Idle?
    ensures OwnersOk(Enter(a, t, c).value)
  {
  }

  /** Entering an idle cell. */
  lemma EnterIdle(p: Program, a: State, t: nat, c: nat)
    requires Acyclic(p) && Inv(p, a) && t < |a.threads|
    requires a.threads[t].result.None? && a.threads[t].entering == Some(c) && c < |p| && a.cells[c].Idle?
    ensures Inv(p, Enter(a, t, c).value)
  {
    var b := Enter(a, t, c).value;
    var th := a.threads[t];
    assert OnlyCell(a, b, t, c);
    EnterIdleThread(p, a, t, c);
    forall u | 0 <= u < |b.threads| ensures ThreadOk(p, b, u, b.threads[u]) {
      if u != t {
        OthersUnaffected(p, a, b, t, c, u);
      }
    }
    EnterIdleOwners(p, a, t, c);
    hide ThreadOk, OwnersOk;
    assert forall x: nat, i: nat :: Passed(b, x, i) == Passed(a, x, i);
  }

  lemma SameCells(p: Program, a: State, b: State, u: int, th: Thread)
    requires |a.cells| == |p| && b.cells == a.cells
    ensures ThreadOk(p, a, u, th) <==> ThreadOk(p, b, u, th)
  {
  }

  /** b is a, with the innermost body of thread t one instruction further and the
      thread not entering anything. */
  ghost predicate Advanced(p: Program, a: State, b: State, t: nat) {
    && t < |a.threads| && a.threads[t].stack != [] && Top(a.threads[t]) < |a.cells| == |p|
    && var x := Top(a.threads[t]);
       && a.cells[x].Running? && a.cells[x].runner == t && a.cells[x].pc < |p[x]|
       && OnlyCell(a, b, t, x)
       && b.cells[x].Running? && b.cells[x].runner == t && b.cells[x].pc == a.cells[x].pc + 1
       && b.threads[t] == a.threads[t].(entering := None)
  }

  lemma AdvanceThreads(p: Program, a: State, b: State, t: nat)
    requires Inv(p, a) && Advanced(p, a, b, t) && a.threads[t].result.None?
    ensures forall u :: 0 <= u < |b.threads| ==> ThreadOk(p, b, u, b.threads[u])
  {
    var th := a.threads[t];
    var x := Top(th);
    assert ThreadOk(p, a, t, th);
    forall u | 0 <= u < |b.threads| ensures ThreadOk(p, b, u, b.threads[u]) {
      if u != t {
        OthersUnaffected(p, a, b, t, x, u);
      } else {
        forall k | 0 <= k < |th.stack| ensures Inside(p, b, t, th.stack[k]) {
          assert Inside(p, a, t, th.stack[k]);
        }
        forall k | 0 <= k < |th.stack| - 1 ensures AtCall(p, b, th.stack[k], th.stack[k + 1]) {
          assert AtCall(p, a, th.stack[k], th.stack[k + 1]);
        }
      }
    }
  }

  lemma AdvanceOwners(a: State, b: State, t: nat)
    requires OwnersOk(a) && t < |a.threads| && |b.cells| == |a.cells| && |b.threads| == |a.threads|
    requires forall c :: 0 <= c < |a.cells| && b.cells[c].Running? ==>
              a.cells[c].Running? && a.cells[c].runner == b.cells[c].runner
    requires forall u :: 0 <= u < |a.threads| ==> b.threads[u].stack == a.threads[u].stack
    ensures OwnersOk(b)
  {
  }

  lemma SameProgress(p: Program, a: State, b: State)
    requires |a.cells| == |p| && b.cells == a.cells && b.log == a.log
    requires LogOk(p, a) && CallsOk(p, a)
    ensures LogOk(p, b) && CallsOk(p, b)
  {
  }

  /** Taking the result of a cell that is done back to the caller. */
  lemma EnterDone(p: Program, a: State, t: nat, c: nat)
    requires Acyclic(p) && Inv(p, a) && t < |a.threads|
    requires a.threads[t].result.None? && a.threads[t].entering == Some(c) && c < |p| && a.cells[c].Done?
    ensures Enter(a, t, c).Some? && Inv(p, Enter(a, t, c).value)
  {
    var th := a.threads[t];
    assert ThreadOk(p, a, t, th);
    if th.stack == [] {
      var b := Enter(a, t, c).value;
      forall u | 0 <= u < |b.threads| ensures ThreadOk(p, b, u, b.threads[u]) {
        assert ThreadOk(p, a, u, a.threads[u]);
        SameCells(p, a, b, u, a.threads[u]);
      }
      SameProgress(p, a, b);
    } else {
      var k := |th.stack| - 1;
      assert Inside(p, a, t, th.stack[k]) && AtCall(p, a, Top(th), c);
      var mid := Advance(a, Top(th), a.cells[c].result);
      var b := Enter(a, t, c).value;
      AdvanceThreads(p, a, b, t);
      AdvanceOwners(a, b, t);
      var x := Top(th);
      assert forall d: nat, i: nat :: Passed(b, d, i) <==> Passed(a, d, i) || (d == x && i == a.cells[x].pc);
    }
  }

  lemma FinishThread(p: Program, a: State, t: nat, x: nat)
    requires Acyclic(p) && Inv(p, a) && t < |a.threads| && a.threads[t].stack != [] && x == Top(a.threads[t])
    requires a.threads[t].result.None? && a.threads[t].entering.None?
    requires x < |p| && a.cells[x].Running? && a.cells[x].pc >= |p[x]|
    ensures var b := Execute(p, a, t, x, []).value; ThreadOk(p, b, t, b.threads[t])
  {
    var b := Execute(p, a, t, x, []).value;
    var th := a.threads[t];
    var n := |th.stack| - 1;
    assert ThreadOk(p, a, t, th) && Inside(p, a, t, th.stack[n]);
    hide Inv, Acyclic;
    forall k | 0 <= k < n ensures Inside(p, b, t, th.stack[k]) && th.stack[k] != x {
      assert Inside(p, a, t, th.stack[k]);
    }
    forall k | 0 <= k < n ensures AtCall(p, b, th.stack[k], th.stack[k + 1]) {
      assert AtCall(p, a, th.stack[k], th.stack[k + 1]);
    }
  }

  lemma FinishOwners(a: State, b: State, t: nat, x: nat)
    requires OwnersOk(a) && t < |a.threads| && a.threads[t].stack != [] && x == Top(a.threads[t]) && x < |a.cells|
    requires |b.threads| == |a.threads| && |b.cells| == |a.cells| && b.cells == a.cells[x := b.cells[x]]
              && b.cells[x].Done?
    requires forall u :: 0 <= u < |a.threads| && u != t ==> b.threads[u] == a.threads[u]
    requires b.threads[t].stack == a.threads[t].stack[..|a.threads[t].stack| - 1]
    ensures OwnersOk(b)
  {
  }

  /** The innermost body of t is over: its cell is done and t goes to read it. */
  lemma FinishStep(p: Program, a: State, t: nat, x: nat)
    requires Acyclic(p) && Inv(p, a) && t < |a.threads| && a.threads[t].stack != [] && x == Top(a.threads[t])
    requires a.threads[t].result.None? && a.threads[t].entering.None?
    requires x < |p| && a.cells[x].Running? && a.cells[x].pc >= |p[x]|
    ensures Inv(p, Execute(p, a, t, x, []).value)
  {
    var b := Execute(p, a, t, x, []).value;
    var th := a.threads[t];
    var n := |th.stack| - 1;
    assert ThreadOk(p, a, t, th) && Inside(p, a, t, th.stack[n]);
    forall u | 0 <= u < |b.threads| ensures ThreadOk(p, b, u, b.threads[u]) {
      if u != t {
        OthersUnaffected(p, a, b, t, x, u);
      } else {
        FinishThread(p, a, t, x);
      }
    }
    FinishOwners(a, b, t, x);
    assert forall c: nat, i: nat :: Passed(a, c, i) ==> Passed(b, c, i);
    assert forall c: nat, i: nat :: c < |p| && i < |p[c]| && Passed(b, c, i) ==> Passed(a, c, i);
  }

  /** An effect is performed and logged. */
  lemma EffectStep(p: Program, a: State, t: nat, x: nat, e: Errors)
    requires Acyclic(p) && Inv(p, a) && t < |a.threads| && a.threads[t].stack != [] && x == Top(a.threads[t])
    requires a.threads[t].result.None? && a.threads[t].entering.None?
    requires x < |p| && a.cells[x].Running? && a.cells[x].pc < |p[x]| && p[x][a.cells[x].pc].Effect?
    ensures Inv(p, Execute(p, a, t, x, e).value)
  {
    var b := Execute(p, a, t, x, e).value;
    var th := a.threads[t];
    assert ThreadOk(p, a, t, th) && Inside(p, a, t, th.stack[|th.stack| - 1]);
    assert b.threads[t] == a.threads[t].(entering := None);
    assert Advanced(p, a, b, t);
    AdvanceThreads(p, a, b, t);
    AdvanceOwners(a, b, t);
    var pc := a.cells[x].pc;
    assert forall c: nat, i: nat :: Passed(b, c, i) <==> Passed(a, c, i) || (c == x && i == pc);
    hide ThreadOk;
    assert b.log == a.log + [(x, pc)];
    forall m | 0 <= m < |a.log| && a.log[m].0 == x ensures a.log[m].1 < pc {
      assert (a.log[m].0, a.log[m].1) in a.log;
      assert Passed(a, x, a.log[m].1);
    }
  }

  lemma CallThread(p: Program, a: State, t: nat, x: nat)
    requires Acyclic(p) && Inv(p, a) && t < |a.threads| && a.threads[t].stack != [] && x == Top(a.threads[t])
    requires a.threads[t].result.None? && a.threads[t].entering.None?
    requires x < |p| && a.cells[x].Running? && a.cells[x].pc < |p[x]| && p[x][a.cells[x].pc].Call?
    ensures var b := Execute(p, a, t, x, []).value; ThreadOk(p, b, t, b.threads[t])
  {
    var b := Execute(p, a, t, x, []).value;
    assert ThreadOk(p, a, t, a.threads[t]);
    hide Inv;
    SameCells(p, a, b, t, a.threads[t]);
  }

  /** A body reaches a call. */
  lemma CallStep(p: Program, a: State, t: nat, x: nat)
    requires Acyclic(p) && Inv(p, a) && t < |a.threads| && a.threads[t].stack != [] && x == Top(a.threads[t])
    requires a.threads[t].result.None? && a.threads[t].entering.None?
    requires x < |p| && a.cells[x].Running? && a.cells[x].pc < |p[x]| && p[x][a.cells[x].pc].Call?
    ensures Inv(p, Execute(p, a, t, x, []).value)
  {
    var b := Execute(p, a, t, x, []).value;
    CallThread(p, a, t, x);
    hide ThreadOk, LogOk, CallsOk;
    forall u | 0 <= u < |b.threads| ensures ThreadOk(p, b, u, b.threads[u]) {
      SameCells(p, a, b, u, a.threads[u]);
    }
    SameProgress(p, a, b);
  }

  lemma InvStep(p: Program, a: State, t: nat, e: Errors)
    requires Acyclic(p) && Inv(p, a) && t < |a.threads| && Next(p, a, t, e).Some?
    ensures Inv(p, Next(p, a, t, e).value)
  {
    var th := a.threads[t];
    if th.entering.Some? {
      var c := th.entering.value;
      match a.cells[c]
      case Idle => EnterIdle(p, a, t, c);
      case Running(_, _, _) =>
      case Done(_) => EnterDone(p, a, t, c);
    } else {
      var x := Top(th);
      if a.cells[x].pc >= |p[x]| {
        FinishStep(p, a, t, x);
      } else if p[x][a.cells[x].pc].Effect? {
        EffectStep(p, a, t, x, e);
      } else {
        CallStep(p, a, t, x);
      }
    }
  }

  lemma {:induction false} RunKeepsInv(p: Program, run: seq<State>, i: nat)
    requires Acyclic(p) && IsRun(p, run) && i < |run|
    ensures Inv(p, run[i])
    decreases i
  {
    if i == 0 {
      forall t | 0 <= t < |run[0].threads| ensures ThreadOk(p, run[0], t, run[0].threads[t]) {
        assert run[0].threads[t] == Thread(run[0].threads[t].target, [], Some(run[0].threads[t].target), None);
      }
    } else {
      RunKeepsInv(p, run, i - 1);
      hide Inv, Acyclic;
      assert Step(p, run[i - 1], run[i - 1 + 1]);
      var t: nat, e: Errors :| t < |run[i - 1].threads| && Next(p, run[i - 1], t, e) == Some(run[i]);
      InvStep(p, run[i - 1], t, e);
    }
  }

  ghost predicate Later(a: State, b: State) {
    && |a.cells| == |b.cells| && |a.threads| == |b.threads|
    && (forall c :: 0 <= c < |a.cells| && a.cells[c].Done? ==> b.cells[c] == a.cells[c])
    && (forall t :: 0 <= t < |a.threads| ==> b.threads[t].target == a.threads[t].target)
    && a.log <= b.log
  }

  lemma LaterReflexive(a: State)
    ensures Later(a, a)
  {
  }

  lemma LaterTransitive(a: State, b: State, c: State)
    requires Later(a, b) && Later(b, c)
    ensures Later(a, c)
  {
  }

  lemma DoneStaysStep(p: Program, a: State, t: nat, e: Errors)
    requires t < |a.threads| && Next(p, a, t, e).Some?
    ensures var b := Next(p, a, t, e).value;
      Later(a, b)
  {
  }

  /** A cell that is done stays done with the same error, and the log only grows. */
  lemma {:induction false} DoneStays(p: Program, run: seq<State>, i: nat, j: nat)
    requires Acyclic(p) && IsRun(p, run) && i <= j < |run|
    ensures Later(run[i], run[j])
    decreases j
  {
    hide Acyclic, Next, Later;
    if i == j {
      LaterReflexive(run[i]);
    } else {
      DoneStays(p, run, i, j - 1);
      var a := run[j - 1];
      assert Step(p, a, run[j - 1 + 1]);
      var t: nat, e: Errors :| t < |a.threads| && Next(p, a, t, e) == Some(run[j]);
      DoneStaysStep(p, a, t, e);
      LaterTransitive(run[i], a, run[j]);
    }
  }

  // ------------------------------------------------------------------------
  // Effects at most once, one result per handle
  // ------------------------------------------------------------------------

  /** Over any interleaving of any Close calls on any handles, no effect is performed
      twice, and the effects of one handle come in the order of its body. */
  lemma EffectsAtMostOnce(p: Program, run: seq<State>, i: nat, m: nat, n: nat)
    requires Acyclic(p) && IsRun(p, run) && i < |run|
    requires m < n < |run[i].log|
    ensures run[i].log[m] != run[i].log[n]
    ensures run[i].log[m].0 == run[i].log[n].0 ==> run[i].log[m].1 < run[i].log[n].1
  {
    RunKeepsInv(p, run, i);
  }

  /** All calls of Close on one handle return the same error. */
  lemma SameResult(p: Program, run: seq<State>, i: nat, j: nat, t: nat, u: nat)
    requires Acyclic(p) && IsRun(p, run) && i <= j < |run|
    requires t < |run[i].threads| && u < |run[j].threads|
    requires run[i].threads[t].target == run[j].threads[u].target
    requires run[i].threads[t].result.Some? && run[j].threads[u].result.Some?
    ensures run[i].threads[t].result == run[j].threads[u].result
  {
    RunKeepsInv(p, run, i);
    RunKeepsInv(p, run, j);
    DoneStays(p, run, i, j);
    assert ThreadOk(p, run[i], t, run[i].threads[t]) && ThreadOk(p, run[j], u, run[j].threads[u]);
  }

  /** d is c or a handle that closing c closes, directly or through others. */
  ghost predicate Owns(p: Program, c: nat, d: nat)
    requires Acyclic(p)
    decreases c
  {
    c < |p| && (c == d || exists k: nat :: k < |p[c]| && p[c][k].Call? && p[c][k].cell < c && Owns(p, p[c][k].cell, d))
  }

  lemma {:induction false} DoneOwnsDone(p: Program, s: State, c: nat, d: nat)
    requires Acyclic(p) && Inv(p, s) && Owns(p, c, d) && s.cells[c].Done?
    ensures d < |p| && s.cells[d].Done?
    decreases c
  {
    if c == d {
    } else {
      var k: nat :| k < |p[c]| && p[c][k].Call? && p[c][k].cell < c && Owns(p, p[c][k].cell, d);
      assert Passed(s, c, k);
      DoneOwnsDone(p, s, p[c][k].cell, d);
    }
  }

  /** Once any Close of a handle has returned, every effect of that handle and of all
      the handles it owns has been performed, whoever performed it. */
  lemma CloseCompletes(p: Program, run: seq<State>, i: nat, t: nat, d: nat, k: nat)
    requires Acyclic(p) && IsRun(p, run) && i < |run|
    requires t < |run[i].threads| && run[i].threads[t].result.Some?
    requires Owns(p, run[i].threads[t].target, d) && IsEffect(p, d, k)
    ensures (d, k) in run[i].log
  {
    RunKeepsInv(p, run, i);
    assert ThreadOk(p, run[i], t, run[i].threads[t]);
    DoneOwnsDone(p, run[i], run[i].threads[t].target, d);
    assert Passed(run[i], d, k);
  }

  // ------------------------------------------------------------------------
  // What a handle returns
  // ------------------------------------------------------------------------

  /** What instruction j of handle c contributes to its error: what the effect returned, or
      the error of the handle it closed. */
  function ErrorOf(p: Program, s: State, c: nat, j: nat): Errors
    requires |s.cells| == |p| && c < |p| && j < |p[c]|
  {
    match p[c][j]
    case Effect(_) => if (c, j) in s.returned then s.returned[(c, j)] else []
    case Call(d) => if d < |p| && s.cells[d].Done? then s.cells[d].result else []
  }

  /** errors.Join over the first i instructions of handle c, in their order. */
  function Joined(p: Program, s: State, c: nat, i: nat): Errors
    requires |s.cells| == |p| && c < |p| && i <= |p[c]|
    decreases i
  {
    if i == 0 then [] else Joined(p, s, c, i - 1) + ErrorOf(p, s, c, i - 1)
  }

  /** The errors collected so far, and the result when it is there, leave nothing out. */
  ghost predicate ErrorsOk(p: Program, s: State, c: nat)
    requires |s.cells| == |p| && c < |p|
  {
    match s.cells[c]
    case Idle => true
    case Running(_, pc, errs) => pc <= |p[c]| ==> errs == Joined(p, s, c, pc)
    case Done(result) => result == Joined(p, s, c, |p[c]|)
  }

  /** b knows what a knew about the first i instructions of c. */
  ghost predicate SameErrors(p: Program, a: State, b: State, c: nat, i: nat)
    requires |a.cells| == |b.cells| == |p| && c < |p| && i <= |p[c]|
  {
    forall j: nat :: j < i ==> ErrorOf(p, b, c, j) == ErrorOf(p, a, c, j)
  }

  lemma {:induction false} JoinedStays(p: Program, a: State, b: State, c: nat, i: nat)
    requires |a.cells| == |b.cells| == |p| && c < |p| && i <= |p[c]|
    requires SameErrors(p, a, b, c, i)
    ensures Joined(p, b, c, i) == Joined(p, a, c, i)
    decreases i
  {
    if i == 0 {
    } else {
      JoinedStays(p, a, b, c, i - 1);
      assert ErrorOf(p, b, c, i - 1) == ErrorOf(p, a, c, i - 1);
    }
  }

  /** A step adds at most what the instruction returned that it performs. */
  ghost predicate OneReturn(a: State, b: State, x: nat, e: Errors) {
    || b.returned == a.returned
    || (x < |a.cells| && a.cells[x].Running? && b.returned == a.returned[(x, a.cells[x].pc) := e])
  }

  /** What is over stays known: its effects have returned, and the handles it closed are
      done. */
  lemma PassedKeepsErrors(p: Program, a: State, b: State, x: nat, e: Errors, c: nat, i: nat)
    requires Inv(p, a) && |b.cells| == |p| && Later(a, b) && OneReturn(a, b, x, e)
    requires c < |p| && i <= |p[c]| && (forall j: nat :: j < i ==> Passed(a, c, j))
    ensures SameErrors(p, a, b, c, i)
  {
    forall j: nat | j < i ensures ErrorOf(p, b, c, j) == ErrorOf(p, a, c, j) {
      assert Passed(a, c, j);
      assert p[c][j].Call? ==> p[c][j].cell < |p| && a.cells[p[c][j].cell].Done?;
    }
  }

  lemma StepReturns(p: Program, a: State, t: nat, e: Errors)
    requires t < |a.threads| && Next(p, a, t, e).Some?
    ensures exists x: nat :: OneReturn(a, Next(p, a, t, e).value, x, e)
  {
    var th := a.threads[t];
    if th.stack != [] {
      assert OneReturn(a, Next(p, a, t, e).value, Top(th), e);
    } else {
      assert OneReturn(a, Next(p, a, t, e).value, 0, e);
    }
  }

  /** How a step moves one handle: it begins, or it is one instruction further with the
      error of that instruction, or it is done with what it has collected. */
  ghost predicate CellMove(p: Program, a: State, b: State, c: nat)
    requires |a.cells| == |b.cells| == |p| && c < |p|
  {
    match b.cells[c]
    case Idle => true
    case Running(_, pc, errs) =>
      || (a.cells[c].Idle? && pc == 0 && errs == [])
      || (a.cells[c].Running? && a.cells[c].pc == pc && a.cells[c].errs == errs)
      || (a.cells[c].Running? && a.cells[c].pc < |p[c]| && pc == a.cells[c].pc + 1
          && errs == a.cells[c].errs + ErrorOf(p, b, c, a.cells[c].pc))
    case Done(result) =>
      || a.cells[c] == b.cells[c]
      || (a.cells[c].Running? && a.cells[c].pc >= |p[c]| && result == a.cells[c].errs)
  }

  lemma StepMovesCell(p: Program, a: State, t: nat, e: Errors, c: nat)
    requires Inv(p, a) && t < |a.threads| && Next(p, a, t, e).Some? && c < |p|
    ensures |Next(p, a, t, e).value.cells| == |p| && CellMove(p, a, Next(p, a, t, e).value, c)
  {
    var th := a.threads[t];
    assert ThreadOk(p, a, t, th);
    hide Inv;
    if th.stack != [] {
      assert Inside(p, a, t, th.stack[|th.stack| - 1]);
    }
  }

  /** A step keeps what is known of the instructions of c that are over. */
  lemma JoinedKept(p: Program, a: State, t: nat, e: Errors, c: nat, i: nat)
    requires Inv(p, a) && t < |a.threads| && Next(p, a, t, e).Some?
    requires c < |p| && i <= |p[c]| && (forall j: nat :: j < i ==> Passed(a, c, j))
    ensures |Next(p, a, t, e).value.cells| == |p|
    ensures Joined(p, Next(p, a, t, e).value, c, i) == Joined(p, a, c, i)
  {
    var b := Next(p, a, t, e).value;
    DoneStaysStep(p, a, t, e);
    StepReturns(p, a, t, e);
    var x: nat :| OneReturn(a, b, x, e);
    PassedKeepsErrors(p, a, b, x, e, c, i);
    JoinedStays(p, a, b, c, i);
    hide Next, Later, OneReturn, Joined, SameErrors, Passed;
    assert |b.cells| == |p| by {
      StepMovesCell(p, a, t, e, c);
    }
  }

  /** A move of a handle collects the error of the instruction it passes. */
  lemma MoveCollects(p: Program, a: State, b: State, c: nat)
    requires |a.cells| == |b.cells| == |p| && c < |p| && CellMove(p, a, b, c) && ErrorsOk(p, a, c)
    requires a.cells[c].Running? ==>
              a.cells[c].pc <= |p[c]| && Joined(p, b, c, a.cells[c].pc) == Joined(p, a, c, a.cells[c].pc)
    requires a.cells[c].Done? ==> Joined(p, b, c, |p[c]|) == Joined(p, a, c, |p[c]|)
    ensures ErrorsOk(p, b, c)
  {
    hide ErrorOf;
    match b.cells[c]
    case Idle =>
    case Running(_, pc, _) =>
      if a.cells[c].Running? && pc == a.cells[c].pc + 1 {
        assert pc <= |p[c]| ==> Joined(p, b, c, pc) == Joined(p, b, c, pc - 1) + ErrorOf(p, b, c, pc - 1);
      }
    case Done(_) =>
  }

  lemma ErrorsStep(p: Program, a: State, t: nat, e: Errors, c: nat)
    requires Inv(p, a) && t < |a.threads| && Next(p, a, t, e).Some? && c < |p| && ErrorsOk(p, a, c)
    requires a.cells[c].Running? ==> a.cells[c].pc <= |p[c]|
    ensures |Next(p, a, t, e).value.cells| == |p| && ErrorsOk(p, Next(p, a, t, e).value, c)
  {
    hide Next, ErrorsOk, CellMove, Joined;
    StepMovesCell(p, a, t, e, c);
    if !a.cells[c].Idle? {
      JoinedKept(p, a, t, e, c, if a.cells[c].Running? then a.cells[c].pc else |p[c]|);
    }
    MoveCollects(p, a, Next(p, a, t, e).value, c);
  }

  lemma IdleHasNoErrors(p: Program, s: State, c: nat)
    requires Initial(p, s) && c < |p|
    ensures ErrorsOk(p, s, c)
  {
  }

  lemma RunningInBody(p: Program, s: State, c: nat)
    requires Inv(p, s) && c < |p|
    ensures s.cells[c].Running? ==> s.cells[c].pc <= |p[c]|
  {
    if s.cells[c].Running? {
      var o := s.cells[c].runner;
      var k :| 0 <= k < |s.threads[o].stack| && s.threads[o].stack[k] == c;
      assert ThreadOk(p, s, o, s.threads[o]);
      assert Inside(p, s, o, s.threads[o].stack[k]);
    }
  }

  lemma {:induction false} RunKeepsErrors(p: Program, run: seq<State>, i: nat, c: nat)
    requires Acyclic(p) && IsRun(p, run) && i < |run| && c < |p|
    ensures |run[i].cells| == |p| && ErrorsOk(p, run[i], c)
    decreases i
  {
    hide Acyclic, Next, ErrorsOk;
    RunKeepsInv(p, run, i);
    if i == 0 {
      IdleHasNoErrors(p, run[0], c);
    } else {
      RunKeepsErrors(p, run, i - 1, c);
      RunKeepsInv(p, run, i - 1);
      var a := run[i - 1];
      RunningInBody(p, a, c);
      hide Inv;
      assert Step(p, a, run[i - 1 + 1]);
      var t: nat, e: Errors :| t < |a.threads| && Next(p, a, t, e) == Some(run[i]);
      ErrorsStep(p, a, t, e, c);
    }
  }

  /** Every effect in the log has returned something. */
  lemma {:induction false} RunKeepsReturned(p: Program, run: seq<State>, i: nat)
    requires IsRun(p, run) && i < |run|
    ensures forall m :: 0 <= m < |run[i].log| ==> run[i].log[m] in run[i].returned
    decreases i
  {
    if i == 0 {
    } else {
      RunKeepsReturned(p, run, i - 1);
      assert Step(p, run[i - 1], run[i - 1 + 1]);
    }
  }

  /** What a Close returns joins, in the order of its body, what each of its effects
      returned and the errors of all handles it closes; nothing is lost. */
  lemma ResultJoins(p: Program, run: seq<State>, i: nat, t: nat)
    requires Acyclic(p) && IsRun(p, run) && i < |run|
    requires t < |run[i].threads| && run[i].threads[t].result.Some?
    ensures var c := run[i].threads[t].target;
      && c < |p| && |run[i].cells| == |p|
      && run[i].threads[t].result == Some(Joined(p, run[i], c, |p[c]|))
      && (forall k: nat :: k < |p[c]| && p[c][k].Effect? ==> (c, k) in run[i].returned)
      && (forall k: nat :: k < |p[c]| && p[c][k].Call? ==> p[c][k].cell < |p| && run[i].cells[p[c][k].cell].Done?)
  {
    RunKeepsInv(p, run, i);
    assert ThreadOk(p, run[i], t, run[i].threads[t]);
    var c := run[i].threads[t].target;
    RunKeepsErrors(p, run, i, c);
    RunKeepsReturned(p, run, i);
    forall k: nat | k < |p[c]|
      ensures p[c][k].Effect? ==> (c, k) in run[i].returned
      ensures p[c][k].Call? ==> p[c][k].cell < |p| && run[i].cells[p[c][k].cell].Done?
    {
      assert Passed(run[i], c, k);
      assert IsEffect(p, c, k) ==> (c, k) in run[i].log;
    }
  }

  // ------------------------------------------------------------------------
  // Progress
  // ------------------------------------------------------------------------

  /** Following blocked callers to the owner of the once they wait for ends at a thread
      that can step, because owners only wait for smaller cells. */
  lemma {:induction false} FindEnabled(p: Program, s: State, t: nat, e: Errors, bound: nat) returns (u: nat)
    requires Acyclic(p) && Inv(p, s) && t < |s.threads| && s.threads[t].result.None?
    requires s.threads[t].entering.Some? ==> s.threads[t].entering.value < bound
    ensures u < |s.threads| && Next(p, s, u, e).Some?
    decreases bound
  {
    var th := s.threads[t];
    assert ThreadOk(p, s, t, th);
    if th.stack != [] {
      assert Inside(p, s, t, th.stack[|th.stack| - 1]);
    }
    if th.entering.None? {
      return t;
    }
    var c := th.entering.value;
    if !s.cells[c].Running? {
      return t;
    }
    var o := s.cells[c].runner;
    var oh := s.threads[o];
    assert ThreadOk(p, s, o, oh);
    var k :| 0 <= k < |oh.stack| && oh.stack[k] == c;
    assert Top(oh) <= c;
    u := FindEnabled(p, s, o, e, c);
  }

  /** No deadlock: while some Close has not returned, some goroutine has a step. */
  lemma Progress(p: Program, run: seq<State>, i: nat, t: nat, e: Errors)
    requires Acyclic(p) && IsRun(p, run) && i < |run|
    requires t < |run[i].threads| && run[i].threads[t].result.None?
    ensures exists u: nat :: u < |run[i].threads| && Next(p, run[i], u, e).Some?
  {
    RunKeepsInv(p, run, i);
    assert ThreadOk(p, run[i], t, run[i].threads[t]);
    var u := FindEnabled(p, run[i], t, e, |p|);
  }

  // ------------------------------------------------------------------------
  // Termination
  // ------------------------------------------------------------------------

  /** Steps still to be charged to one cell and to one thread. */
  function CellCost(body: seq<Instr>, cell: Cell): nat {
    match cell
    case Idle => 2 * |body| + 2
    case Running(_, pc, _) => if pc <= |body| then 2 * (|body| - pc) else 0
    case Done(_) => 0
  }

  function ThreadCost(th: Thread): nat {
    if th.result.Some? then 0 else if th.entering.Some? then 1 else 2
  }

  function CellsCost(p: Program, cells: seq<Cell>): nat
    requires |cells| == |p|
  {
    if p == [] then 0 else CellCost(p[0], cells[0]) + CellsCost(p[1..], cells[1..])
  }

  function ThreadsCost(threads: seq<Thread>): nat {
    if threads == [] then 0 else ThreadCost(threads[0]) + ThreadsCost(threads[1..])
  }

  lemma {:induction false} CellsCostUpdate(p: Program, cells: seq<Cell>, c: nat, cell: Cell)
    requires |cells| == |p| && c < |p|
    ensures CellsCost(p, cells[c := cell]) + CellCost(p[c], cells[c]) == CellsCost(p, cells) + CellCost(p[c], cell)
    decreases |p|
  {
    if c == 0 {
      assert cells[c := cell][1..] == cells[1..];
    } else {
      assert cells[c := cell][1..] == cells[1..][c - 1 := cell];
      CellsCostUpdate(p[1..], cells[1..], c - 1, cell);
    }
  }

  lemma {:induction false} ThreadsCostUpdate(threads: seq<Thread>, t: nat, th: Thread)
    requires t < |threads|
    ensures ThreadsCost(threads[t := th]) + ThreadCost(threads[t]) == ThreadsCost(threads) + ThreadCost(th)
    decreases |threads|
  {
    if t == 0 {
      assert threads[t := th][1..] == threads[1..];
    } else {
      assert threads[t := th][1..] == threads[1..][t - 1 := th];
      ThreadsCostUpdate(threads[1..], t - 1, th);
    }
  }

  function Cost(p: Program, s: State): nat
    requires |s.cells| == |p|
  {
    CellsCost(p, s.cells) + ThreadsCost(s.threads)
  }

  lemma OneCellOneThread(p: Program, a: State, t: nat, e: Errors, c: nat)
    requires |a.cells| == |p| && t < |a.threads| && c < |p| && Next(p, a, t, e).Some?
    requires var th := a.threads[t];
      c == if th.entering.Some? && th.entering.value < |p| && (th.stack == [] || !a.cells[th.entering.value].Done?)
           then th.entering.value else if th.stack != [] then Top(th) else c
    ensures var b := Next(p, a, t, e).value;
      && |b.cells| == |p| && |b.threads| == |a.threads|
      && b.cells == a.cells[c := b.cells[c]] && b.threads == a.threads[t := b.threads[t]]
  {
  }

  lemma StepLowersLocalCost(p: Program, a: State, t: nat, e: Errors, c: nat)
    requires |a.cells| == |p| && t < |a.threads| && c < |p| && Next(p, a, t, e).Some?
    requires ThreadOk(p, a, t, a.threads[t])
    requires var th := a.threads[t];
      c == if th.entering.Some? && th.entering.value < |p| && (th.stack == [] || !a.cells[th.entering.value].Done?)
           then th.entering.value else if th.stack != [] then Top(th) else c
    ensures var b := Next(p, a, t, e).value;
      && |b.cells| == |p| && |b.threads| == |a.threads|
      && CellCost(p[c], b.cells[c]) + ThreadCost(b.threads[t]) < CellCost(p[c], a.cells[c]) + ThreadCost(a.threads[t])
  {
  }

  /** A step changes at most one cell and one thread, and their cost goes down. */
  lemma StepCosts(p: Program, a: State, t: nat, e: Errors)
    requires Acyclic(p) && Inv(p, a) && t < |a.threads| && Next(p, a, t, e).Some?
    ensures var b := Next(p, a, t, e).value; |b.cells| == |p| && Cost(p, b) < Cost(p, a)
  {
    var b := Next(p, a, t, e).value;
    var th := a.threads[t];
    assert ThreadOk(p, a, t, th);
    if th.stack != [] {
      assert Inside(p, a, t, th.stack[|th.stack| - 1]);
    }
    var c := if th.entering.Some? && (th.stack == [] || !a.cells[th.entering.value].Done?) then th.entering.value
        else Top(th);
    OneCellOneThread(p, a, t, e, c);
    CellsCostUpdate(p, a.cells, c, b.cells[c]);
    ThreadsCostUpdate(a.threads, t, b.threads[t]);
    StepLowersLocalCost(p, a, t, e, c);
  }

  /** Every run is finite, with a bound known at the start: the cost of the untouched
      cells and one step a caller. With Progress, every maximal run ends with all
      calls returned. */
  lemma {:induction false} RunLength(p: Program, run: seq<State>, i: nat)
    requires Acyclic(p) && IsRun(p, run) && i < |run|
    ensures |run[i].cells| == |p| && |run[0].cells| == |p| && i + Cost(p, run[i]) <= Cost(p, run[0])
    decreases i
  {
    RunKeepsInv(p, run, i);
    if i == 0 {
    } else {
      RunLength(p, run, i - 1);
      RunKeepsInv(p, run, i - 1);
      hide Inv, Acyclic, Next, Cost;
      var a := run[i - 1];
      assert Step(p, a, run[i - 1 + 1]);
      var t: nat, e: Errors :| t < |a.threads| && Next(p, a, t, e) == Some(run[i]);
      StepCosts(p, a, t, e);
    }
  }

  // ------------------------------------------------------------------------
  // The handles of this package
  // ------------------------------------------------------------------------

  const EMULATOR: nat := 0
  const CLIENTS: nat := 1
  const ENV: nat := 2
  const RUNTIME_ENV: nat := 3
  const LAZY: nat := 4

  const DATA := "close data client"
  const DROP := "drop schema resource"
  const DATABASE_ADMIN := "close database admin client"
  const INSTANCE_ADMIN := "close instance admin client"
  const CONTAINER := "terminate container"

  /** Emulator.Close, Clients.Close, Env.Close, the RuntimeEnv that SetupWithClients
      builds over the same clients and emulator, and a lazy handle's close. */
  const HANDLES: Program := [
    [Effect(CONTAINER)],
    [Effect(DATA), Effect(DROP), Effect(DATABASE_ADMIN), Effect(INSTANCE_ADMIN)],
    [Call(CLIENTS), Call(EMULATOR)],
    [Call(CLIENTS), Call(EMULATOR)],
    [Call(EMULATOR)]]

  lemma HandlesAcyclic()
    ensures Acyclic(HANDLES)
    ensures forall d :: d == CLIENTS || d == EMULATOR ==> Owns(HANDLES, ENV, d) && Owns(HANDLES, RUNTIME_ENV, d)
    ensures Owns(HANDLES, LAZY, EMULATOR)
  {
    assert HANDLES[ENV][0] == Call(CLIENTS) && HANDLES[ENV][1] == Call(EMULATOR);
    assert HANDLES[RUNTIME_ENV][0] == Call(CLIENTS) && HANDLES[RUNTIME_ENV][1] == Call(EMULATOR);
    assert HANDLES[LAZY][0] == Call(EMULATOR);
    assert Owns(HANDLES, CLIENTS, CLIENTS) && Owns(HANDLES, EMULATOR, EMULATOR);
  }

  /** The effect that an entry of the log stands for. */
  function NameOf(entry: (nat, nat)): Option<string> {
    var (c, k) := entry;
    if c < |HANDLES| && k < |HANDLES[c]| && HANDLES[c][k].Effect? then Some(HANDLES[c][k].name) else None
  }

  /** m is the one place of the effect with this name. */
  predicate OnlyAt(log: seq<(nat, nat)>, name: string, m: nat) {
    m < |log| && NameOf(log[m]) == Some(name) && forall n :: 0 <= n < |log| && NameOf(log[n]) == Some(name) ==> n == m
  }

  ghost predicate NamedRight(entry: (nat, nat)) {
    && (NameOf(entry) == Some(DATA) <==> entry == (CLIENTS, 0))
    && (NameOf(entry) == Some(DROP) <==> entry == (CLIENTS, 1))
    && (NameOf(entry) == Some(DATABASE_ADMIN) <==> entry == (CLIENTS, 2))
    && (NameOf(entry) == Some(INSTANCE_ADMIN) <==> entry == (CLIENTS, 3))
    && (NameOf(entry) == Some(CONTAINER) <==> entry == (EMULATOR, 0))
  }

  lemma EffectNames(entry: (nat, nat))
    ensures NamedRight(entry)
  {
  }

  /** The four effects of Clients, in their order, and the container termination, each in
      its one place. */
  predicate ClosedAt(log: seq<(nat, nat)>, data: nat, drop: nat, databaseAdmin: nat, instanceAdmin: nat,
                     container: nat) {
    && data < drop < databaseAdmin < instanceAdmin
    && OnlyAt(log, DATA, data) && OnlyAt(log, DROP, drop)
    && OnlyAt(log, DATABASE_ADMIN, databaseAdmin) && OnlyAt(log, INSTANCE_ADMIN, instanceAdmin)
    && OnlyAt(log, CONTAINER, container)
  }

  /** An effect of an owned handle is in the log in exactly one place. */
  lemma PlaceOf(p: Program, run: seq<State>, i: nat, t: nat, d: nat, k: nat) returns (m: nat)
    requires Acyclic(p) && IsRun(p, run) && i < |run|
    requires t < |run[i].threads| && run[i].threads[t].result.Some?
    requires Owns(p, run[i].threads[t].target, d) && IsEffect(p, d, k)
    ensures m < |run[i].log| && run[i].log[m] == (d, k)
    ensures forall n :: 0 <= n < |run[i].log| && run[i].log[n] == (d, k) ==> n == m
  {
    hide Acyclic, IsRun, Owns, IsEffect;
    CloseCompletes(p, run, i, t, d, k);
    var log := run[i].log;
    m :| m < |log| && log[m] == (d, k);
    forall n | 0 <= n < |log| && log[n] == (d, k) ensures n == m {
      if n < m {
        EffectsAtMostOnce(p, run, i, n, m);
      } else if m < n {
        EffectsAtMostOnce(p, run, i, m, n);
      }
    }
  }

  lemma HandleEffects()
    ensures forall k :: 0 <= k < 4 ==> IsEffect(HANDLES, CLIENTS, k)
    ensures IsEffect(HANDLES, EMULATOR, 0)
  {
    assert |HANDLES[CLIENTS]| == 4 && |HANDLES[EMULATOR]| == 1;
    assert HANDLES[CLIENTS][0].Effect? && HANDLES[CLIENTS][1].Effect?;
    assert HANDLES[CLIENTS][2].Effect? && HANDLES[CLIENTS][3].Effect?;
  }

  /** Any mix of Close calls on the overlapping owners: when any Env or RuntimeEnv Close
      has returned, the data client was closed, then the resource was dropped, then the
      admin clients were closed, and the container was terminated, each exactly once. */
  lemma OverlappingOwners(run: seq<State>, i: nat, t: nat)
    requires IsRun(HANDLES, run) && i < |run|
    requires t < |run[i].threads| && run[i].threads[t].result.Some?
    requires run[i].threads[t].target == ENV || run[i].threads[t].target == RUNTIME_ENV
    ensures exists data: nat, drop: nat, databaseAdmin: nat, instanceAdmin: nat, container: nat ::
      ClosedAt(run[i].log, data, drop, databaseAdmin, instanceAdmin, container)
  {
    HandlesAcyclic();
    HandleEffects();
    hide Acyclic, Owns, IsEffect, IsRun;
    var data := PlaceOf(HANDLES, run, i, t, CLIENTS, 0);
    var drop := PlaceOf(HANDLES, run, i, t, CLIENTS, 1);
    var databaseAdmin := PlaceOf(HANDLES, run, i, t, CLIENTS, 2);
    var instanceAdmin := PlaceOf(HANDLES, run, i, t, CLIENTS, 3);
    var container := PlaceOf(HANDLES, run, i, t, EMULATOR, 0);
    RunKeepsInv(HANDLES, run, i);
    assert InBodyOrder(run[i].log);
    hide Inv, NameOf;
    forall n | 0 <= n < |run[i].log| ensures NamedRight(run[i].log[n]) {
      EffectNames(run[i].log[n]);
    }
    assert ClosedAt(run[i].log, data, drop, databaseAdmin, instanceAdmin, container);
  }

  // ------------------------------------------------------------------------
  // The container goes last
  // ------------------------------------------------------------------------

  /** The container is only closed through an Env or a RuntimeEnv. */
  ghost predicate OnlyThroughOwners(s: State) {
    forall t :: 0 <= t < |s.threads| ==> s.threads[t].target != EMULATOR && s.threads[t].target != LAZY
  }

  /** Once the closing of the container has begun, the clients are closed; and its
      termination comes after the close of their last handle. */
  ghost predicate ContainerLast(s: State) {
    && |s.cells| == |HANDLES|
    && (!s.cells[EMULATOR].Idle? ==> s.cells[CLIENTS].Done?)
    && forall m :: 0 <= m < |s.log| && s.log[m] == (EMULATOR, 0) ==> (CLIENTS, 3) in s.log[..m]
  }

  /** An owner that turns to the container has completed the clients. */
  lemma TurnsToContainer(s: State, t: nat)
    requires Inv(HANDLES, s) && OnlyThroughOwners(s) && t < |s.threads|
    requires s.threads[t].result.None? && s.threads[t].entering == Some(EMULATOR)
    ensures s.cells[CLIENTS].Done?
  {
    var th := s.threads[t];
    assert ThreadOk(HANDLES, s, t, th);
    var b := Top(th);
    assert AtCall(HANDLES, s, b, EMULATOR);
    assert b != LAZY by {
      assert th.stack[0] >= b && th.stack[0] == th.target;
    }
    assert b == ENV || b == RUNTIME_ENV;
    assert HANDLES[b] == [Call(CLIENTS), Call(EMULATOR)];
    assert Passed(s, b, 0);
  }

  /** The effect of the container finds the effects of the clients in the log. */
  lemma ClientsLogged(s: State)
    requires Inv(HANDLES, s) && s.cells[CLIENTS].Done?
    ensures (CLIENTS, 3) in s.log
  {
    HandleEffects();
    assert Passed(s, CLIENTS, 3);
  }

  /** A step logs nothing, or one effect of a cell that runs. */
  lemma LogStep(a: State, t: nat, e: Errors)
    requires t < |a.threads| && Next(HANDLES, a, t, e).Some?
    ensures var b := Next(HANDLES, a, t, e).value;
      || b.log == a.log
      || exists x :: b.log == a.log + [x] && (x == (EMULATOR, 0) ==> a.cells[EMULATOR].Running?)
  {
    var th := a.threads[t];
    if th.entering.None? {
      var x := (Top(th), a.cells[Top(th)].pc);
      assert Next(HANDLES, a, t, e).value.log == a.log || Next(HANDLES, a, t, e).value.log == a.log + [x];
    }
  }

  /** The closing of the container begins only when the clients are closed. */
  lemma ContainerBegins(a: State, t: nat, e: Errors)
    requires Inv(HANDLES, a) && OnlyThroughOwners(a) && ContainerLast(a)
    requires t < |a.threads| && Next(HANDLES, a, t, e).Some?
    ensures var b := Next(HANDLES, a, t, e).value;
      |b.cells| == |HANDLES| && (!b.cells[EMULATOR].Idle? ==> a.cells[CLIENTS].Done?)
  {
    if a.threads[t].entering == Some(EMULATOR) {
      TurnsToContainer(a, t);
    }
    hide Inv, OnlyThroughOwners;
  }

  lemma ContainerLastStep(a: State, t: nat, e: Errors)
    requires Inv(HANDLES, a) && OnlyThroughOwners(a) && ContainerLast(a)
    requires t < |a.threads| && Next(HANDLES, a, t, e).Some?
    ensures OnlyThroughOwners(Next(HANDLES, a, t, e).value) && ContainerLast(Next(HANDLES, a, t, e).value)
  {
    var b := Next(HANDLES, a, t, e).value;
    DoneStaysStep(HANDLES, a, t, e);
    ContainerBegins(a, t, e);
    if a.cells[CLIENTS].Done? {
      ClientsLogged(a);
    }
    LogStep(a, t, e);
    hide Inv, Next;
    forall m | 0 <= m < |b.log| && b.log[m] == (EMULATOR, 0) ensures (CLIENTS, 3) in b.log[..m] {
      if m < |a.log| {
        assert a.log[m] == (EMULATOR, 0) && b.log[..m] == a.log[..m];
      } else {
        assert b.log[..m] == a.log;
      }
    }
  }

  lemma {:induction false} RunKeepsContainerLast(run: seq<State>, i: nat)
    requires IsRun(HANDLES, run) && OnlyThroughOwners(run[0]) && i < |run|
    ensures OnlyThroughOwners(run[i]) && ContainerLast(run[i])
    decreases i
  {
    HandlesAcyclic();
    if i == 0 {
    } else {
      RunKeepsContainerLast(run, i - 1);
      RunKeepsInv(HANDLES, run, i - 1);
      hide Acyclic, Inv, Next, ContainerLast;
      var a := run[i - 1];
      assert Step(HANDLES, a, run[i - 1 + 1]);
      var t: nat, e: Errors :| t < |a.threads| && Next(HANDLES, a, t, e) == Some(run[i]);
      ContainerLastStep(a, t, e);
    }
  }

  /** The order across handles: if nobody closes the container or a lazy handle directly,
      the container is terminated after everything of the clients, drops included. */
  lemma ContainerGoesLast(run: seq<State>, i: nat, t: nat)
    requires IsRun(HANDLES, run) && OnlyThroughOwners(run[0]) && i < |run|
    requires t < |run[i].threads| && run[i].threads[t].result.Some?
    requires run[i].threads[t].target == ENV || run[i].threads[t].target == RUNTIME_ENV
    ensures exists data: nat, drop: nat, databaseAdmin: nat, instanceAdmin: nat, container: nat ::
      ClosedAt(run[i].log, data, drop, databaseAdmin, instanceAdmin, container) && instanceAdmin < container
  {
    OverlappingOwners(run, i, t);
    RunKeepsContainerLast(run, i);
    hide IsRun, NameOf;
    var log := run[i].log;
    var data: nat, drop: nat, databaseAdmin: nat, instanceAdmin: nat, container: nat :|
      ClosedAt(log, data, drop, databaseAdmin, instanceAdmin, container);
    EffectNames(log[container]);
    var m :| 0 <= m < container && log[..container][m] == (CLIENTS, 3);
    EffectNames(log[m]);
    assert log[m] == (CLIENTS, 3);
  }

  lemma Grow(p: Program, run: seq<State>, t: nat, e: Errors) returns (longer: seq<State>)
    requires IsRun(p, run) && t < |run[|run| - 1].threads| && Next(p, run[|run| - 1], t, e).Some?
    ensures IsRun(p, longer) && longer != [] && longer[|longer| - 1] == Next(p, run[|run| - 1], t, e).value
  {
    longer := run + [Next(p, run[|run| - 1], t, e).value];
    hide Next;
    forall k | 0 <= k < |longer| - 1 ensures Step(p, longer[k], longer[k + 1]) {
      if k < |run| - 1 {
        assert Step(p, run[k], run[k + 1]);
      }
    }
  }

  /** One goroutine closes the emulator. */
  lemma ContainerClosed() returns (run: seq<State>)
    ensures IsRun(HANDLES, run) && run != []
    ensures var s := run[|run| - 1];
      && |s.cells| == 5 && (forall c :: 1 <= c < 5 ==> s.cells[c] == Idle) && s.log == [(EMULATOR, 0)]
      && |s.threads| == 2 && s.threads[1] == Thread(ENV, [], Some(ENV), None)
  {
    var direct, owner := Thread(EMULATOR, [], Some(EMULATOR), None), Thread(ENV, [], Some(ENV), None);
    run := [State([Idle, Idle, Idle, Idle, Idle], [direct, owner], [], map[])];
    assert IsRun(HANDLES, run);
    hide IsRun;
    run := Grow(HANDLES, run, 0, []);
    run := Grow(HANDLES, run, 0, []);
  }

  /** Closed directly by one goroutine, the container may go before the clients of an Env
      that another one closes. */
  lemma ContainerMayGoFirst()
    ensures exists run: seq<State>, i: nat ::
      IsRun(HANDLES, run) && i < |run| && run[i].log == [(EMULATOR, 0), (CLIENTS, 0)]
  {
    var run := ContainerClosed();
    hide IsRun;
    run := Grow(HANDLES, run, 1, []);
    run := Grow(HANDLES, run, 1, []);
    run := Grow(HANDLES, run, 1, []);
    run := Grow(HANDLES, run, 1, []);
    assert run[|run| - 1].log == [(EMULATOR, 0), (CLIENTS, 0)];
  }
}
