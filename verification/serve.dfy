/** Serving a runtime: the endpoint file is written atomically, removed before the
    runtime closes, and the PID file surrounds both (serve.go, endpoint.go).

    Machine stands for the file system and the runtime of this process. Every effect
    adds a snapshot to its history, so a claim about all snapshots is a claim about what
    anybody could have seen at any time. Any operation on a file may fail. */
module Serve {
  import opened Common
  import opened Ids

  /** A cleaned path, split at its last separator. */
  datatype FilePath = FilePath(dir: string, base: string)

  datatype File = File(content: string, mode: nat)

  datatype Snapshot = Snapshot(files: map<FilePath, File>, runtimeOpen: bool)

  /** What was asked of the machine, with its answer. A wait says how the context ended,
      what others removed meanwhile, and what there was at its end. */
  datatype Call =
    | DirMade(dir: string, ok: bool)
    | TempCreated(path: FilePath, ok: bool)
    | Written(path: FilePath, ok: bool)
    | ModeSet(path: FilePath, ok: bool)
    | TempClosed(path: FilePath, ok: bool)
    | Renamed(from: FilePath, to: FilePath, ok: bool)
    | Removed(path: FilePath, ok: bool)
    | PIDWritten(path: FilePath, ok: bool)
    | RuntimeStarted(ok: bool)
    | Waited(cancelled: bool, gone: set<FilePath>, end: Snapshot)
    | RuntimeClosed

  const OWNER_ONLY: nat := 0x180 // 0600
  const TEMP_PREFIX := ".endpoint-"
  const TEMP_SUFFIX := ".json"

  /** os.CreateTemp draws a 32-bit number and writes it in decimal. */
  const DRAWS: nat := 0x1_0000_0000

  function Digit(d: nat): char
    requires d < 10
  {
    ('0' as int + d) as char
  }

  function Numeral(n: nat): string {
    (if n < 10 then "" else Numeral(n / 10)) + [Digit(n % 10)]
  }

  predicate Digits(s: string) {
    forall i :: 0 <= i < |s| ==> '0' <= s[i] <= '9'
  }

  function ValueOf(s: string): nat
    requires Digits(s)
    decreases |s|
  {
    if s == "" then 0 else 10 * ValueOf(s[..|s| - 1]) + (s[|s| - 1] as int - '0' as int)
  }

  /** Digits without a leading zero. */
  predicate IsNumeral(s: string) {
    s != "" && Digits(s) && (|s| == 1 || s[0] != '0')
  }

  lemma OneMoreDigit(front: string, d: nat)
    requires Digits(front) && d < 10
    ensures Digits(front + [Digit(d)]) && ValueOf(front + [Digit(d)]) == 10 * ValueOf(front) + d
  {
    assert (front + [Digit(d)])[..|front|] == front;
  }

  lemma LastDigit(s: string)
    requires s != "" && Digits(s)
    ensures s == s[..|s| - 1] + [Digit(s[|s| - 1] as int - '0' as int)]
  {
  }

  lemma NumeralTail(n: nat)
    ensures Numeral(n) == (if n < 10 then "" else Numeral(n / 10)) + [Digit(n % 10)]
  {
  }

  lemma {:induction false} NumeralReadsBack(n: nat)
    ensures IsNumeral(Numeral(n)) && ValueOf(Numeral(n)) == n && (n > 0 ==> Numeral(n)[0] != '0')
  {
    NumeralTail(n);
    OneMoreDigit("", n % 10);
    assert ValueOf("") == 0 && [Digit(n % 10)] == "" + [Digit(n % 10)];
    hide Numeral, ValueOf;
    if n < 10 {
    } else {
      NumeralReadsBack(n / 10);
      OneMoreDigit(Numeral(n / 10), n % 10);
    }
  }

  lemma DivideByTen(v: nat, d: nat)
    requires d < 10
    ensures (10 * v + d) / 10 == v && (10 * v + d) % 10 == d
  {
  }

  /** A numeral is one digit, or a numeral without a leading zero and one more digit. */
  lemma NumeralFront(s: string)
    requires IsNumeral(s) && |s| > 1
    ensures IsNumeral(s[..|s| - 1]) && s[0] != '0' && s[..|s| - 1][0] == s[0]
  {
  }

  lemma DigitReadsBack(d: nat)
    requires d < 10
    ensures Numeral(d) == [Digit(d)] && Digits([Digit(d)]) && ValueOf([Digit(d)]) == d
  {
    assert [Digit(d)][..0] == "" && ValueOf("") == 0;
  }

  lemma OneDigit(s: string)
    requires IsNumeral(s) && |s| == 1
    ensures Numeral(ValueOf(s)) == s && (s[0] != '0' ==> ValueOf(s) > 0)
  {
    var d := s[0] as int - '0' as int;
    assert s == [Digit(d)] && (s[0] != '0' ==> d > 0);
    hide Numeral, ValueOf, Digit, Digits;
    DigitReadsBack(d);
  }

  lemma {:induction false} ValueWritesBack(s: string)
    requires IsNumeral(s)
    ensures Numeral(ValueOf(s)) == s && (s[0] != '0' ==> ValueOf(s) > 0)
    decreases |s|
  {
    if |s| == 1 {
      OneDigit(s);
    } else {
      var front, d := s[..|s| - 1], s[|s| - 1] as int - '0' as int;
      NumeralFront(s);
      LastDigit(s);
      hide Numeral, ValueOf, Digit, Digits;
      ValueWritesBack(front);
      OneMoreDigit(front, d);
      DivideByTen(ValueOf(front), d);
      NumeralTail(ValueOf(s));
    }
  }

  /** The names that os.CreateTemp makes from ".endpoint-*.json". */
  predicate TempName(base: string) {
    && |base| >= |TEMP_PREFIX| + |TEMP_SUFFIX|
    && base[..|TEMP_PREFIX|] == TEMP_PREFIX
    && base[|base| - |TEMP_SUFFIX|..] == TEMP_SUFFIX
    && var middle := base[|TEMP_PREFIX|..|base| - |TEMP_SUFFIX|];
       IsNumeral(middle) && ValueOf(middle) < DRAWS
  }

  function TempBase(draw: nat): string {
    TEMP_PREFIX + Numeral(draw) + TEMP_SUFFIX
  }

  /** For some draw of os.CreateTemp, its file is `path`, exactly when there is no such
      file yet and its name has the shape of a temporary one. */
  lemma DrawnExactly(path: FilePath, files: map<FilePath, File>)
    ensures (exists draw: nat :: draw < DRAWS && FilePath(path.dir, TempBase(draw)) == path && path !in files)
       <==> path !in files && TempName(path.base)
  {
    hide Numeral, ValueOf;
    if TempName(path.base) {
      var middle := path.base[|TEMP_PREFIX|..|path.base| - |TEMP_SUFFIX|];
      ValueWritesBack(middle);
      assert path.base == TempBase(ValueOf(middle));
    }
    forall draw: nat | draw < DRAWS && path.base == TempBase(draw) ensures TempName(path.base) {
      NumeralReadsBack(draw);
      assert path.base[|TEMP_PREFIX|..|path.base| - |TEMP_SUFFIX|] == Numeral(draw);
    }
  }

  class Machine {
    var files: map<FilePath, File>
    var runtimeOpen: bool
    ghost var history: seq<Snapshot>
    ghost var calls: seq<Call>
    ghost var failedRemovals: multiset<FilePath>
    // what others removed
    ghost var lost: set<FilePath>

    ghost function Now(): Snapshot
      reads this
    {
      Snapshot(files, runtimeOpen)
    }

    method Record()
      modifies this`history
      ensures history == old(history) + [Now()]
    {
      history := history + [Now()];
    }

    /** os.MkdirAll */
    method MakeDir(dir: string) returns (ok: bool)
      modifies this`calls
      ensures calls == old(calls) + [DirMade(dir, ok)]
    {
      ok := *;
      calls := calls + [DirMade(dir, ok)];
    }

    method CloseTemp(p: FilePath) returns (ok: bool)
      modifies this`calls
      ensures calls == old(calls) + [TempClosed(p, ok)]
    {
      ok := *;
      calls := calls + [TempClosed(p, ok)];
    }

    /** os.CreateTemp: an empty file under a name not in use, made from the last draw. */
    method CreateTemp(dir: string, draw: nat) returns (tmp: FilePath, ok: bool)
      modifies this`files, this`history, this`calls
      ensures calls == old(calls) + [TempCreated(tmp, ok)]
      ensures history == old(history) + [Now()]
      ensures tmp == FilePath(dir, TempBase(draw))
      ensures !ok ==> files == old(files)
      ensures ok ==> tmp !in old(files) && exists mode :: files == old(files)[tmp := File("", mode)]
    {
      var mode: nat :| 0 <= mode;
      tmp := FilePath(dir, TempBase(draw));
      ok := *;
      ok := ok && tmp !in files;
      if ok {
        files := files[tmp := File("", mode)];
      }
      calls := calls + [TempCreated(tmp, ok)];
      Record();
    }

    /** Writing to an open file: anything may be there half-way, and it may stay so. */
    method Write(p: FilePath, data: string) returns (ok: bool)
      requires p in files
      modifies this`files, this`history, this`calls
      ensures calls == old(calls) + [Written(p, ok)]
      ensures |history| == |old(history)| + 2 && old(history) <= history && history[|history| - 1] == Now()
      ensures history[|old(history)|].runtimeOpen == runtimeOpen
      ensures exists part :: history[|old(history)|].files == old(files)[p := File(part, old(files)[p].mode)]
      ensures exists part :: files == old(files)[p := File(part, old(files)[p].mode)] && (ok ==> part == data)
    {
      var part: string :| |part| <= |data|;
      files := files[p := files[p].(content := part)];
      Record();
      ok := *;
      if ok {
        files := files[p := files[p].(content := data)];
      }
      calls := calls + [Written(p, ok)];
      Record();
    }

    method Chmod(p: FilePath, mode: nat) returns (ok: bool)
      requires p in files
      modifies this`files, this`history, this`calls
      ensures calls == old(calls) + [ModeSet(p, ok)]
      ensures history == old(history) + [Now()]
      ensures files == if ok then old(files)[p := old(files)[p].(mode := mode)] else old(files)
    {
      ok := *;
      if ok {
        files := files[p := files[p].(mode := mode)];
      }
      calls := calls + [ModeSet(p, ok)];
      Record();
    }

    /** os.Rename is atomic. */
    method Rename(from: FilePath, to: FilePath) returns (ok: bool)
      requires from in files
      modifies this`files, this`history, this`calls
      ensures calls == old(calls) + [Renamed(from, to, ok)]
      ensures history == old(history) + [Now()]
      ensures files == if ok then (old(files) - {from})[to := old(files)[from]] else old(files)
    {
      ok := *;
      if ok {
        files := (files - {from})[to := files[from]];
      }
      calls := calls + [Renamed(from, to, ok)];
      Record();
    }

    /** os.Remove, with "does not exist" counted as success. */
    method Remove(p: FilePath) returns (ok: bool)
      modifies this`files, this`history, this`failedRemovals, this`calls
      ensures calls == old(calls) + [Removed(p, ok)]
      ensures history == old(history) + [Now()]
      ensures files == if ok then old(files) - {p} else old(files)
      ensures p !in old(files) ==> ok
      ensures failedRemovals == old(failedRemovals) + (if ok then multiset{} else multiset{p})
    {
      ok := *;
      if ok || p !in files {
        files := files - {p};
        ok := true;
      } else {
        failedRemovals := failedRemovals + multiset{p};
      }
      calls := calls + [Removed(p, ok)];
      Record();
    }

    /** os.WriteFile: not atomic, and a failure may leave part of the data behind. */
    method WriteFile(p: FilePath, data: string) returns (ok: bool)
      modifies this`files, this`history, this`calls
      ensures calls == old(calls) + [PIDWritten(p, ok)]
      ensures |history| == |old(history)| + 2 && old(history) <= history && history[|history| - 1] == Now()
      ensures history[|old(history)|].runtimeOpen == runtimeOpen
      ensures history[|old(history)|].files - {p} == old(files) - {p}
      ensures files - {p} == old(files) - {p}
      ensures ok ==> p in files && files[p].content == data
    {
      var part: string :| |part| <= |data|;
      var mode: nat :| 0 <= mode;
      var created: bool := *;
      if created {
        files := files[p := File(part, mode)];
      }
      Record();
      ok := *;
      ok := ok && created;
      if ok {
        files := files[p := File(data, mode)];
      }
      calls := calls + [PIDWritten(p, ok)];
      Record();
    }

    /** Run: the runtime of this process starts, or it does not. */
    method StartRuntime() returns (ok: bool)
      modifies this`runtimeOpen, this`history, this`calls
      ensures calls == old(calls) + [RuntimeStarted(ok)]
      ensures history == old(history) + [Now()]
      ensures runtimeOpen == (ok || old(runtimeOpen))
    {
      ok := *;
      if ok {
        runtimeOpen := true;
      }
      calls := calls + [RuntimeStarted(ok)];
      Record();
    }

    /** Runtime.Close. runtimeOpen says that it has yet to be called; what it returns does
        not change that. */
    method CloseRuntime() returns (failed: bool)
      modifies this`runtimeOpen, this`history, this`calls
      ensures calls == old(calls) + [RuntimeClosed]
      ensures history == old(history) + [Now()] && !runtimeOpen
    {
      runtimeOpen := false;
      failed := *;
      calls := calls + [RuntimeClosed];
      Record();
    }

    /** The time until ctx is done, by being cancelled or otherwise, in which others may
        remove files. */
    method Wait() returns (cancelled: bool, ghost gone: set<FilePath>)
      modifies this`files, this`history, this`lost, this`calls
      ensures calls == old(calls) + [Waited(cancelled, gone, Now())]
      ensures history == old(history) + [Now()]
      ensures lost == old(lost) + gone && files == old(files) - gone
    {
      var removed: set<FilePath> :| removed <= files.Keys;
      files := files - removed;
      gone := removed;
      lost := lost + gone;
      cancelled := *;
      calls := calls + [Waited(cancelled, gone, Now())];
      Record();
    }
  }

  // ------------------------------------------------------------------------
  // The endpoint file
  // ------------------------------------------------------------------------

  datatype Endpoint = Endpoint(backend: string, uri: string, projectID: string, instanceID: string,
                               managedBy: string, pid: int, startedAt: string)

  datatype EndpointError = UnsupportedBackend | NoURI | NoProject | NoInstance

  /** What a client needs to know of an endpoint. */
  predicate Usable(e: Endpoint) {
    e.backend in {"emulator", "omni"} && !Blank(e.uri) && !Blank(e.projectID) && !Blank(e.instanceID)
  }

  /** Endpoint.validate. */
  function Validate(e: Endpoint): (r: Option<EndpointError>)
    ensures r.None? <==> Usable(e)
  {
    if e.backend != "emulator" && e.backend != "omni" then Some(UnsupportedBackend)
    else if Blank(e.uri) then Some(NoURI)
    else if Blank(e.projectID) then Some(NoProject)
    else if Blank(e.instanceID) then Some(NoInstance)
    else None
  }

  datatype SaveError =
    | Invalid(reason: EndpointError)
    | MarshalFailed
    | MkdirFailed
    | CreateTempFailed
    | WriteFailed
    | ChmodFailed
    | CloseFailed
    | RenameFailed

  /** The complete new content of the target. */
  function EndpointFile(data: string): File {
    File(data + "\n", OWNER_ONLY)
  }

  predicate Same(p: FilePath, a: map<FilePath, File>, b: map<FilePath, File>) {
    (p in a <==> p in b) && (p in a ==> a[p] == b[p])
  }

  /** No step shows p with anything but what it held before. */
  ghost predicate Kept(p: FilePath, before: map<FilePath, File>, steps: seq<Snapshot>) {
    forall k :: 0 <= k < |steps| ==> Same(p, before, steps[k].files)
  }

  /** No step touches the runtime, or a file that is not one of these. */
  ghost predicate OnlyTouch(ps: set<FilePath>, open: bool, before: map<FilePath, File>, steps: seq<Snapshot>) {
    forall k :: 0 <= k < |steps| ==> steps[k].runtimeOpen == open && steps[k].files - ps == before - ps
  }

  lemma SameAway(ps: set<FilePath>, a: map<FilePath, File>, b: map<FilePath, File>, p: FilePath)
    requires a - ps == b - ps && p !in ps
    ensures Same(p, a, b)
  {
    assert p in a <==> p in a - ps;
    assert p in b <==> p in b - ps;
  }

  lemma OnlyTouchKeeps(ps: set<FilePath>, open: bool, before: map<FilePath, File>, steps: seq<Snapshot>, p: FilePath)
    requires OnlyTouch(ps, open, before, steps) && p !in ps
    ensures Kept(p, before, steps)
  {
    forall k | 0 <= k < |steps| ensures Same(p, before, steps[k].files) {
      SameAway(ps, before, steps[k].files, p);
    }
  }

  lemma OnlyTouchSnoc(ps: set<FilePath>, open: bool, before: map<FilePath, File>, steps: seq<Snapshot>, s: Snapshot)
    requires OnlyTouch(ps, open, before, steps) && s.runtimeOpen == open && s.files - ps == before - ps
    ensures OnlyTouch(ps, open, before, steps + [s])
  {
  }

  lemma OnlyTouchMore(ps: set<FilePath>, qs: set<FilePath>, open: bool, before: map<FilePath, File>,
                      steps: seq<Snapshot>)
    requires OnlyTouch(ps, open, before, steps) && ps <= qs
    ensures OnlyTouch(qs, open, before, steps)
  {
    forall k | 0 <= k < |steps| ensures steps[k].files - qs == before - qs {
      assert steps[k].files - qs == (steps[k].files - ps) - qs && before - qs == (before - ps) - qs;
    }
  }

  lemma NothingTouched(path: FilePath, open: bool, files: map<FilePath, File>)
    ensures OnlyTouch({}, open, files, []) && Kept(path, files, [])
    ensures OnlyTouch({}, open, files, [Snapshot(files, open)]) && Kept(path, files, [Snapshot(files, open)])
  {
  }

  /** What held since the temporary file exists, held since before. */
  lemma AfterCreate(before: map<FilePath, File>, start: map<FilePath, File>, tmp: FilePath, path: FilePath,
                    open: bool, steps: seq<Snapshot>, rest: seq<Snapshot>)
    requires tmp !in before && tmp in start && start - {tmp} == before
    requires steps == [Snapshot(start, open)] + rest
    requires OnlyTouch({path, tmp}, open, start, rest)
    ensures OnlyTouch({path, tmp}, open, before, steps)
    ensures tmp != path && Kept(path, start, rest) ==> Kept(path, before, steps)
    ensures tmp != path && rest != [] && Kept(path, start, rest[..|rest| - 1]) ==>
              Kept(path, before, steps[..|steps| - 1])
    ensures tmp == path ==> !Kept(path, before, steps) && (rest != [] ==> !Kept(path, before, steps[..|steps| - 1]))
  {
    assert steps[0] == Snapshot(start, open);
    assert rest != [] ==> steps[..|steps| - 1][0] == Snapshot(start, open);
  }

  /** What filling the temporary file asks, up to the first thing that fails; the file is
      closed in any case. */
  ghost function FillCalls(tmp: FilePath, err: Option<SaveError>, closed: bool): seq<Call> {
    match err
    case Some(WriteFailed) => [Written(tmp, false), TempClosed(tmp, closed)]
    case Some(ChmodFailed) => [Written(tmp, true), ModeSet(tmp, false), TempClosed(tmp, closed)]
    case Some(CloseFailed) => [Written(tmp, true), ModeSet(tmp, true), TempClosed(tmp, false)]
    case _ => [Written(tmp, true), ModeSet(tmp, true), TempClosed(tmp, true)]
  }

  /** What replacing the target asks: on any failure the temporary file is removed. */
  ghost function ReplaceCalls(tmp: FilePath, path: FilePath, err: Option<SaveError>, closed: bool, removed: bool)
    : seq<Call>
  {
    FillCalls(tmp, err, closed)
    + match err
      case None => [Renamed(tmp, path, true)]
      case Some(RenameFailed) => [Renamed(tmp, path, false), Removed(tmp, removed)]
      case _ => [Removed(tmp, removed)]
  }

  lemma ReplaceCallsJoin(tmp: FilePath, path: FilePath, filled: Option<SaveError>, closed: bool, removed: bool)
    requires filled.Some? ==> filled.value in {WriteFailed, ChmodFailed, CloseFailed}
    ensures filled == None ==>
              && ReplaceCalls(tmp, path, None, closed, removed)
                 == FillCalls(tmp, None, closed) + [Renamed(tmp, path, true)]
              && ReplaceCalls(tmp, path, Some(RenameFailed), closed, removed)
                 == FillCalls(tmp, None, closed) + [Renamed(tmp, path, false)] + [Removed(tmp, removed)]
    ensures filled.Some? ==>
              ReplaceCalls(tmp, path, filled, closed, removed)
              == FillCalls(tmp, filled, closed) + [Removed(tmp, removed)]
  {
  }

  /** The steps of SaveEndpoint on the temporary file: write, chmod, close. */
  method FillTemp(m: Machine, tmp: FilePath, data: string)
    returns (err: Option<SaveError>, ghost steps: seq<Snapshot>, ghost closed: bool)
    requires tmp in m.files
    modifies m`files, m`history, m`calls
    ensures m.calls == old(m.calls) + FillCalls(tmp, err, closed)
    ensures tmp in m.files && m.files - {tmp} == old(m.files) - {tmp}
    ensures err == None ==> m.files[tmp] == File(data, OWNER_ONLY)
    ensures err.Some? ==> err.value in {WriteFailed, ChmodFailed, CloseFailed}
    ensures m.history == old(m.history) + steps
    ensures OnlyTouch({tmp}, m.runtimeOpen, old(m.files), steps)
  {
    var written := m.Write(tmp, data);
    steps := m.history[|old(m.history)|..];
    if !written {
      closed := m.CloseTemp(tmp);
      return Some(WriteFailed), steps, closed;
    }
    var modeSet := m.Chmod(tmp, OWNER_ONLY);
    steps := m.history[|old(m.history)|..];
    if !modeSet {
      closed := m.CloseTemp(tmp);
      return Some(ChmodFailed), steps, closed;
    }
    var ok := m.CloseTemp(tmp);
    return if ok then None else Some(CloseFailed), steps, ok;
  }

  /** SaveEndpoint, once its temporary file exists: fill it, then rename it over the
      target, or remove it. */
  method ReplaceVia(m: Machine, tmp: FilePath, path: FilePath, data: string)
    returns (err: Option<SaveError>, ghost steps: seq<Snapshot>, ghost closed: bool, ghost removed: bool)
    requires tmp in m.files
    modifies m`files, m`history, m`failedRemovals, m`calls
    ensures m.calls == old(m.calls) + ReplaceCalls(tmp, path, err, closed, removed)
    ensures err.Some? ==> err.value in {WriteFailed, ChmodFailed, CloseFailed, RenameFailed}
    ensures m.history == old(m.history) + steps && steps != [] && steps[|steps| - 1] == m.Now()
    ensures OnlyTouch({path, tmp}, m.runtimeOpen, old(m.files), steps)
    ensures err == None ==>
              && m.files == (old(m.files) - {tmp})[path := File(data, OWNER_ONLY)]
              && (tmp != path ==> Kept(path, old(m.files), steps[..|steps| - 1]))
    ensures err != None ==>
              && (tmp != path ==> Kept(path, old(m.files), steps))
              && (m.failedRemovals == old(m.failedRemovals) ==> m.files == old(m.files) - {tmp})
              && (m.failedRemovals != old(m.failedRemovals) ==>
                    m.failedRemovals == old(m.failedRemovals) + multiset{tmp}
                        && m.files - {tmp} == old(m.files) - {tmp})
    ensures err == None ==> m.failedRemovals == old(m.failedRemovals)
  {
    hide OnlyTouch, Kept, Same, FillCalls, ReplaceCalls;
    removed := true;
    err, steps, closed := FillTemp(m, tmp, data);
    ghost var filled := err;
    ReplaceCallsJoin(tmp, path, filled, closed, removed);
    OnlyTouchMore({tmp}, {path, tmp}, m.runtimeOpen, old(m.files), steps);
    if err == None {
      var renamed := m.Rename(tmp, path);
      if renamed {
        if tmp != path {
          OnlyTouchKeeps({tmp}, m.runtimeOpen, old(m.files), steps, path);
        }
        OnlyTouchSnoc({path, tmp}, m.runtimeOpen, old(m.files), steps, m.Now());
        ghost var filling := steps;
        steps := steps + [m.Now()];
        assert steps[..|steps| - 1] == filling;
        return None, steps, closed, removed;
      }
      OnlyTouchSnoc({tmp}, m.runtimeOpen, old(m.files), steps, m.Now());
      steps := steps + [m.Now()];
      err := Some(RenameFailed);
    }
    var gone := m.Remove(tmp);
    removed := gone;
    ReplaceCallsJoin(tmp, path, filled, closed, removed);
    OnlyTouchSnoc({tmp}, m.runtimeOpen, old(m.files), steps, m.Now());
    steps := steps + [m.Now()];
    OnlyTouchMore({tmp}, {path, tmp}, m.runtimeOpen, old(m.files), steps);
    if tmp != path {
      OnlyTouchKeeps({tmp}, m.runtimeOpen, old(m.files), steps, path);
    }
  }

  /** What saving asks, with the first thing that fails as its error. */
  ghost function SaveCalls(path: FilePath, tmp: FilePath, err: Option<SaveError>, closed: bool, removed: bool)
    : seq<Call>
  {
    match err
    case Some(Invalid(_)) => []
    case Some(MarshalFailed) => []
    case Some(MkdirFailed) => [DirMade(path.dir, false)]
    case Some(CreateTempFailed) => [DirMade(path.dir, true), TempCreated(tmp, false)]
    case _ => [DirMade(path.dir, true), TempCreated(tmp, true)] + ReplaceCalls(tmp, path, err, closed, removed)
  }

  lemma SaveCallsJoin(path: FilePath, tmp: FilePath, err: Option<SaveError>, closed: bool, removed: bool)
    ensures forall reason :: SaveCalls(path, tmp, Some(Invalid(reason)), closed, removed) == []
    ensures SaveCalls(path, tmp, Some(MarshalFailed), closed, removed) == []
    ensures SaveCalls(path, tmp, Some(MkdirFailed), closed, removed) == [DirMade(path.dir, false)]
    ensures SaveCalls(path, tmp, Some(CreateTempFailed), closed, removed)
         == [DirMade(path.dir, true)] + [TempCreated(tmp, false)]
    ensures (err == None || err.value in {WriteFailed, ChmodFailed, CloseFailed, RenameFailed}) ==>
              SaveCalls(path, tmp, err, closed, removed)
              == [DirMade(path.dir, true)] + [TempCreated(tmp, true)] + ReplaceCalls(tmp, path, err, closed, removed)
  {
    hide ReplaceCalls;
  }

  /** The calls of a save with this result. An endpoint that is not usable, or that cannot
      be marshalled, is refused before anything is touched. */
  ghost predicate SavedWith(path: FilePath, e: Endpoint, marshalled: Option<string>, draw: nat,
                            err: Option<SaveError>, calls: seq<Call>) {
    && (err.Some? && err.value.Invalid? <==> !Usable(e))
    && (err == Some(MarshalFailed) <==> Usable(e) && marshalled.None?)
    && exists closed: bool, removed: bool ::
         calls == SaveCalls(path, FilePath(path.dir, TempBase(draw)), err, closed, removed)
  }

  /** SaveEndpoint; marshalled is the outcome of json.MarshalIndent, and draw that
      of os.CreateTemp.

      Under a fault at any step, the target holds its old content at every step but the
      last one of a success, which puts the complete new content in place, exactly if the
      temporary file is another one than the target. A failure leaves a temporary file
      only if removing it failed too. */
  method SaveEndpoint(m: Machine, path: FilePath, e: Endpoint, marshalled: Option<string>, draw: nat)
    returns (err: Option<SaveError>, ghost steps: seq<Snapshot>, ghost tmp: Option<FilePath>,
             ghost calls: seq<Call>)
    requires draw < DRAWS
    modifies m`files, m`history, m`failedRemovals, m`calls
    ensures m.calls == old(m.calls) + calls && SavedWith(path, e, marshalled, draw, err, calls)
    ensures m.history == old(m.history) + steps
    ensures steps == [] ==> m.files == old(m.files)
    ensures steps != [] ==> steps[|steps| - 1] == m.Now()
    ensures tmp == None ==> err != None && OnlyTouch({}, m.runtimeOpen, old(m.files), steps)
    ensures tmp.Some? ==>
              && OnlyTouch({path, tmp.value}, m.runtimeOpen, old(m.files), steps)
              && tmp.value !in old(m.files) && tmp.value == FilePath(path.dir, TempBase(draw))
    ensures err == None ==>
              && steps != [] && marshalled.Some?
              && m.files == old(m.files)[path := EndpointFile(marshalled.value)]
              && (Kept(path, old(m.files), steps[..|steps| - 1]) <==> tmp != Some(path))
    ensures err != None ==>
              && (Kept(path, old(m.files), steps) <==> tmp != Some(path))
              && (m.failedRemovals == old(m.failedRemovals) ==> m.files == old(m.files))
              && (m.failedRemovals != old(m.failedRemovals) ==>
                    tmp.Some? && m.failedRemovals == old(m.failedRemovals) + multiset{tmp.value}
                        && m.files - {tmp.value} == old(m.files))
    ensures err == None ==> m.failedRemovals == old(m.failedRemovals)
  {
    steps, tmp, calls := [], None, [];
    ghost var tempPath := FilePath(path.dir, TempBase(draw));
    hide TempBase, SaveCalls, ReplaceCalls, Usable, OnlyTouch, Kept;
    NothingTouched(path, m.runtimeOpen, m.files);
    SaveCallsJoin(path, tempPath, None, true, true);
    var invalid := Validate(e);
    if invalid.Some? {
      assert calls == SaveCalls(path, tempPath, Some(Invalid(invalid.value)), true, true);
      return Some(Invalid(invalid.value)), steps, tmp, calls;
    }
    if marshalled.None? {
      assert calls == SaveCalls(path, tempPath, Some(MarshalFailed), true, true);
      return Some(MarshalFailed), steps, tmp, calls;
    }
    var madeDir := m.MakeDir(path.dir);
    if !madeDir {
      calls := SaveCalls(path, tempPath, Some(MkdirFailed), true, true);
      return Some(MkdirFailed), steps, tmp, calls;
    }
    var tmpPath, created := m.CreateTemp(path.dir, draw);
    steps := [m.Now()];
    if !created {
      calls := SaveCalls(path, tempPath, Some(CreateTempFailed), true, true);
      return Some(CreateTempFailed), steps, tmp, calls;
    }
    tmp := Some(tmpPath);
    ghost var writing, closed, removed;
    ghost var start := m.files;
    err, writing, closed, removed := ReplaceVia(m, tmpPath, path, marshalled.value + "\n");
    steps := steps + writing;
    calls := SaveCalls(path, tmpPath, err, closed, removed);
    SaveCallsJoin(path, tempPath, err, closed, removed);
    AfterCreate(old(m.files), start, tmpPath, path, m.runtimeOpen, steps, writing);
    assert start - {tmpPath} == old(m.files);
    if err == None {
      assert steps[..|steps| - 1] == [steps[0]] + writing[..|writing| - 1];
    }
  }

  /** What json.Unmarshal makes of the content, then validate. */
  method ReadEndpointFile(m: Machine, path: FilePath, unmarshal: string -> Option<Endpoint>)
    returns (r: Option<Endpoint>)
    ensures r.Some? <==>
            path in m.files && unmarshal(m.files[path].content).Some?
                && Usable(unmarshal(m.files[path].content).value)
    ensures r.Some? ==> r == unmarshal(m.files[path].content)
  {
    if path !in m.files {
      return None;
    }
    r := unmarshal(m.files[path].content);
    if r.Some? && Validate(r.value).Some? {
      return None;
    }
  }

  /** With a codec that reads what it writes, an endpoint that was saved is read back
      as it was. */
  method SaveThenRead(m: Machine, path: FilePath, e: Endpoint, draw: nat,
                      marshal: Endpoint -> string, unmarshal: string -> Option<Endpoint>)
    returns (err: Option<SaveError>, r: Option<Endpoint>)
    requires draw < DRAWS
    requires forall x :: unmarshal(marshal(x) + "\n") == Some(x)
    modifies m`files, m`history, m`failedRemovals, m`calls
    ensures err == None ==> r == Some(e)
  {
    ghost var steps, tmp, calls;
    err, steps, tmp, calls := SaveEndpoint(m, path, e, Some(marshal(e)), draw);
    r := ReadEndpointFile(m, path, unmarshal);
  }

  // ------------------------------------------------------------------------
  // Serve
  // ------------------------------------------------------------------------

  datatype ServeError = StartFailed | EndpointFailed | SaveFailed(reason: SaveError) | DeadlineExceeded | PIDWriteFailed

  /** At no step is p there without an open runtime. */
  ghost predicate OnlyWhileOpen(p: FilePath, steps: seq<Snapshot>) {
    forall k :: 0 <= k < |steps| ==> p in steps[k].files ==> steps[k].runtimeOpen
  }

  /** At every step with an open runtime p is there, and holds this. */
  ghost predicate HeldWhileOpen(p: FilePath, content: string, steps: seq<Snapshot>) {
    forall k :: 0 <= k < |steps| && steps[k].runtimeOpen ==> p in steps[k].files && steps[k].files[p].content == content
  }

  ghost predicate Offered(p: FilePath, data: Option<string>, steps: seq<Snapshot>) {
    && data.Some?
    && exists k :: && 0 <= k < |steps| && steps[k].runtimeOpen
                   && p in steps[k].files && steps[k].files[p] == EndpointFile(data.value)
  }

  lemma OfferedWithin(p: FilePath, data: Option<string>, a: seq<Snapshot>, b: seq<Snapshot>, c: seq<Snapshot>)
    requires Offered(p, data, b)
    ensures Offered(p, data, a + b + c)
  {
    var k :| 0 <= k < |b| && b[k].runtimeOpen && p in b[k].files && b[k].files[p] == EndpointFile(data.value);
    assert (a + b + c)[|a| + k] == b[k];
  }

  ghost predicate AllOpen(steps: seq<Snapshot>, open: bool) {
    forall k :: 0 <= k < |steps| ==> steps[k].runtimeOpen == open
  }

  /** No step shows another file than one's own with anything but what it held before,
      unless others have removed it. */
  ghost predicate OthersKept(own: Option<FilePath>, lost: set<FilePath>, before: map<FilePath, File>,
                             steps: seq<Snapshot>) {
    forall p :: p in before && Some(p) != own && p !in lost ==> Kept(p, before, steps)
  }

  ghost predicate OthersSame(own: Option<FilePath>, lost: set<FilePath>, before: map<FilePath, File>,
                             after: map<FilePath, File>) {
    forall p :: p in before && Some(p) != own && p !in lost ==> Same(p, before, after)
  }

  lemma OthersThroughout(own: Option<FilePath>, lost: set<FilePath>, before: map<FilePath, File>,
                         mid: map<FilePath, File>, a: seq<Snapshot>, b: seq<Snapshot>)
    requires OthersKept(own, {}, before, a) && OthersSame(own, {}, before, mid) && OthersKept(own, lost, mid, b)
    ensures OthersKept(own, lost, before, a + b)
  {
  }

  /** The endpoint file is gone, or removing it failed. */
  ghost predicate Retracted(path: FilePath, files: map<FilePath, File>, before: multiset<FilePath>,
                            after: multiset<FilePath>) {
    before <= after && (path in files ==> after[path] > before[path])
  }

  /** SaveEndpoint, as Serve relies on it. */
  method Announce(m: Machine, path: FilePath, e: Endpoint, marshalled: Option<string>, draw: nat)
    returns (err: Option<SaveError>, ghost steps: seq<Snapshot>, ghost calls: seq<Call>)
    requires m.runtimeOpen && draw < DRAWS
    modifies m`files, m`history, m`failedRemovals, m`calls
    ensures m.calls == old(m.calls) + calls && SavedWith(path, e, marshalled, draw, err, calls)
    ensures err == None ==> marshalled.Some? && path in m.files && m.files[path] == EndpointFile(marshalled.value)
    ensures m.history == old(m.history) + steps && AllOpen(steps, true)
    ensures if steps == [] then m.files == old(m.files) else steps[|steps| - 1] == m.Now()
    ensures err != None && path !in old(m.files) ==> Retracted(path, m.files, old(m.failedRemovals), m.failedRemovals)
    ensures old(m.failedRemovals) <= m.failedRemovals
    ensures err == None ==> Offered(path, marshalled, steps)
    ensures OthersKept(Some(path), {}, old(m.files), steps) && OthersSame(Some(path), {}, old(m.files), m.files)
  {
    ghost var tmp;
    err, steps, tmp, calls := SaveEndpoint(m, path, e, marshalled, draw);
    forall p | p in old(m.files) && p != path ensures Kept(p, old(m.files), steps) && Same(p, old(m.files), m.files) {
      OnlyTouchKeeps(if tmp.Some? then {path, tmp.value} else {}, m.runtimeOpen, old(m.files), steps, p);
    }
  }

  lemma BothOpen(a: seq<Snapshot>, b: seq<Snapshot>)
    requires AllOpen(a, true) && AllOpen(b, true)
    ensures AllOpen(a + b, true)
  {
  }

  /** One wait for the end of the context, with the runtime open throughout and the files as
      they were but for what others removed; then the endpoint file is removed. A context
      that was cancelled is no error, any other end is. */
  ghost predicate WaitedThenRetracted(endpointPath: Option<FilePath>, before: map<FilePath, File>,
                                      err: Option<ServeError>, calls: seq<Call>) {
    && calls != [] && calls[0].Waited? && calls[0].end == Snapshot(before - calls[0].gone, true)
    && err == (if calls[0].cancelled then None else Some(DeadlineExceeded))
    && match endpointPath
       case Some(path) => |calls| == 2 && calls[1].Removed? && calls[1].path == path
       case None => |calls| == 1
  }

  /** Block until ctx is done, then remove the endpoint file. */
  method WaitAndRetract(m: Machine, endpointPath: Option<FilePath>)
    returns (err: Option<ServeError>, ghost steps: seq<Snapshot>, ghost calls: seq<Call>)
    requires m.runtimeOpen
    modifies m`files, m`history, m`lost, m`failedRemovals, m`calls
    ensures m.calls == old(m.calls) + calls && WaitedThenRetracted(endpointPath, old(m.files), err, calls)
    ensures m.history == old(m.history) + steps && AllOpen(steps, true)
    ensures steps != [] && steps[|steps| - 1] == m.Now()
    ensures old(m.failedRemovals) <= m.failedRemovals && old(m.lost) <= m.lost
    ensures endpointPath.Some? ==> Retracted(endpointPath.value, m.files, old(m.failedRemovals), m.failedRemovals)
    ensures err == None || err == Some(DeadlineExceeded)
    ensures OthersKept(endpointPath, m.lost, old(m.files), steps)
  {
    var cancelled;
    ghost var gone;
    cancelled, gone := m.Wait();
    steps, calls := [m.Now()], [Waited(cancelled, gone, m.Now())];
    err := if cancelled then None else Some(DeadlineExceeded);
    if endpointPath.Some? {
      var ok := m.Remove(endpointPath.value);
      steps, calls := steps + [m.Now()], calls + [Removed(endpointPath.value, ok)];
    }
  }

  /** What serving asks while the runtime is open: without an endpoint, or when saving it
      fails, nothing more; otherwise there is one wait, with the complete endpoint file in
      place at its end unless others removed it. */
  ghost predicate ServedWith(endpointPath: Option<FilePath>, e: Option<Endpoint>, marshalled: Option<string>,
                             draw: nat, err: Option<ServeError>, saving: seq<Call>, waiting: seq<Call>) {
    if e.None? then err == Some(EndpointFailed) && saving == [] && waiting == []
    else if endpointPath.Some? && err.Some? && err.value.SaveFailed? then
      SavedWith(endpointPath.value, e.value, marshalled, draw, Some(err.value.reason), saving) && waiting == []
    else
      && (if endpointPath.None? then saving == []
          else
            && SavedWith(endpointPath.value, e.value, marshalled, draw, None, saving) && marshalled.Some?
            && waiting != [] && waiting[0].Waited?
            && (endpointPath.value in waiting[0].gone
                || (endpointPath.value in waiting[0].end.files
                    && waiting[0].end.files[endpointPath.value] == EndpointFile(marshalled.value))))
      && exists files :: WaitedThenRetracted(endpointPath, files, err, waiting)
  }

  /** Serve, while the runtime is open: save the endpoint, wait, and remove it again. */
  method ServeOpen(m: Machine, endpointPath: Option<FilePath>, e: Option<Endpoint>, marshalled: Option<string>,
                   draw: nat)
    returns (err: Option<ServeError>, ghost steps: seq<Snapshot>, ghost saving: seq<Call>, ghost waiting: seq<Call>)
    requires m.runtimeOpen && draw < DRAWS
    modifies m
    ensures m.calls == old(m.calls) + saving + waiting
    ensures ServedWith(endpointPath, e, marshalled, draw, err, saving, waiting)
    ensures m.history == old(m.history) + steps && m.runtimeOpen && AllOpen(steps, true)
    ensures if steps == [] then m.files == old(m.files) else steps[|steps| - 1] == m.Now()
    ensures old(m.failedRemovals) <= m.failedRemovals && old(m.lost) <= m.lost
    ensures endpointPath.Some? && endpointPath.value !in old(m.files) ==>
              Retracted(endpointPath.value, m.files, old(m.failedRemovals), m.failedRemovals)
    ensures err == None && endpointPath.Some? ==> Offered(endpointPath.value, marshalled, steps)
    ensures err != Some(PIDWriteFailed) && err != Some(StartFailed)
    ensures OthersKept(endpointPath, m.lost, old(m.files), steps)
  {
    steps, saving, waiting := [], [], [];
    hide SavedWith;
    if e == None {
      return Some(EndpointFailed), steps, saving, waiting;
    }
    if endpointPath.Some? {
      var saveErr;
      saveErr, steps, saving := Announce(m, endpointPath.value, e.value, marshalled, draw);
      if saveErr.Some? {
        return Some(SaveFailed(saveErr.value)), steps, saving, waiting;
      }
    }
    hide Offered, OthersKept, OthersSame, AllOpen;
    ghost var mid, offering := m.files, steps;
    ghost var holding;
    err, holding, waiting := WaitAndRetract(m, endpointPath);
    OthersThroughout(endpointPath, m.lost, old(m.files), mid, offering, holding);
    BothOpen(offering, holding);
    steps := offering + holding;
    if endpointPath.Some? {
      assert steps == [] + offering + holding;
      OfferedWithin(endpointPath.value, marshalled, [], offering, holding);
    }
  }

  /** Everything that Serve asks of the machine: the runtime is started; if that works it
      serves, and then the runtime is closed. */
  datatype ServeTrace = ServeTrace(saving: seq<Call>, waiting: seq<Call>)

  ghost function ServeCalls(started: bool, t: ServeTrace): seq<Call> {
    if started then [RuntimeStarted(true)] + t.saving + t.waiting + [RuntimeClosed] else [RuntimeStarted(false)]
  }

  lemma StartOnly(own: Option<FilePath>, lost: set<FilePath>, first: Snapshot)
    ensures OthersKept(own, lost, first.files, [first])
    ensures own.Some? && own.value !in first.files ==> OnlyWhileOpen(own.value, [first])
  {
  }

  lemma OpenBetween(path: FilePath, first: Snapshot, serving: seq<Snapshot>, last: Snapshot)
    requires AllOpen(serving, true) && !last.runtimeOpen
    ensures path !in first.files ==>
              (OnlyWhileOpen(path, [first] + serving + [last]) <==> path !in last.files)
  {
    var steps := [first] + serving + [last];
    assert steps[|steps| - 1] == last;
    assert forall k :: 0 <= k < |serving| ==> steps[k + 1] == serving[k];
  }

  lemma OthersAround(own: Option<FilePath>, lost: set<FilePath>, first: Snapshot, serving: seq<Snapshot>,
                     last: Snapshot)
    requires OthersKept(own, lost, first.files, serving)
    requires last.files == if serving == [] then first.files else serving[|serving| - 1].files
    ensures OthersKept(own, lost, first.files, [first] + serving + [last])
  {
    forall p | p in first.files && Some(p) != own && p !in lost
      ensures Kept(p, first.files, [first] + serving + [last])
    {
      assert Kept(p, first.files, serving);
    }
  }

  lemma ServeCallsJoin(before: seq<Call>, t: ServeTrace)
    ensures before + [RuntimeStarted(true)] + t.saving + t.waiting + [RuntimeClosed] == before + ServeCalls(true, t)
    ensures before + [RuntimeStarted(false)] == before + ServeCalls(false, t)
  {
  }

  /** Serve. Close of the runtime that it starts has been called, with whatever result,
      when it returns, and it returns nil only if the endpoint had been in place while the
      runtime was open. An endpoint file that did not exist before is never there without
      an open runtime, exactly when it is gone at the end; and it is, unless removing it
      failed. */
  method Serve(m: Machine, endpointPath: Option<FilePath>, e: Option<Endpoint>, marshalled: Option<string>,
               draw: nat)
    returns (err: Option<ServeError>, ghost steps: seq<Snapshot>, ghost trace: ServeTrace)
    requires !m.runtimeOpen && draw < DRAWS
    modifies m
    ensures m.calls == old(m.calls) + ServeCalls(err != Some(StartFailed), trace)
    ensures err != Some(StartFailed) ==>
              ServedWith(endpointPath, e, marshalled, draw, err, trace.saving, trace.waiting)
    ensures !m.runtimeOpen
    ensures m.history == old(m.history) + steps && steps != [] && steps[|steps| - 1] == m.Now()
    ensures old(m.failedRemovals) <= m.failedRemovals && old(m.lost) <= m.lost
    ensures endpointPath.Some? && endpointPath.value !in old(m.files) ==>
              && (OnlyWhileOpen(endpointPath.value, steps) <==> endpointPath.value !in m.files)
              && Retracted(endpointPath.value, m.files, old(m.failedRemovals), m.failedRemovals)
    ensures err == None && endpointPath.Some? ==> Offered(endpointPath.value, marshalled, steps)
    ensures err != Some(PIDWriteFailed)
    ensures OthersKept(endpointPath, m.lost, old(m.files), steps)
  {
    hide ServeCalls, ServedWith, OthersKept, Kept, OnlyWhileOpen, AllOpen, Offered;
    var started := m.StartRuntime();
    ghost var first := m.Now();
    steps, trace := [first], ServeTrace([], []);
    StartOnly(endpointPath, m.lost, first);
    if !started {
      ServeCallsJoin(old(m.calls), trace);
      return Some(StartFailed), steps, trace;
    }
    ghost var serving, saving, waiting;
    err, serving, saving, waiting := ServeOpen(m, endpointPath, e, marshalled, draw);
    trace := ServeTrace(saving, waiting);
    ServeCallsJoin(old(m.calls), trace);
    var _ := m.CloseRuntime();
    steps := [first] + serving + [m.Now()];
    OthersAround(endpointPath, m.lost, first, serving, m.Now());
    if endpointPath.Some? {
      OpenBetween(endpointPath.value, first, serving, m.Now());
      if err == None {
        OfferedWithin(endpointPath.value, marshalled, [first], serving, [m.Now()]);
      }
    }
  }

  /** A file that is there before, and that serving keeps, is there whenever the runtime
      is open. */
  lemma HeldAround(p: FilePath, own: Option<FilePath>, lost: set<FilePath>, begun: map<FilePath, File>,
                   writing: seq<Snapshot>, serving: seq<Snapshot>, last: Snapshot)
    requires AllOpen(writing, false) && !last.runtimeOpen
    requires p in begun && Some(p) != own && OthersKept(own, lost, begun, serving)
    ensures p in lost || HeldWhileOpen(p, begun[p].content, writing + serving + [last])
  {
  }

  /** A file that is not there before the runtime starts. */
  lemma OnlyAround(path: FilePath, writing: seq<Snapshot>, serving: seq<Snapshot>, last: Snapshot)
    requires AllOpen(writing, false) && !last.runtimeOpen
    requires forall k :: 0 <= k < |writing| ==> path !in writing[k].files
    ensures OnlyWhileOpen(path, writing + serving + [last]) <==> OnlyWhileOpen(path, serving) && path !in last.files
  {
    var steps := writing + serving + [last];
    assert forall k :: 0 <= k < |serving| ==> steps[|writing| + k] == serving[k];
    assert steps[|steps| - 1] == last;
  }

  /** The PID file, written before anything is started; other files neither come nor go. */
  method WritePIDFile(m: Machine, p: FilePath, data: string) returns (ok: bool, ghost writing: seq<Snapshot>)
    requires !m.runtimeOpen
    modifies m`files, m`history, m`calls
    ensures m.calls == old(m.calls) + [PIDWritten(p, ok)]
    ensures m.history == old(m.history) + writing && AllOpen(writing, false)
    ensures writing != [] && writing[|writing| - 1] == m.Now()
    ensures ok ==> p in m.files && m.files[p].content == data
    ensures forall q :: q != p && q !in old(m.files) ==>
              q !in m.files && forall k :: 0 <= k < |writing| ==> q !in writing[k].files
  {
    ok := m.WriteFile(p, data);
    writing := m.history[|old(m.history)|..];
    forall q | q != p && q !in old(m.files) ensures q !in m.files && q !in writing[0].files {
      SameAway({p}, old(m.files), m.files, q);
      SameAway({p}, old(m.files), writing[0].files, q);
    }
  }

  /** As long as nothing is open: a file is held while open, and another one that is not there
      is there only while open. */
  lemma NeverOpen(p: FilePath, content: string, writing: seq<Snapshot>)
    requires AllOpen(writing, false)
    ensures HeldWhileOpen(p, content, writing)
    ensures forall q: FilePath :: (forall k :: 0 <= k < |writing| ==> q !in writing[k].files) ==>
                                    OnlyWhileOpen(q, writing)
  {
  }

  /** What ServeFromConfig promises of the endpoint file. */
  ghost predicate EndpointOk(path: FilePath, steps: seq<Snapshot>, files: map<FilePath, File>,
                             before: multiset<FilePath>, after: multiset<FilePath>) {
    (OnlyWhileOpen(path, steps) <==> path !in files) && Retracted(path, files, before, after)
  }

  /** What ServeFromConfig asks: the PID file is written before anything is started, and
      removed after Serve has returned. */
  ghost predicate ConfigCalls(pidFile: Option<FilePath>, err: Option<ServeError>, trace: ServeTrace,
                              before: seq<Call>, after: seq<Call>) {
    match pidFile
    case None => err != Some(PIDWriteFailed) && after == before + ServeCalls(err != Some(StartFailed), trace)
    case Some(p) =>
      if err == Some(PIDWriteFailed) then after == before + [PIDWritten(p, false)]
      else
        && after != [] && after[|after| - 1].Removed? && after[|after| - 1].path == p
        && after[..|after| - 1] == before + [PIDWritten(p, true)] + ServeCalls(err != Some(StartFailed), trace)
  }

  /** ServeFromConfig. Nothing is started without the PID file; the PID file is there as
      long as the runtime is open, unless others remove it; it is gone at the end, unless
      writing or removing it failed; and what Serve promises of the endpoint file still
      holds. */
  method ServeFromConfig(m: Machine, pidFile: Option<FilePath>, pid: string, endpointPath: Option<FilePath>,
                         e: Option<Endpoint>, marshalled: Option<string>, draw: nat)
    returns (err: Option<ServeError>, ghost steps: seq<Snapshot>, ghost trace: ServeTrace)
    requires !m.runtimeOpen && draw < DRAWS
    modifies m
    ensures ConfigCalls(pidFile, err, trace, old(m.calls), m.calls)
    ensures err != Some(PIDWriteFailed) && err != Some(StartFailed) ==>
              ServedWith(endpointPath, e, marshalled, draw, err, trace.saving, trace.waiting)
    ensures !m.runtimeOpen
    ensures m.history == old(m.history) + steps && steps != [] && steps[|steps| - 1] == m.Now()
    ensures old(m.failedRemovals) <= m.failedRemovals && old(m.lost) <= m.lost
    ensures err == Some(PIDWriteFailed) ==> AllOpen(steps, false)
    ensures pidFile.Some? && pidFile != endpointPath ==>
              && (pidFile.value in m.lost || HeldWhileOpen(pidFile.value, pid + "\n", steps))
              && (err == Some(PIDWriteFailed)
                  || Retracted(pidFile.value, m.files, old(m.failedRemovals), m.failedRemovals))
    ensures endpointPath.Some? && endpointPath.value !in old(m.files) && endpointPath != pidFile ==>
              EndpointOk(endpointPath.value, steps, m.files, old(m.failedRemovals), m.failedRemovals)
    ensures err == None && endpointPath.Some? ==> Offered(endpointPath.value, marshalled, steps)
  {
    trace := ServeTrace([], []);
    hide ServedWith, ServeCalls, OnlyWhileOpen, HeldWhileOpen, Offered, OthersKept, AllOpen;
    if pidFile.None? {
      err, steps, trace := Serve(m, endpointPath, e, marshalled, draw);
      return;
    }
    var p := pidFile.value;
    var written;
    ghost var writing;
    written, writing := WritePIDFile(m, p, pid + "\n");
    if !written {
      NeverOpen(p, pid + "\n", writing);
      return Some(PIDWriteFailed), writing, trace;
    }
    ghost var begun, serving := m.files, [];
    err, serving, trace := Serve(m, endpointPath, e, marshalled, draw);
    var removed := m.Remove(p);
    assert m.calls[|m.calls| - 1] == Removed(p, removed);
    steps := writing + serving + [m.Now()];
    if pidFile != endpointPath {
      HeldAround(p, endpointPath, m.lost, begun, writing, serving, m.Now());
    }
    if endpointPath.Some? && endpointPath != pidFile && endpointPath.value !in old(m.files) {
      OnlyAround(endpointPath.value, writing, serving, m.Now());
    }
    if err == None && endpointPath.Some? {
      OfferedWithin(endpointPath.value, marshalled, writing, serving, [m.Now()]);
    }
  }
}
