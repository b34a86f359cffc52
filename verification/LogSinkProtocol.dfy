/**
 Concurrent log writers, one reloader and the final Close of pkg/logging/sink.go, under a
 read-write lock. Opening a file happens outside the lock; swapping the writer and closing the
 previous file happen inside it.
 */
module LogSinkProtocol {
  import opened Wrappers
  import LogSink

  datatype Target = HttpOut | ErrOut | Discard | File(id: nat)

  /** Writers and closers. */
  datatype Pc =
    | Idle
    | WriteAtLock
    | Writing(target: Target)
    | CloseAtLock
    | CloseLocked
    | CloseDropping

  datatype Reloader =
    | Resting
    | Opened(path: string, file: Option<nat>, target: Target)    // fields set, lock not yet taken
    | Swapping(file: Option<nat>, target: Target)
    | Dropping

  datatype Holder = ByReloader | ByCloser(t: nat)

  /** `detached` is the local variable in which the lock holder keeps the file it is about to close.
      `paths` has every file ever opened; `closes` counts the closes of each. `stopped` is set once
      the reload goroutine has been waited for: only then may Close be called. */
  datatype State = State(
    writer: Target,
    file: Option<nat>,
    lastLogFile: string,
    readers: set<nat>,
    exclusive: Option<Holder>,
    detached: Option<nat>,
    reloader: Reloader,
    pcs: map<nat, Pc>,
    paths: seq<string>,
    closes: seq<nat>,
    stopped: bool,
    everClosed: bool,
    badWrite: bool)

  datatype Action =
    | CallWrite(t: nat)
    | CallReload(logFile: string, canOpen: bool)
    | StopReloader
    | CallClose(t: nat)
    | Advance(t: nat)
    | AdvanceReloader

  function PcOf(s: State, t: nat): Pc {
    if t in s.pcs then s.pcs[t] else Idle
  }

  function Goto(s: State, t: nat, pc: Pc): State {
    s.(pcs := s.pcs[t := pc])
  }

  function StandardTarget(httpMode: bool, logFile: string): Target {
    match LogSink.Standard(httpMode, logFile)
    case HttpOut => HttpOut
    case ErrOut => ErrOut
    case _ => Discard
  }

  predicate IsClosed(s: State, id: nat) {
    id < |s.closes| && s.closes[id] > 0
  }

  function CloseFile(s: State, previous: Option<nat>): State {
    if previous.Some? && previous.value < |s.closes| then
      s.(closes := s.closes[previous.value := s.closes[previous.value] + 1])
    else s
  }

  /** The sink as New returns it: its own applyDestination has run, with nothing to close. */
  function Start(httpMode: bool, logFile: string): State {
    if LogSink.IsStandard(logFile) then
      State(StandardTarget(httpMode, logFile), None, logFile, {}, None, None, Resting, map[], [], [], false, false, false)
    else
      State(File(0), Some(0), logFile, {}, None, None, Resting, map[], [logFile], [0], false, false, false)
  }

  /** applyDestination up to the lock: a failed open, or an unchanged standard destination, ends it. */
  function Reload(httpMode: bool, s: State, logFile: string, canOpen: bool): State {
    if logFile == s.lastLogFile && LogSink.IsStandard(logFile) then s
    else if LogSink.IsStandard(logFile) then
      s.(lastLogFile := logFile, reloader := Opened(logFile, None, StandardTarget(httpMode, logFile)))
    else if canOpen then
      s.(lastLogFile := logFile, paths := s.paths + [logFile], closes := s.closes + [0],
         reloader := Opened(logFile, Some(|s.paths|), File(|s.paths|)))
    else s
  }

  function Progress(s: State, t: nat): State {
    match PcOf(s, t)
    case Idle => s
    case WriteAtLock =>
      if s.exclusive == None then Goto(s, t, Writing(s.writer)).(readers := s.readers + {t}) else s
    case Writing(target) =>
      Goto(s, t, Idle).(readers := s.readers - {t},
                        badWrite := s.badWrite || (target.File? && IsClosed(s, target.id)))
    case CloseAtLock =>
      if s.exclusive == None && s.readers == {} then Goto(s, t, CloseLocked).(exclusive := Some(ByCloser(t))) else s
    case CloseLocked =>
      Goto(s, t, CloseDropping).(writer := ErrOut, file := None, detached := s.file, everClosed := true)
    case CloseDropping =>
      Goto(CloseFile(s, s.detached), t, Idle).(exclusive := None, detached := None)
  }

  function ProgressReloader(s: State): State {
    match s.reloader
    case Resting => s
    case Opened(path, file, target) =>
      if s.exclusive == None && s.readers == {} then
        s.(exclusive := Some(ByReloader), reloader := Swapping(file, target))
      else s
    case Swapping(file, target) =>
      s.(writer := target, file := file, detached := s.file, reloader := Dropping)
    case Dropping =>
      CloseFile(s, s.detached).(exclusive := None, detached := None, reloader := Resting)
  }

  function Step(httpMode: bool, s: State, a: Action): State {
    match a
    case CallWrite(t) => if PcOf(s, t).Idle? then Goto(s, t, WriteAtLock) else s
    case CallReload(logFile, canOpen) =>
      if s.reloader.Resting? && !s.stopped then Reload(httpMode, s, logFile, canOpen) else s
    case StopReloader => if s.reloader.Resting? then s.(stopped := true) else s
    case CallClose(t) => if s.stopped && PcOf(s, t).Idle? then Goto(s, t, CloseAtLock) else s
    case Advance(t) => Progress(s, t)
    case AdvanceReloader => ProgressReloader(s)
  }

  function Run(httpMode: bool, s: State, actions: seq<Action>): State {
    if actions == [] then s
    else Step(httpMode, Run(httpMode, s, actions[..|actions| - 1]), actions[|actions| - 1])
  }

  // ----- who is responsible for closing an open file

  predicate CloserInside(pc: Pc) {
    pc.CloseLocked? || pc.CloseDropping?
  }

  predicate WriterSide(pc: Pc) {
    pc.Idle? || pc.WriteAtLock? || pc.Writing?
  }

  /** The read-write lock: writers share it, and a swap or a close excludes them all. */
  ghost predicate LockInv(s: State) {
    && (forall t :: t in s.pcs ==> (s.pcs[t].Writing? <==> t in s.readers))
    && (forall t :: t in s.readers ==> t in s.pcs)
    && (s.exclusive != None ==> s.readers == {})
    && (s.exclusive == Some(ByReloader) <==> s.reloader.Swapping? || s.reloader.Dropping?)
    && (forall t :: t in s.pcs && CloserInside(s.pcs[t]) ==> s.exclusive == Some(ByCloser(t)))
    && (s.exclusive.Some? && s.exclusive.value.ByCloser? ==> CloserInside(PcOf(s, s.exclusive.value.t)))
  }

  ghost predicate WritingInv(s: State) {
    forall t :: t in s.pcs && s.pcs[t].Writing? ==> s.pcs[t].target == s.writer
  }

  ghost predicate PhaseInv(s: State) {
    && (s.stopped ==> s.reloader.Resting?)
    && (!s.stopped ==> !s.everClosed && forall t :: t in s.pcs ==> WriterSide(s.pcs[t]))
    && (s.everClosed ==> s.writer == ErrOut && s.file == None)
    && (s.detached.Some? ==> s.reloader.Dropping? || (s.exclusive.Some? && s.exclusive.value.ByCloser? && PcOf(s, s.exclusive.value.t).CloseDropping?))
  }

  ghost function Pending(r: Reloader): Option<nat> {
    match r
    case Opened(_, file, _) => file
    case Swapping(file, _) => file
    case _ => None
  }

  /** The files that somebody still has to close: the sink, the reloader that has just opened one,
      or the lock holder that has just detached one. */
  ghost predicate Owed(s: State, id: nat) {
    s.file == Some(id) || Pending(s.reloader) == Some(id) || s.detached == Some(id)
  }

  ghost predicate InRange(s: State, file: Option<nat>) {
    file.Some? ==> file.value < |s.closes|
  }

  ghost predicate FilesInv(s: State) {
    && |s.paths| == |s.closes|
    // nobody owes the same file as somebody else
    && (s.file.Some? ==> s.file != Pending(s.reloader) && s.file != s.detached)
    && (s.detached.Some? ==> s.detached != Pending(s.reloader))
    && InRange(s, s.file) && InRange(s, Pending(s.reloader)) && InRange(s, s.detached)
    && (forall id: nat :: id < |s.closes| ==> s.closes[id] == if Owed(s, id) then 0 else 1)
    && (s.writer.File? ==> s.file == Some(s.writer.id))
  }

  /** The destination that a setting asks for. */
  ghost predicate Leads(httpMode: bool, paths: seq<string>, logFile: string, target: Target, file: Option<nat>) {
    if LogSink.IsStandard(logFile) then target == StandardTarget(httpMode, logFile) && file == None
    else file.Some? && file.value < |paths| && paths[file.value] == logFile && target == File(file.value)
  }

  ghost predicate DestinationInv(httpMode: bool, s: State) {
    match s.reloader
    case Opened(path, file, target) => path == s.lastLogFile && Leads(httpMode, s.paths, path, target, file)
    case Swapping(file, target) => Leads(httpMode, s.paths, s.lastLogFile, target, file)
    case _ => s.everClosed || Leads(httpMode, s.paths, s.lastLogFile, s.writer, s.file)
  }

  ghost predicate Inv(httpMode: bool, s: State) {
    && LockInv(s) && WritingInv(s) && PhaseInv(s) && FilesInv(s) && DestinationInv(httpMode, s)
    && !s.badWrite
  }

  lemma WriterKeepsLock(s: State, t: nat)
    requires LockInv(s) && WriterSide(PcOf(s, t))
    ensures LockInv(Progress(s, t))
  {
  }

  lemma CloserLocks(s: State, t: nat)
    requires LockInv(s) && PcOf(s, t).CloseAtLock?
    ensures LockInv(Progress(s, t))
  {
  }

  lemma CloserSwaps(s: State, t: nat)
    requires LockInv(s) && PcOf(s, t).CloseLocked?
    ensures LockInv(Progress(s, t))
  {
  }

  lemma CloserUnlocks(s: State, t: nat)
    requires LockInv(s) && PcOf(s, t).CloseDropping?
    ensures LockInv(Progress(s, t))
  {
  }

  lemma ProgressKeepsLock(s: State, t: nat)
    requires LockInv(s)
    ensures LockInv(Progress(s, t))
  {
    hide LockInv, Progress;
    match PcOf(s, t)
    case CloseAtLock => CloserLocks(s, t);
    case CloseLocked => CloserSwaps(s, t);
    case CloseDropping => CloserUnlocks(s, t);
    case _ => WriterKeepsLock(s, t);
  }

  lemma ProgressKeepsWriting(s: State, t: nat)
    requires LockInv(s) && WritingInv(s)
    ensures WritingInv(Progress(s, t))
  {
  }

  lemma ProgressKeepsPhase(s: State, t: nat)
    requires LockInv(s) && PhaseInv(s)
    ensures PhaseInv(Progress(s, t))
  {
  }

  lemma DropKeepsFiles(s: State)
    requires FilesInv(s)
    ensures FilesInv(CloseFile(s, s.detached).(detached := None))
  {
  }

  /** FilesInv speaks of these fields only. */
  lemma SameFiles(s: State, s': State)
    requires FilesInv(s)
    requires s'.writer == s.writer && s'.file == s.file && s'.detached == s.detached
    requires s'.reloader == s.reloader && s'.paths == s.paths && s'.closes == s.closes
    ensures FilesInv(s')
  {
    forall id: nat
      ensures Owed(s', id) == Owed(s, id)
    {
    }
  }

  lemma DetachKeepsFiles(s: State)
    requires FilesInv(s) && s.detached == None
    ensures FilesInv(s.(writer := ErrOut, file := None, detached := s.file))
  {
  }

  lemma NothingDetachedYet(s: State, t: nat)
    requires LockInv(s) && PhaseInv(s) && PcOf(s, t).CloseLocked?
    ensures s.detached == None
  {
    assert t in s.pcs && CloserInside(s.pcs[t]);
  }

  /** Only a Close touches the files from this side. */
  lemma OthersLeaveFiles(s: State, t: nat)
    requires !PcOf(s, t).CloseLocked? && !PcOf(s, t).CloseDropping?
    ensures var s' := Progress(s, t);
            && s'.writer == s.writer && s'.file == s.file && s'.detached == s.detached
            && s'.reloader == s.reloader && s'.paths == s.paths && s'.closes == s.closes
  {
  }

  lemma CloseLeavesRest(s: State, t: nat)
    requires PcOf(s, t).CloseLocked? || PcOf(s, t).CloseDropping?
    ensures var s' := Progress(s, t);
            var c := if PcOf(s, t).CloseLocked? then s.(writer := ErrOut, file := None, detached := s.file)
                     else CloseFile(s, s.detached).(detached := None);
            && s'.writer == c.writer && s'.file == c.file && s'.detached == c.detached
            && s'.reloader == c.reloader && s'.paths == c.paths && s'.closes == c.closes
  {
  }

  lemma ProgressKeepsFiles(s: State, t: nat)
    requires LockInv(s) && PhaseInv(s) && FilesInv(s)
    ensures FilesInv(Progress(s, t))
  {
    hide FilesInv, LockInv, PhaseInv, Progress, CloseFile;
    var s' := Progress(s, t);
    if PcOf(s, t).CloseLocked? {
      NothingDetachedYet(s, t);
      DetachKeepsFiles(s);
      CloseLeavesRest(s, t);
      SameFiles(s.(writer := ErrOut, file := None, detached := s.file), s');
    } else if PcOf(s, t).CloseDropping? {
      DropKeepsFiles(s);
      CloseLeavesRest(s, t);
      SameFiles(CloseFile(s, s.detached).(detached := None), s');
    } else {
      OthersLeaveFiles(s, t);
      SameFiles(s, s');
    }
  }

  lemma ProgressKeepsRest(httpMode: bool, s: State, t: nat)
    requires Inv(httpMode, s)
    ensures DestinationInv(httpMode, Progress(s, t)) && !Progress(s, t).badWrite
  {
  }

  lemma ProgressKeepsInv(httpMode: bool, s: State, t: nat)
    requires Inv(httpMode, s)
    ensures Inv(httpMode, Progress(s, t))
  {
    ProgressKeepsLock(s, t);
    ProgressKeepsWriting(s, t);
    ProgressKeepsPhase(s, t);
    ProgressKeepsFiles(s, t);
    ProgressKeepsRest(httpMode, s, t);
    hide LockInv, WritingInv, PhaseInv, FilesInv, DestinationInv, Progress;
  }

  lemma ReloaderKeepsLock(s: State)
    requires LockInv(s) && WritingInv(s)
    ensures LockInv(ProgressReloader(s)) && WritingInv(ProgressReloader(s))
  {
  }

  lemma ReloaderKeepsInv(httpMode: bool, s: State)
    requires Inv(httpMode, s)
    ensures Inv(httpMode, ProgressReloader(s))
  {
    ReloaderKeepsLock(s);
    hide LockInv, WritingInv;
  }

  lemma ReloadKeepsInv(httpMode: bool, s: State, logFile: string, canOpen: bool)
    requires Inv(httpMode, s) && s.reloader.Resting? && !s.stopped
    ensures Inv(httpMode, Reload(httpMode, s, logFile, canOpen))
  {
  }

  lemma CallMovesKeepLock(s: State, t: nat, pc: Pc)
    requires LockInv(s) && WritingInv(s) && PcOf(s, t).Idle? && (pc.WriteAtLock? || pc.CloseAtLock?)
    ensures LockInv(Goto(s, t, pc)) && WritingInv(Goto(s, t, pc))
  {
  }

  lemma CallKeepsInv(httpMode: bool, s: State, t: nat, pc: Pc)
    requires Inv(httpMode, s) && PcOf(s, t).Idle? && (pc.WriteAtLock? || (pc.CloseAtLock? && s.stopped))
    ensures Inv(httpMode, Goto(s, t, pc))
  {
    CallMovesKeepLock(s, t, pc);
    assert PhaseInv(Goto(s, t, pc)) by {
      assert s.exclusive.Some? && s.exclusive.value.ByCloser? ==> CloserInside(PcOf(s, s.exclusive.value.t));
    }
    hide LockInv, WritingInv, PhaseInv;
  }

  lemma StepKeepsInv(httpMode: bool, s: State, a: Action)
    requires Inv(httpMode, s)
    ensures Inv(httpMode, Step(httpMode, s, a))
  {
    match a
    case CallWrite(t) => if PcOf(s, t).Idle? { CallKeepsInv(httpMode, s, t, WriteAtLock); }
    case CallClose(t) => if s.stopped && PcOf(s, t).Idle? { CallKeepsInv(httpMode, s, t, CloseAtLock); }
    case CallReload(logFile, canOpen) =>
      if s.reloader.Resting? && !s.stopped { ReloadKeepsInv(httpMode, s, logFile, canOpen); }
    case StopReloader => hide LockInv, WritingInv;
    case Advance(t) => ProgressKeepsInv(httpMode, s, t); hide Inv;
    case AdvanceReloader => ReloaderKeepsInv(httpMode, s); hide Inv;
  }

  lemma {:induction false} RunKeepsInv(httpMode: bool, logFile: string, actions: seq<Action>)
    ensures Inv(httpMode, Run(httpMode, Start(httpMode, logFile), actions))
  {
    hide Step, Inv;
    if actions == [] {
      StartInv(httpMode, logFile);
    } else {
      var front := actions[..|actions| - 1];
      RunKeepsInv(httpMode, logFile, front);
      StepKeepsInv(httpMode, Run(httpMode, Start(httpMode, logFile), front), actions[|actions| - 1]);
    }
  }

  lemma StartInv(httpMode: bool, logFile: string)
    ensures Inv(httpMode, Start(httpMode, logFile))
  {
  }

  // ----- main results

  /** A writer inside the lock writes to the writer in force, which is never a closed file. */
  lemma NoWriteHitsAClosedFile(httpMode: bool, logFile: string, actions: seq<Action>, t: nat)
    ensures var s := Run(httpMode, Start(httpMode, logFile), actions);
            && !s.badWrite
            && (PcOf(s, t).Writing? ==> PcOf(s, t).target == s.writer)
            && (s.writer.File? ==> s.writer.id < |s.closes| && s.closes[s.writer.id] == 0)
  {
    RunKeepsInv(httpMode, logFile, actions);
    var s := Run(httpMode, Start(httpMode, logFile), actions);
    if s.writer.File? {
      assert Owed(s, s.writer.id);
    }
  }

  /** Nobody is in the middle of a reload or of a Close. */
  predicate Quiet(s: State) {
    s.reloader.Resting? && s.exclusive == None
  }

  /** No file is closed twice. Outside reload and Close, exactly the file in use is open; once Close
      has been called and has returned, every file ever opened has been closed exactly once. */
  lemma EveryFileIsClosedOnce(httpMode: bool, logFile: string, actions: seq<Action>, id: nat)
    requires id < |Run(httpMode, Start(httpMode, logFile), actions).paths|
    ensures var s := Run(httpMode, Start(httpMode, logFile), actions);
            && |s.closes| == |s.paths| && s.closes[id] <= 1
            && (Quiet(s) ==> (s.closes[id] == 0 <==> s.file == Some(id)))
            && (Quiet(s) && s.everClosed ==> s.closes[id] == 1)
  {
    RunKeepsInv(httpMode, logFile, actions);
  }

  /** A reload can begin: there is one reloader, and it is at rest and has not been stopped. */
  predicate MayReload(s: State) {
    s.reloader.Resting? && !s.stopped
  }

  /** The setting of the last reload that began and whose file, if it needs one, could be opened. */
  function LastApplied(httpMode: bool, logFile: string, actions: seq<Action>): string {
    if actions == [] then logFile
    else
      var front, a := actions[..|actions| - 1], actions[|actions| - 1];
      if a.CallReload? && MayReload(Run(httpMode, Start(httpMode, logFile), front)) && (LogSink.IsStandard(a.logFile) || a.canOpen)
      then a.logFile
      else LastApplied(httpMode, logFile, front)
  }

  lemma CallersKeepSetting(s: State, t: nat)
    ensures Progress(s, t).lastLogFile == s.lastLogFile
  {
  }

  lemma ReloaderKeepsSetting(s: State)
    ensures ProgressReloader(s).lastLogFile == s.lastLogFile
  {
  }

  lemma ReloadSetsSetting(httpMode: bool, s: State, logFile: string, canOpen: bool)
    ensures Reload(httpMode, s, logFile, canOpen).lastLogFile == if LogSink.IsStandard(logFile) || canOpen then logFile else s.lastLogFile
  {
  }

  lemma StepsKeepSetting(httpMode: bool, s: State, a: Action)
    ensures Step(httpMode, s, a).lastLogFile
            == if a.CallReload? && MayReload(s) && (LogSink.IsStandard(a.logFile) || a.canOpen) then a.logFile else s.lastLogFile
  {
    hide Progress, ProgressReloader, Reload, LogSink.IsStandard;
    match a
    case CallReload(logFile, canOpen) => ReloadSetsSetting(httpMode, s, logFile, canOpen);
    case Advance(t) => CallersKeepSetting(s, t);
    case AdvanceReloader => ReloaderKeepsSetting(s);
    case _ =>
  }

  lemma {:induction false} LastAppliedIsRemembered(httpMode: bool, logFile: string, actions: seq<Action>)
    ensures Run(httpMode, Start(httpMode, logFile), actions).lastLogFile == LastApplied(httpMode, logFile, actions)
  {
    hide Step;
    if actions != [] {
      var front := actions[..|actions| - 1];
      LastAppliedIsRemembered(httpMode, logFile, front);
      StepsKeepSetting(httpMode, Run(httpMode, Start(httpMode, logFile), front), actions[|actions| - 1]);
    }
  }

  /** Until Close, and outside a reload, text goes where the last successful reload of the history and the
      pinned mode determine; the file in use was opened for that very path. */
  lemma WriterFollowsLastReload(httpMode: bool, logFile: string, actions: seq<Action>)
    ensures var s := Run(httpMode, Start(httpMode, logFile), actions);
            s.reloader.Resting? && !s.everClosed ==>
              Leads(httpMode, s.paths, LastApplied(httpMode, logFile, actions), s.writer, s.file)
    ensures var s := Run(httpMode, Start(httpMode, logFile), actions);
            s.everClosed ==> s.writer == ErrOut && s.file == None
  {
    RunKeepsInv(httpMode, logFile, actions);
    LastAppliedIsRemembered(httpMode, logFile, actions);
  }

  // ----- the sink as one goroutine sees it

  function DestinationOf(s: State): LogSink.Destination {
    match s.writer
    case HttpOut => LogSink.HttpOutput
    case ErrOut => LogSink.ErrOutput
    case Discard => LogSink.Nowhere
    case File(id) => if id < |s.paths| then LogSink.FileAt(s.paths[id]) else LogSink.NoWriter
  }

  function ViewOf(s: State): LogSink.View {
    LogSink.View(DestinationOf(s), s.lastLogFile, true)
  }

  function FinishReload(s: State): State {
    if s.reloader.Resting? then s else ProgressReloader(ProgressReloader(ProgressReloader(s)))
  }

  lemma UndisturbedSwap(s: State, path: string, file: Option<nat>, target: Target)
    requires s.reloader == Opened(path, file, target) && s.exclusive == None && s.readers == {} && |s.closes| == |s.paths|
    requires s.file.Some? ==> s.file.value < |s.closes|
    ensures var e := FinishReload(s);
            && Quiet(e) && e.writer == target && e.file == file && e.paths == s.paths && e.lastLogFile == s.lastLogFile
            && e.closes == if s.file.Some? then s.closes[s.file.value := s.closes[s.file.value] + 1] else s.closes
  {
  }

  lemma UndisturbedBegin(httpMode: bool, s: State, logFile: string, canOpen: bool)
    requires MayReload(s) && |s.closes| == |s.paths|
    ensures var e := Step(httpMode, s, CallReload(logFile, canOpen));
            var opens := !LogSink.IsStandard(logFile) && canOpen;
            && e.file == s.file && e.writer == s.writer && e.exclusive == s.exclusive && e.readers == s.readers
            && e.closes == (if opens then s.closes + [0] else s.closes)
            && e.paths == (if opens then s.paths + [logFile] else s.paths)
            && (if (LogSink.IsStandard(logFile) && logFile == s.lastLogFile) || (!LogSink.IsStandard(logFile) && !canOpen) then e == s
                else e.lastLogFile == logFile
                     && e.reloader == if opens then Opened(logFile, Some(|s.paths|), File(|s.paths|))
                                      else Opened(logFile, None, StandardTarget(httpMode, logFile)))
  {
  }

  /** A reload with nobody else under way does what the method of the sink does, and closes the previous
      file if it opened or chose another destination. */
  lemma UndisturbedReload(httpMode: bool, s: State, logFile: string, canOpen: bool)
    requires Inv(httpMode, s) && Quiet(s) && s.readers == {} && !s.stopped
    ensures var begun := Step(httpMode, s, CallReload(logFile, canOpen));
            var e := FinishReload(begun);
            && Quiet(e) && ViewOf(e) == LogSink.Applied(httpMode, ViewOf(s), logFile, canOpen)
            && (s.file.Some? && s.file.value < |e.closes| ==> e.closes[s.file.value] == if begun == s then 0 else 1)
  {
    assert s.file.Some? ==> Owed(s, s.file.value) && s.closes[s.file.value] == 0;
    assert |s.closes| == |s.paths| && InRange(s, s.file) && (s.writer.File? ==> s.writer.id < |s.paths|);
    hide LockInv, WritingInv, FilesInv, DestinationInv, PhaseInv, Step, FinishReload;
    var begun := Step(httpMode, s, CallReload(logFile, canOpen));
    UndisturbedBegin(httpMode, s, logFile, canOpen);
    if begun.reloader.Opened? {
      UndisturbedSwap(begun, begun.reloader.path, begun.reloader.file, begun.reloader.target);
    } else {
      RestingReload(begun);
    }
  }

  lemma RestingReload(s: State)
    requires s.reloader.Resting?
    ensures FinishReload(s) == s
  {
  }

  /** So does a Close. */
  lemma UndisturbedClose(httpMode: bool, s: State, t: nat)
    requires Inv(httpMode, s) && Quiet(s) && s.readers == {} && PcOf(s, t).CloseAtLock?
    ensures var e := Progress(Progress(Progress(s, t), t), t);
            && Quiet(e) && ViewOf(e) == ViewOf(s).(destination := LogSink.ErrOutput) && PcOf(e, t).Idle?
            && (s.file.Some? && s.file.value < |e.closes| ==> e.closes[s.file.value] == 1)
  {
    assert s.file.Some? ==> Owed(s, s.file.value) && s.closes[s.file.value] == 0;
    hide LockInv, WritingInv, FilesInv, DestinationInv;
  }
}
