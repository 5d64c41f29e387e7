/** The steps of tcpdump and of the main script keep the invariant; so does every run. */
module CaptureMain {
  import opened Basics
  import opened CaptureModel
  import opened CaptureInvariant
  import opened CaptureSteps
  import opened CaptureFrames

  // ---------------------------------------------------------------- tcpdump

  /** While tcpdump runs, the main script waits and every process is in the group. */
  lemma WhileCapturing(c: Config, s: State)
    requires Phase(s) && Recovery(c, s) && !s.td.Stopped?
    ensures s.m.pc.WaitTcpdump? && s.m.finalGzip == None && GroupRunning(s)
    ensures forall p | p in s.procs :: s.procs[p].inGroup
  {}

  lemma OpenKeepsInv(c: Config, s: State)
    requires Inv(c, s) && s.td.Opening?
    ensures Inv(c, Apply(c, s, TdOpen))
  {
    var n, t := s.td.next, Apply(c, s, TdOpen);
    assert t == s.(td := Writing(n), created := n + 1, raw := s.raw[n := []], captured := s.captured[n := []]);
    WhileCapturing(c, s);
    OpenKeepsContents(c, s, t);
    OpenKeepsProcs(c, s, t);
    CaptureControl(c, s, t);
    hide Files, Unique, Recovery, Phase, Progress, Procs, Pids, ControlOk, GroupRunning, Apply;
    UniqueFrame(s, t);
    RecoveryFrame(c, s, t);
    CapturePhase(c, s, t);
  }

  lemma OpenKeepsContents(c: Config, s: State, t: State)
    requires Files(c, s) && s.td.Opening? && !Cleaned(s)
    requires var n := s.td.next; t == s.(td := Writing(n), created := n + 1, raw := s.raw[n := []], captured := s.captured[n := []])
    ensures Files(c, t) && s.created <= t.created
  {}

  lemma OpenKeepsProcs(c: Config, s: State, t: State)
    requires Files(c, s) && Procs(c, s) && Pids(s) && s.td.Opening? && !Cleaned(s)
    requires var n := s.td.next; t == s.(td := Writing(n), created := n + 1, raw := s.raw[n := []], captured := s.captured[n := []])
    ensures Procs(c, t) && Pids(t)
  {
    hide Procs, Pids;
    CaptureKeepsProcs(c, s, t);
  }

  /** Opening, writing or leaving a file does not concern closed files and their handlers. */
  lemma CaptureKeepsProcs(c: Config, s: State, t: State)
    requires Procs(c, s) && Pids(s) && t.procs == s.procs && t.exits == s.exits && t.nextPid == s.nextPid
    requires t.part == s.part && t.final == s.final && t.m.pc == s.m.pc && s.created <= t.created
    requires forall i | Closed(s, i) ::
               && Closed(t, i) && (i in s.raw ==> i in t.raw)
               && (i in s.captured ==> i in t.captured && t.captured[i] == s.captured[i])
    ensures Procs(c, t) && Pids(t)
  {}

  lemma CapturePhase(c: Config, s: State, t: State)
    requires s.m.pc.WaitTcpdump? && Phase(s) && Progress(c, s) && t.m.pc == s.m.pc && t.m.control == s.m.control
    ensures Phase(t) && Progress(c, t)
  {}

  lemma WriteKeepsInv(c: Config, s: State, bytes: Bytes)
    requires Inv(c, s) && Enabled(s, TdWrite(bytes))
    ensures Inv(c, Apply(c, s, TdWrite(bytes)))
  {
    var n, t := s.td.cur, Apply(c, s, TdWrite(bytes));
    assert t == s.(raw := s.raw[n := s.raw[n] + bytes], captured := s.captured[n := s.captured[n] + bytes]);
    WhileCapturing(c, s);
    WriteKeepsContents(c, s, bytes, t);
    WriteKeepsProcs(c, s, bytes, t);
    CaptureControl(c, s, t);
    hide Files, Unique, Recovery, Phase, Progress, Procs, Pids, ControlOk, GroupRunning, Apply, Enabled;
    UniqueFrame(s, t);
    RecoveryFrame(c, s, t);
    CapturePhase(c, s, t);
  }

  lemma WriteKeepsContents(c: Config, s: State, bytes: Bytes, t: State)
    requires Files(c, s) && s.td.Writing? && s.td.cur in s.raw && s.td.cur in s.captured && !Cleaned(s)
    requires var n := s.td.cur; t == s.(raw := s.raw[n := s.raw[n] + bytes], captured := s.captured[n := s.captured[n] + bytes])
    ensures Files(c, t)
  {}

  lemma WriteKeepsProcs(c: Config, s: State, bytes: Bytes, t: State)
    requires Files(c, s) && Procs(c, s) && Pids(s) && s.td.Writing?
    requires s.td.cur in s.raw && s.td.cur in s.captured && !Cleaned(s)
    requires var n := s.td.cur; t == s.(raw := s.raw[n := s.raw[n] + bytes], captured := s.captured[n := s.captured[n] + bytes])
    ensures Procs(c, t) && Pids(t)
  {
    hide Procs, Pids;
    CaptureKeepsProcs(c, s, t);
  }

  lemma ExitKeepsInv(c: Config, s: State, status: int)
    requires Inv(c, s) && !s.td.Stopped?
    ensures Inv(c, Apply(c, s, TdExit(status)))
  {
    var t := Apply(c, s, TdExit(status));
    assert t == s.(td := Stopped(status));
    WhileCapturing(c, s);
    ExitKeepsFiles(c, s, status, t);
    CaptureControl(c, s, t);
    hide Files, Unique, Recovery, Phase, Progress, Procs, Pids, ControlOk, GroupRunning, Apply;
    UniqueFrame(s, t);
    RecoveryFrame(c, s, t);
    CapturePhase(c, s, t);
  }

  lemma ExitKeepsFiles(c: Config, s: State, status: int, t: State)
    requires Files(c, s) && Procs(c, s) && Pids(s) && !s.td.Stopped? && t == s.(td := Stopped(status))
    ensures Files(c, t) && Procs(c, t) && Pids(t)
  {
    hide HandlerOk, XzOk;
    CaptureKeepsProcs(c, s, t);
  }

  lemma RotateKeepsInv(c: Config, s: State)
    requires Inv(c, s) && s.td.Writing?
    ensures Inv(c, Apply(c, s, TdRotate))
  {
    var h, u, t := Handler(s.td.cur, true, Start), s.(td := Opening(s.td.cur + 1)), Apply(c, s, TdRotate);
    assert t == Launch(u, h);
    WhileCapturing(c, s);
    hide Apply, Launch, GroupRunning, Recovery, Phase, Progress, Unique, Pids, Procs;
    RotateKeepsFiles(c, s, t);
    CaptureControl(c, s, t);
    NewestIsNew(c, s);
    RotatedIsOk(c, s, u, h);
    hide Files, ControlOk, HandlerOk;
    RotateKeepsProcs(c, s, u);
    LaunchKeepsProcs(c, u, h);
    LaunchKeepsUnique(c, s, h);
    UniqueFrame(Launch(s, h), t);
    NoOutsiders(c, t);
    CapturePhase(c, s, t);
  }

  lemma RotateKeepsProcs(c: Config, s: State, u: State)
    requires Procs(c, s) && Pids(s) && s.td.Writing? && u == s.(td := Opening(s.td.cur + 1))
    ensures Procs(c, u) && Pids(u)
  {}

  lemma NewestIsNew(c: Config, s: State)
    requires Procs(c, s) && s.td.Writing?
    ensures forall p | p in s.procs :: s.procs[p].index != s.td.cur
  {}

  lemma RotatedIsOk(c: Config, s: State, u: State, h: Proc)
    requires Files(c, s) && s.td.Writing? && !Cleaned(s)
    requires u == s.(td := Opening(s.td.cur + 1)) && h == Handler(s.td.cur, true, Start)
    ensures HandlerOk(c, u, h)
  {}

  lemma CaptureControl(c: Config, s: State, t: State)
    requires ControlOk(c, s) && s.m.pc.WaitTcpdump? && t.m.pc == s.m.pc && t.m.control == s.m.control
    requires t.pending == s.pending && t.aborted == s.aborted && s.created <= t.created
    ensures ControlOk(c, t)
  {}

  lemma RotateKeepsFiles(c: Config, s: State, t: State)
    requires Files(c, s) && s.td.Writing? && t == Apply(c, s, TdRotate) && !Cleaned(s)
    ensures Files(c, t) && s.td.cur in s.raw && s.td.cur !in s.final
  {}

  /** Without a process outside the group there is no recovery handler to speak of. */
  lemma NoOutsiders(c: Config, s: State)
    requires forall p | p in s.procs :: s.procs[p].inGroup
    requires s.m.finalGzip == None && (BeforeRecovery(s.m.pc) || s.m.pc.RecTop? || s.m.pc.AfterGraceful? || s.m.pc.ImmediateReap?)
    ensures Recovery(c, s)
  {}

  // ---------------------------------------------------------------- launching a handler

  lemma LaunchKeepsProcs(c: Config, s: State, h: Proc)
    requires Procs(c, s) && Pids(s) && h.Handler? && HandlerOk(c, s, h) && h.pc.Start?
    ensures Procs(c, Launch(s, h)) && Pids(Launch(s, h))
  {
    var t := Launch(s, h);
    forall q | q in t.procs
      ensures if t.procs[q].Handler? then HandlerOk(c, t, t.procs[q]) else XzOk(c, t, t.procs[q])
    {
      if q != s.nextPid { assert t.procs[q] == s.procs[q]; }
    }
  }

  lemma LaunchKeepsUnique(c: Config, s: State, h: Proc)
    requires Unique(s) && Pids(s) && forall p | p in s.procs :: s.procs[p].index != h.index
    ensures Unique(Launch(s, h))
  {}

  // ---------------------------------------------------------------- commands of the main script

  predicate OnlyMain(s: State, t: State) {
    t == s.(m := t.m)
  }

  /** A command that touches no file and no process keeps what is said about them. */
  lemma MainKeepsRest(c: Config, s: State, t: State)
    requires Files(c, s) && Procs(c, s) && Pids(s) && Unique(s) && OnlyMain(s, t) && Cleaned(s) == Cleaned(t)
    ensures Files(c, t) && Procs(c, t) && Pids(t) && Unique(t) && GroupRunning(t) == GroupRunning(s)
  {
    hide Files, Procs, Unique, GroupRunning, Pids;
    FilesFrame(c, s, t);
    ProcsFrame(c, s, t);
    UniqueFrame(s, t);
    GroupFrame(s, t);
  }

  /** The commands up to the recovery loop. */
  lemma BeforeRecoveryKeepsInv(c: Config, s: State, ok: bool, status: int)
    requires Inv(c, s) && Enabled(s, MainStep(ok, status)) && BeforeRecovery(s.m.pc)
    ensures Inv(c, MainCommand(c, s, ok, status))
  {
    hide Files, Procs, Unique, Pids, GroupRunning, Recovery, Phase, Progress, ControlOk, MainCommand, ScriptCommand, Enabled;
    var t := MainCommand(c, s, ok, status);
    AllInGroup(c, s);
    EarlyControl(c, s, ok, status, t);
    EarlyPhase(c, s, ok, status, t);
    EarlyShape(c, s, ok, status, t);
    MainKeepsRest(c, s, t);
    NoOutsiders(c, t);
  }

  lemma EarlyShape(c: Config, s: State, ok: bool, status: int, t: State)
    requires BeforeRecovery(s.m.pc) && t == MainCommand(c, s, ok, status)
    ensures OnlyMain(s, t) && t.m.finalGzip == s.m.finalGzip
    ensures AfterEarly(t.m.pc)
    ensures s.m.pc.GracefulReap? || Decides(s.m.pc) ==> t.m == s.m.(pc := t.m.pc, reaped := t.m.reaped) && AfterBranch(t.m.pc)
  {}

  predicate AfterBranch(pc: MainPc) {
    || pc.GracefulReap? || pc.WaitGroup? || pc.AfterGroup? || pc.CheckLowDisk? || pc.RecTop?
    || pc.AfterGraceful? || pc.ImmediateReap?
  }

  predicate AfterEarly(pc: MainPc) {
    pc.Decide? || pc.ExitTrap? || pc.Branch? || AfterBranch(pc)
  }

  lemma AllInGroup(c: Config, s: State)
    requires Recovery(c, s) && BeforeRecovery(s.m.pc)
    ensures s.m.finalGzip == None && forall p | p in s.procs :: s.procs[p].inGroup
  {}

  lemma EarlyControl(c: Config, s: State, ok: bool, status: int, t: State)
    requires ControlOk(c, s) && Phase(s) && Enabled(s, MainStep(ok, status)) && BeforeRecovery(s.m.pc)
    requires t == MainCommand(c, s, ok, status)
    ensures ControlOk(c, t)
  {
    assert s.td.Stopped?;
    hide GroupRunning, Phase, NextPc, ControlOk;
    if s.m.pc.WaitTcpdump? {
      ReapControl(c, s, ok, status, t);
    } else if s.m.pc.Decide? {
      DecideControl(c, s, t);
    } else if s.m.pc.ExitTrap? {
      TrapControl(c, s, t);
    } else {
      LaterEarlyControl(c, s, ok, status, t);
    }
  }

  lemma ReapControl(c: Config, s: State, ok: bool, status: int, t: State)
    requires ControlOk(c, s) && s.m.pc.WaitTcpdump? && s.td.Stopped? && (!ok ==> s.m.control.mode != Running)
    requires t == s.(m := s.m.(reaped := true, tcpdumpRc := if ok then s.td.status else status, pc := Decide))
    ensures ControlOk(c, t)
  {}

  lemma TrapControl(c: Config, s: State, t: State)
    requires ControlOk(c, s) && s.m.pc.ExitTrap? && s.td.Stopped?
    requires t == s.(m := s.m.(control := OnExitTrap(s.m.control, s.m.tcpdumpRc), pc := Branch))
    ensures ControlOk(c, t)
  {}

  lemma LaterEarlyControl(c: Config, s: State, ok: bool, status: int, t: State)
    requires ControlOk(c, s) && BeforeRecovery(s.m.pc) && (s.m.pc.GracefulReap? || Decides(s.m.pc))
    requires t == MainCommand(c, s, ok, status)
    ensures ControlOk(c, t)
  {}

  lemma DecideControl(c: Config, s: State, t: State)
    requires ControlOk(c, s) && Phase(s) && s.m.pc.Decide?
    requires t == s.(m := s.m.(control := OnTcpdumpExit(s.m.control, s.m.tcpdumpRc), pc := ExitTrap))
    ensures ControlOk(c, t)
  {}

  lemma EarlyPhase(c: Config, s: State, ok: bool, status: int, t: State)
    requires Phase(s) && Enabled(s, MainStep(ok, status)) && BeforeRecovery(s.m.pc) && t == MainCommand(c, s, ok, status)
    ensures Phase(t) && Progress(c, t)
  {
    hide GroupRunning, OnTcpdumpExit, OnExitTrap, NextPc;
    if Decides(s.m.pc) {
      DecidedPhase(c, s, t);
    } else {
      assert t.m.pc == Decide || t.m.pc == ExitTrap || t.m.pc == Branch || t.m.pc == WaitGroup;
      assert t.td == s.td && t.m.reaped;
    }
  }

  lemma DecidedPhase(c: Config, s: State, t: State)
    requires Phase(s) && Decides(s.m.pc) && BeforeRecovery(s.m.pc) && t == s.(m := s.m.(pc := NextPc(c, s)))
    requires s.m.pc.WaitGroup? ==> !GroupRunning(s) || s.m.control.mode == Immediate
    ensures Phase(t) && Progress(c, t)
  {}

  lemma EmptyGroup(s: State)
    requires GroupEmpty(s)
    ensures s.td.Stopped? && forall p | p in s.procs :: !s.procs[p].inGroup
  {}

  /** `t` differs from `s` only in the variables of the main script. */
  predicate NewScript(s: State, m: Script, t: State) {
    t == s.(m := m)
  }

  lemma ScriptKeepsRest(c: Config, s: State, m: Script, t: State)
    requires Files(c, s) && Procs(c, s) && Pids(s) && Unique(s) && NewScript(s, m, t) && Cleaned(s) == Cleaned(t)
    ensures Files(c, t) && Procs(c, t) && Pids(t) && Unique(t) && GroupRunning(t) == GroupRunning(s)
  {
    hide Files, Procs, Unique, GroupRunning, Pids;
    MainKeepsRest(c, s, t);
  }

  /** The processes outside the group do not mind a step of the main script that starts nobody. */
  lemma OutsidersStay(c: Config, s: State, m: Script, t: State)
    requires Recovery(c, s) && NewScript(s, m, t) && !BeforeRecovery(s.m.pc) && !BeforeRecovery(m.pc)
    requires RecPid(t) == RecPid(s) || (RecPid(s).Some? && RecPid(s).value !in s.procs)
    requires InRecovery(m.pc) ==> InRecovery(s.m.pc) && (m.pc.i == s.m.pc.i || (m.pc == RecTop(s.m.pc.i + 1)))
    requires m.pc.RecTop? || m.pc.RecCheck? || m.pc.RecSpawn? ==>
               m.pc.i > s.m.pc.i || s.m.pc.RecTop? || s.m.pc.RecCheck? || s.m.pc.RecSpawn?
    ensures forall p | p in t.procs && !t.procs[p].inGroup :: OutsiderOk(t, p)
  {}

  lemma RecTopKeepsInv(c: Config, s: State, t: State)
    requires Inv(c, s) && s.m.pc.RecTop?
    requires var stops := s.m.pc.i >= c.maxFiles || s.m.control.mode == Immediate;
             NewScript(s, s.m.(pc := if stops then AfterGraceful else RecCheck(s.m.pc.i)), t)
    ensures Inv(c, t)
  {
    hide Files, Procs, Unique, Pids, GroupRunning;
    ScriptKeepsRest(c, s, t.m, t);
    OutsidersStay(c, s, t.m, t);
    if s.m.pc.i >= c.maxFiles { PublishedEnough(c, s, s.m.pc.i); }
    PublishedSame(c, s, t);
  }

  lemma RecSetPidKeepsInv(c: Config, s: State, t: State)
    requires Inv(c, s) && s.m.pc.RecSetPid?
    requires NewScript(s, s.m.(finalGzip := Some(s.m.pc.pid), pc := RecWait(s.m.pc.i)), t)
    ensures Inv(c, t)
  {
    hide Files, Procs, Unique, Pids, GroupRunning;
    ScriptKeepsRest(c, s, t.m, t);
    OutsidersStay(c, s, t.m, t);
    PublishedSame(c, s, t);
  }

  lemma PublishedEnough(c: Config, s: State, n: nat)
    requires n >= c.maxFiles
    ensures PublishedBelow(c, s, n) ==> PublishedBelow(c, s, c.maxFiles)
  {}

  lemma PublishedSame(c: Config, s: State, t: State)
    requires t.created == s.created && t.final == s.final
    ensures forall n :: PublishedBelow(c, s, n) ==> PublishedBelow(c, t, n)
  {}

  lemma RecCheckKeepsInv(c: Config, s: State, t: State)
    requires Inv(c, s) && s.m.pc.RecCheck?
    requires var skips := s.m.pc.i !in s.raw || s.m.pc.i in s.final;
             NewScript(s, s.m.(pc := if skips then RecTop(s.m.pc.i + 1) else RecSpawn(s.m.pc.i)), t)
    ensures Inv(c, t)
  {
    hide Files, Procs, Unique, Pids, GroupRunning;
    RecCheckFacts(c, s);
    ScriptKeepsRest(c, s, t.m, t);
    OutsidersStay(c, s, t.m, t);
    PublishedSame(c, s, t);
  }

  lemma RecCheckFacts(c: Config, s: State)
    requires Files(c, s) && s.m.pc.RecCheck?
    ensures s.m.pc.i < s.created && s.m.pc.i !in s.raw ==> s.m.pc.i in s.final
    ensures s.m.pc.i in s.raw ==> s.m.pc.i < s.created
  {}

  lemma RecSpawnKeepsInv(c: Config, s: State, t: State)
    requires Inv(c, s) && s.m.pc.RecSpawn?
    requires t == Launch(s, Handler(s.m.pc.i, false, Start)).(m := s.m.(pc := RecSetPid(s.m.pc.i, s.nextPid)))
    ensures Inv(c, t)
  {
    var h := Handler(s.m.pc.i, false, Start);
    var u := s.(m := t.m);
    hide Files, Unique, Progress, ControlOk, Procs, Pids, HandlerOk, Recovery, GroupRunning;
    EmptyGroup(s);
    NobodyOnIndex(c, s);
    RecSpawnReady(c, s, u, h);
    hide Phase;
    RecSpawnKeepsRest(c, s, h, t);
    assert t == Launch(u, h);
    hide Launch;
    ProcsFrame(c, s, u);
    LaunchKeepsProcs(c, u, h);
    LaunchKeepsUnique(c, s, h);
    UniqueFrame(Launch(s, h), t);
    LaunchKeepsRecovery(c, s, h, t);
  }

  lemma RecSpawnKeepsRest(c: Config, s: State, h: Proc, t: State)
    requires Files(c, s) && Progress(c, s) && ControlOk(c, s) && s.m.pc.RecSpawn?
    requires t == Launch(s, h).(m := s.m.(pc := RecSetPid(s.m.pc.i, s.nextPid)))
    ensures Files(c, t) && Progress(c, t) && ControlOk(c, t) && t.procs == Launch(s, h).procs
  {
    hide Files, Progress, ControlOk;
    FilesFrame(c, s, t);
    SpawnKeepsControl(c, s, t);
  }

  lemma NobodyOnIndex(c: Config, s: State)
    requires Recovery(c, s) && s.m.pc.RecSpawn? && GroupEmpty(s)
    ensures forall p | p in s.procs :: s.procs[p].index < s.m.pc.i
  {}

  lemma RecSpawnReady(c: Config, s: State, u: State, h: Proc)
    requires Files(c, s) && Recovery(c, s) && s.m.pc.RecSpawn? && s.td.Stopped?
    requires u == s.(m := s.m.(pc := RecSetPid(s.m.pc.i, s.nextPid))) && h == Handler(s.m.pc.i, false, Start)
    ensures HandlerOk(c, u, h)
  {}

  lemma LaunchKeepsRecovery(c: Config, s: State, h: Proc, t: State)
    requires Recovery(c, s) && Pids(s) && Phase(s) && s.m.pc.RecSpawn? && h == Handler(s.m.pc.i, false, Start)
    requires t == Launch(s, h).(m := s.m.(pc := RecSetPid(s.m.pc.i, s.nextPid)))
    ensures Recovery(c, t) && Phase(t)
  {}

  lemma SpawnKeepsControl(c: Config, s: State, t: State)
    requires Progress(c, s) && ControlOk(c, s) && s.m.pc.RecSpawn? && t.m.pc.RecSetPid? && t.m.pc.i == s.m.pc.i
    requires t.m.control == s.m.control && t.created == s.created && t.final == s.final && t.td == s.td
    requires t.pending == s.pending && t.aborted == s.aborted
    ensures Progress(c, t) && ControlOk(c, t)
  {}

  lemma RecWaitKeepsInv(c: Config, s: State, rc: int, t: State)
    requires Inv(c, s) && s.m.pc.RecWait? && s.m.finalGzip.value !in s.procs
    requires rc == 0 ==> s.m.finalGzip.value in s.exits && s.exits[s.m.finalGzip.value] == 0
    requires NewScript(s, s.m.(finalGzip := None, pc := RecResult(s.m.pc.i, rc)), t)
    ensures Inv(c, t)
  {
    hide Files, Procs, Unique, Pids, GroupRunning;
    ScriptKeepsRest(c, s, t.m, t);
    OutsidersStay(c, s, t.m, t);
    PublishedSame(c, s, t);
  }

  lemma RecResultKeepsInv(c: Config, s: State, t: State)
    requires Inv(c, s) && s.m.pc.RecResult?
    requires NewScript(s, s.m.(control := OnRecovered(s.m.control, s.m.pc.rc),
               pc := if s.m.pc.rc != 0 && s.m.control.mode == Immediate then AfterGraceful else RecTop(s.m.pc.i + 1)), t)
    ensures Inv(c, t)
  {
    hide Files, Procs, Unique, Pids, GroupRunning;
    ScriptKeepsRest(c, s, t.m, t);
    OutsidersStay(c, s, t.m, t);
    assert s.m.pc.rc == 0 ==> s.m.pc.i in s.final;
  }

  /** The program points after recovery, but for those around the deletion of the staging directory. */
  predicate AfterLoop(pc: MainPc) {
    pc.AfterGraceful? || pc.ImmediateReap? || pc.ImmediateGroup? || pc.ImmediateFinal?
  }

  lemma AfterRecoveryKeepsInv(c: Config, s: State, pc: MainPc, t: State)
    requires Inv(c, s) && AfterLoop(s.m.pc)
    requires NewScript(s, s.m.(reaped := true, finalGzip := None, pc := pc), t)
    requires pc == if s.m.pc.AfterGraceful? then (if s.m.control.mode == Immediate then ImmediateReap else Cleanup)
                   else if s.m.pc.ImmediateReap? then ImmediateGroup
                   else if s.m.pc.ImmediateGroup? then ImmediateFinal else Cleanup
    requires s.m.pc.ImmediateGroup? ==> !GroupRunning(s)
    ensures Inv(c, t)
  {
    hide Files, Procs, Unique, Pids, GroupRunning;
    ScriptKeepsRest(c, s, t.m, t);
    OutsidersStay(c, s, t.m, t);
    PublishedSame(c, s, t);
  }

  lemma ExitingKeepsInv(c: Config, s: State, t: State)
    requires Inv(c, s) && s.m.pc.Exiting? && NewScript(s, s.m.(pc := Exited(s.m.control.code)), t)
    ensures Inv(c, t)
  {
    hide Files, Procs, Unique, Pids, GroupRunning;
    ScriptKeepsRest(c, s, t.m, t);
    OutsidersStay(c, s, t.m, t);
    PublishedSame(c, s, t);
  }

  lemma CleanupKeepsInv(c: Config, s: State, t: State)
    requires Inv(c, s) && s.m.pc.Cleanup? && t == s.(raw := map[], part := map[], m := s.m.(pc := Exiting))
    ensures Inv(c, t)
  {
    hide Unique, ControlOk, GroupRunning, Procs, Files, Phase, Recovery, Pids;
    CleanupKeepsFiles(c, s, t);
    CleanupKeepsProcs(c, s, t);
    UniqueFrame(s, t);
    GroupFrame(s, t);
    CleanupKeepsRecovery(c, s, t);
    PublishedSame(c, s, t);
    CleanupKeepsControl(c, s, t);
  }

  lemma CleanupKeepsFiles(c: Config, s: State, t: State)
    requires Files(c, s) && s.m.pc.Cleanup? && t == s.(raw := map[], part := map[], m := s.m.(pc := Exiting))
    ensures Files(c, t)
  {}

  lemma CleanupKeepsProcs(c: Config, s: State, t: State)
    requires Phase(s) && Recovery(c, s) && Procs(c, s) && Pids(s)
    requires s.m.pc.Cleanup? && t == s.(raw := map[], part := map[], m := s.m.(pc := Exiting))
    ensures Procs(c, t) && Pids(t)
  {}

  lemma CleanupKeepsRecovery(c: Config, s: State, t: State)
    requires Phase(s) && Recovery(c, s) && GroupRunning(t) == GroupRunning(s)
    requires s.m.pc.Cleanup? && t == s.(raw := map[], part := map[], m := s.m.(pc := Exiting))
    ensures Phase(t) && Recovery(c, t)
  {}

  lemma CleanupKeepsControl(c: Config, s: State, t: State)
    requires ControlOk(c, s) && s.m.pc.Cleanup? && t.m.pc.Exiting?
    requires t.m.control == s.m.control && t.td == s.td && t.created == s.created
    requires t.pending == s.pending && t.aborted == s.aborted
    ensures ControlOk(c, t)
  {}

  /** When staging is deleted, only orphaned xz processes of recovery handlers can be left. */
  lemma NoHandlersAtCleanup(c: Config, s: State)
    requires Phase(s) && Recovery(c, s) && Ending(s.m.pc)
    ensures s.td.Stopped?
    ensures forall p | p in s.procs :: s.procs[p].Xz? && !s.procs[p].inGroup && p in s.orphans
  {}

  // ---------------------------------------------------------------- every step

  lemma MainStepKeepsInv(c: Config, s: State, ok: bool, status: int)
    requires Inv(c, s) && Enabled(s, MainStep(ok, status))
    ensures Inv(c, MainCommand(c, s, ok, status))
  {
    hide Inv, MainCommand;
    if BeforeRecovery(s.m.pc) {
      hide Enabled;
      BeforeRecoveryKeepsInv(c, s, ok, status);
    } else if InRecovery(s.m.pc) {
      hide Enabled;
      RecoveryKeepsInv(c, s, ok, status);
    } else if s.m.pc.Cleanup? {
      hide Enabled;
      CleanupStep(c, s, ok, status, MainCommand(c, s, ok, status));
      CleanupKeepsInv(c, s, MainCommand(c, s, ok, status));
    } else {
      EndKeepsInv(c, s, ok, status);
    }
  }

  lemma RecoveryKeepsInv(c: Config, s: State, ok: bool, status: int)
    requires Inv(c, s) && Enabled(s, MainStep(ok, status)) && InRecovery(s.m.pc)
    ensures Inv(c, MainCommand(c, s, ok, status))
  {
    hide MainCommand, MainLeaves, GroupRunning;
    var t := MainCommand(c, s, ok, status);
    if s.m.pc.RecSpawn? {
      SpawnStep(c, s, ok, status, t);
      hide Inv;
      RecSpawnKeepsInv(c, s, t);
    } else {
      ScriptStep(c, s, ok, status, t);
      if s.m.pc.RecWait? {
        WaitShape(c, s, ok, status);
        hide ScriptCommand;
        assert s.m.finalGzip.Some?;
        hide Inv;
        RecWaitKeepsInv(c, s, if ok && s.m.finalGzip.value in s.exits then s.exits[s.m.finalGzip.value] else status, t);
      } else if s.m.pc.RecTop? {
        TopShape(c, s, ok, status);
        hide Inv, ScriptCommand;
        RecTopKeepsInv(c, s, t);
      } else if s.m.pc.RecCheck? {
        CheckShape(c, s, ok, status);
        hide Inv, ScriptCommand;
        RecCheckKeepsInv(c, s, t);
      } else if s.m.pc.RecSetPid? {
        SetPidShape(c, s, ok, status);
        hide Inv, ScriptCommand;
        RecSetPidKeepsInv(c, s, t);
      } else {
        ResultShape(c, s, ok, status);
        hide Inv, ScriptCommand;
        RecResultKeepsInv(c, s, t);
      }
    }
  }

  lemma TopShape(c: Config, s: State, ok: bool, status: int)
    requires s.m.pc.RecTop?
    ensures ScriptCommand(c, s, ok, status)
         == s.m.(pc := if s.m.pc.i >= c.maxFiles || s.m.control.mode == Immediate then AfterGraceful else RecCheck(s.m.pc.i))
  {}

  lemma CheckShape(c: Config, s: State, ok: bool, status: int)
    requires s.m.pc.RecCheck?
    ensures ScriptCommand(c, s, ok, status)
         == s.m.(pc := if s.m.pc.i !in s.raw || s.m.pc.i in s.final then RecTop(s.m.pc.i + 1) else RecSpawn(s.m.pc.i))
  {}

  lemma SetPidShape(c: Config, s: State, ok: bool, status: int)
    requires s.m.pc.RecSetPid?
    ensures ScriptCommand(c, s, ok, status) == s.m.(finalGzip := Some(s.m.pc.pid), pc := RecWait(s.m.pc.i))
  {}

  lemma WaitShape(c: Config, s: State, ok: bool, status: int)
    requires s.m.pc.RecWait?
    ensures s.m.finalGzip.Some? ==>
              var rc := if ok && s.m.finalGzip.value in s.exits then s.exits[s.m.finalGzip.value] else status;
              ScriptCommand(c, s, ok, status) == s.m.(finalGzip := None, pc := RecResult(s.m.pc.i, rc))
  {}

  lemma ResultShape(c: Config, s: State, ok: bool, status: int)
    requires s.m.pc.RecResult?
    ensures ScriptCommand(c, s, ok, status)
         == s.m.(control := OnRecovered(s.m.control, s.m.pc.rc),
                 pc := if s.m.pc.rc != 0 && s.m.control.mode == Immediate then AfterGraceful else RecTop(s.m.pc.i + 1))
  {}

  lemma EndKeepsInv(c: Config, s: State, ok: bool, status: int)
    requires Inv(c, s) && Enabled(s, MainStep(ok, status)) && (AfterLoop(s.m.pc) || s.m.pc.Exiting?)
    ensures Inv(c, MainCommand(c, s, ok, status))
  {
    hide MainCommand, MainLeaves, GroupRunning;
    var t := MainCommand(c, s, ok, status);
    ScriptStep(c, s, ok, status, t);
    EndShape(c, s, ok, status);
    hide ScriptCommand;
    assert s.m.finalGzip == None;
    assert AfterLoop(s.m.pc) ==> s.m.reaped;
    hide Inv;
    if s.m.pc.Exiting? {
      ExitingKeepsInv(c, s, t);
    } else {
      AfterRecoveryKeepsInv(c, s, t.m.pc, t);
    }
  }

  lemma EndShape(c: Config, s: State, ok: bool, status: int)
    requires AfterLoop(s.m.pc) || s.m.pc.Exiting?
    ensures s.m.finalGzip == None && s.m.reaped ==> var m := ScriptCommand(c, s, ok, status);
            m == s.m.(pc :=
              if s.m.pc.Exiting? then Exited(s.m.control.code)
              else if s.m.pc.AfterGraceful? then (if s.m.control.mode == Immediate then ImmediateReap else Cleanup)
              else if s.m.pc.ImmediateReap? then ImmediateGroup
              else if s.m.pc.ImmediateGroup? then ImmediateFinal else Cleanup)
  {}

  lemma StepKeepsInv(c: Config, s: State, step: Step)
    requires Inv(c, s) && Enabled(s, step)
    ensures Inv(c, Apply(c, s, step))
  {
    match step
    case TdOpen => OpenKeepsInv(c, s);
    case TdWrite(bytes) => WriteKeepsInv(c, s, bytes);
    case TdRotate => RotateKeepsInv(c, s);
    case TdExit(status) => ExitKeepsInv(c, s, status);
    case HandlerStep(p, ok, status) => HandlerStepKeepsInv(c, s, p, ok, status);
    case HandlerTerm(p) => HandlerTermKeepsInv(c, s, p);
    case Kill(p, status) => KillKeepsInv(c, s, p, status);
    case XzRead(p) => XzReadKeepsInv(c, s, p);
    case XzDone(p) => XzDoneKeepsInv(c, s, p);
    case External(sig) => SignalArrives(c, s, sig);
    case Handle(sig) => SignalHandled(c, s, sig);
    case MainStep(ok, status) => MainStepKeepsInv(c, s, ok, status);
  }

  lemma KillKeepsInv(c: Config, s: State, p: Pid, status: int)
    requires Inv(c, s) && Enabled(s, Kill(p, status))
    ensures Inv(c, Apply(c, s, Kill(p, status)))
  {
    hide Inv;
    ProcessEnds(c, s, p, status);
  }

  lemma {:induction false} RunKeepsInv(c: Config, s: State, steps: seq<Step>, t: State)
    requires Inv(c, s) && Run(c, s, steps, t)
    ensures Inv(c, t)
    decreases |steps|
  {
    hide Inv, Enabled, Apply;
    if steps != [] {
      var n := |steps| - 1;
      var u :| Run(c, s, steps[..n], u) && Enabled(u, steps[n]) && t == Apply(c, u, steps[n]);
      RunKeepsInv(c, s, steps[..n], u);
      StepKeepsInv(c, u, steps[n]);
    }
  }
}
