/** The inductive invariant of the capture protocol. */
module CaptureInvariant {
  import opened Basics
  import opened CaptureModel

  // ---------------------------------------------------------------- files

  predicate Cleaned(s: State) { s.m.pc.Exiting? || s.m.pc.Exited? }

  /** File `i` was opened and tcpdump no longer writes it. */
  predicate Closed(s: State, i: nat) {
    i < s.created && s.td != Writing(i)
  }

  predicate IsComplete(s: State, files: map<nat, Artifact>, i: nat) {
    i in files && i in s.captured && files[i] == Complete(s.captured[i])
  }

  ghost predicate Files(c: Config, s: State) {
    && (s.td.Opening? ==> s.td.next == s.created)
    && (s.td.Writing? ==> s.td.cur + 1 == s.created)
    && (forall i: nat :: i in s.captured <==> i < s.created)
    && (forall i | i in s.raw :: i < s.created && s.raw[i] == s.captured[i])
    && (forall i | i in s.final :: i < c.maxFiles && Closed(s, i) && IsComplete(s, s.final, i))
    && (forall i | i in s.part && s.part[i].Complete? :: Closed(s, i) && IsComplete(s, s.part, i))
    && (!Cleaned(s) ==> forall i | 0 <= i < s.created :: i in s.raw || i in s.final)
    && (Cleaned(s) ==> s.raw == map[] && s.part == map[])
  }

  // ---------------------------------------------------------------- processes

  predicate Pids(s: State) {
    && (forall p | p in s.procs :: p < s.nextPid && p !in s.exits)
    && (forall p | p in s.exits :: p < s.nextPid)
  }

  /** Past the index check. */
  predicate Active(pc: HandlerPc) {
    pc.CheckDest? || pc.Notify? || TmpSet(pc) || pc.RemoveRaw?
  }

  predicate Unpublished(pc: HandlerPc) {
    pc.Start? || pc.CheckDest? || pc.Notify? || TmpSet(pc)
  }

  predicate HandlerOk(c: Config, s: State, h: Proc)
    requires h.Handler?
  {
    && Closed(s, h.index)
    && !Cleaned(s)
    && (Active(h.pc) ==> h.index < c.maxFiles)
    && (Unpublished(h.pc) ==> h.index in s.raw && h.index !in s.final)
    && (h.pc.RemoveRaw? ==> h.index in s.final)
    && (h.pc.Publish? ==> IsComplete(s, s.part, h.index))
    && (h.pc.Discard? ==> h.pc.rc != 0)
    && (ChildOf(h.pc).Some? ==> ChildOk(s, h, ChildOf(h.pc).value))
    && (h.pc.Wait? && h.pc.xz !in s.procs ==>
          h.pc.xz in s.exits && (s.exits[h.pc.xz] == 0 ==> IsComplete(s, s.part, h.index)))
  }

  predicate ChildOk(s: State, h: Proc, x: Pid)
    requires h.Handler?
  {
    && x < s.nextPid
    && (x in s.procs ==> s.procs[x].Xz? && s.procs[x].index == h.index && s.procs[x].inGroup == h.inGroup)
  }

  predicate XzOk(c: Config, s: State, x: Proc)
    requires x.Xz?
  {
    && x.index < c.maxFiles
    && Closed(s, x.index)
    && x.index in s.captured && x.input == s.captured[x.index] && x.left <= |x.input|
    && (!Cleaned(s) ==> x.index in s.part && s.part[x.index] == Partial && x.index in s.raw && x.index !in s.final)
  }

  predicate Procs(c: Config, s: State) {
    forall p | p in s.procs ::
      if s.procs[p].Handler? then HandlerOk(c, s, s.procs[p]) else XzOk(c, s, s.procs[p])
  }

  predicate ParentOf(s: State, p: Pid, x: Pid)
    requires p in s.procs && x in s.procs
  {
    s.procs[p].Handler? && s.procs[x].Xz? && ChildOf(s.procs[p].pc) == Some(x)
  }

  /** At most one handler and one xz work on an index, and then the handler waits for that xz. */
  predicate Unique(s: State) {
    forall p, q | p in s.procs && q in s.procs && p != q && s.procs[p].index == s.procs[q].index ::
      ParentOf(s, p, q) || ParentOf(s, q, p)
  }

  // ---------------------------------------------------------------- the main script

  predicate GroupEmpty(s: State) { !GroupRunning(s) }

  predicate BeforeReap(pc: MainPc) { pc.WaitTcpdump? }

  predicate BeforeRecovery(pc: MainPc) {
    || pc.WaitTcpdump? || pc.Decide? || pc.ExitTrap? || pc.Branch? || pc.GracefulReap? || pc.WaitGroup?
    || pc.AfterGroup? || pc.CheckLowDisk?
  }

  predicate InRecovery(pc: MainPc) {
    pc.RecTop? || pc.RecCheck? || pc.RecSpawn? || pc.RecSetPid? || pc.RecWait? || pc.RecResult?
  }

  predicate Ending(pc: MainPc) { pc.Cleanup? || pc.Exiting? || pc.Exited? }

  /** tcpdump is reaped, and the group is empty, from the program points that waited for it. */
  predicate Phase(s: State) {
    && (!BeforeReap(s.m.pc) ==> s.m.reaped && s.td.Stopped?)
    && (s.m.pc.AfterGroup? || s.m.pc.CheckLowDisk? || InRecovery(s.m.pc) || s.m.pc.ImmediateFinal? || Ending(s.m.pc) ==> GroupEmpty(s))
    && (s.m.pc.AfterGraceful? ==> GroupEmpty(s) || s.m.control.mode == Immediate)
    && (s.m.pc.ImmediateReap? || s.m.pc.ImmediateGroup? || s.m.pc.ImmediateFinal? ==> s.m.control.mode == Immediate)
  }

  /** The running recovery handler, if any. */
  function RecPid(s: State): Option<Pid> {
    if s.m.pc.RecSetPid? then Some(s.m.pc.pid) else if s.m.pc.RecWait? then s.m.finalGzip else None
  }

  predicate Recovery(c: Config, s: State) {
    && (s.m.finalGzip.Some? <==> s.m.pc.RecWait?)
    && (RecPid(s).Some? ==> RecPidOk(s, RecPid(s).value, s.m.pc.i))
    && (s.m.pc.RecCheck? || s.m.pc.RecSpawn? || s.m.pc.RecSetPid? || s.m.pc.RecWait? || s.m.pc.RecResult? ==> s.m.pc.i < c.maxFiles)
    && (s.m.pc.RecSpawn? ==> s.m.pc.i in s.raw && s.m.pc.i !in s.final)
    && (s.m.pc.RecResult? && s.m.pc.rc == 0 ==> s.m.pc.i in s.final)
    && (forall p | p in s.procs && !s.procs[p].inGroup :: OutsiderOk(s, p))
  }

  predicate RecPidOk(s: State, q: Pid, i: nat) {
    && q < s.nextPid
    && (q in s.procs ==> s.procs[q].Handler? && !s.procs[q].inGroup && s.procs[q].index == i)
    && (q !in s.procs ==> q in s.exits && (s.exits[q] == 0 ==> i in s.final))
  }

  /** A process outside the group is the recovery handler, its xz, or an orphan of an earlier one. */
  predicate OutsiderOk(s: State, p: Pid)
    requires p in s.procs
  {
    && !BeforeRecovery(s.m.pc)
    && (s.procs[p].Handler? ==> RecPid(s) == Some(p))
    && (s.procs[p].Xz? ==>
          || p in s.orphans
          || (RecPid(s).Some? && RecPid(s).value in s.procs && ParentOf(s, RecPid(s).value, p)))
    && (s.procs[p].Xz? ==> InRecovery(s.m.pc) ==>
          if s.m.pc.RecTop? || s.m.pc.RecCheck? || s.m.pc.RecSpawn? then s.procs[p].index < s.m.pc.i
          else s.procs[p].index <= s.m.pc.i)
  }

  // ---------------------------------------------------------------- results and control

  /** Files below the limit, among the first `n`, are all published. */
  predicate PublishedBelow(c: Config, s: State, n: nat) {
    forall j | 0 <= j < n && j < s.created && j < c.maxFiles :: j in s.final
  }

  predicate Failed(s: State) { s.m.control.code == Some(EXIT_COMPRESSION_ERROR) }

  /** What recovery has achieved so far. */
  predicate Progress(c: Config, s: State) {
    && (s.m.pc.RecTop? || s.m.pc.RecCheck? || s.m.pc.RecSpawn? || s.m.pc.RecSetPid? || s.m.pc.RecWait? || s.m.pc.RecResult? ==>
          s.m.control.mode == Immediate || Failed(s) || PublishedBelow(c, s, s.m.pc.i))
    && (s.m.pc.AfterGraceful? || Ending(s.m.pc) ==>
          || s.m.control.mode == Immediate || s.m.control.reason == LowDisk || Failed(s)
          || PublishedBelow(c, s, c.maxFiles))
  }

  /** The exit code each reason stands for. */
  function CodeOf(s: State, reason: Reason): Option<int> {
    match reason
    case SigInt => Some(EXIT_SIGINT)
    case SigTerm => Some(EXIT_SIGTERM)
    case MaxFiles => Some(EXIT_OK)
    case LowDisk => Some(EXIT_LOW_DISK)
    case TcpdumpExit => if s.td.Stopped? then Some(s.td.status) else None
    case ScriptExit => None
    case NoReason => None
  }

  predicate ControlOk(c: Config, s: State) {
    && (s.m.control.mode == Running ==> s.m.control.reason == NoReason && s.m.control.code == None)
    && (s.m.control.mode == Graceful ==>
          && s.m.control.reason != NoReason && s.m.control.reason != SigTerm && s.m.control.reason != ScriptExit
          && (s.m.control.code == CodeOf(s, s.m.control.reason) || (Failed(s) && !BeforeRecovery(s.m.pc))))
    && (s.m.control.mode == Immediate ==> s.m.control == Control(Immediate, SigTerm, Some(EXIT_SIGTERM)))
    && (s.m.control.mode == Running ==> s.m.pc.WaitTcpdump? || (s.m.pc.Decide? && s.td.Stopped? && s.m.tcpdumpRc == s.td.status))
    && (s.m.control.reason == TcpdumpExit ==> !s.m.pc.WaitTcpdump? && !s.m.pc.Decide?)
    && (s.m.pc.Exited? ==> s.m.pc.code == s.m.control.code)
    && (USR1 in s.pending || s.m.control.reason == MaxFiles ==> s.created >= c.maxFiles)
    && !s.aborted
  }

  ghost predicate Inv(c: Config, s: State) {
    && Files(c, s) && Pids(s) && Procs(c, s) && Unique(s)
    && Phase(s) && Recovery(c, s) && Progress(c, s) && ControlOk(c, s)
  }

  lemma InitInv(c: Config)
    ensures Inv(c, Init)
  {}
}
