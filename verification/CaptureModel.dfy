/**
 The capture protocol: bbuadm_tcpdump_capture.sh (the main script), tcpdump in its own process
 group, one bbuadm_gzip.sh handler per closed file, and one xz per compression. Every process
 advances one command at a time, in any interleaving; any process but the main script may be killed
 at any point, and signals may reach the main script at any point after tcpdump was started.

 Files are keyed by their index; the names are those of CaptureNames, which are injective.
 */
module CaptureModel {
  import opened Basics
  import opened CaptureNames

  type Pid = nat
  type Bytes = seq<int>

  /** Checked configuration: MAX_DUMP_FILES and RAW_MASK. */
  datatype Config = Config(maxFiles: nat, rawMask: string)

  const EXIT_OK := 0
  const EXIT_COMPRESSION_ERROR := 14
  const EXIT_LOW_DISK := 15
  const EXIT_SIGINT := 130
  const EXIT_SIGTERM := 143

  // ---------------------------------------------------------------- shutdown control of the main script

  datatype Signal = INT | TERM | USR1 | USR2

  datatype Mode = Running | Graceful | Immediate

  datatype Reason = NoReason | SigInt | SigTerm | MaxFiles | LowDisk | TcpdumpExit | ScriptExit

  /** SHUTDOWN_MODE, STOP_REASON and FINAL_EXIT_CODE. */
  datatype Control = Control(mode: Mode, reason: Reason, code: Option<int>)

  function RequestGraceful(k: Control, reason: Reason, code: int): Control {
    if k.mode == Running then Control(Graceful, reason, Some(code)) else k
  }

  function RequestImmediate(k: Control): Control {
    Control(Immediate, SigTerm, Some(EXIT_SIGTERM))
  }

  function OnSignal(k: Control, sig: Signal): Control {
    match sig
    case INT => RequestGraceful(k, SigInt, EXIT_SIGINT)
    case TERM => RequestImmediate(k)
    case USR1 => RequestGraceful(k, MaxFiles, EXIT_OK)
    case USR2 => RequestGraceful(k, LowDisk, EXIT_LOW_DISK)
  }

  /** After tcpdump has gone: its own status counts if nobody asked to stop. */
  function OnTcpdumpExit(k: Control, rc: int): Control {
    var k' := if k.mode == Running then Control(Graceful, TcpdumpExit, Some(rc)) else k;
    if k'.code == None then k'.(code := Some(rc)) else k'
  }

  /** The first lines of the exit trap, entered with status `rc`. */
  function OnExitTrap(k: Control, rc: int): Control {
    var k' := if k.code == None then k.(code := Some(rc)) else k;
    if k'.mode == Running then k'.(mode := Graceful, reason := ScriptExit) else k'
  }

  /** A recovery handler ended with status `rc`. */
  function OnRecovered(k: Control, rc: int): Control {
    if rc != 0 && k.mode != Immediate then k.(code := Some(EXIT_COMPRESSION_ERROR)) else k
  }

  // ---------------------------------------------------------------- processes and files

  /** A compressed file; a complete one is identified with what it decompresses to. */
  datatype Artifact = Partial | Complete(content: Bytes)

  datatype Tcpdump = Opening(next: nat) | Writing(cur: nat) | Stopped(status: int)

  /** Program points of a compression handler; the last three are its TERM trap. */
  datatype HandlerPc =
    | Start
    | CheckDest
    | Notify
    | Clean
    | Spawn
    | Wait(xz: Pid)
    | Discard(rc: int)
    | Publish
    | RemoveRaw
    | TrapKill(child: Option<Pid>, tmp: bool)
    | TrapWait(xz: Pid, tmp: bool)
    | TrapClean(tmp: bool)

  datatype Proc =
    | Handler(index: nat, inGroup: bool, pc: HandlerPc)
    | Xz(index: nat, inGroup: bool, input: Bytes, left: nat)

  datatype MainPc =
    | WaitTcpdump
    | Decide
    | ExitTrap
    | Branch
    | GracefulReap
    | WaitGroup
    | AfterGroup
    | CheckLowDisk
    | RecTop(i: nat)
    | RecCheck(i: nat)
    | RecSpawn(i: nat)
    | RecSetPid(i: nat, pid: Pid)
    | RecWait(i: nat)
    | RecResult(i: nat, rc: int)
    | AfterGraceful
    | ImmediateReap
    | ImmediateGroup
    | ImmediateFinal
    | Cleanup
    | Exiting
    | Exited(code: Option<int>)

  /** The main script: its program point and its variables. */
  datatype Script = Script(
    pc: MainPc,
    control: Control,
    reaped: bool,
    tcpdumpRc: int,
    finalGzip: Option<Pid>)

  datatype State = State(
    raw: map<nat, Bytes>,
    part: map<nat, Artifact>,
    final: map<nat, Artifact>,
    td: Tcpdump,
    procs: map<Pid, Proc>,
    exits: map<Pid, int>,         // exit statuses of ended processes
    nextPid: Pid,
    m: Script,
    pending: set<Signal>,         // signals not yet handled by the main script
    // history: files created, bytes captured in each, aborting branches taken, xz left behind by killed recovery handlers
    created: nat,
    captured: map<nat, Bytes>,
    aborted: bool,
    orphans: set<Pid>)

  const Init := State(map[], map[], map[], Opening(0), map[], map[], 0,
                      Script(WaitTcpdump, Control(Running, NoReason, None), false, 0, None), {}, 0, map[], false, {})

  /** kill -0 on the process group. */
  predicate GroupRunning(s: State) {
    !s.td.Stopped? || exists p | p in s.procs :: s.procs[p].inGroup
  }

  function Launch(s: State, p: Proc): State {
    s.(procs := s.procs[s.nextPid := p], nextPid := s.nextPid + 1)
  }

  function End(s: State, p: Pid, status: int): State {
    s.(procs := s.procs - {p}, exits := s.exits[p := status])
  }

  function Signalled(s: State, sig: Signal): State {
    s.(pending := s.pending + {sig})
  }

  /** The xz a handler would wait for. */
  function ChildOf(pc: HandlerPc): Option<Pid> {
    match pc
    case Wait(x) => Some(x)
    case TrapKill(child, _) => child
    case TrapWait(x, _) => Some(x)
    case _ => None
  }

  /** Between the assignment of TMP_COMPRESSED_FILE and its reset. */
  predicate TmpSet(pc: HandlerPc) {
    pc.Clean? || pc.Spawn? || pc.Wait? || pc.Discard? || pc.Publish?
  }

  predicate InTrap(pc: HandlerPc) { pc.TrapKill? || pc.TrapWait? || pc.TrapClean? }

  // ---------------------------------------------------------------- steps

  /**
   Handler and Main advance one command; `ok` says whether a failing command (mv, rm) succeeds or,
   for a wait, whether it was not interrupted by a signal; `status` is the status seen otherwise.
   */
  datatype Step =
    | TdOpen
    | TdWrite(bytes: Bytes)
    | TdRotate
    | TdExit(status: int)
    | HandlerStep(p: Pid, ok: bool, status: int)
    | HandlerTerm(p: Pid)
    | Kill(p: Pid, status: int)
    | XzRead(p: Pid)
    | XzDone(p: Pid)
    | External(sig: Signal)
    | Handle(sig: Signal)
    | MainStep(ok: bool, status: int)

  predicate Enabled(s: State, step: Step) {
    match step
    case TdOpen => s.td.Opening?
    case TdWrite(_) => s.td.Writing? && s.td.cur in s.raw && s.td.cur in s.captured
    case TdRotate => s.td.Writing?
    case TdExit(_) => !s.td.Stopped?
    case HandlerStep(p, _, status) =>
      && p in s.procs && s.procs[p].Handler? && status != 0
      && (s.procs[p].pc.Wait? ==> s.procs[p].pc.xz !in s.procs)
      && (s.procs[p].pc.TrapWait? ==> s.procs[p].pc.xz !in s.procs)
    case HandlerTerm(p) => p in s.procs && s.procs[p].Handler? && !InTrap(s.procs[p].pc)
    case Kill(p, status) => p in s.procs && status != 0
    case XzRead(p) => p in s.procs && s.procs[p].Xz? && s.procs[p].left > 0
    case XzDone(p) => p in s.procs && s.procs[p].Xz? && s.procs[p].left == 0
    case External(sig) => sig != USR1 && !s.m.pc.Exited?
    case Handle(sig) => sig in s.pending && !s.m.pc.Exited?
    case MainStep(ok, status) =>
      // a wait is interrupted only by a trapped signal, and every trapped signal leaves the running mode
      && (!ok ==> status != 0 && s.m.control.mode != Running)
      && (s.m.pc.WaitTcpdump? ==> s.td.Stopped?)
      && (s.m.pc.GracefulReap? || s.m.pc.ImmediateReap? ==> s.m.reaped || s.td.Stopped?)
      && (s.m.pc.WaitGroup? ==> !GroupRunning(s) || s.m.control.mode == Immediate)
      && (s.m.pc.ImmediateGroup? ==> !GroupRunning(s))
      && (s.m.pc.RecWait? || s.m.pc.ImmediateFinal? ==> s.m.finalGzip.Some? ==> s.m.finalGzip.value !in s.procs)
      && !s.m.pc.Exited?
  }

  function Apply(c: Config, s: State, step: Step): State
    requires Enabled(s, step)
  {
    match step
    case TdOpen =>
      var n := s.td.next;
      s.(td := Writing(n), created := n + 1, raw := s.raw[n := []], captured := s.captured[n := []])
    case TdWrite(bytes) =>
      var n := s.td.cur;
      s.(raw := s.raw[n := s.raw[n] + bytes], captured := s.captured[n := s.captured[n] + bytes])
    case TdRotate =>
      Launch(s.(td := Opening(s.td.cur + 1)), Handler(s.td.cur, true, Start))
    case TdExit(status) => s.(td := Stopped(status))
    case HandlerStep(p, ok, status) => HandlerCommand(c, s, p, ok, status)
    case HandlerTerm(p) =>
      var h := s.procs[p];
      s.(procs := s.procs[p := h.(pc := TrapKill(ChildOf(h.pc), TmpSet(h.pc)))])
    case Kill(p, status) =>
      var h := s.procs[p];
      var left := if h.Handler? && !h.inGroup && ChildOf(h.pc).Some? && ChildOf(h.pc).value in s.procs
                  then {ChildOf(h.pc).value} else {};
      End(s, p, status).(orphans := s.orphans + left)
    case XzRead(p) =>
      s.(procs := s.procs[p := s.procs[p].(left := s.procs[p].left - 1)])
    case XzDone(p) =>
      var x := s.procs[p];
      End(s, p, 0).(part := if x.index in s.part then s.part[x.index := Complete(x.input)] else s.part)
    case External(sig) => Signalled(s, sig)
    case Handle(sig) => s.(m := s.m.(control := OnSignal(s.m.control, sig)), pending := s.pending - {sig})
    case MainStep(ok, status) => MainCommand(c, s, ok, status)
  }

  /** One command of a handler: of its TERM trap, of postrotate or of compress_file. */
  function HandlerCommand(c: Config, s: State, p: Pid, ok: bool, status: int): State
    requires p in s.procs && s.procs[p].Handler?
  {
    if InTrap(s.procs[p].pc) then TrapCommand(s, p)
    else if InPostrotate(s.procs[p].pc) then PostrotateCommand(c, s, p)
    else CompressCommand(s, p, ok, status)
  }

  predicate InPostrotate(pc: HandlerPc) { pc.Start? || pc.CheckDest? || pc.Notify? }

  function PostrotateCommand(c: Config, s: State, p: Pid): State
    requires p in s.procs && s.procs[p].Handler? && InPostrotate(s.procs[p].pc)
  {
    var h := s.procs[p];
    var i := h.index;
    match h.pc
    case Start =>
      (match GetIndex(c.rawMask, RawName(c.rawMask, i))
       case None => End(Signalled(s, TERM), p, 1).(aborted := true)
       case Some(n) =>
         if n >= c.maxFiles then End(Signalled(s, USR1), p, 0)
         else s.(procs := s.procs[p := h.(index := n, pc := CheckDest)]))
    case CheckDest =>
      if i in s.final then End(Signalled(s, TERM), p, 1).(aborted := true)
      else s.(procs := s.procs[p := h.(pc := Notify)])
    case Notify =>
      var s' := if i + 1 == c.maxFiles then Signalled(s, USR1) else s;
      s'.(procs := s.procs[p := h.(pc := Clean)])
  }

  function CompressCommand(s: State, p: Pid, ok: bool, status: int): State
    requires p in s.procs && s.procs[p].Handler? && !InTrap(s.procs[p].pc) && !InPostrotate(s.procs[p].pc)
  {
    var h := s.procs[p];
    var i := h.index;
    match h.pc
    case Clean =>
      s.(part := s.part - {i}, procs := s.procs[p := h.(pc := Spawn)])
    case Spawn =>
      if i in s.raw then
        Launch(s.(part := s.part[i := Partial], procs := s.procs[p := h.(pc := Wait(s.nextPid))]),
               Xz(i, h.inGroup, s.raw[i], |s.raw[i]|))
      else s.(procs := s.procs[p := h.(pc := Discard(1))])
    case Wait(x) =>
      var rc := if ok && x in s.exits then s.exits[x] else status;
      s.(procs := s.procs[p := h.(pc := if rc == 0 then Publish else Discard(rc))])
    case Discard(rc) =>
      End(s, p, rc).(part := s.part - {i})
    case Publish =>
      if ok && i in s.part then
        s.(final := s.final[i := s.part[i]], part := s.part - {i}, procs := s.procs[p := h.(pc := RemoveRaw)])
      else End(s, p, 1)
    case RemoveRaw =>
      if ok then End(s, p, 0).(raw := s.raw - {i}) else End(s, p, 1)
  }

  function TrapCommand(s: State, p: Pid): State
    requires p in s.procs && s.procs[p].Handler? && InTrap(s.procs[p].pc)
  {
    var h := s.procs[p];
    match h.pc
    case TrapKill(child, tmp) =>
      s.(procs := s.procs[p := h.(pc := if child.Some? && child.value in s.procs
                                        then TrapWait(child.value, tmp) else TrapClean(tmp))])
    case TrapWait(_, tmp) =>
      s.(procs := s.procs[p := h.(pc := TrapClean(tmp))])
    case TrapClean(tmp) =>
      End(s, p, EXIT_SIGTERM).(part := if tmp then s.part - {h.index} else s.part)
  }

  /** Program points whose command only decides where to go on. */
  predicate Decides(pc: MainPc) {
    || pc.Branch? || pc.WaitGroup? || pc.AfterGroup? || pc.CheckLowDisk? || pc.RecTop? || pc.RecCheck?
    || pc.AfterGraceful? || pc.ImmediateGroup?
  }

  function NextPc(c: Config, s: State): MainPc
    requires Decides(s.m.pc)
  {
    var immediate := s.m.control.mode == Immediate;
    match s.m.pc
    case Branch => if immediate then ImmediateReap else GracefulReap
    case WaitGroup => if GroupRunning(s) then AfterGraceful else AfterGroup
    case AfterGroup => if immediate then AfterGraceful else CheckLowDisk
    case CheckLowDisk => if s.m.control.reason == LowDisk then AfterGraceful else RecTop(0)
    case RecTop(i) => if i >= c.maxFiles || immediate then AfterGraceful else RecCheck(i)
    case RecCheck(i) => if i !in s.raw || i in s.final then RecTop(i + 1) else RecSpawn(i)
    case AfterGraceful => if immediate then ImmediateReap else Cleanup
    case ImmediateGroup => ImmediateFinal
  }

  /** Commands that touch only the variables of the script. */
  function ScriptCommand(c: Config, s: State, ok: bool, status: int): Script {
    var m := s.m;
    if Decides(m.pc) then m.(pc := NextPc(c, s))
    else match m.pc
      case WaitTcpdump =>
        m.(reaped := true, tcpdumpRc := if ok && s.td.Stopped? then s.td.status else status, pc := Decide)
      case Decide => m.(control := OnTcpdumpExit(m.control, m.tcpdumpRc), pc := ExitTrap)
      case ExitTrap => m.(control := OnExitTrap(m.control, m.tcpdumpRc), pc := Branch)
      case GracefulReap => m.(reaped := true, pc := WaitGroup)
      case RecSetPid(i, p) => m.(finalGzip := Some(p), pc := RecWait(i))
      case RecWait(i) =>
        var rc := if ok && m.finalGzip.Some? && m.finalGzip.value in s.exits then s.exits[m.finalGzip.value] else status;
        m.(finalGzip := None, pc := RecResult(i, rc))
      case RecResult(i, rc) =>
        m.(control := OnRecovered(m.control, rc),
           pc := if rc != 0 && m.control.mode == Immediate then AfterGraceful else RecTop(i + 1))
      case ImmediateReap => m.(reaped := true, pc := ImmediateGroup)
      case ImmediateFinal => m.(finalGzip := None, pc := Cleanup)
      case Exiting => m.(pc := Exited(m.control.code))
      case _ => m
  }

  function MainCommand(c: Config, s: State, ok: bool, status: int): State {
    match s.m.pc
    case RecSpawn(i) => Launch(s, Handler(i, false, Start)).(m := s.m.(pc := RecSetPid(i, s.nextPid)))
    case Cleanup => s.(raw := map[], part := map[], m := s.m.(pc := Exiting))
    case _ => s.(m := ScriptCommand(c, s, ok, status))
  }

  /** `t` is reached from `s` by the steps `steps`. */
  ghost predicate Run(c: Config, s: State, steps: seq<Step>, t: State)
    decreases |steps|
  {
    if steps == [] then t == s
    else
      var n := |steps| - 1;
      exists u :: Run(c, s, steps[..n], u) && Enabled(u, steps[n]) && t == Apply(c, u, steps[n])
  }
}
