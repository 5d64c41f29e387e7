/**
 What every step does to a reachable state of the capture, said outright: the whole state afterwards, for every
 command of the two scripts and for every step of the processes around them. Two consequences follow: the last
 allowed file stops the capture, and an interrupted compression leaves no partial file.
 */
module CaptureEffects {
  import opened Basics
  import opened CaptureNames
  import opened CaptureModel
  import opened CaptureInvariant

  /** Handler `p` goes on at `pc`. */
  function Moved(s: State, p: Pid, pc: HandlerPc): State
    requires p in s.procs && s.procs[p].Handler?
  {
    s.(procs := s.procs[p := s.procs[p].(pc := pc)])
  }

  /** Process `p` ends with `status`. */
  function Ended(s: State, p: Pid, status: int): State {
    s.(procs := s.procs - {p}, exits := s.exits[p := status])
  }

  lemma MovedSays(s: State, p: Pid, pc: HandlerPc)
    requires p in s.procs && s.procs[p].Handler?
    ensures Moved(s, p, pc) == s.(procs := Moved(s, p, pc).procs)
  {}

  // ---------------------------------------------------------------- handlers

  /** What a handler finds at its program point. */
  lemma HandlerHas(c: Config, s: State, p: Pid)
    requires Inv(c, s) && p in s.procs && s.procs[p].Handler?
    ensures var h := s.procs[p];
            && h.index in s.captured
            && (h.pc.CheckDest? || h.pc.Publish? ==> h.index !in s.final)
            && (h.pc.Spawn? ==> h.index in s.raw && s.raw[h.index] == s.captured[h.index])
            && (h.pc.Wait? && h.pc.xz !in s.procs ==> h.pc.xz in s.exits)
            && (h.pc.Discard? ==> h.pc.rc != 0)
            && (h.pc.Publish? ==> h.index in s.part && s.part[h.index] == Complete(s.captured[h.index]))
            && (h.pc.RemoveRaw? ==> h.index in s.final)
  {
    hide Unique, Phase, Recovery, Progress, ControlOk, Pids, GroupRunning;
    assert HandlerOk(c, s, s.procs[p]);
    hide Procs;
  }

  /** A handler waits for nobody but its xz, and any of its waits, moves and removals may fail. */
  lemma HandlersMayGoOn(c: Config, s: State, p: Pid, ok: bool, status: int)
    requires Inv(c, s) && p in s.procs && s.procs[p].Handler? && status != 0
    ensures Enabled(s, HandlerStep(p, ok, status)) <==>
              var pc := s.procs[p].pc;
              (pc.Wait? ==> pc.xz !in s.procs && pc.xz in s.exits) && (pc.TrapWait? ==> pc.xz !in s.procs)
  {
    HandlerHas(c, s, p);
    hide Inv, GroupRunning;
  }

  /** The first command of postrotate: the name decodes, and a file beyond the limit ends the handler with USR1. */
  lemma StartSays(c: Config, s: State, p: Pid, ok: bool, status: int)
    requires Enabled(s, HandlerStep(p, ok, status)) && s.procs[p].pc.Start?
    ensures var h, t := s.procs[p], Apply(c, s, HandlerStep(p, ok, status));
            t == if h.index < c.maxFiles then Moved(s, p, CheckDest) else Ended(s, p, 0).(pending := s.pending + {USR1})
  {
    hide GroupRunning, CompressCommand, TrapCommand, RawName, GetIndex;
    IndexOfRawName(c.rawMask, s.procs[p].index);
  }

  /** The rest of postrotate: the destination is never there, and the last allowed file sends USR1. */
  lemma PostrotateSays(c: Config, s: State, p: Pid, ok: bool, status: int)
    requires Inv(c, s) && Enabled(s, HandlerStep(p, ok, status))
    ensures var h, t := s.procs[p], Apply(c, s, HandlerStep(p, ok, status));
            match h.pc
            case CheckDest => h.index !in s.final && t == Moved(s, p, Notify)
            case Notify => t == Moved(s, p, Clean).(pending := s.pending + if h.index == c.maxFiles - 1 then {USR1} else {})
            case _ => true
  {
    hide Inv, GroupRunning, CompressCommand, TrapCommand, RawName, GetIndex;
    HandlerHas(c, s, p);
  }

  /** compress_file: the xz gets everything tcpdump wrote to the file, and what is moved is complete. */
  lemma CompressSays(c: Config, s: State, p: Pid, ok: bool, status: int)
    requires Inv(c, s) && Enabled(s, HandlerStep(p, ok, status))
    ensures var h, t := s.procs[p], Apply(c, s, HandlerStep(p, ok, status));
            var i, x := h.index, s.nextPid;
            match h.pc
            case Clean => t == Moved(s, p, Spawn).(part := s.part - {i})
            case Spawn =>
              && i in s.raw && i in s.captured
              && t == s.(part := s.part[i := Partial], nextPid := x + 1,
                         procs := s.procs[p := h.(pc := Wait(x))][x := Xz(i, h.inGroup, s.captured[i], |s.captured[i]|)])
            case Wait(xz) =>
              && xz in s.exits
              && var rc := if ok then s.exits[xz] else status; t == Moved(s, p, if rc == 0 then Publish else Discard(rc))
            case Discard(rc) => rc != 0 && t == Ended(s, p, rc).(part := s.part - {i})
            case Publish =>
              && i in s.captured && i !in s.final
              && t == if ok then Moved(s, p, RemoveRaw).(final := s.final[i := Complete(s.captured[i])], part := s.part - {i})
                      else Ended(s, p, 1)
            case RemoveRaw => i in s.final && t == if ok then Ended(s, p, 0).(raw := s.raw - {i}) else Ended(s, p, 1)
            case _ => true
  {
    hide Inv, GroupRunning, PostrotateCommand, TrapCommand;
    HandlerHas(c, s, p);
  }

  /** The TERM trap: xz is stopped if there is one, and the named partial file goes. */
  lemma TrapSays(c: Config, s: State, p: Pid, ok: bool, status: int)
    requires Enabled(s, HandlerStep(p, ok, status))
    ensures var h, t := s.procs[p], Apply(c, s, HandlerStep(p, ok, status));
            match h.pc
            case TrapKill(Some(x), tmp) => t == Moved(s, p, if x in s.procs then TrapWait(x, tmp) else TrapClean(tmp))
            case TrapKill(None, tmp) => t == Moved(s, p, TrapClean(tmp))
            case TrapWait(_, tmp) => t == Moved(s, p, TrapClean(tmp))
            case TrapClean(tmp) => t == Ended(s, p, 143).(part := if tmp then s.part - {h.index} else s.part)
            case _ => true
  {
    hide GroupRunning, PostrotateCommand, CompressCommand;
  }

  // ---------------------------------------------------------------- the other processes

  lemma TcpdumpHas(c: Config, s: State)
    requires Inv(c, s)
    ensures s.td.Opening? ==> s.td.next == s.created
    ensures s.td.Writing? ==> s.td.cur == s.created - 1 && s.td.cur in s.captured && s.td.cur in s.raw
  {
    hide Procs, Pids, Unique, Recovery, Progress, ControlOk, GroupRunning;
  }

  /** tcpdump may stop at any time; a new file is empty, a write is kept, and a rotation starts a handler in the group. */
  lemma TcpdumpSays(c: Config, s: State, bytes: Bytes, status: int)
    requires Inv(c, s)
    ensures Enabled(s, TdOpen) <==> s.td.Opening?
    ensures Enabled(s, TdWrite(bytes)) <==> s.td.Writing?
    ensures Enabled(s, TdRotate) <==> s.td.Writing?
    ensures Enabled(s, TdExit(status)) <==> !s.td.Stopped?
    ensures s.td.Opening? ==>
              var n := s.created;
              Apply(c, s, TdOpen) == s.(td := Writing(n), created := n + 1, raw := s.raw[n := []], captured := s.captured[n := []])
    ensures s.td.Writing? ==>
              var n := s.created - 1;
              && n in s.raw && n in s.captured
              && Apply(c, s, TdWrite(bytes))
              == s.(raw := s.raw[n := s.raw[n] + bytes], captured := s.captured[n := s.captured[n] + bytes])
              && Apply(c, s, TdRotate)
              == s.(td := Opening(n + 1), procs := s.procs[s.nextPid := Handler(n, true, Start)], nextPid := s.nextPid + 1)
    ensures !s.td.Stopped? ==> Apply(c, s, TdExit(status)) == s.(td := Stopped(status))
  {
    hide Inv, GroupRunning;
    TcpdumpHas(c, s);
  }

  /** A TERM enters the trap from everywhere else, with the xz being waited for and the partial file named by then. */
  lemma TermSays(c: Config, s: State, p: Pid)
    ensures Enabled(s, HandlerTerm(p)) <==>
              && p in s.procs && s.procs[p].Handler?
              && !s.procs[p].pc.TrapKill? && !s.procs[p].pc.TrapWait? && !s.procs[p].pc.TrapClean?
    ensures Enabled(s, HandlerTerm(p)) ==>
              var pc := s.procs[p].pc;
              Apply(c, s, HandlerTerm(p))
              == Moved(s, p, TrapKill(if pc.Wait? then Some(pc.xz) else None,
                                      pc.Clean? || pc.Spawn? || pc.Wait? || pc.Discard? || pc.Publish?))
  {
    hide GroupRunning;
  }

  lemma XzHas(c: Config, s: State, p: Pid)
    requires Inv(c, s) && p in s.procs && s.procs[p].Xz?
    ensures var x := s.procs[p]; x.index in s.captured && x.input == s.captured[x.index]
  {
    hide Files, Unique, Phase, Recovery, Progress, ControlOk, Pids, GroupRunning;
    assert XzOk(c, s, s.procs[p]);
    hide Procs;
  }

  /** Any process may be killed, and xz reads its input to the end and then has a complete output. */
  lemma ProcessesSay(c: Config, s: State, p: Pid, status: int)
    requires Inv(c, s) && p in s.procs
    ensures Enabled(s, Kill(p, status)) <==> status != 0
    ensures status != 0 ==> Apply(c, s, Kill(p, status)).(orphans := s.orphans) == Ended(s, p, status)
    ensures s.procs[p].Xz? ==>
              var x := s.procs[p];
              && (Enabled(s, XzRead(p)) <==> x.left > 0) && (Enabled(s, XzDone(p)) <==> x.left == 0)
              && (x.left > 0 ==> Apply(c, s, XzRead(p)) == s.(procs := s.procs[p := x.(left := x.left - 1)]))
              && (x.left == 0 ==>
                    && x.index in s.captured
                    && var part := if x.index in s.part then s.part[x.index := Complete(s.captured[x.index])] else s.part;
                       Apply(c, s, XzDone(p)) == Ended(s, p, 0).(part := part))
  {
    hide Inv, GroupRunning;
    if s.procs[p].Xz? { XzHas(c, s, p); }
  }

  // ---------------------------------------------------------------- the main script

  /** Signals are noted, and handled later: each graceful request counts only if it is the first, TERM always. */
  lemma SignalsSay(c: Config, s: State, sig: Signal)
    requires !s.m.pc.Exited?
    ensures Enabled(s, External(sig)) <==> sig != USR1
    ensures Enabled(s, Handle(sig)) <==> sig in s.pending
    ensures sig != USR1 ==> Apply(c, s, External(sig)) == s.(pending := s.pending + {sig})
    ensures sig in s.pending ==>
              var t := Apply(c, s, Handle(sig));
              && t == s.(pending := s.pending - {sig}, m := s.m.(control := t.m.control))
              && t.m.control == if sig == TERM then Control(Immediate, SigTerm, Some(143))
                                else if s.m.control.mode != Running then s.m.control
                                else if sig == INT then Control(Graceful, SigInt, Some(130))
                                else if sig == USR1 then Control(Graceful, MaxFiles, Some(0))
                                else Control(Graceful, LowDisk, Some(15))
  {
    hide GroupRunning;
  }

  /** The waits: for tcpdump, for the group, and for the recovery handler; only a graceful wait for the group gives up. */
  lemma WaitsSay(c: Config, s: State, ok: bool, status: int)
    requires Inv(c, s) && !s.m.pc.Exited?
    ensures Enabled(s, MainStep(ok, status)) <==>
              && (ok || (status != 0 && s.m.control.mode != Running))
              && match s.m.pc
                 case WaitTcpdump => s.td.Stopped?
                 case WaitGroup => !GroupRunning(s) || s.m.control.mode == Immediate
                 case ImmediateGroup => !GroupRunning(s)
                 case RecWait(_) => s.m.finalGzip.Some? && s.m.finalGzip.value !in s.procs
                 case _ => true
  {
    hide Files, Procs, Pids, Unique, Progress, ControlOk, GroupRunning;
  }

  /** What the main script finds at its program point. */
  lemma MainHas(c: Config, s: State)
    requires Inv(c, s)
    ensures var m := s.m;
            && (m.pc.Decide? && m.control.mode == Running ==> s.td.Stopped? && m.tcpdumpRc == s.td.status)
            && (m.control.mode != Running ==> m.control.code.Some?)
            && (!m.pc.WaitTcpdump? && !m.pc.Decide? ==> m.control.mode != Running)
            && (!m.pc.WaitTcpdump? ==> m.reaped)
            && (m.pc.RecWait? ==> m.finalGzip.Some? && (m.finalGzip.value !in s.procs ==> m.finalGzip.value in s.exits))
            && (!m.pc.RecWait? ==> m.finalGzip == None)
  {
    hide Files, Procs, Pids, Unique, Progress, GroupRunning;
  }

  /** Before the exit trap is done: the status of tcpdump counts if no stop was requested. */
  lemma MainSaysFirst(c: Config, s: State, ok: bool, status: int)
    requires Inv(c, s) && Enabled(s, MainStep(ok, status))
    ensures var m, t := s.m, Apply(c, s, MainStep(ok, status));
            match m.pc
            case WaitTcpdump => t == s.(m := m.(pc := Decide, reaped := true, tcpdumpRc := if ok then s.td.status else status))
            case Decide =>
              var own := m.control.mode == Running;
              t == s.(m := m.(pc := ExitTrap,
                              control := if own then Control(Graceful, TcpdumpExit, Some(s.td.status)) else m.control))
            case ExitTrap => t == s.(m := m.(pc := Branch))
            case Branch => t == s.(m := m.(pc := if m.control.mode == Immediate then ImmediateReap else GracefulReap))
            case _ => true
  {
    hide Inv, GroupRunning;
    MainHas(c, s);
  }

  /** The graceful finish up to recovery, which a TERM and low disk space prevent. */
  lemma MainSaysGracefully(c: Config, s: State, ok: bool, status: int)
    requires Inv(c, s) && Enabled(s, MainStep(ok, status))
    ensures var m, t := s.m, Apply(c, s, MainStep(ok, status));
            match m.pc
            case GracefulReap => t == s.(m := m.(pc := WaitGroup))
            case WaitGroup => t == s.(m := m.(pc := if GroupRunning(s) then AfterGraceful else AfterGroup))
            case AfterGroup => t == s.(m := m.(pc := if m.control.mode == Immediate then AfterGraceful else CheckLowDisk))
            case CheckLowDisk => t == s.(m := m.(pc := if m.control.reason == LowDisk then AfterGraceful else RecTop(0)))
            case AfterGraceful => t == s.(m := m.(pc := if m.control.mode == Immediate then ImmediateReap else Cleanup))
            case _ => true
  {
    hide Inv, GroupRunning;
    MainHas(c, s);
  }

  /** The recovery loop: one handler at a time, for raw files below the limit that are not published. */
  lemma MainSaysInTheLoop(c: Config, s: State, ok: bool, status: int)
    requires Enabled(s, MainStep(ok, status))
    ensures var m, t := s.m, Apply(c, s, MainStep(ok, status));
            match m.pc
            case RecTop(i) =>
              t == s.(m := m.(pc := if i >= c.maxFiles || m.control.mode == Immediate then AfterGraceful else RecCheck(i)))
            case RecCheck(i) => t == s.(m := m.(pc := if i in s.raw && i !in s.final then RecSpawn(i) else RecTop(i + 1)))
            case RecSpawn(i) =>
              var p := s.nextPid;
              t == s.(procs := s.procs[p := Handler(i, false, Start)], nextPid := p + 1, m := m.(pc := RecSetPid(i, p)))
            case _ => true
  {
    hide GroupRunning;
  }

  /** The wait for the recovery handler and what its result leads to. */
  lemma MainSaysOfResults(c: Config, s: State, ok: bool, status: int)
    requires Inv(c, s) && Enabled(s, MainStep(ok, status))
    ensures var m, t := s.m, Apply(c, s, MainStep(ok, status));
            match m.pc
            case RecSetPid(i, p) => t == s.(m := m.(pc := RecWait(i), finalGzip := Some(p)))
            case RecWait(i) =>
              && m.finalGzip.Some? && m.finalGzip.value in s.exits
              && t == s.(m := m.(pc := RecResult(i, if ok then s.exits[m.finalGzip.value] else status), finalGzip := None))
            case RecResult(i, rc) =>
              var failed := rc != 0 && m.control.mode != Immediate;
              t == s.(m := m.(pc := if rc == 0 || failed then RecTop(i + 1) else AfterGraceful,
                              control := if failed then m.control.(code := Some(14)) else m.control))
            case _ => true
  {
    hide Inv, GroupRunning;
    MainHas(c, s);
  }

  /** The immediate finish, and the end: the staging directory is deleted and FINAL_EXIT_CODE returned. */
  lemma MainSaysLast(c: Config, s: State, ok: bool, status: int)
    requires Inv(c, s) && Enabled(s, MainStep(ok, status))
    ensures var m, t := s.m, Apply(c, s, MainStep(ok, status));
            match m.pc
            case ImmediateReap => t == s.(m := m.(pc := ImmediateGroup))
            case ImmediateGroup => t == s.(m := m.(pc := ImmediateFinal))
            case ImmediateFinal => t == s.(m := m.(pc := Cleanup))
            case Cleanup => t == s.(raw := map[], part := map[], m := m.(pc := Exiting))
            case Exiting => t == s.(m := m.(pc := Exited(m.control.code)))
            case _ => true
  {
    hide Inv, GroupRunning;
    MainHas(c, s);
  }
}
