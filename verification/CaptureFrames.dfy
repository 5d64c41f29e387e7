/** The shape of every step: what it changes, what it leaves alone, and that commands move forward. */
module CaptureFrames {
  import opened CaptureNames
  import opened CaptureModel

  // ---------------------------------------------------------------- handlers

  /** Nothing of tcpdump, of the main script or of the history changes. */
  predicate OnlyProcesses(s: State, t: State) {
    t.m == s.m && t.td == s.td && t.created == s.created && t.captured == s.captured && t.orphans == s.orphans
  }

  /** How far a handler is from its end, the compression itself not counted. */
  function Level(pc: HandlerPc): nat {
    match pc
    case Start => 13
    case CheckDest => 12
    case Notify => 11
    case Clean => 9
    case Spawn => 8
    case Wait(_) => 6
    case Publish => 5
    case Discard(_) => 4
    case RemoveRaw => 4
    case TrapKill(_, _) => 3
    case TrapWait(_, _) => 2
    case TrapClean(_) => 1
  }

  /** Handler `p` moved on to a lower level. */
  predicate HandlerMoved(s: State, t: State, p: Pid)
    requires p in s.procs && s.procs[p].Handler?
  {
    && p in t.procs && t.procs[p].Handler? && t.procs[p] == s.procs[p].(pc := t.procs[p].pc)
    && Level(t.procs[p].pc) < Level(s.procs[p].pc)
    && t.procs == s.procs[p := t.procs[p]] && t.nextPid == s.nextPid
  }

  predicate HandlerGone(s: State, t: State, p: Pid)
    requires p in s.procs && s.procs[p].Handler?
  {
    t.procs == s.procs - {p} && t.nextPid == s.nextPid
  }

  /** Handler `p` started its xz, in its own group. */
  predicate HandlerSpawned(s: State, t: State, p: Pid)
    requires p in s.procs && s.procs[p].Handler?
  {
    var h := s.procs[p];
    && h.pc.Spawn? && h.index in s.raw && t.nextPid == s.nextPid + 1
    && t.procs == s.procs[p := h.(pc := Wait(s.nextPid))][s.nextPid := Xz(h.index, h.inGroup, s.raw[h.index], |s.raw[h.index]|)]
  }

  predicate HandlerEffect(s: State, t: State, p: Pid)
    requires p in s.procs && s.procs[p].Handler?
  {
    && OnlyProcesses(s, t)
    && (s.procs[p].pc.Publish? || t.final == s.final)
    && (HandlerMoved(s, t, p) || HandlerGone(s, t, p) || HandlerSpawned(s, t, p))
    && (t.pending == s.pending
        || (s.procs[p].pc.Start? && HandlerGone(s, t, p) && t.pending == s.pending + {USR1})
        || (s.procs[p].pc.CheckDest? && HandlerGone(s, t, p) && t.pending == s.pending + {TERM})
        || (s.procs[p].pc.Notify? && p in t.procs && t.procs[p].Handler? && t.procs[p].pc.Clean? && t.pending == s.pending + {USR1}))
  }

  lemma OverflowEffect(c: Config, s: State, p: Pid, t: State)
    requires p in s.procs && s.procs[p].Handler? && s.procs[p].pc.Start? && t == PostrotateCommand(c, s, p)
    requires s.procs[p].index >= c.maxFiles
    ensures HandlerEffect(s, t, p)
  {
    IndexOfRawName(c.rawMask, s.procs[p].index);
    assert t == End(Signalled(s, USR1), p, 0);
    hide PostrotateCommand;
  }

  lemma StartEffect(c: Config, s: State, p: Pid, t: State)
    requires p in s.procs && s.procs[p].Handler? && s.procs[p].pc.Start? && t == PostrotateCommand(c, s, p)
    requires s.procs[p].index < c.maxFiles
    ensures HandlerEffect(s, t, p)
  {
    IndexOfRawName(c.rawMask, s.procs[p].index);
    assert t == s.(procs := s.procs[p := s.procs[p].(pc := CheckDest)]);
    hide PostrotateCommand;
  }

  lemma CheckDestEffect(c: Config, s: State, p: Pid, t: State)
    requires p in s.procs && s.procs[p].Handler? && s.procs[p].pc.CheckDest? && t == PostrotateCommand(c, s, p)
    ensures HandlerEffect(s, t, p)
  {
    if s.procs[p].index in s.final {
      assert t == End(Signalled(s, TERM), p, 1).(aborted := true);
    } else {
      assert t == s.(procs := s.procs[p := s.procs[p].(pc := Notify)]);
    }
    hide PostrotateCommand;
  }

  lemma LastEffect(c: Config, s: State, p: Pid, t: State)
    requires p in s.procs && s.procs[p].Handler? && s.procs[p].pc.Notify? && t == PostrotateCommand(c, s, p)
    requires s.procs[p].index + 1 == c.maxFiles
    ensures HandlerEffect(s, t, p)
  {}

  lemma NotifyEffect(c: Config, s: State, p: Pid, t: State)
    requires p in s.procs && s.procs[p].Handler? && s.procs[p].pc.Notify? && t == PostrotateCommand(c, s, p)
    requires s.procs[p].index + 1 != c.maxFiles
    ensures HandlerEffect(s, t, p)
  {}

  lemma CleanEffect(s: State, p: Pid, ok: bool, status: int, t: State)
    requires p in s.procs && s.procs[p].Handler? && s.procs[p].pc.Clean? && t == CompressCommand(s, p, ok, status)
    ensures HandlerEffect(s, t, p)
  {}

  lemma SpawnEffect(s: State, p: Pid, ok: bool, status: int, t: State)
    requires p in s.procs && s.procs[p].Handler? && s.procs[p].pc.Spawn? && t == CompressCommand(s, p, ok, status)
    ensures HandlerEffect(s, t, p)
  {
    if s.procs[p].index in s.raw {
      assert HandlerSpawned(s, t, p);
    } else {
      assert HandlerMoved(s, t, p);
    }
  }

  lemma WaitEffect(s: State, p: Pid, ok: bool, status: int, t: State)
    requires p in s.procs && s.procs[p].Handler? && s.procs[p].pc.Wait? && t == CompressCommand(s, p, ok, status)
    ensures HandlerEffect(s, t, p)
  {}

  lemma DiscardEffect(s: State, p: Pid, ok: bool, status: int, t: State)
    requires p in s.procs && s.procs[p].Handler? && s.procs[p].pc.Discard? && t == CompressCommand(s, p, ok, status)
    ensures HandlerEffect(s, t, p)
  {}

  lemma PublishEffect(s: State, p: Pid, ok: bool, status: int, t: State)
    requires p in s.procs && s.procs[p].Handler? && s.procs[p].pc.Publish? && t == CompressCommand(s, p, ok, status)
    ensures HandlerEffect(s, t, p)
    ensures t.final == s.final || t.final == s.final[s.procs[p].index := s.part[s.procs[p].index]]
  {}

  lemma RemoveRawEffect(s: State, p: Pid, ok: bool, status: int, t: State)
    requires p in s.procs && s.procs[p].Handler? && s.procs[p].pc.RemoveRaw? && t == CompressCommand(s, p, ok, status)
    ensures HandlerEffect(s, t, p)
  {}

  lemma TrapKillEffect(s: State, p: Pid, t: State)
    requires p in s.procs && s.procs[p].Handler? && s.procs[p].pc.TrapKill? && t == TrapCommand(s, p)
    ensures HandlerEffect(s, t, p)
  {}

  lemma TrapWaitEffect(s: State, p: Pid, t: State)
    requires p in s.procs && s.procs[p].Handler? && s.procs[p].pc.TrapWait? && t == TrapCommand(s, p)
    ensures HandlerEffect(s, t, p)
  {}

  lemma TrapCleanEffect(s: State, p: Pid, t: State)
    requires p in s.procs && s.procs[p].Handler? && s.procs[p].pc.TrapClean? && t == TrapCommand(s, p)
    ensures HandlerEffect(s, t, p)
  {}

  /** Every command of a handler moves it forward, and touches nothing of the main script. */
  lemma HandlerAdvances(c: Config, s: State, p: Pid, ok: bool, status: int, t: State)
    requires p in s.procs && s.procs[p].Handler? && t == HandlerCommand(c, s, p, ok, status)
    ensures HandlerEffect(s, t, p)
  {
    hide PostrotateCommand, CompressCommand, TrapCommand, HandlerEffect;
    match s.procs[p].pc
    case Start => if s.procs[p].index < c.maxFiles { StartEffect(c, s, p, t); } else { OverflowEffect(c, s, p, t); }
    case CheckDest => CheckDestEffect(c, s, p, t);
    case Notify => if s.procs[p].index + 1 == c.maxFiles { LastEffect(c, s, p, t); } else { NotifyEffect(c, s, p, t); }
    case Clean => CleanEffect(s, p, ok, status, t);
    case Spawn => SpawnEffect(s, p, ok, status, t);
    case Wait(_) => WaitEffect(s, p, ok, status, t);
    case Discard(_) => DiscardEffect(s, p, ok, status, t);
    case Publish => PublishEffect(s, p, ok, status, t);
    case RemoveRaw => RemoveRawEffect(s, p, ok, status, t);
    case TrapKill(_, _) => TrapKillEffect(s, p, t);
    case TrapWait(_, _) => TrapWaitEffect(s, p, t);
    case TrapClean(_) => TrapCleanEffect(s, p, t);
  }

  // ---------------------------------------------------------------- the main script

  /** The main script publishes nothing, captures nothing and adds nobody to the group. */
  predicate MainLeaves(s: State, t: State) {
    && t.final == s.final && t.td == s.td && t.created == s.created && t.captured == s.captured
    && t.orphans == s.orphans && t.pending == s.pending
    && (forall q | q in t.procs && t.procs[q].inGroup :: q in s.procs && s.procs[q].inGroup)
  }

  /** Only the variables of the main script change. */
  predicate OnlyScript(s: State, t: State) {
    t == s.(m := t.m)
  }

  lemma ScriptStep(c: Config, s: State, ok: bool, status: int, t: State)
    requires !s.m.pc.RecSpawn? && !s.m.pc.Cleanup? && t == MainCommand(c, s, ok, status)
    ensures OnlyScript(s, t) && t.m == ScriptCommand(c, s, ok, status)
    ensures MainLeaves(s, t)
  {}

  lemma SpawnStep(c: Config, s: State, ok: bool, status: int, t: State)
    requires s.m.pc.RecSpawn? && t == MainCommand(c, s, ok, status)
    ensures t == s.(procs := s.procs[s.nextPid := Handler(s.m.pc.i, false, Start)], nextPid := s.nextPid + 1,
                    m := s.m.(pc := RecSetPid(s.m.pc.i, s.nextPid)))
    ensures MainLeaves(s, t)
  {}

  lemma CleanupStep(c: Config, s: State, ok: bool, status: int, t: State)
    requires s.m.pc.Cleanup? && t == MainCommand(c, s, ok, status)
    ensures t == s.(raw := map[], part := map[], m := s.m.(pc := Exiting))
    ensures MainLeaves(s, t)
  {}

  lemma MainLeavesAlone(c: Config, s: State, ok: bool, status: int, t: State)
    requires t == MainCommand(c, s, ok, status)
    ensures MainLeaves(s, t)
  {
    hide MainCommand, MainLeaves;
    if s.m.pc.RecSpawn? {
      SpawnStep(c, s, ok, status, t);
    } else if s.m.pc.Cleanup? {
      CleanupStep(c, s, ok, status, t);
    } else {
      ScriptStep(c, s, ok, status, t);
    }
  }

  lemma DecidingStep(c: Config, s: State, ok: bool, status: int)
    requires Decides(s.m.pc)
    ensures ScriptCommand(c, s, ok, status) == s.m.(pc := NextPc(c, s))
  {}

  /** The control after one command of the main script. */
  function NextControl(m: Script): Control {
    match m.pc
    case Decide => OnTcpdumpExit(m.control, m.tcpdumpRc)
    case ExitTrap => OnExitTrap(m.control, m.tcpdumpRc)
    case RecResult(_, rc) => OnRecovered(m.control, rc)
    case _ => m.control
  }

  lemma ControlStep(c: Config, s: State, ok: bool, status: int, t: State)
    requires t == MainCommand(c, s, ok, status)
    ensures t.m.control == NextControl(s.m)
  {
    hide MainCommand, OnTcpdumpExit, OnExitTrap, OnRecovered;
    if s.m.pc.RecSpawn? {
      SpawnStep(c, s, ok, status, t);
    } else if s.m.pc.Cleanup? {
      CleanupStep(c, s, ok, status, t);
    } else if Decides(s.m.pc) {
      ScriptStep(c, s, ok, status, t);
      DecidingStep(c, s, ok, status);
      hide NextPc, ScriptCommand;
    } else {
      ScriptStep(c, s, ok, status, t);
      ScriptControl(c, s, ok, status);
      hide ScriptCommand;
    }
  }

  lemma ScriptControl(c: Config, s: State, ok: bool, status: int)
    requires !Decides(s.m.pc)
    ensures ScriptCommand(c, s, ok, status).control == NextControl(s.m)
  {}

  // ---------------------------------------------------------------- control flow of the main script

  /** The program points the main script can be at after `a`. */
  predicate Follows(c: Config, a: MainPc, b: MainPc) {
    match a
    case WaitTcpdump => b.Decide?
    case Decide => b.ExitTrap?
    case ExitTrap => b.Branch?
    case Branch => b.ImmediateReap? || b.GracefulReap?
    case GracefulReap => b.WaitGroup?
    case WaitGroup => b.AfterGraceful? || b.AfterGroup?
    case AfterGroup => b.AfterGraceful? || b.CheckLowDisk?
    case CheckLowDisk => b.AfterGraceful? || b == RecTop(0)
    case RecTop(i) => b.AfterGraceful? || (i < c.maxFiles && b == RecCheck(i))
    case RecCheck(i) => b == RecTop(i + 1) || b == RecSpawn(i)
    case RecSpawn(i) => b.RecSetPid? && b.i == i
    case RecSetPid(i, _) => b == RecWait(i)
    case RecWait(i) => b.RecResult? && b.i == i
    case RecResult(i, _) => b.AfterGraceful? || b == RecTop(i + 1)
    case AfterGraceful => b.ImmediateReap? || b.Cleanup?
    case ImmediateReap => b.ImmediateGroup?
    case ImmediateGroup => b.ImmediateFinal?
    case ImmediateFinal => b.Cleanup?
    case Cleanup => b.Exiting?
    case Exiting => b.Exited?
    case Exited(_) => false
  }

  lemma MainFollows(c: Config, s: State, ok: bool, status: int, t: State)
    requires Enabled(s, MainStep(ok, status)) && t == Apply(c, s, MainStep(ok, status))
    ensures Follows(c, s.m.pc, t.m.pc)
  {
    hide MainCommand, GroupRunning, Follows, MainLeaves;
    if s.m.pc.RecSpawn? {
      SpawnStep(c, s, ok, status, t);
      FollowsRest(c, s.m.pc, t.m.pc);
    } else if s.m.pc.Cleanup? {
      CleanupStep(c, s, ok, status, t);
      FollowsRest(c, s.m.pc, t.m.pc);
    } else {
      ScriptStep(c, s, ok, status, t);
      ScriptFollows(c, s, ok, status);
      hide ScriptCommand;
    }
  }

  lemma FollowsRest(c: Config, a: MainPc, b: MainPc)
    requires (a.RecSpawn? && b.RecSetPid? && b.i == a.i) || (a.Cleanup? && b.Exiting?)
    ensures Follows(c, a, b)
  {}

  lemma ScriptFollows(c: Config, s: State, ok: bool, status: int)
    requires !s.m.pc.RecSpawn? && !s.m.pc.Cleanup? && !s.m.pc.Exited?
    ensures Follows(c, s.m.pc, ScriptCommand(c, s, ok, status).pc)
  {}

  // ---------------------------------------------------------------- the other steps

  /** Nothing is published, and the group gains nobody. */
  predicate Quiet(s: State, t: State) {
    && OnlyProcesses(s, t) && t.final == s.final
    && (forall q | q in t.procs && t.procs[q].inGroup :: q in s.procs && s.procs[q].inGroup)
  }

  lemma TermIsQuiet(c: Config, s: State, p: Pid, t: State)
    requires Enabled(s, HandlerTerm(p)) && t == Apply(c, s, HandlerTerm(p))
    ensures Quiet(s, t)
  {}

  lemma ReadIsQuiet(c: Config, s: State, p: Pid, t: State)
    requires Enabled(s, XzRead(p)) && t == Apply(c, s, XzRead(p))
    ensures Quiet(s, t)
  {}

  lemma DoneIsQuiet(c: Config, s: State, p: Pid, t: State)
    requires Enabled(s, XzDone(p)) && t == Apply(c, s, XzDone(p))
    ensures Quiet(s, t)
  {}

  lemma ExternalIsQuiet(c: Config, s: State, sig: Signal, t: State)
    requires Enabled(s, External(sig)) && t == Apply(c, s, External(sig))
    ensures Quiet(s, t)
  {}

  lemma KillIsQuiet(c: Config, s: State, p: Pid, status: int, t: State)
    requires Enabled(s, Kill(p, status)) && t == Apply(c, s, Kill(p, status))
    ensures Quiet(s, t.(orphans := s.orphans))
  {}

  // ---------------------------------------------------------------- any step

  /** Steps of the processes around tcpdump and the main script. */
  predicate OfProcess(step: Step) {
    step.HandlerStep? || step.HandlerTerm? || step.Kill? || step.XzRead? || step.XzDone? || step.External?
  }

  lemma ProcessStep(c: Config, s: State, step: Step, t: State)
    requires Enabled(s, step) && OfProcess(step) && t == Apply(c, s, step)
    ensures OnlyProcesses(s, t.(orphans := s.orphans))
    ensures !step.Kill? ==> t.orphans == s.orphans
    ensures !(step.HandlerStep? && s.procs[step.p].pc.Publish?) ==> t.final == s.final
  {
    hide Apply, HandlerCommand, GroupRunning;
    match step
    case HandlerStep(p, ok, status) => CommandApplied(c, s, p, ok, status, t);
    case HandlerTerm(p) => TermIsQuiet(c, s, p, t);
    case Kill(p, status) => KillIsQuiet(c, s, p, status, t);
    case XzRead(p) => ReadIsQuiet(c, s, p, t);
    case XzDone(p) => DoneIsQuiet(c, s, p, t);
    case External(sig) => ExternalIsQuiet(c, s, sig, t);
  }

  lemma CommandApplied(c: Config, s: State, p: Pid, ok: bool, status: int, t: State)
    requires Enabled(s, HandlerStep(p, ok, status)) && t == Apply(c, s, HandlerStep(p, ok, status))
    ensures HandlerEffect(s, t, p)
  {
    hide HandlerCommand, HandlerEffect, GroupRunning;
    HandlerAdvances(c, s, p, ok, status, t);
  }

  lemma MainApplied(c: Config, s: State, ok: bool, status: int, t: State)
    requires Enabled(s, MainStep(ok, status)) && t == Apply(c, s, MainStep(ok, status))
    ensures MainLeaves(s, t) && t.m.control == NextControl(s.m)
  {
    hide MainCommand, MainLeaves, GroupRunning, NextControl;
    MainLeavesAlone(c, s, ok, status, t);
    ControlStep(c, s, ok, status, t);
  }
}
