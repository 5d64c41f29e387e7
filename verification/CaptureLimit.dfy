/** The last allowed file stops the capture: it is not published before the main script has been told. */
module CaptureLimit {
  import opened CaptureModel
  import opened CaptureInvariant
  import opened CaptureMain
  import opened CaptureEffects
  import opened CaptureFrames

  /** A stop was requested or USR1 waits to be handled. */
  predicate Told(s: State) { USR1 in s.pending || s.m.control.mode != Running }

  /** Nobody works on the last allowed file yet, and it is not published. */
  predicate LastUntouched(c: Config, s: State) {
    && (forall p | p in s.procs && s.procs[p].Handler? && s.procs[p].index + 1 == c.maxFiles :: !Works(s.procs[p].pc))
    && (forall i | i in s.final :: i + 1 != c.maxFiles)
  }

  /** In compress_file. */
  predicate Works(pc: HandlerPc) {
    pc.Clean? || pc.Spawn? || pc.Wait? || pc.Discard? || pc.Publish? || pc.RemoveRaw?
  }

  predicate LimitOk(c: Config, s: State) { Told(s) || LastUntouched(c, s) }

  /** No handler comes to work on the last file, and it is not published now. */
  predicate NothingNew(c: Config, s: State, t: State) {
    && (Told(s) ==> Told(t))
    && (forall p | p in t.procs && t.procs[p].Handler? && Works(t.procs[p].pc) ::
          p in s.procs && s.procs[p].Handler? && s.procs[p].index == t.procs[p].index
          && (Works(s.procs[p].pc) || s.procs[p].index + 1 != c.maxFiles || Told(t)))
    && (forall i | i in t.final && i !in s.final ::
          exists p :: p in s.procs && s.procs[p].Handler? && s.procs[p].index == i && Works(s.procs[p].pc))
  }

  lemma NothingNewKeepsLimit(c: Config, s: State, t: State)
    requires LimitOk(c, s) && NothingNew(c, s, t)
    ensures LimitOk(c, t)
  {}

  lemma MoveIsNothingNew(c: Config, s: State, p: Pid, pc: HandlerPc, t: State)
    requires p in s.procs && s.procs[p].Handler? && t.m == s.m && s.pending <= t.pending && t.procs == Moved(s, p, pc).procs
    requires forall i | i in t.final && i !in s.final :: Works(s.procs[p].pc) && i == s.procs[p].index
    requires Works(pc) ==> Works(s.procs[p].pc) || s.procs[p].index + 1 != c.maxFiles || USR1 in t.pending
    ensures NothingNew(c, s, t)
  {}

  lemma EndIsNothingNew(c: Config, s: State, p: Pid, t: State)
    requires t.m == s.m && s.pending <= t.pending && t.procs == s.procs - {p} && t.final == s.final
    ensures NothingNew(c, s, t)
  {}

  lemma PostrotateIsNothingNew(c: Config, s: State, p: Pid, ok: bool, status: int, t: State)
    requires Inv(c, s) && Enabled(s, HandlerStep(p, ok, status)) && t == Apply(c, s, HandlerStep(p, ok, status))
    requires s.procs[p].pc.CheckDest? || s.procs[p].pc.Notify?
    ensures NothingNew(c, s, t)
  {
    hide Inv, Apply, GroupRunning;
    assert p in s.procs && s.procs[p].Handler?;
    hide Enabled, NothingNew, Moved;
    PostrotateSays(c, s, p, ok, status);
    var pc := if s.procs[p].pc.Notify? then Clean else Notify;
    MovedSays(s, p, pc);
    MoveIsNothingNew(c, s, p, pc, t);
  }

  lemma StartIsNothingNew(c: Config, s: State, p: Pid, ok: bool, status: int, t: State)
    requires Enabled(s, HandlerStep(p, ok, status)) && t == Apply(c, s, HandlerStep(p, ok, status)) && s.procs[p].pc.Start?
    ensures NothingNew(c, s, t)
  {
    hide Apply, GroupRunning;
    assert p in s.procs && s.procs[p].Handler?;
    hide Enabled, NothingNew, Moved;
    StartSays(c, s, p, ok, status);
    if s.procs[p].index < c.maxFiles {
      MovedSays(s, p, CheckDest);
      MoveIsNothingNew(c, s, p, CheckDest, t);
    } else {
      EndIsNothingNew(c, s, p, t);
    }
  }

  lemma SpawnIsNothingNew(c: Config, s: State, p: Pid, y: Proc, t: State)
    requires p in s.procs && s.procs[p].Handler? && Works(s.procs[p].pc)
    requires t.m == s.m && t.pending == s.pending && t.final == s.final
    requires y.Xz? && t.procs == s.procs[p := s.procs[p].(pc := Wait(s.nextPid))][s.nextPid := y]
    ensures NothingNew(c, s, t)
  {}

  /** compress_file ends here. */
  predicate Leaves(pc: HandlerPc, ok: bool) {
    pc.Discard? || pc.RemoveRaw? || (pc.Publish? && !ok)
  }

  lemma LeavingIsNothingNew(c: Config, s: State, p: Pid, ok: bool, status: int, t: State)
    requires Inv(c, s) && Enabled(s, HandlerStep(p, ok, status)) && t == Apply(c, s, HandlerStep(p, ok, status))
    requires Leaves(s.procs[p].pc, ok)
    ensures NothingNew(c, s, t)
  {
    hide Inv, Apply, GroupRunning;
    assert p in s.procs && s.procs[p].Handler?;
    hide Enabled, NothingNew, Moved;
    CompressSays(c, s, p, ok, status);
    EndIsNothingNew(c, s, p, t);
  }

  lemma GoingOnIsNothingNew(c: Config, s: State, p: Pid, ok: bool, status: int, t: State)
    requires Inv(c, s) && Enabled(s, HandlerStep(p, ok, status)) && t == Apply(c, s, HandlerStep(p, ok, status))
    requires Works(s.procs[p].pc) && !s.procs[p].pc.Spawn? && !Leaves(s.procs[p].pc, ok)
    ensures NothingNew(c, s, t)
  {
    hide Inv, Apply, GroupRunning;
    assert p in s.procs && s.procs[p].Handler?;
    hide Enabled, NothingNew, Moved;
    CompressSays(c, s, p, ok, status);
    var rc := if s.procs[p].pc.Wait? && ok then s.exits[s.procs[p].pc.xz] else status;
    var pc := if s.procs[p].pc.Clean? then Spawn else if s.procs[p].pc.Publish? then RemoveRaw
              else if rc == 0 then Publish else Discard(rc);
    MovedSays(s, p, pc);
    MoveIsNothingNew(c, s, p, pc, t);
  }

  lemma CompressIsNothingNew(c: Config, s: State, p: Pid, ok: bool, status: int, t: State)
    requires Inv(c, s) && Enabled(s, HandlerStep(p, ok, status)) && t == Apply(c, s, HandlerStep(p, ok, status))
    requires Works(s.procs[p].pc)
    ensures NothingNew(c, s, t)
  {
    hide Inv, Apply, GroupRunning;
    assert p in s.procs && s.procs[p].Handler?;
    hide Enabled, NothingNew;
    if Leaves(s.procs[p].pc, ok) {
      LeavingIsNothingNew(c, s, p, ok, status, t);
    } else if s.procs[p].pc.Spawn? {
      CompressSays(c, s, p, ok, status);
      var h := s.procs[p];
      SpawnIsNothingNew(c, s, p, Xz(h.index, h.inGroup, s.captured[h.index], |s.captured[h.index]|), t);
    } else {
      GoingOnIsNothingNew(c, s, p, ok, status, t);
    }
  }

  lemma TrapIsNothingNew(c: Config, s: State, p: Pid, ok: bool, status: int, t: State)
    requires Enabled(s, HandlerStep(p, ok, status)) && t == Apply(c, s, HandlerStep(p, ok, status))
    requires s.procs[p].pc.TrapKill? || s.procs[p].pc.TrapWait? || s.procs[p].pc.TrapClean?
    ensures NothingNew(c, s, t)
  {
    hide Apply, GroupRunning;
    assert p in s.procs && s.procs[p].Handler?;
    hide Enabled, NothingNew, Moved;
    TrapSays(c, s, p, ok, status);
    var h := s.procs[p];
    if h.pc.TrapClean? {
      EndIsNothingNew(c, s, p, t);
    } else {
      var pc := if h.pc.TrapKill? && h.pc.child.Some? && h.pc.child.value in s.procs then TrapWait(h.pc.child.value, h.pc.tmp)
                else TrapClean(h.pc.tmp);
      MovedSays(s, p, pc);
      MoveIsNothingNew(c, s, p, pc, t);
    }
  }

  lemma MainIsNothingNew(c: Config, s: State, ok: bool, status: int, t: State)
    requires Enabled(s, MainStep(ok, status)) && t == Apply(c, s, MainStep(ok, status))
    ensures NothingNew(c, s, t)
  {
    MainApplied(c, s, ok, status, t);
    if s.m.control.mode != Running { ModeStays(s.m); }
    hide MainCommand, ScriptCommand, GroupRunning, NextControl, NothingNew;
    if s.m.pc.RecSpawn? {
      SpawnStep(c, s, ok, status, t);
    } else if s.m.pc.Cleanup? {
      CleanupStep(c, s, ok, status, t);
    } else {
      ScriptStep(c, s, ok, status, t);
    }
    ScriptIsNothingNew(c, s, t);
  }

  lemma ModeStays(m: Script)
    requires m.control.mode != Running
    ensures NextControl(m).mode != Running
  {}

  lemma ScriptIsNothingNew(c: Config, s: State, t: State)
    requires t.pending == s.pending && t.final == s.final && (s.m.control.mode != Running ==> t.m.control.mode != Running)
    requires forall p | p in t.procs && (p !in s.procs || s.procs[p] != t.procs[p]) :: t.procs[p].Handler? && t.procs[p].pc.Start?
    ensures NothingNew(c, s, t)
  {}

  lemma OthersAreNothingNew(c: Config, s: State, step: Step, t: State)
    requires Enabled(s, step) && t == Apply(c, s, step) && !step.HandlerStep? && !step.MainStep?
    ensures NothingNew(c, s, t)
  {
    hide GroupRunning, ChildOf, TmpSet;
  }

  lemma StepIsNothingNew(c: Config, s: State, step: Step, t: State)
    requires Inv(c, s) && Enabled(s, step) && t == Apply(c, s, step)
    ensures NothingNew(c, s, t)
  {
    hide Inv, Apply, GroupRunning, NothingNew;
    match step
    case HandlerStep(p, ok, status) =>
      assert p in s.procs && s.procs[p].Handler?;
      hide Enabled;
      match s.procs[p].pc {
        case Start => StartIsNothingNew(c, s, p, ok, status, t);
        case CheckDest => PostrotateIsNothingNew(c, s, p, ok, status, t);
        case Notify => PostrotateIsNothingNew(c, s, p, ok, status, t);
        case TrapKill(_, _) => TrapIsNothingNew(c, s, p, ok, status, t);
        case TrapWait(_, _) => TrapIsNothingNew(c, s, p, ok, status, t);
        case TrapClean(_) => TrapIsNothingNew(c, s, p, ok, status, t);
        case _ => CompressIsNothingNew(c, s, p, ok, status, t);
      }
    case MainStep(ok, status) =>
      hide Enabled;
      MainIsNothingNew(c, s, ok, status, t);
    case _ =>
      hide Enabled;
      OthersAreNothingNew(c, s, step, t);
  }

  /**
   In every run: while a handler is in compress_file with the last allowed file, or that file is published, a stop was
   requested or USR1 waits to be handled.
   */
  lemma LastFileStopsTheCapture(c: Config, steps: seq<Step>, s: State)
    requires Run(c, Init, steps, s)
    ensures (exists p :: p in s.procs && s.procs[p].Handler? && s.procs[p].index == c.maxFiles - 1 && Works(s.procs[p].pc))
            || (c.maxFiles > 0 && c.maxFiles - 1 in s.final)
            ==> USR1 in s.pending || s.m.control.mode != Running
  {
    LimitHolds(c, steps, s);
    hide Run;
  }

  lemma {:induction false} LimitHolds(c: Config, steps: seq<Step>, s: State)
    requires Run(c, Init, steps, s)
    ensures LimitOk(c, s)
    decreases |steps|
  {
    if steps != [] {
      var n := |steps| - 1;
      var u :| Run(c, Init, steps[..n], u) && Enabled(u, steps[n]) && s == Apply(c, u, steps[n]);
      LimitHolds(c, steps[..n], u);
      InitInv(c);
      RunKeepsInv(c, Init, steps[..n], u);
      hide Run, Inv, Enabled, Apply, NothingNew, LimitOk;
      StepIsNothingNew(c, u, steps[n], s);
      NothingNewKeepsLimit(c, u, s);
    }
  }
}
