/**
 Partial files. A compression that is stopped by TERM or fails leaves none; one is left without a handler exactly
 if its handler was killed or could not move it, until the next handler of that file takes it up.
 */
module CapturePartFiles {
  import opened Basics
  import opened CaptureModel
  import opened CaptureInvariant
  import opened CaptureMain
  import opened CaptureFrames
  import opened CaptureEffects
  import opened CaptureHistory

  /** TMP_COMPRESSED_FILE is set: the handler will move or remove its partial file. */
  predicate Names(pc: HandlerPc) {
    || pc.Clean? || pc.Spawn? || pc.Wait? || pc.Discard? || pc.Publish?
    || (pc.TrapKill? && pc.tmp) || (pc.TrapWait? && pc.tmp) || (pc.TrapClean? && pc.tmp)
  }

  predicate Holds(s: State, p: Pid, i: nat) {
    p in s.procs && s.procs[p].Handler? && s.procs[p].index == i && Names(s.procs[p].pc)
  }

  /** A partial file of index `i` that no handler will move or remove. */
  ghost predicate Alone(s: State, i: nat) {
    i in s.part && forall p :: !Holds(s, p, i)
  }

  /** The handler of a partial file is killed, or fails to move it. */
  predicate Drops(s: State, step: Step, i: nat) {
    && i in s.part
    && ((step.Kill? && Holds(s, step.p, i))
        || (step.HandlerStep? && !step.ok && Holds(s, step.p, i) && s.procs[step.p].pc.Publish?))
  }

  /** A handler names the partial file of index `i`, or the staging directory is deleted. */
  predicate TakesUp(s: State, step: Step, i: nat) {
    || (step.HandlerStep? && step.p in s.procs && s.procs[step.p].Handler? && s.procs[step.p].index == i
        && s.procs[step.p].pc.Notify?)
    || (step.MainStep? && s.m.pc.Cleanup?)
  }

  ghost predicate Follows(s: State, step: Step, t: State, i: nat) {
    Alone(t, i) <==> (Alone(s, i) && !TakesUp(s, step, i)) || Drops(s, step, i)
  }

  /** Only what `p` holds changes, to `holds`. */
  ghost predicate OnlyBy(s: State, t: State, p: Pid, i: nat, holds: bool) {
    Holds(t, p, i) == holds && forall q | q != p :: Holds(t, q, i) == Holds(s, q, i)
  }

  lemma NextIsFree(c: Config, s: State)
    requires Inv(c, s)
    ensures s.nextPid !in s.procs
  {
    hide Files, Procs, Unique, Phase, Recovery, Progress, ControlOk;
  }

  lemma MoveHolds(s: State, p: Pid, pc: HandlerPc, t: State, i: nat)
    requires p in s.procs && s.procs[p].Handler? && t.procs == Moved(s, p, pc).procs
    ensures OnlyBy(s, t, p, i, s.procs[p].index == i && Names(pc))
  {}

  lemma EndHolds(s: State, p: Pid, t: State, i: nat)
    requires t.procs == s.procs - {p}
    ensures OnlyBy(s, t, p, i, false)
  {}

  lemma SpawnHolds(s: State, p: Pid, x: Pid, y: Proc, t: State, i: nat)
    requires p in s.procs && s.procs[p].Handler? && y.Xz? && x !in s.procs
    requires t.procs == s.procs[p := s.procs[p].(pc := Wait(x))][x := y]
    ensures OnlyBy(s, t, p, i, s.procs[p].index == i)
  {}

  /** At most one handler works on an index. */
  lemma OneHolder(c: Config, s: State, p: Pid, q: Pid, i: nat)
    requires Inv(c, s) && Holds(s, p, i) && Holds(s, q, i)
    ensures p == q
  {
    hide Files, Pids, Procs, Phase, Recovery, Progress, ControlOk;
    assert p == q || ParentOf(s, p, q) || ParentOf(s, q, p);
  }

  lemma StartOnParts(c: Config, s: State, p: Pid, ok: bool, status: int, t: State, i: nat)
    requires Enabled(s, HandlerStep(p, ok, status)) && t == Apply(c, s, HandlerStep(p, ok, status)) && s.procs[p].pc.Start?
    ensures Follows(s, HandlerStep(p, ok, status), t, i)
  {
    hide Inv, Apply, GroupRunning;
    assert p in s.procs && s.procs[p].Handler? && !Holds(s, p, i);
    hide Enabled, Moved, Holds;
    StartSays(c, s, p, ok, status);
    if s.procs[p].index < c.maxFiles {
      MovedSays(s, p, CheckDest);
      MoveHolds(s, p, CheckDest, t, i);
    } else {
      EndHolds(s, p, t, i);
    }
  }

  lemma PostrotateOnParts(c: Config, s: State, p: Pid, ok: bool, status: int, t: State, i: nat)
    requires Inv(c, s) && Enabled(s, HandlerStep(p, ok, status)) && t == Apply(c, s, HandlerStep(p, ok, status))
    requires s.procs[p].pc.CheckDest? || s.procs[p].pc.Notify?
    ensures Follows(s, HandlerStep(p, ok, status), t, i)
  {
    hide Inv, Apply, GroupRunning;
    assert p in s.procs && s.procs[p].Handler? && !Holds(s, p, i);
    hide Enabled, Moved, Holds;
    PostrotateSays(c, s, p, ok, status);
    var pc := if s.procs[p].pc.Notify? then Clean else Notify;
    MovedSays(s, p, pc);
    MoveHolds(s, p, pc, t, i);
  }

  lemma TrapOnParts(c: Config, s: State, p: Pid, ok: bool, status: int, t: State, i: nat)
    requires Enabled(s, HandlerStep(p, ok, status)) && t == Apply(c, s, HandlerStep(p, ok, status))
    requires s.procs[p].pc.TrapKill? || s.procs[p].pc.TrapWait? || s.procs[p].pc.TrapClean?
    ensures Follows(s, HandlerStep(p, ok, status), t, i)
  {
    hide Apply, GroupRunning;
    assert p in s.procs && s.procs[p].Handler?;
    assert Holds(s, p, i) <==> s.procs[p].index == i && s.procs[p].pc.tmp;
    hide Enabled, Moved, Holds, Follows;
    TrapSays(c, s, p, ok, status);
    var h := s.procs[p];
    if h.pc.TrapClean? {
      EndHolds(s, p, t, i);
      CleanFollows(s, p, ok, status, t, i);
    } else {
      var pc := if h.pc.TrapKill? && h.pc.child.Some? && h.pc.child.value in s.procs then TrapWait(h.pc.child.value, h.pc.tmp)
                else TrapClean(h.pc.tmp);
      MovedSays(s, p, pc);
      MoveHolds(s, p, pc, t, i);
      SameFollows(s, HandlerStep(p, ok, status), p, t, i);
    }
  }

  lemma CleanFollows(s: State, p: Pid, ok: bool, status: int, t: State, i: nat)
    requires p in s.procs && s.procs[p].Handler? && s.procs[p].pc.TrapClean? && OnlyBy(s, t, p, i, false)
    requires t.part == if s.procs[p].pc.tmp then s.part - {s.procs[p].index} else s.part
    ensures Follows(s, HandlerStep(p, ok, status), t, i)
  {
    assert Holds(s, p, i) <==> s.procs[p].index == i && s.procs[p].pc.tmp;
    hide Holds;
  }

  lemma SameFollows(s: State, step: Step, p: Pid, t: State, i: nat)
    requires t.part == s.part && OnlyBy(s, t, p, i, Holds(s, p, i)) && !TakesUp(s, step, i) && !Drops(s, step, i)
    ensures Follows(s, step, t, i)
  {
    hide Holds, TakesUp, Drops;
  }

  lemma SpawnOnParts(c: Config, s: State, p: Pid, ok: bool, status: int, t: State, i: nat)
    requires Inv(c, s) && Enabled(s, HandlerStep(p, ok, status)) && t == Apply(c, s, HandlerStep(p, ok, status))
    requires s.procs[p].pc.Spawn?
    ensures Follows(s, HandlerStep(p, ok, status), t, i)
  {
    hide Inv, Apply, GroupRunning;
    assert p in s.procs && s.procs[p].Handler? && (Holds(s, p, i) <==> s.procs[p].index == i);
    NextIsFree(c, s);
    hide Enabled, Holds;
    CompressSays(c, s, p, ok, status);
    var h := s.procs[p];
    SpawnHolds(s, p, s.nextPid, Xz(h.index, h.inGroup, s.captured[h.index], |s.captured[h.index]|), t, i);
  }

  /** The commands of compress_file that lead on with the partial file named: rm, and the end of the wait. */
  lemma WorkOnParts(c: Config, s: State, p: Pid, ok: bool, status: int, t: State, i: nat)
    requires Inv(c, s) && Enabled(s, HandlerStep(p, ok, status)) && t == Apply(c, s, HandlerStep(p, ok, status))
    requires s.procs[p].pc.Clean? || s.procs[p].pc.Wait?
    ensures Follows(s, HandlerStep(p, ok, status), t, i)
  {
    hide Inv, Apply, GroupRunning;
    assert p in s.procs && s.procs[p].Handler? && (Holds(s, p, i) <==> s.procs[p].index == i);
    hide Enabled, Moved, Holds;
    CompressSays(c, s, p, ok, status);
    var rc := if s.procs[p].pc.Wait? && ok then s.exits[s.procs[p].pc.xz] else status;
    var pc := if s.procs[p].pc.Clean? then Spawn else if rc == 0 then Publish else Discard(rc);
    MovedSays(s, p, pc);
    MoveHolds(s, p, pc, t, i);
  }

  /** The ends of the compression: the partial file is removed or moved, or the move fails. */
  lemma EndOnParts(c: Config, s: State, p: Pid, ok: bool, status: int, t: State, i: nat)
    requires Inv(c, s) && Enabled(s, HandlerStep(p, ok, status)) && t == Apply(c, s, HandlerStep(p, ok, status))
    requires s.procs[p].pc.Discard? || s.procs[p].pc.Publish?
    ensures Follows(s, HandlerStep(p, ok, status), t, i)
  {
    hide Inv, Apply, GroupRunning;
    assert p in s.procs && s.procs[p].Handler? && (Holds(s, p, i) <==> s.procs[p].index == i);
    forall q | Holds(s, p, i) && Holds(s, q, i) ensures q == p { OneHolder(c, s, p, q, i); }
    hide Enabled, Moved, Holds;
    CompressSays(c, s, p, ok, status);
    if s.procs[p].pc.Publish? && ok {
      MovedSays(s, p, RemoveRaw);
      MoveHolds(s, p, RemoveRaw, t, i);
    } else {
      EndHolds(s, p, t, i);
    }
  }

  lemma RemoveOnParts(c: Config, s: State, p: Pid, ok: bool, status: int, t: State, i: nat)
    requires Inv(c, s) && Enabled(s, HandlerStep(p, ok, status)) && t == Apply(c, s, HandlerStep(p, ok, status))
    requires s.procs[p].pc.RemoveRaw?
    ensures Follows(s, HandlerStep(p, ok, status), t, i)
  {
    hide Inv, Apply, GroupRunning;
    assert p in s.procs && s.procs[p].Handler? && !Holds(s, p, i);
    hide Enabled, Holds;
    CompressSays(c, s, p, ok, status);
    EndHolds(s, p, t, i);
  }

  lemma TermOnParts(c: Config, s: State, p: Pid, t: State, i: nat)
    requires Enabled(s, HandlerTerm(p)) && t == Apply(c, s, HandlerTerm(p))
    ensures Follows(s, HandlerTerm(p), t, i)
  {
    hide Apply, GroupRunning;
    TermSays(c, s, p);
    hide Enabled, Moved;
    var pc := s.procs[p].pc;
    var trap := TrapKill(if pc.Wait? then Some(pc.xz) else None, pc.Clean? || pc.Spawn? || pc.Wait? || pc.Discard? || pc.Publish?);
    MovedSays(s, p, trap);
    MoveHolds(s, p, trap, t, i);
    assert Holds(s, p, i) <==> s.procs[p].index == i && Names(pc);
    hide Holds;
  }

  lemma KillOnParts(c: Config, s: State, p: Pid, status: int, t: State, i: nat)
    requires Inv(c, s) && Enabled(s, Kill(p, status)) && t == Apply(c, s, Kill(p, status))
    ensures Follows(s, Kill(p, status), t, i)
  {
    hide Inv, Apply, GroupRunning;
    ProcessesSay(c, s, p, status);
    forall q | Holds(s, p, i) && Holds(s, q, i) ensures q == p { OneHolder(c, s, p, q, i); }
    hide Enabled, Holds;
    EndHolds(s, p, t, i);
  }

  lemma XzOnParts(c: Config, s: State, step: Step, t: State, i: nat)
    requires Inv(c, s) && Enabled(s, step) && t == Apply(c, s, step) && (step.XzRead? || step.XzDone?)
    ensures Follows(s, step, t, i)
  {
    hide Inv, Apply, GroupRunning;
    ProcessesSay(c, s, step.p, 1);
    forall q ensures Holds(t, q, i) == Holds(s, q, i) {}
  }

  /** tcpdump and the signals. */
  lemma OthersOnParts(c: Config, s: State, step: Step, t: State, i: nat)
    requires Inv(c, s) && Enabled(s, step) && t == Apply(c, s, step)
    requires step.TdOpen? || step.TdWrite? || step.TdRotate? || step.TdExit? || step.External? || step.Handle?
    ensures Follows(s, step, t, i)
  {
    hide Inv, GroupRunning;
    NextIsFree(c, s);
    assert t.part == s.part;
    forall q ensures Holds(t, q, i) == Holds(s, q, i) {}
  }

  lemma MainOnParts(c: Config, s: State, ok: bool, status: int, t: State, i: nat)
    requires Inv(c, s) && Enabled(s, MainStep(ok, status)) && t == Apply(c, s, MainStep(ok, status))
    ensures Follows(s, MainStep(ok, status), t, i)
  {
    hide Inv, MainCommand, ScriptCommand, GroupRunning, MainLeaves, Holds, Follows;
    NextIsFree(c, s);
    if s.m.pc.RecSpawn? {
      SpawnStep(c, s, ok, status, t);
      StartHolds(s, s.nextPid, t, i);
      SameParts(s, ok, status, t, i);
    } else if s.m.pc.Cleanup? {
      CleanupStep(c, s, ok, status, t);
      NoParts(s, ok, status, t, i);
    } else {
      ScriptStep(c, s, ok, status, t);
      SameProcs(s, t, i);
      SameParts(s, ok, status, t, i);
    }
  }

  lemma SameParts(s: State, ok: bool, status: int, t: State, i: nat)
    requires t.part == s.part && !s.m.pc.Cleanup? && forall q :: Holds(t, q, i) == Holds(s, q, i)
    ensures Follows(s, MainStep(ok, status), t, i)
  {
    hide Holds;
  }

  lemma NoParts(s: State, ok: bool, status: int, t: State, i: nat)
    requires t.part == map[] && s.m.pc.Cleanup?
    ensures Follows(s, MainStep(ok, status), t, i)
  {}

  lemma StartHolds(s: State, p: Pid, t: State, i: nat)
    requires p !in s.procs && (exists x: Proc :: x.Handler? && x.pc == Start && t.procs == s.procs[p := x])
    ensures forall q :: Holds(t, q, i) == Holds(s, q, i)
  {}

  lemma SameProcs(s: State, t: State, i: nat)
    requires t.procs == s.procs
    ensures forall q :: Holds(t, q, i) == Holds(s, q, i)
  {}

  lemma CommandOnParts(c: Config, s: State, p: Pid, ok: bool, status: int, t: State, i: nat)
    requires Inv(c, s) && Enabled(s, HandlerStep(p, ok, status)) && t == Apply(c, s, HandlerStep(p, ok, status))
    ensures Follows(s, HandlerStep(p, ok, status), t, i)
  {
    hide Inv, Apply, GroupRunning, Follows;
    assert p in s.procs && s.procs[p].Handler?;
    hide Enabled;
    match s.procs[p].pc
    case Start => StartOnParts(c, s, p, ok, status, t, i);
    case CheckDest => PostrotateOnParts(c, s, p, ok, status, t, i);
    case Notify => PostrotateOnParts(c, s, p, ok, status, t, i);
    case Spawn => SpawnOnParts(c, s, p, ok, status, t, i);
    case Discard(_) => EndOnParts(c, s, p, ok, status, t, i);
    case Publish => EndOnParts(c, s, p, ok, status, t, i);
    case RemoveRaw => RemoveOnParts(c, s, p, ok, status, t, i);
    case Clean => WorkOnParts(c, s, p, ok, status, t, i);
    case Wait(_) => WorkOnParts(c, s, p, ok, status, t, i);
    case _ => TrapOnParts(c, s, p, ok, status, t, i);
  }

  lemma StepOnParts(c: Config, s: State, step: Step, t: State, i: nat)
    requires Inv(c, s) && Enabled(s, step) && t == Apply(c, s, step)
    ensures Follows(s, step, t, i)
  {
    hide Inv, Apply, Enabled, Follows;
    match step
    case HandlerStep(p, ok, status) => CommandOnParts(c, s, p, ok, status, t, i);
    case HandlerTerm(p) => TermOnParts(c, s, p, t, i);
    case Kill(p, status) => KillOnParts(c, s, p, status, t, i);
    case XzRead(_) => XzOnParts(c, s, step, t, i);
    case XzDone(_) => XzOnParts(c, s, step, t, i);
    case MainStep(ok, status) => MainOnParts(c, s, ok, status, t, i);
    case _ => OthersOnParts(c, s, step, t, i);
  }

  // ---------------------------------------------------------------- over a run

  /** Step `k` left the partial file of index `i` without a handler. */
  ghost predicate DropsAt(c: Config, steps: seq<Step>, k: nat, i: nat)
    requires k < |steps|
  {
    exists u :: Run(c, Init, steps[..k], u) && Drops(u, steps[k], i)
  }

  ghost predicate TakesUpAt(c: Config, steps: seq<Step>, k: nat, i: nat)
    requires k < |steps|
  {
    exists u :: Run(c, Init, steps[..k], u) && TakesUp(u, steps[k], i)
  }

  ghost predicate TakenUpAfter(c: Config, steps: seq<Step>, k: nat, i: nat) {
    exists j :: k < j < |steps| && TakesUpAt(c, steps, j, i)
  }

  /** Some step left the partial file alone, and it was neither taken up nor deleted with the staging directory since. */
  ghost predicate Dropped(c: Config, steps: seq<Step>, i: nat) {
    exists k: nat {:trigger DropsAt(c, steps, k, i)} :: k < |steps| && DropsAt(c, steps, k, i) && !TakenUpAfter(c, steps, k, i)
  }

  lemma AtTheEnd(c: Config, steps: seq<Step>, u: State, i: nat)
    requires steps != [] && Run(c, Init, steps[..|steps| - 1], u)
    ensures var n := |steps| - 1;
            && (DropsAt(c, steps, n, i) <==> Drops(u, steps[n], i)) && (TakesUpAt(c, steps, n, i) <==> TakesUp(u, steps[n], i))
  {
    hide Run, Drops, TakesUp;
    var n := |steps| - 1;
    forall v | Run(c, Init, steps[..n], v) ensures v == u { RunIsDeterministic(c, Init, steps[..n], u, v); }
  }

  lemma Earlier(c: Config, steps: seq<Step>, k: nat, i: nat)
    requires k < |steps| - 1
    ensures var n := |steps| - 1;
            && DropsAt(c, steps, k, i) == DropsAt(c, steps[..n], k, i)
            && TakesUpAt(c, steps, k, i) == TakesUpAt(c, steps[..n], k, i)
  {
    hide Run, Drops, TakesUp;
    assert steps[..|steps| - 1][..k] == steps[..k];
  }

  lemma TakenUpExtends(c: Config, steps: seq<Step>, u: State, k: nat, i: nat)
    requires k < |steps| - 1 && Run(c, Init, steps[..|steps| - 1], u)
    ensures var n := |steps| - 1; TakenUpAfter(c, steps, k, i) <==> TakenUpAfter(c, steps[..n], k, i) || TakesUp(u, steps[n], i)
  {
    hide Run, TakesUpAt, TakesUp;
    AtTheEnd(c, steps, u, i);
    var n := |steps| - 1;
    if j :| k < j < |steps| && TakesUpAt(c, steps, j, i) {
      if j < n { Earlier(c, steps, j, i); }
    }
    if j :| k < j < n && TakesUpAt(c, steps[..n], j, i) {
      Earlier(c, steps, j, i);
    }
  }

  lemma DroppedExtends(c: Config, steps: seq<Step>, u: State, i: nat)
    requires steps != [] && Run(c, Init, steps[..|steps| - 1], u)
    ensures var n := |steps| - 1;
            Dropped(c, steps, i) <==> (Dropped(c, steps[..n], i) && !TakesUp(u, steps[n], i)) || Drops(u, steps[n], i)
  {
    var n := |steps| - 1;
    AtTheEnd(c, steps, u, i);
    assert !TakenUpAfter(c, steps, n, i);
    hide Run, DropsAt, TakesUpAt, TakesUp, Drops, TakenUpAfter;
    forall k: nat | k < n
      ensures DropsAt(c, steps, k, i) == DropsAt(c, steps[..n], k, i)
      ensures TakenUpAfter(c, steps, k, i) <==> TakenUpAfter(c, steps[..n], k, i) || TakesUp(u, steps[n], i)
    {
      Earlier(c, steps, k, i);
      TakenUpExtends(c, steps, u, k, i);
    }
  }

  /**
   In every run, a partial file has no handler that will move or remove it if and only if its handler was killed or
   failed to move it, and no handler has taken it up since: TERM and failed compressions leave none.
   */
  lemma {:induction false} PartialFilesLeftAlone(c: Config, steps: seq<Step>, s: State, i: nat)
    requires Run(c, Init, steps, s)
    ensures Alone(s, i) <==> Dropped(c, steps, i)
    decreases |steps|
  {
    if steps != [] {
      var n := |steps| - 1;
      var u :| Run(c, Init, steps[..n], u) && Enabled(u, steps[n]) && s == Apply(c, u, steps[n]);
      PartialFilesLeftAlone(c, steps[..n], u, i);
      InitInv(c);
      RunKeepsInv(c, Init, steps[..n], u);
      hide Run, Inv, Enabled, Apply, Alone, Dropped, Drops, TakesUp;
      StepOnParts(c, u, steps[n], s, i);
      DroppedExtends(c, steps, u, i);
    }
  }
}
