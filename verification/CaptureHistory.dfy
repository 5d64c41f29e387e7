/**
 Results of the capture protocol in terms of what happened during the run: which xz is left behind, which
 recoveries failed, and when a handler is started after a TERM.
 */
module CaptureHistory {
  import opened Basics
  import opened CaptureModel
  import opened CaptureInvariant
  import opened CaptureMain
  import opened CaptureFrames
  import opened CaptureTheorems

  lemma {:induction false} RunIsDeterministic(c: Config, s: State, steps: seq<Step>, t: State, u: State)
    requires Run(c, s, steps, t) && Run(c, s, steps, u)
    ensures t == u
    decreases |steps|
  {
    hide Enabled, Apply;
    if steps != [] {
      var n := |steps| - 1;
      var v :| Run(c, s, steps[..n], v) && Enabled(v, steps[n]) && t == Apply(c, v, steps[n]);
      var w :| Run(c, s, steps[..n], w) && Enabled(w, steps[n]) && u == Apply(c, w, steps[n]);
      RunIsDeterministic(c, s, steps[..n], v, w);
    }
  }

  // ---------------------------------------------------------------- the xz that is left behind

  /** The death of process `p` would leave the xz `x` of a recovery handler without its handler. */
  predicate LosesChild(u: State, p: Pid, x: Pid) {
    p in u.procs && u.procs[p].Handler? && !u.procs[p].inGroup && ChildOf(u.procs[p].pc) == Some(x) && x in u.procs
  }

  /** Step `k` killed a recovery handler whose live child was the xz `x`. */
  ghost predicate Abandons(c: Config, steps: seq<Step>, k: nat, x: Pid)
    requires k < |steps|
  {
    steps[k].Kill? && exists u :: Run(c, Init, steps[..k], u) && LosesChild(u, steps[k].p, x)
  }

  /** The xz `x` ends in this step. */
  predicate EndsIn(step: Step, x: Pid) {
    step == XzDone(x) || (step.Kill? && step.p == x)
  }

  predicate EndsAfter(steps: seq<Step>, k: nat, x: Pid) {
    exists j :: k < j < |steps| && EndsIn(steps[j], x)
  }

  /** Some step killed the recovery handler that waited for `x`, and `x` has neither finished nor been killed since. */
  ghost predicate LeftBehind(c: Config, steps: seq<Step>, x: Pid) {
    exists k: nat {:trigger Abandons(c, steps, k, x)} :: k < |steps| && Abandons(c, steps, k, x) && !EndsAfter(steps, k, x)
  }

  lemma LeftBehindExtends(c: Config, steps: seq<Step>, u: State, x: Pid)
    requires steps != [] && Run(c, Init, steps[..|steps| - 1], u)
    ensures var n := |steps| - 1;
            LeftBehind(c, steps, x)
            <==> (LeftBehind(c, steps[..n], x) && !EndsIn(steps[n], x)) || (steps[n].Kill? && LosesChild(u, steps[n].p, x))
  {
    hide Run, LosesChild;
    var n := |steps| - 1;
    if k: nat :| k < |steps| && Abandons(c, steps, k, x) && !EndsAfter(steps, k, x) {
      if k == n {
        var v :| Run(c, Init, steps[..n], v) && LosesChild(v, steps[n].p, x);
        RunIsDeterministic(c, Init, steps[..n], u, v);
      } else {
        assert steps[..n][..k] == steps[..k];
        assert Abandons(c, steps[..n], k, x);
        EndsAfterExtends(steps, k, x);
      }
    }
    if k: nat :| k < n && Abandons(c, steps[..n], k, x) && !EndsAfter(steps[..n], k, x) && !EndsIn(steps[n], x) {
      assert steps[..n][..k] == steps[..k];
      assert Abandons(c, steps, k, x);
      EndsAfterExtends(steps, k, x);
    }
    if steps[n].Kill? && LosesChild(u, steps[n].p, x) {
      assert Abandons(c, steps, n, x);
    }
  }

  lemma EndsAfterExtends(steps: seq<Step>, k: nat, x: Pid)
    requires k < |steps| - 1
    ensures var n := |steps| - 1; EndsAfter(steps, k, x) <==> EndsAfter(steps[..n], k, x) || EndsIn(steps[n], x)
  {
    var n := |steps| - 1;
    if j :| k < j < n && EndsIn(steps[..n][j], x) { assert EndsIn(steps[j], x); }
    if j :| k < j < |steps| && EndsIn(steps[j], x) { assert j < n ==> EndsIn(steps[..n][j], x); }
  }

  /** The ghost set of orphans names processes that exist or existed, and none of them is a handler. */
  predicate OrphansAreXz(s: State) {
    forall x | x in s.orphans :: x < s.nextPid && (x in s.procs ==> s.procs[x].Xz?)
  }

  predicate Orphaned(s: State, x: Pid) { x in s.orphans && x in s.procs }

  /** Xz processes stay what they are until they end, and process ids are not used again. */
  predicate XzKept(s: State, t: State, step: Step) {
    && s.nextPid <= t.nextPid
    && (forall x | x in s.procs && s.procs[x].Xz? && !EndsIn(step, x) :: x in t.procs && t.procs[x].Xz?)
    && (forall x | x in t.procs && x < s.nextPid :: x in s.procs && t.procs[x].Xz? == s.procs[x].Xz? && !EndsIn(step, x))
  }

  lemma CommandKeepsXz(c: Config, s: State, p: Pid, ok: bool, status: int, t: State)
    requires Pids(s) && Enabled(s, HandlerStep(p, ok, status)) && t == Apply(c, s, HandlerStep(p, ok, status))
    ensures XzKept(s, t, HandlerStep(p, ok, status)) && t.orphans == s.orphans
  {
    hide Apply, HandlerCommand, GroupRunning;
    CommandApplied(c, s, p, ok, status, t);
  }

  lemma TermKeepsXz(c: Config, s: State, p: Pid, t: State)
    requires Enabled(s, HandlerTerm(p)) && t == Apply(c, s, HandlerTerm(p))
    ensures XzKept(s, t, HandlerTerm(p)) && t.orphans == s.orphans
  {
    hide ChildOf, TmpSet;
  }

  lemma KillKeepsXz(c: Config, s: State, p: Pid, status: int, t: State)
    requires Enabled(s, Kill(p, status)) && t == Apply(c, s, Kill(p, status))
    ensures XzKept(s, t, Kill(p, status))
    ensures forall x :: x in t.orphans <==> x in s.orphans || LosesChild(s, p, x)
  {
    hide ChildOf;
  }

  lemma ReadKeepsXz(c: Config, s: State, p: Pid, t: State)
    requires Enabled(s, XzRead(p)) && t == Apply(c, s, XzRead(p))
    ensures XzKept(s, t, XzRead(p)) && t.orphans == s.orphans
  {}

  lemma DoneKeepsXz(c: Config, s: State, p: Pid, t: State)
    requires Enabled(s, XzDone(p)) && t == Apply(c, s, XzDone(p))
    ensures XzKept(s, t, XzDone(p)) && t.orphans == s.orphans
  {}

  lemma CaptureKeepsXz(c: Config, s: State, step: Step, t: State)
    requires Pids(s) && Enabled(s, step) && t == Apply(c, s, step)
    requires step.TdOpen? || step.TdWrite? || step.TdRotate? || step.TdExit? || step.External? || step.Handle?
    ensures XzKept(s, t, step) && t.orphans == s.orphans
  {
    hide GroupRunning;
  }

  lemma MainKeepsXz(c: Config, s: State, ok: bool, status: int, t: State)
    requires Pids(s) && t == MainCommand(c, s, ok, status)
    ensures XzKept(s, t, MainStep(ok, status)) && t.orphans == s.orphans
  {
    hide MainCommand, ScriptCommand, MainLeaves;
    if s.m.pc.RecSpawn? {
      SpawnStep(c, s, ok, status, t);
    } else if s.m.pc.Cleanup? {
      CleanupStep(c, s, ok, status, t);
    } else {
      ScriptStep(c, s, ok, status, t);
    }
  }

  lemma StepKeepsXz(c: Config, s: State, step: Step, t: State)
    requires Pids(s) && Enabled(s, step) && t == Apply(c, s, step)
    ensures XzKept(s, t, step)
    ensures forall x :: x in t.orphans <==> x in s.orphans || (step.Kill? && LosesChild(s, step.p, x))
  {
    hide XzKept, LosesChild, Pids, Enabled, HandlerCommand, MainCommand;
    match step
    case HandlerStep(p, ok, status) => hide Apply; CommandKeepsXz(c, s, p, ok, status, t);
    case HandlerTerm(p) => hide Apply; TermKeepsXz(c, s, p, t);
    case Kill(p, status) => hide Apply; KillKeepsXz(c, s, p, status, t);
    case XzRead(p) => hide Apply; ReadKeepsXz(c, s, p, t);
    case XzDone(p) => hide Apply; DoneKeepsXz(c, s, p, t);
    case MainStep(ok, status) => MainKeepsXz(c, s, ok, status, t);
    case _ => hide Apply; CaptureKeepsXz(c, s, step, t);
  }

  lemma OrphanStep(c: Config, s: State, step: Step, t: State, x: Pid)
    requires Procs(c, s) && Pids(s) && OrphansAreXz(s) && XzKept(s, t, step)
    requires forall y :: y in t.orphans <==> y in s.orphans || (step.Kill? && LosesChild(s, step.p, y))
    ensures OrphansAreXz(t)
    ensures Orphaned(t, x) <==> (Orphaned(s, x) && !EndsIn(step, x)) || (step.Kill? && LosesChild(s, step.p, x))
  {
    if step.Kill? {
      forall y: Pid | LosesChild(s, step.p, y) ensures y < s.nextPid && s.procs[y].Xz? && y != step.p {
        assert HandlerOk(c, s, s.procs[step.p]);
      }
    }
    hide Procs;
  }

  lemma {:induction false} OrphansAreLeftBehind(c: Config, steps: seq<Step>, s: State)
    requires Run(c, Init, steps, s)
    ensures OrphansAreXz(s) && forall x :: Orphaned(s, x) <==> LeftBehind(c, steps, x)
    decreases |steps|
  {
    if steps != [] {
      var n := |steps| - 1;
      var u :| Run(c, Init, steps[..n], u) && Enabled(u, steps[n]) && s == Apply(c, u, steps[n]);
      hide Enabled, Apply, LeftBehind, Orphaned, OrphansAreXz, LosesChild, EndsIn, XzKept;
      OrphansAreLeftBehind(c, steps[..n], u);
      InitInv(c);
      RunKeepsInv(c, Init, steps[..n], u);
      hide Run, Procs, Pids;
      StepKeepsXz(c, u, steps[n], s);
      forall x ensures OrphansAreXz(s) && (Orphaned(s, x) <==> LeftBehind(c, steps, x)) {
        LeftBehindExtends(c, steps, u, x);
        OrphanStep(c, u, steps[n], s, x);
      }
      OrphanStep(c, u, steps[n], s, 0);
    }
  }

  /**
   When the staging directory is deleted, exactly those processes run that are left behind: an xz whose recovery
   handler was killed while it waited for it, and which has neither finished nor been killed since.
   */
  lemma RunningAtCleanup(c: Config, steps: seq<Step>, s: State)
    requires Run(c, Init, steps, s) && Ending(s.m.pc)
    ensures forall x :: x in s.procs <==> LeftBehind(c, steps, x)
  {
    hide Run, LeftBehind;
    OrphansAreLeftBehind(c, steps, s);
    assert Reachable(c, s);
    StagingIsDeletedLast(c, s);
  }

  /** Nothing runs when the staging directory is deleted if and only if every such xz has ended. */
  lemma NothingRunsAtCleanup(c: Config, steps: seq<Step>, s: State)
    requires Run(c, Init, steps, s) && Ending(s.m.pc)
    ensures s.procs == map[] <==>
              forall k: nat, x: Pid {:trigger Abandons(c, steps, k, x)} ::
                k < |steps| && Abandons(c, steps, k, x) ==> EndsAfter(steps, k, x)
  {
    hide Run, Abandons, EndsAfter;
    RunningAtCleanup(c, steps, s);
    if s.procs != map[] {
      var x :| x in s.procs;
      assert LeftBehind(c, steps, x);
    } else {
      forall k: nat, x: Pid {:trigger Abandons(c, steps, k, x)} | k < |steps| && Abandons(c, steps, k, x)
        ensures EndsAfter(steps, k, x)
      {
        assert x !in s.procs;
      }
    }
  }
}
