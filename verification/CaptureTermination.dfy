/**
 Once tcpdump has stopped, the shutdown ends: every step but the arrival of a signal lowers a measure, and
 the main script is stuck nowhere before its exit.
 */
module CaptureTermination {
  import opened CaptureModel
  import opened CaptureInvariant
  import opened CaptureMain
  import opened CaptureFrames
  import opened CaptureTheorems

  // ---------------------------------------------------------------- the measure

  /** The bytes a compression of file `i` reads. */
  function Size(captured: map<nat, Bytes>, i: nat): nat {
    if i in captured then |captured[i]| else 0
  }

  /** The steps a process can still take, an xz it starts included. */
  function ProcWork(captured: map<nat, Bytes>, p: Proc): nat {
    match p
    case Handler(i, _, pc) => Level(pc) + (if Level(pc) >= 8 then Size(captured, i) else 0)
    case Xz(_, _, _, left) => left + 1
  }

  /** The work of the processes below `n`. */
  function Work(captured: map<nat, Bytes>, procs: map<Pid, Proc>, n: nat): nat {
    if n == 0 then 0
    else Work(captured, procs, n - 1) + (if n - 1 in procs then ProcWork(captured, procs[n - 1]) else 0)
  }

  /** What recovery of the files from `i` on can cost. */
  function RecoveryWork(c: Config, captured: map<nat, Bytes>, i: nat): nat
    decreases c.maxFiles - i
  {
    if i >= c.maxFiles then 0 else Size(captured, i) + 20 + RecoveryWork(c, captured, i + 1)
  }

  function MainWork(c: Config, captured: map<nat, Bytes>, pc: MainPc): nat {
    match pc
    case WaitTcpdump => 15 + RecoveryWork(c, captured, 0)
    case Decide => 14 + RecoveryWork(c, captured, 0)
    case ExitTrap => 13 + RecoveryWork(c, captured, 0)
    case Branch => 12 + RecoveryWork(c, captured, 0)
    case GracefulReap => 11 + RecoveryWork(c, captured, 0)
    case WaitGroup => 10 + RecoveryWork(c, captured, 0)
    case AfterGroup => 9 + RecoveryWork(c, captured, 0)
    case CheckLowDisk => 8 + RecoveryWork(c, captured, 0)
    case RecTop(i) => 7 + RecoveryWork(c, captured, i)
    case RecCheck(i) => 26 + Size(captured, i) + RecoveryWork(c, captured, i + 1)
    case RecSpawn(i) => 25 + Size(captured, i) + RecoveryWork(c, captured, i + 1)
    case RecSetPid(i, _) => 10 + RecoveryWork(c, captured, i + 1)
    case RecWait(i) => 9 + RecoveryWork(c, captured, i + 1)
    case RecResult(i, _) => 8 + RecoveryWork(c, captured, i + 1)
    case AfterGraceful => 6
    case ImmediateReap => 5
    case ImmediateGroup => 4
    case ImmediateFinal => 3
    case Cleanup => 2
    case Exiting => 1
    case Exited(_) => 0
  }

  function Measure(c: Config, s: State): nat {
    |s.pending| + MainWork(c, s.captured, s.m.pc) + Work(s.captured, s.procs, s.nextPid)
  }

  // ---------------------------------------------------------------- sums

  lemma {:induction false} WorkSame(captured: map<nat, Bytes>, procs: map<Pid, Proc>, others: map<Pid, Proc>, n: nat)
    requires forall p: Pid | p < n :: (p in procs <==> p in others) && (p in procs ==> procs[p] == others[p])
    ensures Work(captured, procs, n) == Work(captured, others, n)
  {
    if n > 0 { WorkSame(captured, procs, others, n - 1); }
  }

  lemma {:induction false} WorkChanged(captured: map<nat, Bytes>, procs: map<Pid, Proc>, p: Pid, x: Proc, n: nat)
    requires p in procs && p < n
    ensures Work(captured, procs[p := x], n) + ProcWork(captured, procs[p]) == Work(captured, procs, n) + ProcWork(captured, x)
  {
    if p == n - 1 {
      WorkSame(captured, procs[p := x], procs, n - 1);
    } else {
      WorkChanged(captured, procs, p, x, n - 1);
    }
  }

  lemma {:induction false} WorkEnded(captured: map<nat, Bytes>, procs: map<Pid, Proc>, p: Pid, n: nat)
    requires p in procs && p < n
    ensures Work(captured, procs - {p}, n) + ProcWork(captured, procs[p]) == Work(captured, procs, n)
  {
    if p == n - 1 {
      WorkSame(captured, procs - {p}, procs, n - 1);
    } else {
      WorkEnded(captured, procs, p, n - 1);
    }
  }

  lemma WorkStarted(captured: map<nat, Bytes>, procs: map<Pid, Proc>, x: Proc, n: nat)
    ensures Work(captured, procs[n := x], n + 1) == Work(captured, procs, n) + ProcWork(captured, x)
  {
    WorkSame(captured, procs[n := x], procs, n);
  }

  // ---------------------------------------------------------------- every step costs

  lemma PendingGrows(pending: set<Signal>, sig: Signal)
    ensures |pending + {sig}| <= |pending| + 1
  {}

  lemma MovedCosts(c: Config, s: State, p: Pid, t: State)
    requires p in s.procs && s.procs[p].Handler? && p < s.nextPid && HandlerMoved(s, t, p) && OnlyProcesses(s, t)
    requires t.pending == s.pending || (Level(s.procs[p].pc) >= Level(t.procs[p].pc) + 2 && t.pending == s.pending + {USR1})
    ensures Measure(c, t) < Measure(c, s)
  {
    WorkChanged(s.captured, s.procs, p, t.procs[p], s.nextPid);
    PendingGrows(s.pending, USR1);
  }

  lemma GoneCosts(c: Config, s: State, p: Pid, t: State)
    requires p in s.procs && p < s.nextPid && t.procs == s.procs - {p} && t.nextPid == s.nextPid
    requires t.m == s.m && t.captured == s.captured
    requires t.pending == s.pending
             || (ProcWork(s.captured, s.procs[p]) >= 2 && (t.pending == s.pending + {USR1} || t.pending == s.pending + {TERM}))
    ensures Measure(c, t) < Measure(c, s)
  {
    WorkEnded(s.captured, s.procs, p, s.nextPid);
    PendingGrows(s.pending, USR1);
    PendingGrows(s.pending, TERM);
    WorkIsPositive(s.captured, s.procs[p]);
  }

  lemma WorkIsPositive(captured: map<nat, Bytes>, p: Proc)
    ensures ProcWork(captured, p) >= 1
  {}

  lemma SpawnedCosts(c: Config, s: State, p: Pid, t: State)
    requires p in s.procs && s.procs[p].Handler? && p < s.nextPid && HandlerSpawned(s, t, p) && OnlyProcesses(s, t)
    requires s.procs[p].index in s.captured && |s.raw[s.procs[p].index]| == |s.captured[s.procs[p].index]|
    requires t.pending == s.pending
    ensures Measure(c, t) < Measure(c, s)
  {
    var h := s.procs[p];
    var waiting := s.procs[p := h.(pc := Wait(s.nextPid))];
    WorkChanged(s.captured, s.procs, p, h.(pc := Wait(s.nextPid)), s.nextPid);
    WorkStarted(s.captured, waiting, t.procs[s.nextPid], s.nextPid);
  }

  lemma CommandCosts(c: Config, s: State, p: Pid, ok: bool, status: int, t: State)
    requires Inv(c, s) && Enabled(s, HandlerStep(p, ok, status)) && t == Apply(c, s, HandlerStep(p, ok, status))
    ensures Measure(c, t) < Measure(c, s)
  {
    hide Apply, HandlerCommand, Procs, Unique, Phase, Recovery, Progress, ControlOk, GroupRunning, Measure;
    CommandApplied(c, s, p, ok, status, t);
    if HandlerSpawned(s, t, p) {
      SpawnedCosts(c, s, p, t);
    } else if HandlerGone(s, t, p) {
      GoneCosts(c, s, p, t);
    } else {
      MovedCosts(c, s, p, t);
    }
  }

  lemma TermCosts(c: Config, s: State, p: Pid, t: State)
    requires Pids(s) && Enabled(s, HandlerTerm(p)) && t == Apply(c, s, HandlerTerm(p))
    ensures Measure(c, t) < Measure(c, s)
  {
    var h := s.procs[p];
    var x := h.(pc := TrapKill(ChildOf(h.pc), TmpSet(h.pc)));
    assert t == s.(procs := s.procs[p := x]);
    TrapIsCheaper(s.captured, h, x);
    hide Apply, Enabled, ProcWork, ChildOf, TmpSet;
    WorkChanged(s.captured, s.procs, p, x, s.nextPid);
  }

  lemma TrapIsCheaper(captured: map<nat, Bytes>, h: Proc, x: Proc)
    requires h.Handler? && !InTrap(h.pc) && x.Handler? && x.pc.TrapKill?
    ensures ProcWork(captured, x) < ProcWork(captured, h)
  {}

  lemma KillCosts(c: Config, s: State, p: Pid, status: int, t: State)
    requires Pids(s) && Enabled(s, Kill(p, status)) && t == Apply(c, s, Kill(p, status))
    ensures Measure(c, t) < Measure(c, s)
  {
    hide ChildOf;
    GoneCosts(c, s, p, t);
  }

  lemma ReadCosts(c: Config, s: State, p: Pid, t: State)
    requires Pids(s) && Enabled(s, XzRead(p)) && t == Apply(c, s, XzRead(p))
    ensures Measure(c, t) < Measure(c, s)
  {
    WorkChanged(s.captured, s.procs, p, s.procs[p].(left := s.procs[p].left - 1), s.nextPid);
  }

  lemma DoneCosts(c: Config, s: State, p: Pid, t: State)
    requires Pids(s) && Enabled(s, XzDone(p)) && t == Apply(c, s, XzDone(p))
    ensures Measure(c, t) < Measure(c, s)
  {
    GoneCosts(c, s, p, t);
  }

  lemma HandleCosts(c: Config, s: State, sig: Signal, t: State)
    requires Enabled(s, Handle(sig)) && t == Apply(c, s, Handle(sig))
    ensures Measure(c, t) < Measure(c, s)
  {}

  lemma FollowingCosts(c: Config, captured: map<nat, Bytes>, a: MainPc, b: MainPc)
    requires Follows(c, a, b) && !a.RecSpawn? && (a.RecCheck? ==> a.i < c.maxFiles)
    ensures MainWork(c, captured, b) < MainWork(c, captured, a)
  {}

  lemma MainCosts(c: Config, s: State, ok: bool, status: int, t: State)
    requires Inv(c, s) && Enabled(s, MainStep(ok, status)) && t == Apply(c, s, MainStep(ok, status))
    ensures Measure(c, t) < Measure(c, s)
  {
    hide Files, Procs, Unique, Phase, Progress, ControlOk, GroupRunning, MainCommand, Follows;
    hide Recovery, Pids, Enabled, MainLeaves, MainWork, Measure, ScriptCommand;
    MainFollows(c, s, ok, status, t);
    RecCheckIsBelow(c, s);
    assert t == MainCommand(c, s, ok, status);
    hide Apply;
    if s.m.pc.RecSpawn? {
      SpawnStep(c, s, ok, status, t);
      RecoveryStartCosts(c, s, t);
    } else {
      FollowingCosts(c, s.captured, s.m.pc, t.m.pc);
      if s.m.pc.Cleanup? {
        CleanupStep(c, s, ok, status, t);
      } else {
        ScriptStep(c, s, ok, status, t);
      }
      ScriptCosts(c, s, t);
    }
  }

  lemma ScriptCosts(c: Config, s: State, t: State)
    requires t.pending == s.pending && t.captured == s.captured && t.procs == s.procs && t.nextPid == s.nextPid
    requires MainWork(c, s.captured, t.m.pc) < MainWork(c, s.captured, s.m.pc)
    ensures Measure(c, t) < Measure(c, s)
  {}

  lemma RecCheckIsBelow(c: Config, s: State)
    requires Recovery(c, s)
    ensures s.m.pc.RecCheck? ==> s.m.pc.i < c.maxFiles
  {}

  lemma RecoveryStartCosts(c: Config, s: State, t: State)
    requires s.m.pc.RecSpawn?
    requires t == s.(procs := s.procs[s.nextPid := Handler(s.m.pc.i, false, Start)], nextPid := s.nextPid + 1,
                     m := s.m.(pc := RecSetPid(s.m.pc.i, s.nextPid)))
    ensures Measure(c, t) < Measure(c, s)
  {
    WorkStarted(s.captured, s.procs, Handler(s.m.pc.i, false, Start), s.nextPid);
  }

  /** Every step but the arrival of a signal lowers the measure, and a signal raises it by one at most. */
  lemma StepCosts(c: Config, s: State, step: Step)
    requires Inv(c, s) && Enabled(s, step) && s.td.Stopped?
    ensures Measure(c, Apply(c, s, step)) <= Measure(c, s) + (if step.External? then 1 else -1)
  {
    hide Measure, Apply;
    var t := Apply(c, s, step);
    assert !step.TdOpen? && !step.TdWrite? && !step.TdRotate? && !step.TdExit?;
    match step
    case HandlerStep(p, ok, status) => hide Enabled; CommandCosts(c, s, p, ok, status, t);
    case HandlerTerm(p) => hide Enabled; TermCosts(c, s, p, t);
    case Kill(p, status) => hide Enabled; KillCosts(c, s, p, status, t);
    case XzRead(p) => hide Enabled; ReadCosts(c, s, p, t);
    case XzDone(p) => hide Enabled; DoneCosts(c, s, p, t);
    case External(sig) => hide Enabled; ExternalCosts(c, s, sig, t);
    case Handle(sig) => hide Enabled; HandleCosts(c, s, sig, t);
    case MainStep(ok, status) => hide Enabled; MainCosts(c, s, ok, status, t);
    case _ =>
  }

  lemma ExternalCosts(c: Config, s: State, sig: Signal, t: State)
    requires Enabled(s, External(sig)) && t == Apply(c, s, External(sig))
    ensures Measure(c, t) <= Measure(c, s) + 1
  {}

  // ---------------------------------------------------------------- the shutdown ends

  /** The signals that arrive from outside during a run. */
  function Arrivals(steps: seq<Step>): nat {
    if steps == [] then 0
    else Arrivals(steps[..|steps| - 1]) + (if steps[|steps| - 1].External? then 1 else 0)
  }

  /** After tcpdump has stopped, a run is no longer than its measure and twice the signals that arrive. */
  lemma {:induction false} ShutdownIsBounded(c: Config, s: State, steps: seq<Step>, t: State)
    requires Reachable(c, s) && s.td.Stopped? && Run(c, s, steps, t)
    ensures t.td.Stopped? && |steps| + Measure(c, t) <= Measure(c, s) + 2 * Arrivals(steps)
    decreases |steps|
  {
    hide Reachable, Measure, Enabled, Apply, Inv;
    if steps != [] {
      var n := |steps| - 1;
      var u :| Run(c, s, steps[..n], u) && Enabled(u, steps[n]) && t == Apply(c, u, steps[n]);
      ShutdownIsBounded(c, s, steps[..n], u);
      ReachableInv(c, s);
      RunKeepsInv(c, s, steps[..n], u);
      StepCosts(c, u, steps[n]);
      StoppedStaysStopped(c, u, steps[n], t);
    }
  }

  /** The steps the processes take of their own accord: no kill, no signal, no failed command and no interrupted wait. */
  predicate Voluntary(step: Step) {
    || (step.HandlerStep? && step.ok) || step.XzRead? || step.XzDone? || (step.MainStep? && step.ok)
  }

  predicate AllVoluntary(steps: seq<Step>) {
    forall step | step in steps :: Voluntary(step)
  }

  /** Until the main script exits, some process can take a step of its own accord: the waits never lock each other. */
  lemma NeverStuck(c: Config, s: State)
    requires Reachable(c, s) && s.td.Stopped? && !s.m.pc.Exited?
    ensures exists step :: Enabled(s, step) && Voluntary(step)
  {
    hide Reachable;
    ReachableInv(c, s);
    hide Files, Unique, Phase, Recovery, Progress, ControlOk;
    if p :| p in s.procs {
      assert if s.procs[p].Handler? then HandlerOk(c, s, s.procs[p]) else XzOk(c, s, s.procs[p]);
      hide Procs;
      ProcessCanMove(c, s, p);
    } else {
      hide Procs, Pids;
      assert Enabled(s, MainStep(true, 1));
    }
  }

  lemma ProcessCanMove(c: Config, s: State, p: Pid)
    requires p in s.procs && if s.procs[p].Handler? then HandlerOk(c, s, s.procs[p]) else XzOk(c, s, s.procs[p])
    ensures exists step :: Enabled(s, step) && Voluntary(step)
  {
    hide GroupRunning;
    if s.procs[p].Xz? {
      assert Enabled(s, if s.procs[p].left > 0 then XzRead(p) else XzDone(p));
    } else {
      var child := ChildOf(s.procs[p].pc);
      if !s.procs[p].pc.TrapKill? && child.Some? && child.value in s.procs {
        var x := child.value;
        assert Enabled(s, if s.procs[x].left > 0 then XzRead(x) else XzDone(x));
      } else {
        assert Enabled(s, HandlerStep(p, true, 1));
      }
    }
  }

  /** However the shutdown goes, kills and signals included, when no process can go on by itself the main script has exited. */
  lemma ShutdownEndsInExit(c: Config, s: State, steps: seq<Step>, t: State)
    requires Reachable(c, s) && s.td.Stopped? && Run(c, s, steps, t)
    requires forall step :: Enabled(t, step) ==> !Voluntary(step)
    ensures t.m.pc.Exited?
  {
    hide Enabled, Apply;
    ReachableRun(c, s, steps, t);
    ShutdownIsBounded(c, s, steps, t);
    if !t.m.pc.Exited? { NeverStuck(c, t); }
  }

  lemma {:induction false} ReachableRun(c: Config, s: State, steps: seq<Step>, t: State)
    requires Reachable(c, s) && Run(c, s, steps, t)
    ensures Reachable(c, t)
    decreases |steps|
  {
    hide Enabled, Apply;
    if steps != [] {
      var n := |steps| - 1;
      var u :| Run(c, s, steps[..n], u) && Enabled(u, steps[n]) && t == Apply(c, u, steps[n]);
      ReachableRun(c, s, steps[..n], u);
      var before :| Run(c, Init, before, u);
      var longer := before + [steps[n]];
      assert longer[..|longer| - 1] == before;
      assert Run(c, Init, longer, t);
    }
  }

  /** From every reachable state after tcpdump has stopped, the exit is reached without any further signal or kill. */
  lemma {:induction false} ExitIsReachable(c: Config, s: State)
    requires Reachable(c, s) && s.td.Stopped?
    ensures exists steps, t :: Run(c, s, steps, t) && t.m.pc.Exited? && AllVoluntary(steps)
    decreases Measure(c, s)
  {
    hide Reachable, Measure, Enabled, Apply, Inv;
    if s.m.pc.Exited? {
      assert Run(c, s, [], s);
    } else {
      NeverStuck(c, s);
      var step :| Enabled(s, step) && Voluntary(step);
      var u := Apply(c, s, step);
      OneStep(c, s, step);
      ReachableRun(c, s, [step], u);
      ReachableInv(c, s);
      StepCosts(c, s, step);
      StoppedStaysStopped(c, s, step, u);
      ExitIsReachable(c, u);
      var rest, t :| Run(c, u, rest, t) && t.m.pc.Exited? && AllVoluntary(rest);
      RunPrepend(c, s, step, rest, t);
    }
  }

  lemma OneStep(c: Config, s: State, step: Step)
    requires Enabled(s, step)
    ensures Run(c, s, [step], Apply(c, s, step))
  {
    hide Enabled, Apply;
    var steps := [step];
    var n := |steps| - 1;
    assert steps[..n] == [] && steps[n] == step;
    assert Run(c, s, [], s);
    assert Run(c, s, steps[..n], s) && Enabled(s, steps[n]);
  }

  lemma {:induction false} RunPrepend(c: Config, s: State, step: Step, rest: seq<Step>, t: State)
    requires Enabled(s, step) && Run(c, Apply(c, s, step), rest, t)
    ensures Run(c, s, [step] + rest, t)
    decreases |rest|
  {
    hide Enabled, Apply;
    if rest == [] {
      OneStep(c, s, step);
      assert [step] + rest == [step];
    } else {
      var n := |rest| - 1;
      var u :| Run(c, Apply(c, s, step), rest[..n], u) && Enabled(u, rest[n]) && t == Apply(c, u, rest[n]);
      RunPrepend(c, s, step, rest[..n], u);
      var all := [step] + rest;
      assert all[..|all| - 1] == [step] + rest[..n] && all[|all| - 1] == rest[n];
    }
  }
}
