/**
 The exit code and the published files of a run, from the recoveries that failed in it, and the recoveries that
 are started after a TERM.
 */
module CaptureResults {
  import opened Basics
  import opened CaptureModel
  import opened CaptureInvariant
  import opened CaptureMain
  import opened CaptureFrames
  import opened CaptureTheorems
  import opened CaptureHistory

  // ---------------------------------------------------------------- failed recoveries

  /** The main script is about to note that recovery of file `i` failed. */
  predicate NotesFailure(u: State, i: nat) {
    u.m.pc.RecResult? && u.m.pc.i == i && u.m.pc.rc != 0 && u.m.control.mode != Immediate
  }

  /** In step `k` the main script noted that recovery of file `i` failed. */
  ghost predicate RecoveryFails(c: Config, steps: seq<Step>, k: nat, i: nat)
    requires k < |steps|
  {
    steps[k].MainStep? && exists u :: Run(c, Init, steps[..k], u) && NotesFailure(u, i)
  }

  ghost predicate SomeRecoveryFails(c: Config, steps: seq<Step>) {
    exists k: nat, i: nat {:trigger RecoveryFails(c, steps, k, i)} :: k < |steps| && RecoveryFails(c, steps, k, i)
  }

  /** ... and the file was not published then. */
  ghost predicate LosesFile(c: Config, steps: seq<Step>, k: nat, i: nat)
    requires k < |steps|
  {
    steps[k].MainStep? && exists u :: Run(c, Init, steps[..k], u) && NotesFailure(u, i) && i !in u.final
  }

  ghost predicate Lost(c: Config, steps: seq<Step>, i: nat) {
    exists k: nat {:trigger LosesFile(c, steps, k, i)} :: k < |steps| && LosesFile(c, steps, k, i)
  }

  lemma FailuresExtend(c: Config, steps: seq<Step>, u: State)
    requires steps != [] && Run(c, Init, steps[..|steps| - 1], u)
    ensures var n := |steps| - 1;
            SomeRecoveryFails(c, steps)
            <==> SomeRecoveryFails(c, steps[..n]) || (steps[n].MainStep? && u.m.pc.RecResult? && NotesFailure(u, u.m.pc.i))
  {
    hide Run;
    var n := |steps| - 1;
    if k: nat, i: nat :| k < |steps| && RecoveryFails(c, steps, k, i) {
      if k == n {
        var v :| Run(c, Init, steps[..n], v) && NotesFailure(v, i);
        RunIsDeterministic(c, Init, steps[..n], u, v);
      } else {
        assert steps[..n][..k] == steps[..k];
        assert RecoveryFails(c, steps[..n], k, i);
      }
    }
    if k: nat, i: nat :| k < n && RecoveryFails(c, steps[..n], k, i) {
      assert steps[..n][..k] == steps[..k];
      assert RecoveryFails(c, steps, k, i);
    }
    if steps[n].MainStep? && u.m.pc.RecResult? && NotesFailure(u, u.m.pc.i) {
      assert RecoveryFails(c, steps, n, u.m.pc.i);
    }
  }

  lemma LossesExtend(c: Config, steps: seq<Step>, u: State, i: nat)
    requires steps != [] && Run(c, Init, steps[..|steps| - 1], u)
    ensures var n := |steps| - 1;
            Lost(c, steps, i) <==> Lost(c, steps[..n], i) || (steps[n].MainStep? && NotesFailure(u, i) && i !in u.final)
  {
    hide Run, NotesFailure;
    var n := |steps| - 1;
    if k: nat :| k < |steps| && LosesFile(c, steps, k, i) {
      if k == n {
        var v :| Run(c, Init, steps[..n], v) && NotesFailure(v, i) && i !in v.final;
        RunIsDeterministic(c, Init, steps[..n], u, v);
      } else {
        assert steps[..n][..k] == steps[..k];
        assert LosesFile(c, steps[..n], k, i);
      }
    }
    if k: nat :| k < n && LosesFile(c, steps[..n], k, i) {
      assert steps[..n][..k] == steps[..k];
      assert LosesFile(c, steps, k, i);
    }
    if steps[n].MainStep? && NotesFailure(u, i) && i !in u.final {
      assert LosesFile(c, steps, n, i);
    }
  }

  // ---------------------------------------------------------------- the exit code

  /** The code is that of the reason, but for a failed recovery; `failed` says whether there was one. */
  predicate CodeFollows(s: State, failed: bool) {
    && (failed ==> s.m.control.mode != Running)
    && (s.m.control.reason == LowDisk ==> !failed)
    && (s.m.control.mode == Graceful ==>
          s.m.control.code == if failed then Some(EXIT_COMPRESSION_ERROR) else CodeOf(s, s.m.control.reason))
  }

  lemma MainKeepsCode(c: Config, s: State, ok: bool, status: int, t: State, failed: bool)
    requires Inv(c, s) && Enabled(s, MainStep(ok, status)) && t == Apply(c, s, MainStep(ok, status))
    requires CodeFollows(s, failed) && (s.m.control.reason == LowDisk ==> !InRecovery(s.m.pc))
    ensures CodeFollows(t, failed || (s.m.pc.RecResult? && NotesFailure(s, s.m.pc.i)))
  {
    hide Files, Procs, Pids, Unique, Recovery, Progress, GroupRunning, Apply, Enabled;
    MainApplied(c, s, ok, status, t);
  }

  lemma HandleKeepsCode(c: Config, s: State, sig: Signal, t: State, failed: bool)
    requires Inv(c, s) && Enabled(s, Handle(sig)) && t == Apply(c, s, Handle(sig)) && CodeFollows(s, failed)
    ensures CodeFollows(t, failed)
  {
    hide Files, Procs, Pids, Unique, Recovery, Progress, GroupRunning, Apply, Enabled;
    HandleChanges(c, s, sig, t);
  }

  lemma OthersKeepCode(c: Config, s: State, step: Step, t: State, failed: bool)
    requires Inv(c, s) && Enabled(s, step) && t == Apply(c, s, step) && !step.MainStep? && !step.Handle?
    requires CodeFollows(s, failed)
    ensures CodeFollows(t, failed)
  {
    hide Files, Procs, Pids, Unique, Recovery, Progress, GroupRunning, Apply, Enabled;
    OthersKeepScript(c, s, step, t);
    if s.td.Stopped? { StoppedStaysStopped(c, s, step, t); }
  }

  lemma {:induction false} CodeOfARun(c: Config, steps: seq<Step>, s: State)
    requires Run(c, Init, steps, s)
    ensures CodeFollows(s, SomeRecoveryFails(c, steps))
    decreases |steps|
  {
    hide Inv, Enabled, Apply;
    if steps != [] {
      var n := |steps| - 1;
      var u :| Run(c, Init, steps[..n], u) && Enabled(u, steps[n]) && s == Apply(c, u, steps[n]);
      CodeOfARun(c, steps[..n], u);
      InitInv(c);
      RunKeepsInv(c, Init, steps[..n], u);
      LowDiskStartsNoRecovery(c, steps[..n], u);
      FailuresExtend(c, steps, u);
      hide Run, Inv, Enabled, Apply, CodeFollows, SomeRecoveryFails, NotesFailure, InRecovery;
      match steps[n]
      case MainStep(ok, status) => MainKeepsCode(c, u, ok, status, s, SomeRecoveryFails(c, steps[..n]));
      case Handle(sig) => HandleKeepsCode(c, u, sig, s, SomeRecoveryFails(c, steps[..n]));
      case _ => OthersKeepCode(c, u, steps[n], s, SomeRecoveryFails(c, steps[..n]));
    }
  }

  /**
   The exit code of every run: 143 in the immediate mode; otherwise 14 exactly if some recovery failed, and else
   the code of the reason. A stop for low disk space always gives 15.
   */
  lemma ExitCodeSaysWhy(c: Config, steps: seq<Step>, s: State)
    requires Run(c, Init, steps, s) && s.m.pc.Exited?
    ensures s.td.Stopped? && s.m.pc.code == s.m.control.code
    ensures s.m.control.mode == Graceful || s.m.control.mode == Immediate
    ensures s.m.control.mode == Immediate ==> s.m.control.reason == SigTerm && s.m.pc.code == Some(143)
    ensures s.m.control.reason == LowDisk ==> s.m.pc.code == Some(15)
    ensures s.m.control.mode == Graceful ==>
              if SomeRecoveryFails(c, steps) then s.m.pc.code == Some(14)
              else match s.m.control.reason
                case SigInt => s.m.pc.code == Some(130)
                case MaxFiles => s.m.pc.code == Some(0)
                case LowDisk => s.m.pc.code == Some(15)
                case TcpdumpExit => s.m.pc.code == Some(s.td.status)
                case _ => false
  {
    assert Reachable(c, s);
    ReachableInv(c, s);
    CodeOfARun(c, steps, s);
    hide Run, Reachable, GroupRunning, SomeRecoveryFails, Files, Procs, Pids, Unique, Recovery, Progress;
  }

  /**
   The exit code by the signals that were handled: 143 after a TERM, whatever came first; otherwise 14 after a failed
   recovery, and else 130, 0 or 15 as the first signal was INT, USR1 or USR2, unless tcpdump's own exit came before.
   */
  lemma SignalsGiveTheCode(c: Config, steps: seq<Step>, s: State, k: nat)
    requires Run(c, Init, steps, s) && s.m.pc.Exited?
    requires k < |steps| && steps[k].Handle? && forall j | 0 <= j < k :: !steps[j].Handle?
    ensures Handle(TERM) in steps ==> s.m.pc.code == Some(143)
    ensures Handle(TERM) !in steps && s.m.control.reason != TcpdumpExit ==>
              s.m.pc.code == if SomeRecoveryFails(c, steps) then Some(14)
                             else match steps[k].sig
                               case INT => Some(130)
                               case USR1 => Some(0)
                               case USR2 => Some(15)
                               case TERM => None
  {
    SignalsDecideTheReason(c, steps, s);
    ExitCodeSaysWhy(c, steps, s);
    FirstReasonStays(steps, k, |steps|);
    assert steps[..|steps|] == steps;
    if Handle(TERM) !in steps { assert steps[k] in steps; }
    hide Run, SomeRecoveryFails, FirstReason;
  }

  lemma {:induction false} FirstReasonStays(steps: seq<Step>, k: nat, n: nat)
    requires k < n <= |steps| && steps[k].Handle? && forall j | 0 <= j < k :: !steps[j].Handle?
    ensures FirstReason(steps[..n]) ==
              match steps[k].sig
              case INT => SigInt
              case TERM => SigTerm
              case USR1 => MaxFiles
              case USR2 => LowDisk
    decreases n
  {
    assert steps[..n][..n - 1] == steps[..n - 1];
    if n == k + 1 {
      NoReasonYet(steps, k);
    } else {
      FirstReasonStays(steps, k, n - 1);
    }
  }

  lemma {:induction false} NoReasonYet(steps: seq<Step>, k: nat)
    requires k <= |steps| && forall j | 0 <= j < k :: !steps[j].Handle?
    ensures FirstReason(steps[..k]) == NoReason
    decreases k
  {
    if k > 0 {
      assert steps[..k][..k - 1] == steps[..k - 1];
      NoReasonYet(steps, k - 1);
    }
  }

  /** Code 14 after a graceful end: a recovery failed, or tcpdump itself ended with status 14 and nobody asked to stop. */
  lemma WhenTheCodeIsCompressionError(c: Config, steps: seq<Step>, s: State)
    requires Run(c, Init, steps, s) && s.m.pc.Exited? && s.m.control.mode == Graceful
    ensures s.m.pc.code == Some(14) <==>
              SomeRecoveryFails(c, steps) || (s.m.control.reason == TcpdumpExit && s.td == Stopped(14))
  {
    hide Run, SomeRecoveryFails;
    ExitCodeSaysWhy(c, steps, s);
  }

  // ---------------------------------------------------------------- the published files

  /** The files recovery has dealt with. */
  function DealtWith(c: Config, pc: MainPc): nat {
    if InRecovery(pc) then pc.i else if pc.AfterGraceful? || Ending(pc) then c.maxFiles else 0
  }

  /** Every file dealt with is published or was noted as lost. */
  ghost predicate DealtOk(c: Config, steps: seq<Step>, s: State) {
    s.m.control.mode == Graceful && s.m.control.reason != LowDisk ==>
      forall j: nat | j < DealtWith(c, s.m.pc) && j < s.created && j < c.maxFiles :: j in s.final || Lost(c, steps, j)
  }

  /** The main script deals with file `i`, the next one, in a step after which `i` has been dealt with. */
  lemma MainDeals(c: Config, s: State, ok: bool, status: int, t: State, j: nat)
    requires Inv(c, s) && Enabled(s, MainStep(ok, status)) && t == Apply(c, s, MainStep(ok, status))
    requires t.m.control.mode == Graceful && t.m.control.reason != LowDisk
    requires DealtWith(c, s.m.pc) <= j < DealtWith(c, t.m.pc) && j < s.created && j < c.maxFiles
    ensures j in s.final || NotesFailure(s, j)
  {
    hide Files, Procs, Pids, Unique, Progress, GroupRunning, Apply, Enabled, MainLeaves, Follows, NextControl;
    MainFollows(c, s, ok, status, t);
    MainDecides(c, s, ok, status, t);
    MainApplied(c, s, ok, status, t);
    FollowsUp(c, s.m.pc, t.m.pc);
    GracefulBefore(s, t);
    if s.m.pc.RecCheck? { RecCheckFacts(c, s); }
    hide MainCommand, Phase, ControlOk;
  }

  lemma GracefulBefore(s: State, t: State)
    requires t.m.control == NextControl(s.m) && t.m.control.mode == Graceful && !s.m.pc.Decide? && !s.m.pc.ExitTrap?
    ensures s.m.control.mode == Graceful && s.m.control.reason == t.m.control.reason
  {}

  /** The ways in which another file is dealt with. */
  lemma FollowsUp(c: Config, a: MainPc, b: MainPc)
    requires Follows(c, a, b) && DealtWith(c, a) < DealtWith(c, b)
    ensures !a.Decide? && !a.ExitTrap?
    ensures || ((a.RecCheck? || a.RecResult?) && b == RecTop(a.i + 1))
            || b.AfterGraceful?
            || a.ImmediateFinal?
  {}

  /** Why the main script leaves the program points that lead past the recovery of a file. */
  lemma MainDecides(c: Config, s: State, ok: bool, status: int, t: State)
    requires Enabled(s, MainStep(ok, status)) && t == Apply(c, s, MainStep(ok, status)) && Follows(c, s.m.pc, t.m.pc)
    ensures s.m.pc.RecCheck? && t.m.pc.RecTop? ==> s.m.pc.i !in s.raw || s.m.pc.i in s.final
    ensures t.m.pc.AfterGraceful? ==>
              s.m.control.mode == Immediate || s.m.control.reason == LowDisk || (s.m.pc.RecTop? && s.m.pc.i >= c.maxFiles)
  {
    assert s.m.pc.WaitGroup? ==> !GroupRunning(s) || s.m.control.mode == Immediate;
    hide Enabled, GroupRunning, MainCommand, MainLeaves;
    if Decides(s.m.pc) {
      ScriptStep(c, s, ok, status, t);
      DecidingStep(c, s, ok, status);
      hide ScriptCommand, Follows;
      WhyDecided(c, s);
    } else if s.m.pc.RecResult? {
      ScriptStep(c, s, ok, status, t);
      ResultShape(c, s, ok, status);
      hide ScriptCommand, Follows;
    }
  }

  lemma WhyDecided(c: Config, s: State)
    requires Decides(s.m.pc)
    ensures s.m.pc.RecCheck? && NextPc(c, s).RecTop? ==> s.m.pc.i !in s.raw || s.m.pc.i in s.final
    ensures NextPc(c, s).AfterGraceful? ==>
              || s.m.control.mode == Immediate || s.m.control.reason == LowDisk || (s.m.pc.WaitGroup? && GroupRunning(s))
              || (s.m.pc.RecTop? && s.m.pc.i >= c.maxFiles)
  {
    hide GroupRunning;
  }

  lemma DealsOk(c: Config, steps: seq<Step>, u: State, s: State)
    requires steps != [] && Run(c, Init, steps[..|steps| - 1], u) && Inv(c, u) && DealtOk(c, steps[..|steps| - 1], u)
    requires var step := steps[|steps| - 1]; Enabled(u, step) && s == Apply(c, u, step)
    ensures DealtOk(c, steps, s)
  {
    var n, step := |steps| - 1, steps[|steps| - 1];
    StepLater(c, u, step);
    if s.m.control.mode == Graceful && s.m.control.reason != LowDisk {
      forall j: nat | j < DealtWith(c, s.m.pc) && j < s.created && j < c.maxFiles ensures j in s.final || Lost(c, steps, j) {
        LossesExtend(c, steps, u, j);
        hide Run, Lost;
        DealsWith(c, steps[..n], u, step, s, j);
      }
    }
  }

  lemma DealsWith(c: Config, before: seq<Step>, u: State, step: Step, s: State, j: nat)
    requires Inv(c, u) && DealtOk(c, before, u) && Enabled(u, step)
    requires s == Apply(c, u, step) && FilesLater(u, s) && ControlLater(u, s)
    requires s.m.control.mode == Graceful && s.m.control.reason != LowDisk
    requires j < DealtWith(c, s.m.pc) && j < s.created && j < c.maxFiles
    ensures j in s.final || Lost(c, before, j) || (step.MainStep? && NotesFailure(u, j) && j !in u.final)
  {
    hide Files, Procs, Pids, Unique, Recovery, Progress, GroupRunning, Apply, Enabled, Lost, MainLeaves;
    if step.MainStep? {
      MainApplied(c, u, step.ok, step.status, s);
      if DealtWith(c, u.m.pc) <= j {
        assert s.created == u.created by { MainCreatesNothing(c, u, step.ok, step.status, s); }
        MainDeals(c, u, step.ok, step.status, s, j);
      } else {
        MainCreatesNothing(c, u, step.ok, step.status, s);
      }
    } else if step.Handle? {
      HandleChanges(c, u, step.sig, s);
    } else {
      OthersKeepScript(c, u, step, s);
      assert u.td.Stopped?;
      StoppedCreatesNothing(c, u, step, s);
    }
  }

  lemma MainCreatesNothing(c: Config, s: State, ok: bool, status: int, t: State)
    requires Enabled(s, MainStep(ok, status)) && t == Apply(c, s, MainStep(ok, status))
    ensures t.created == s.created
  {
    hide Apply, Enabled;
    MainApplied(c, s, ok, status, t);
  }

  lemma StoppedCreatesNothing(c: Config, s: State, step: Step, t: State)
    requires Enabled(s, step) && t == Apply(c, s, step) && s.td.Stopped?
    ensures t.created == s.created
  {
    assert !step.TdOpen? && !step.TdWrite?;
    hide Apply, Enabled;
    OthersCaptureNothing(c, s, step, t);
  }

  lemma {:induction false} DealtInARun(c: Config, steps: seq<Step>, s: State)
    requires Run(c, Init, steps, s)
    ensures DealtOk(c, steps, s)
    decreases |steps|
  {
    hide Inv, Enabled, Apply;
    if steps != [] {
      var n := |steps| - 1;
      var u :| Run(c, Init, steps[..n], u) && Enabled(u, steps[n]) && s == Apply(c, u, steps[n]);
      DealtInARun(c, steps[..n], u);
      InitInv(c);
      RunKeepsInv(c, Init, steps[..n], u);
      hide Run, Inv, Enabled, Apply, DealtOk;
      DealsOk(c, steps, u, s);
    }
  }

  // ---------------------------------------------------------------- a lost file stays lost

  predicate Past(pc: MainPc, i: nat) {
    (InRecovery(pc) && pc.i > i) || AfterLoop(pc) || Ending(pc)
  }

  /** File `i` is not published, and nobody will publish it any more. */
  predicate Doomed(c: Config, s: State, i: nat) {
    i !in s.final && Past(s.m.pc, i) && GroupEmpty(s) && i < s.created && i < c.maxFiles
  }

  lemma FailureDooms(c: Config, s: State, ok: bool, status: int, t: State, i: nat)
    requires Inv(c, s) && Enabled(s, MainStep(ok, status)) && t == Apply(c, s, MainStep(ok, status))
    requires NotesFailure(s, i) && i !in s.final && i < s.created
    ensures Doomed(c, t, i)
  {
    StepGroup(c, s, MainStep(ok, status), t);
    MainApplied(c, s, ok, status, t);
    MainFollows(c, s, ok, status, t);
    hide GroupRunning, Files, Procs, Pids, Unique, Apply, Enabled;
  }

  lemma NobodyPublishes(c: Config, s: State, p: Pid, i: nat)
    requires Recovery(c, s) && Doomed(c, s, i) && p in s.procs && s.procs[p].Handler?
    ensures s.procs[p].index != i
  {
    EmptyGroup(s);
    assert OutsiderOk(s, p);
  }

  lemma DoomStays(c: Config, s: State, step: Step, t: State, i: nat)
    requires Inv(c, s) && Enabled(s, step) && t == Apply(c, s, step) && Doomed(c, s, i)
    ensures Doomed(c, t, i)
  {
    EmptyGroup(s);
    StepGroup(c, s, step, t);
    StoppedCreatesNothing(c, s, step, t);
    hide GroupRunning, Files, Procs, Pids, Unique, Progress, ControlOk, Phase, Recovery, Apply, Enabled, Follows, Past, MainLeaves;
    if step.MainStep? {
      MainApplied(c, s, step.ok, step.status, t);
      assert t.final == s.final by { MainPublishesNothing(s, t); }
      MainFollows(c, s, step.ok, step.status, t);
      PastStays(c, s.m.pc, t.m.pc, i);
    } else if step.Handle? {
      HandleChanges(c, s, step.sig, t);
    } else {
      OthersKeepScript(c, s, step, t);
      DoomedIsNotPublished(c, s, step, t, i);
    }
  }

  lemma MainPublishesNothing(s: State, t: State)
    requires MainLeaves(s, t)
    ensures t.final == s.final
  {}

  lemma PastStays(c: Config, a: MainPc, b: MainPc, i: nat)
    requires Follows(c, a, b) && Past(a, i)
    ensures Past(b, i)
  {}

  lemma DoomedIsNotPublished(c: Config, s: State, step: Step, t: State, i: nat)
    requires Recovery(c, s) && Doomed(c, s, i) && s.td.Stopped? && Enabled(s, step) && t == Apply(c, s, step)
    requires !step.MainStep? && !step.Handle?
    ensures i !in t.final
  {
    assert OfProcess(step);
    assert step.HandlerStep? ==> step.p in s.procs && s.procs[step.p].Handler?;
    hide Apply, Enabled, Doomed, Recovery, HandlerCommand, GroupRunning;
    if step.HandlerStep? && s.procs[step.p].pc.Publish? {
      NobodyPublishes(c, s, step.p, i);
      PublishesOnlyItsOwn(c, s, step.p, step.ok, step.status, t);
      assert i !in s.final by { DoomedIsUnpublished(c, s, i); }
    } else {
      ProcessStep(c, s, step, t);
      DoomedIsUnpublished(c, s, i);
    }
  }

  lemma DoomedIsUnpublished(c: Config, s: State, i: nat)
    requires Doomed(c, s, i)
    ensures i !in s.final
  {}

  lemma PublishesOnlyItsOwn(c: Config, s: State, p: Pid, ok: bool, status: int, t: State)
    requires Enabled(s, HandlerStep(p, ok, status)) && t == Apply(c, s, HandlerStep(p, ok, status)) && s.procs[p].pc.Publish?
    ensures forall i | i in t.final :: i in s.final || i == s.procs[p].index
  {
    hide GroupRunning;
    PublishCommand(c, s, p, ok, status);
    hide HandlerCommand;
    if ok && s.procs[p].index in s.part { PublishEffect(s, p, ok, status, t); }
  }

  lemma {:induction false} LostFilesAreDoomed(c: Config, steps: seq<Step>, s: State, i: nat)
    requires Run(c, Init, steps, s) && Lost(c, steps, i)
    ensures Doomed(c, s, i)
    decreases |steps|
  {
    hide Inv, Enabled, Apply, Doomed, LosesFile;
    if steps != [] {
      var n := |steps| - 1;
      var u :| Run(c, Init, steps[..n], u) && Enabled(u, steps[n]) && s == Apply(c, u, steps[n]);
      InitInv(c);
      RunKeepsInv(c, Init, steps[..n], u);
      LossesExtend(c, steps, u, i);
      if Lost(c, steps[..n], i) {
        LostFilesAreDoomed(c, steps[..n], u, i);
        hide Run, Lost;
        DoomStays(c, u, steps[n], s, i);
      } else {
        ResultIsOfAFile(c, steps[..n], u);
        hide Run, Lost;
        FailureDooms(c, u, steps[n].ok, steps[n].status, s, i);
      }
    }
  }

  /** Recovery handlers are only started for files that were captured. */
  predicate OfAFile(s: State) {
    s.m.pc.RecSpawn? || s.m.pc.RecSetPid? || s.m.pc.RecWait? || s.m.pc.RecResult? ==> s.m.pc.i < s.created
  }

  lemma {:induction false} ResultIsOfAFile(c: Config, steps: seq<Step>, s: State)
    requires Run(c, Init, steps, s)
    ensures OfAFile(s)
    decreases |steps|
  {
    hide Inv, Enabled, Apply;
    if steps != [] {
      var n := |steps| - 1;
      var u :| Run(c, Init, steps[..n], u) && Enabled(u, steps[n]) && s == Apply(c, u, steps[n]);
      ResultIsOfAFile(c, steps[..n], u);
      InitInv(c);
      RunKeepsInv(c, Init, steps[..n], u);
      hide Run, Enabled, Apply, Inv, OfAFile;
      StaysOfAFile(c, u, steps[n], s);
    }
  }

  lemma StaysOfAFile(c: Config, s: State, step: Step, t: State)
    requires Inv(c, s) && Enabled(s, step) && t == Apply(c, s, step) && OfAFile(s)
    ensures OfAFile(t)
  {
    hide Enabled, Apply, GroupRunning, Procs, Pids, Unique, Progress, ControlOk, Phase, Recovery, Follows;
    StepFiles(c, s, step, t);
    if step.MainStep? {
      MainFollows(c, s, step.ok, step.status, t);
      if s.m.pc.RecCheck? {
        RecCheckFacts(c, s);
        SpawnNeedsRaw(c, s, step.ok, step.status, t);
      }
      hide Files;
      FollowsOfAFile(c, s, t);
    } else {
      hide Files;
      if step.Handle? {
        HandleChanges(c, s, step.sig, t);
      } else {
        OthersKeepScript(c, s, step, t);
      }
    }
  }

  lemma FollowsOfAFile(c: Config, s: State, t: State)
    requires Follows(c, s.m.pc, t.m.pc) && OfAFile(s) && s.created <= t.created
    requires s.m.pc.RecCheck? && t.m.pc.RecSpawn? ==> s.m.pc.i < s.created
    ensures OfAFile(t)
  {}

  lemma SpawnNeedsRaw(c: Config, s: State, ok: bool, status: int, t: State)
    requires Enabled(s, MainStep(ok, status)) && t == Apply(c, s, MainStep(ok, status)) && s.m.pc.RecCheck?
    ensures t.m.pc.RecSpawn? ==> s.m.pc.i in s.raw
  {
    hide Enabled, GroupRunning, MainCommand, MainLeaves;
    ScriptStep(c, s, ok, status, t);
    CheckShape(c, s, ok, status);
    hide ScriptCommand;
  }

  /**
   The files a graceful run has published at its end, low disk space aside: all files opened below the limit but
   those whose recovery failed without publishing them. So with exit code 14 a file is missing exactly if such
   a recovery occurred.
   */
  lemma PublishedFilesOfARun(c: Config, steps: seq<Step>, s: State, i: nat)
    requires Run(c, Init, steps, s) && s.m.pc.Exited? && s.m.control.mode == Graceful && s.m.control.reason != LowDisk
    ensures i in s.final <==> i < |Written(steps)| && i < c.maxFiles && !Lost(c, steps, i)
  {
    hide Run, Lost;
    assert Reachable(c, s);
    ReachableInv(c, s);
    CapturedIsWritten(c, steps, s);
    DealtInARun(c, steps, s);
    if Lost(c, steps, i) { LostFilesAreDoomed(c, steps, s, i); }
    hide Procs, Pids, Unique, Recovery, Phase, GroupRunning, Reachable;
  }

  /** A file is missing after such a run exactly if some recovery failed before its file was published. */
  lemma WhenAFileIsMissing(c: Config, steps: seq<Step>, s: State)
    requires Run(c, Init, steps, s) && s.m.pc.Exited? && s.m.control.mode == Graceful && s.m.control.reason != LowDisk
    ensures (exists i: nat :: i < |Written(steps)| && i < c.maxFiles && i !in s.final)
       <==> (exists i: nat :: Lost(c, steps, i))
  {
    hide Run, Lost;
    forall i: nat ensures i in s.final <==> i < |Written(steps)| && i < c.maxFiles && !Lost(c, steps, i) {
      PublishedFilesOfARun(c, steps, s, i);
    }
    if i: nat :| Lost(c, steps, i) {
      LostFilesAreDoomed(c, steps, s, i);
      CapturedIsWritten(c, steps, s);
      hide GroupEmpty, Past;
    }
  }

  // ---------------------------------------------------------------- handlers started after a TERM

  /** In step `k` the main script starts a recovery handler although a TERM was handled. */
  ghost predicate StartsLate(c: Config, steps: seq<Step>, k: nat)
    requires k < |steps|
  {
    steps[k].MainStep? && exists u :: Run(c, Init, steps[..k], u) && u.m.pc.RecSpawn? && u.m.control.mode == Immediate
  }

  predicate NoMoreStarts(s: State) {
    s.m.control.mode == Immediate && !s.m.pc.RecCheck? && !s.m.pc.RecSpawn?
  }

  lemma NoMoreStartsStays(c: Config, s: State, step: Step, t: State)
    requires Inv(c, s) && Enabled(s, step) && t == Apply(c, s, step)
    requires NoMoreStarts(s) || (step.MainStep? && s.m.pc.RecSpawn? && s.m.control.mode == Immediate)
    ensures NoMoreStarts(t)
  {
    hide GroupRunning, Files, Procs, Pids, Unique, Recovery, Progress, Apply, Enabled, Follows;
    StepControl(c, s, step, t);
    if step.MainStep? {
      MainFollows(c, s, step.ok, step.status, t);
      if s.m.pc.RecTop? { TopLeaves(c, s, step.ok, step.status, t); }
      NoWayBack(c, s.m.pc, t.m.pc);
    } else if step.Handle? {
      HandleChanges(c, s, step.sig, t);
    } else {
      OthersKeepScript(c, s, step, t);
    }
  }

  lemma NoWayBack(c: Config, a: MainPc, b: MainPc)
    requires Follows(c, a, b) && !a.RecCheck? && (a.RecTop? ==> b.AfterGraceful?)
    ensures !b.RecCheck? && !b.RecSpawn?
  {}

  /** The loop test: in the immediate mode the loop ends. */
  lemma TopLeaves(c: Config, s: State, ok: bool, status: int, t: State)
    requires Enabled(s, MainStep(ok, status)) && t == Apply(c, s, MainStep(ok, status)) && s.m.pc.RecTop?
    ensures t.m.pc.RecCheck? <==> s.m.pc.i < c.maxFiles && s.m.control.mode != Immediate
    ensures t.m.pc.RecCheck? || t.m.pc.AfterGraceful?
  {
    hide Enabled, GroupRunning, MainCommand, MainLeaves;
    ScriptStep(c, s, ok, status, t);
    TopShape(c, s, ok, status);
    hide ScriptCommand;
  }

  lemma {:induction false} NoStartAfterALateOne(c: Config, steps: seq<Step>, s: State, k: nat)
    requires Run(c, Init, steps, s) && k < |steps| && StartsLate(c, steps, k)
    ensures NoMoreStarts(s)
    decreases |steps|
  {
    hide Inv, Enabled, Apply, NoMoreStarts;
    var n := |steps| - 1;
    var u :| Run(c, Init, steps[..n], u) && Enabled(u, steps[n]) && s == Apply(c, u, steps[n]);
    InitInv(c);
    RunKeepsInv(c, Init, steps[..n], u);
    if k < n {
      assert steps[..n][..k] == steps[..k];
      assert StartsLate(c, steps[..n], k);
      NoStartAfterALateOne(c, steps[..n], u, k);
    } else {
      var v :| Run(c, Init, steps[..n], v) && v.m.pc.RecSpawn? && v.m.control.mode == Immediate;
      RunIsDeterministic(c, Init, steps[..n], u, v);
    }
    hide Run;
    NoMoreStartsStays(c, u, steps[n], s);
  }

  /** After a TERM at most one recovery handler is started. */
  lemma AtMostOneLateStart(c: Config, steps: seq<Step>, j: nat, k: nat)
    requires j < |steps| && k < |steps| && StartsLate(c, steps, j) && StartsLate(c, steps, k)
    ensures j == k
  {
    hide Run;
    if j != k {
      var a, b := if j < k then j else k, if j < k then k else j;
      var u :| Run(c, Init, steps[..b], u) && u.m.pc.RecSpawn? && u.m.control.mode == Immediate;
      assert steps[..b][..a] == steps[..a];
      assert StartsLate(c, steps[..b], a);
      NoStartAfterALateOne(c, steps[..b], u, a);
    }
  }

  /** In step `j` the test of the recovery loop let index `i` pass. */
  ghost predicate Passes(c: Config, steps: seq<Step>, j: nat, i: nat)
    requires j < |steps|
  {
    steps[j].MainStep? && exists u :: Run(c, Init, steps[..j], u) && u.m.pc == RecTop(i) && u.m.control.mode != Immediate
  }

  /** A TERM was handled between the test for index `i` and the end of `steps`. */
  ghost predicate TermSinceTest(c: Config, steps: seq<Step>, i: nat) {
    exists j: nat {:trigger Passes(c, steps, j, i)} :: j < |steps| && Passes(c, steps, j, i) && Handle(TERM) in steps[j..]
  }

  ghost predicate Tested(c: Config, steps: seq<Step>, s: State) {
    s.m.pc.RecCheck? || s.m.pc.RecSpawn? ==>
      exists j: nat {:trigger Passes(c, steps, j, s.m.pc.i)} ::
        j < |steps| && Passes(c, steps, j, s.m.pc.i) && (s.m.control.mode == Immediate ==> Handle(TERM) in steps[j..])
  }

  lemma PassesExtends(c: Config, steps: seq<Step>, j: nat, i: nat)
    requires j < |steps| - 1 && Passes(c, steps[..|steps| - 1], j, i)
    ensures Passes(c, steps, j, i)
    ensures Handle(TERM) in steps[..|steps| - 1][j..] || steps[|steps| - 1] == Handle(TERM) ==> Handle(TERM) in steps[j..]
  {
    hide Run;
    var n := |steps| - 1;
    assert steps[..n][..j] == steps[..j];
    if Handle(TERM) in steps[..n][j..] {
      var k :| 0 <= k < n - j && steps[..n][j..][k] == Handle(TERM);
      assert steps[j..][k] == Handle(TERM);
    }
    assert steps[j..][n - j] == steps[n];
  }

  /** How a step leads to the program points between the test and the start. */
  lemma TestStep(c: Config, s: State, step: Step, t: State)
    requires Inv(c, s) && Enabled(s, step) && t == Apply(c, s, step) && (t.m.pc.RecCheck? || t.m.pc.RecSpawn?)
    ensures || (step.MainStep? && s.m.pc == RecTop(t.m.pc.i) && s.m.control.mode != Immediate && t.m.control.mode != Immediate)
            || ((s.m.pc.RecCheck? || s.m.pc.RecSpawn?) && s.m.pc.i == t.m.pc.i
                && (t.m.control.mode == Immediate ==> s.m.control.mode == Immediate || step == Handle(TERM)))
  {
    hide GroupRunning, Files, Procs, Pids, Unique, Recovery, Progress, Apply, Enabled, Follows, MainLeaves, Phase;
    if step.MainStep? {
      MainFollows(c, s, step.ok, step.status, t);
      MainApplied(c, s, step.ok, step.status, t);
      if s.m.pc.RecTop? { TopLeaves(c, s, step.ok, step.status, t); }
      TestedBefore(c, s.m.pc, t.m.pc);
    } else if step.Handle? {
      HandleChanges(c, s, step.sig, t);
    } else {
      OthersKeepScript(c, s, step, t);
    }
  }

  lemma TestedBefore(c: Config, a: MainPc, b: MainPc)
    requires Follows(c, a, b) && (b.RecCheck? || b.RecSpawn?)
    ensures (b.RecCheck? && a == RecTop(b.i)) || (b.RecSpawn? && a == RecCheck(b.i))
  {}

  lemma {:induction false} TestedInARun(c: Config, steps: seq<Step>, s: State)
    requires Run(c, Init, steps, s)
    ensures Tested(c, steps, s)
    decreases |steps|
  {
    hide Inv, Enabled, Apply;
    if steps != [] {
      var n := |steps| - 1;
      var u :| Run(c, Init, steps[..n], u) && Enabled(u, steps[n]) && s == Apply(c, u, steps[n]);
      TestedInARun(c, steps[..n], u);
      InitInv(c);
      RunKeepsInv(c, Init, steps[..n], u);
      if s.m.pc.RecCheck? || s.m.pc.RecSpawn? {
        TestStep(c, u, steps[n], s);
        if u.m.pc.RecTop? {
          assert Passes(c, steps, n, s.m.pc.i);
        } else {
          var i := s.m.pc.i;
          var j: nat :| j < n && Passes(c, steps[..n], j, i) && (u.m.control.mode == Immediate ==> Handle(TERM) in steps[..n][j..]);
          hide Run, Passes;
          PassesExtends(c, steps, j, i);
        }
      }
    }
  }

  /**
   A recovery handler is started in the immediate mode exactly if a TERM was handled after the test of the
   recovery loop for its index: the loop does not look at the mode again.
   */
  lemma WhenAHandlerStartsLate(c: Config, steps: seq<Step>, s: State)
    requires Run(c, Init, steps, s) && s.m.pc.RecSpawn?
    ensures s.m.control.mode == Immediate <==> TermSinceTest(c, steps, s.m.pc.i)
  {
    TestedInARun(c, steps, s);
    SignalsDecideTheReason(c, steps, s);
    hide Run, Passes, FirstReason;
    if j: nat :| j < |steps| && Passes(c, steps, j, s.m.pc.i) && Handle(TERM) in steps[j..] {
      assert Handle(TERM) in steps;
    }
  }
}
