/** What the capture protocol guarantees, over every run from the start of tcpdump. */
module CaptureTheorems {
  import opened Basics
  import opened CaptureModel
  import opened CaptureInvariant
  import opened CaptureMain
  import opened CaptureFrames

  ghost predicate Reachable(c: Config, s: State) {
    exists steps :: Run(c, Init, steps, s)
  }

  lemma ReachableInv(c: Config, s: State)
    requires Reachable(c, s)
    ensures Inv(c, s)
  {
    var steps :| Run(c, Init, steps, s);
    InitInv(c);
    RunKeepsInv(c, Init, steps, s);
  }

  // ---------------------------------------------------------------- files

  /** What tcpdump wrote to its files, read off the steps alone. */
  function Written(steps: seq<Step>): seq<Bytes> {
    if steps == [] then []
    else
      var before, last := Written(steps[..|steps| - 1]), steps[|steps| - 1];
      match last
      case TdOpen => before + [[]]
      case TdWrite(bytes) =>
        if before == [] then before
        else before[|before| - 1 := before[|before| - 1] + bytes]
      case _ => before
  }

  predicate CapturedAre(s: State, files: seq<Bytes>) {
    s.created == |files| && forall i | 0 <= i < |files| :: i in s.captured && s.captured[i] == files[i]
  }

  /** The history variables of the model are what tcpdump wrote. */
  lemma {:induction false} CapturedIsWritten(c: Config, steps: seq<Step>, s: State)
    requires Run(c, Init, steps, s)
    ensures CapturedAre(s, Written(steps))
    decreases |steps|
  {
    if steps != [] {
      var n := |steps| - 1;
      var u :| Run(c, Init, steps[..n], u) && Enabled(u, steps[n]) && s == Apply(c, u, steps[n]);
      hide Enabled, Apply, CapturedAre;
      CapturedIsWritten(c, steps[..n], u);
      InitInv(c);
      RunKeepsInv(c, Init, steps[..n], u);
      hide Run, Inv;
      if steps[n].TdOpen? {
        OpenCaptures(c, u, Written(steps[..n]), s);
      } else if steps[n].TdWrite? {
        WriteCaptures(c, u, steps[n].bytes, Written(steps[..n]), s);
      } else {
        OthersCaptureNothing(c, u, steps[n], s);
        SameCaptured(u, s, Written(steps[..n]));
      }
    }
  }

  lemma OpenCaptures(c: Config, s: State, files: seq<Bytes>, t: State)
    requires Files(c, s) && Enabled(s, TdOpen) && t == Apply(c, s, TdOpen) && CapturedAre(s, files)
    ensures CapturedAre(t, files + [[]])
  {}

  lemma WriteCaptures(c: Config, s: State, bytes: Bytes, files: seq<Bytes>, t: State)
    requires Files(c, s) && Enabled(s, TdWrite(bytes)) && t == Apply(c, s, TdWrite(bytes)) && CapturedAre(s, files)
    ensures files != [] && CapturedAre(t, files[|files| - 1 := files[|files| - 1] + bytes])
  {
    hide GroupRunning;
  }

  lemma SameCaptured(s: State, t: State, files: seq<Bytes>)
    requires CapturedAre(s, files) && t.created == s.created && t.captured == s.captured
    ensures CapturedAre(t, files)
  {}

  lemma OthersCaptureNothing(c: Config, s: State, step: Step, t: State)
    requires Enabled(s, step) && t == Apply(c, s, step) && !step.TdOpen? && !step.TdWrite?
    ensures t.created == s.created && t.captured == s.captured
  {
    hide GroupRunning, HandlerCommand, MainCommand;
    if OfProcess(step) {
      hide Apply, Enabled;
      ProcessStep(c, s, step, t);
    } else if step.MainStep? {
      hide Apply, Enabled;
      MainApplied(c, s, step.ok, step.status, t);
    }
  }

  /**
   Until the staging directory is deleted, every file tcpdump opened still has its raw file, with all
   that was written to it, or has its complete compressed file: whatever was killed, and when.
   */
  lemma NoLossBeforeCleanup(c: Config, steps: seq<Step>, s: State, i: nat)
    requires Run(c, Init, steps, s) && !Cleaned(s) && i < |Written(steps)|
    ensures || (i in s.raw && s.raw[i] == Written(steps)[i])
            || (i in s.final && s.final[i] == Complete(Written(steps)[i]))
  {
    ReachableInv(c, s);
    CapturedIsWritten(c, steps, s);
  }

  /** A published file is the full compression of a file below the limit that tcpdump has finished. */
  lemma OnlyCompleteFilesArePublished(c: Config, steps: seq<Step>, s: State, i: nat)
    requires Run(c, Init, steps, s) && i in s.final
    ensures i < c.maxFiles && i < |Written(steps)| && s.final[i] == Complete(Written(steps)[i])
    ensures s.td != Writing(i)
  {
    ReachableInv(c, s);
    CapturedIsWritten(c, steps, s);
  }

  // ---------------------------------------------------------------- from one state to a later one

  /** Published files stay, with their contents, and finished files get no more data. */
  predicate FilesLater(s: State, t: State) {
    && s.created <= t.created
    && (forall i | i in s.final :: i in t.final && t.final[i] == s.final[i])
    && (forall i | 0 <= i < s.created && Closed(s, i) && i in s.captured ::
          Closed(t, i) && i in t.captured && t.captured[i] == s.captured[i])
  }

  function Rank(mode: Mode): nat {
    match mode
    case Running => 0
    case Graceful => 1
    case Immediate => 2
  }

  /** The mode never moves back, and the first graceful reason is kept. */
  predicate ControlLater(s: State, t: State) {
    && Rank(s.m.control.mode) <= Rank(t.m.control.mode)
    && (s.m.control.mode == t.m.control.mode ==> t.m.control.reason == s.m.control.reason)
  }

  /** An empty process group stays empty. */
  predicate GroupLater(s: State, t: State) {
    GroupEmpty(s) ==> GroupEmpty(t)
  }

  predicate Later(s: State, t: State) {
    FilesLater(s, t) && ControlLater(s, t) && GroupLater(s, t)
  }

  lemma StepFiles(c: Config, s: State, step: Step, t: State)
    requires Inv(c, s) && Enabled(s, step) && t == Apply(c, s, step)
    ensures FilesLater(s, t)
  {
    assert step.HandlerStep? ==> step.p in s.procs && s.procs[step.p].Handler?;
    hide Inv, Enabled, Apply, FilesLater;
    if step.HandlerStep? && s.procs[step.p].pc.Publish? {
      PublishFiles(c, s, step.p, step.ok, step.status, t);
    } else if OfProcess(step) {
      ProcessStep(c, s, step, t);
      SameFilesLater(s, t);
    } else if step.MainStep? {
      MainApplied(c, s, step.ok, step.status, t);
      SameFilesLater(s, t);
    } else if step.Handle? {
      HandleChanges(c, s, step.sig, t);
      SameFilesLater(s, t);
    } else {
      CaptureFiles(c, s, step, t);
    }
  }

  lemma SameFilesLater(s: State, t: State)
    requires t.final == s.final && t.td == s.td && t.created == s.created && t.captured == s.captured
    ensures FilesLater(s, t)
  {}

  lemma HandleChanges(c: Config, s: State, sig: Signal, t: State)
    requires Enabled(s, Handle(sig)) && t == Apply(c, s, Handle(sig))
    ensures t == s.(m := s.m.(control := OnSignal(s.m.control, sig)), pending := s.pending - {sig})
  {}

  lemma PublishFiles(c: Config, s: State, p: Pid, ok: bool, status: int, t: State)
    requires Inv(c, s) && Enabled(s, HandlerStep(p, ok, status)) && t == Apply(c, s, HandlerStep(p, ok, status))
    requires s.procs[p].pc.Publish?
    ensures FilesLater(s, t)
  {
    hide Files, Procs, Unique, Phase, Recovery, Progress, ControlOk, GroupRunning, Pids, HandlerOk, HandlerCommand, Apply;
    NameIsFree(c, s, p);
    CommandApplied(c, s, p, ok, status, t);
    PublishApplied(c, s, p, ok, status, t);
  }

  lemma NameIsFree(c: Config, s: State, p: Pid)
    requires Procs(c, s) && p in s.procs && s.procs[p].Handler? && s.procs[p].pc.Publish?
    ensures s.procs[p].index !in s.final && IsComplete(s, s.part, s.procs[p].index)
  {
    assert HandlerOk(c, s, s.procs[p]);
  }

  lemma PublishApplied(c: Config, s: State, p: Pid, ok: bool, status: int, t: State)
    requires Enabled(s, HandlerStep(p, ok, status)) && t == Apply(c, s, HandlerStep(p, ok, status))
    requires s.procs[p].pc.Publish? && s.procs[p].index in s.part
    ensures t.final == s.final || t.final == s.final[s.procs[p].index := s.part[s.procs[p].index]]
  {}

  lemma PublishCommand(c: Config, s: State, p: Pid, ok: bool, status: int)
    requires p in s.procs && s.procs[p].Handler? && s.procs[p].pc.Publish?
    ensures HandlerCommand(c, s, p, ok, status) == CompressCommand(s, p, ok, status)
  {}

  lemma CaptureFiles(c: Config, s: State, step: Step, t: State)
    requires Files(c, s) && Enabled(s, step) && t == Apply(c, s, step)
    requires step.TdOpen? || step.TdWrite? || step.TdRotate? || step.TdExit?
    ensures FilesLater(s, t)
  {
    hide GroupRunning;
  }

  lemma StepControl(c: Config, s: State, step: Step, t: State)
    requires Inv(c, s) && Enabled(s, step) && t == Apply(c, s, step)
    ensures ControlLater(s, t)
  {
    hide Files, Procs, Pids, Unique, Recovery, Progress, Apply, Enabled, GroupRunning;
    if step.MainStep? {
      MainApplied(c, s, step.ok, step.status, t);
    } else if step.Handle? {
      HandleChanges(c, s, step.sig, t);
    } else {
      OthersKeepScript(c, s, step, t);
    }
  }

  lemma OthersKeepScript(c: Config, s: State, step: Step, t: State)
    requires Enabled(s, step) && t == Apply(c, s, step) && !step.MainStep? && !step.Handle?
    ensures t.m == s.m
  {
    hide GroupRunning, HandlerCommand, MainCommand;
    if OfProcess(step) {
      hide Apply, Enabled;
      ProcessStep(c, s, step, t);
    }
  }

  lemma StepGroup(c: Config, s: State, step: Step, t: State)
    requires Enabled(s, step) && t == Apply(c, s, step) && GroupEmpty(s)
    ensures GroupEmpty(t)
  {
    EmptyGroup(s);
    assert t.td == s.td by { hide GroupEmpty; StoppedStaysStopped(c, s, step, t); }
    hide HandlerCommand, MainCommand;
    match step
    case HandlerStep(p, ok, status) => hide Apply, Enabled; HandlerKeepsEmpty(c, s, p, ok, status, t);
    case HandlerTerm(p) => TermIsQuiet(c, s, p, t); hide Apply, Enabled;
    case Kill(p, status) => KillIsQuiet(c, s, p, status, t); hide Apply, Enabled;
    case XzRead(p) => ReadIsQuiet(c, s, p, t); hide Apply, Enabled;
    case XzDone(p) => DoneIsQuiet(c, s, p, t); hide Apply, Enabled;
    case External(sig) => ExternalIsQuiet(c, s, sig, t); hide Apply, Enabled;
    case Handle(sig) => HandleChanges(c, s, sig, t); hide Apply, Enabled;
    case MainStep(ok, status) => MainApplied(c, s, ok, status, t); hide Apply, Enabled;
    case _ =>
  }

  lemma StoppedStaysStopped(c: Config, s: State, step: Step, t: State)
    requires Enabled(s, step) && t == Apply(c, s, step) && s.td.Stopped?
    ensures t.td == s.td
  {
    hide GroupRunning, HandlerCommand, MainCommand;
    if OfProcess(step) {
      hide Apply, Enabled;
      ProcessStep(c, s, step, t);
    } else if step.MainStep? {
      hide Apply, Enabled;
      MainApplied(c, s, step.ok, step.status, t);
    }
  }

  lemma HandlerKeepsEmpty(c: Config, s: State, p: Pid, ok: bool, status: int, t: State)
    requires Enabled(s, HandlerStep(p, ok, status)) && t == Apply(c, s, HandlerStep(p, ok, status))
    requires GroupEmpty(s) && t.td == s.td
    ensures GroupEmpty(t)
  {
    EmptyGroup(s);
    CommandApplied(c, s, p, ok, status, t);
    hide HandlerCommand, Apply;
  }

  lemma StepLater(c: Config, s: State, step: Step)
    requires Inv(c, s) && Enabled(s, step)
    ensures Later(s, Apply(c, s, step))
  {
    hide Inv, Enabled, Apply, FilesLater, ControlLater, GroupEmpty;
    StepFiles(c, s, step, Apply(c, s, step));
    StepControl(c, s, step, Apply(c, s, step));
    if GroupEmpty(s) { StepGroup(c, s, step, Apply(c, s, step)); }
  }

  lemma LaterTransitive(s: State, t: State, u: State)
    requires Later(s, t) && Later(t, u)
    ensures Later(s, u)
  {}

  lemma {:induction false} RunLater(c: Config, s: State, steps: seq<Step>, t: State)
    requires Inv(c, s) && Run(c, s, steps, t)
    ensures Later(s, t)
    decreases |steps|
  {
    if steps == [] {
      hide Inv, Run, GroupEmpty;
    } else {
      hide Inv, Enabled, Apply, Later;
      var n := |steps| - 1;
      var u :| Run(c, s, steps[..n], u) && Enabled(u, steps[n]) && t == Apply(c, u, steps[n]);
      RunLater(c, s, steps[..n], u);
      RunKeepsInv(c, s, steps[..n], u);
      StepLater(c, u, steps[n]);
      LaterTransitive(s, u, t);
    }
  }

  /** Once present, a file in the output directory is never rewritten, replaced or removed. */
  lemma PublishedFilesNeverChange(c: Config, s: State, steps: seq<Step>, t: State, i: nat)
    requires Reachable(c, s) && Run(c, s, steps, t) && i in s.final
    ensures i in t.final && t.final[i] == s.final[i]
  {
    hide Run, Inv;
    ReachableInv(c, s);
    RunLater(c, s, steps, t);
  }

  /** The move that publishes a file always finds its name free. */
  lemma PublishFindsTheNameFree(c: Config, s: State, p: Pid)
    requires Reachable(c, s) && p in s.procs && s.procs[p].Handler? && s.procs[p].pc.Publish?
    ensures s.procs[p].index !in s.final
    ensures s.procs[p].index in s.part && s.procs[p].index in s.captured
    ensures s.part[s.procs[p].index] == Complete(s.captured[s.procs[p].index])
  {
    hide Reachable;
    ReachableInv(c, s);
    NameIsFree(c, s, p);
  }

  // ---------------------------------------------------------------- one compression per file

  /** Two processes on one index are a handler and the xz it waits for, so a partial file has one writer. */
  lemma OneWriterPerIndex(c: Config, s: State, p: Pid, q: Pid)
    requires Reachable(c, s) && p in s.procs && q in s.procs && p != q && s.procs[p].index == s.procs[q].index
    ensures s.procs[p].Handler? != s.procs[q].Handler?
    ensures s.procs[p].Handler? ==> ChildOf(s.procs[p].pc) == Some(q)
  {
    hide Reachable;
    ReachableInv(c, s);
    assert ParentOf(s, p, q) || ParentOf(s, q, p);
  }

  /** The branches for an undecodable name and for an existing destination are never taken. */
  lemma AbortBranchesAreUnreachable(c: Config, s: State)
    requires Reachable(c, s)
    ensures !s.aborted
    ensures forall p | p in s.procs && s.procs[p].Handler? && s.procs[p].pc.CheckDest? :: s.procs[p].index !in s.final
  {
    hide Reachable;
    ReachableInv(c, s);
    forall p | p in s.procs && s.procs[p].Handler? && s.procs[p].pc.CheckDest? ensures s.procs[p].index !in s.final {
      assert HandlerOk(c, s, s.procs[p]);
    }
  }

  // ---------------------------------------------------------------- deleting the staging directory

  /**
   When the staging directory is about to be deleted, tcpdump has stopped, nothing runs in its group and
   no handler runs anywhere; the one thing that may run is an xz whose recovery handler was killed.
   */
  lemma StagingIsDeletedLast(c: Config, s: State)
    requires Reachable(c, s) && Ending(s.m.pc)
    ensures s.td.Stopped? && s.m.reaped && s.m.finalGzip == None
    ensures !GroupRunning(s)
    ensures forall p | p in s.procs :: s.procs[p].Xz? && !s.procs[p].inGroup && p in s.orphans
  {
    hide Reachable;
    ReachableInv(c, s);
    NoHandlersAtCleanup(c, s);
  }

  /** The group has no members from the moment the wait for it ends, and for ever after. */
  lemma EmptyGroupStaysEmpty(c: Config, s: State, steps: seq<Step>, t: State)
    requires Reachable(c, s) && Run(c, s, steps, t) && !GroupRunning(s)
    ensures !GroupRunning(t)
  {
    hide Run, GroupRunning, Inv;
    ReachableInv(c, s);
    RunLater(c, s, steps, t);
  }

  /** The immediate path never waits for a recovery handler: none is recorded when it starts. */
  lemma NoRecoveryHandlerInImmediateFinish(c: Config, s: State)
    requires Reachable(c, s)
    requires s.m.pc.ImmediateReap? || s.m.pc.ImmediateGroup? || s.m.pc.ImmediateFinal?
    ensures s.m.finalGzip == None
    ensures forall p | p in s.procs && s.procs[p].Handler? :: s.procs[p].inGroup
  {
    hide Reachable;
    ReachableInv(c, s);
    forall p | p in s.procs && s.procs[p].Handler? ensures s.procs[p].inGroup {
      assert s.procs[p].inGroup || OutsiderOk(s, p);
    }
  }

  /** Nothing is left of the staging directory at the end. */
  lemma StagingIsGoneAtExit(c: Config, s: State)
    requires Reachable(c, s) && s.m.pc.Exited?
    ensures s.raw == map[] && s.part == map[]
  {
    ReachableInv(c, s);
  }

  // ---------------------------------------------------------------- results of a run

  /**
   A graceful run that stopped for any reason but low disk space, and did not report a compression error,
   has published exactly the allowed files, each complete.
   */
  lemma GracefulRunPublishesEverything(c: Config, steps: seq<Step>, s: State)
    requires Run(c, Init, steps, s) && s.m.pc.Exited?
    requires s.m.control.mode != Immediate && s.m.control.reason != LowDisk && s.m.pc.code != Some(EXIT_COMPRESSION_ERROR)
    ensures forall i: nat :: i in s.final <==> i < |Written(steps)| && i < c.maxFiles
    ensures forall i | i in s.final :: i < |Written(steps)| && s.final[i] == Complete(Written(steps)[i])
    ensures s.m.control.reason == MaxFiles ==> forall i: nat :: i in s.final <==> i < c.maxFiles
  {
    assert Reachable(c, s);
    ReachableInv(c, s);
    CapturedIsWritten(c, steps, s);
    hide Run, Procs, Unique, Recovery, Phase, Reachable;
    assert PublishedBelow(c, s, c.maxFiles);
  }

  /** Over any stretch of a run: the mode never moves back and the first graceful reason is kept. */
  lemma ModeNeverMovesBack(c: Config, s: State, steps: seq<Step>, t: State)
    requires Reachable(c, s) && Run(c, s, steps, t)
    ensures s.m.control.mode == Immediate ==> t.m.control == s.m.control
    ensures s.m.control.mode == Graceful ==>
              t.m.control.mode == Immediate || (t.m.control.mode == Graceful && t.m.control.reason == s.m.control.reason)
    ensures t.m.control.mode == Running ==> s.m.control.mode == Running
  {
    ReachableInv(c, s);
    RunKeepsInv(c, s, steps, t);
    hide Run, Reachable, GroupRunning;
    RunLater(c, s, steps, t);
  }

  predicate TermHandled(steps: seq<Step>) {
    Handle(TERM) in steps
  }

  /** The first stop request that was handled, in terms of the reason it gives. */
  function FirstReason(steps: seq<Step>): Reason {
    if steps == [] then NoReason
    else
      var before, last := FirstReason(steps[..|steps| - 1]), steps[|steps| - 1];
      if before != NoReason || !last.Handle? then before
      else match last.sig
        case INT => SigInt
        case TERM => SigTerm
        case USR1 => MaxFiles
        case USR2 => LowDisk
  }

  predicate BeforeExit(pc: MainPc) { pc.WaitTcpdump? || pc.Decide? }

  /** Where the script stands, from the signals it handled alone. */
  predicate ControlFollowsSignals(steps: seq<Step>, s: State) {
    && (s.m.control.mode == Immediate <==> TermHandled(steps))
    && (s.m.control.mode == Graceful && s.m.control.reason != TcpdumpExit ==> s.m.control.reason == FirstReason(steps))
    && (BeforeExit(s.m.pc) && s.m.control.mode != Immediate ==> s.m.control.reason == FirstReason(steps))
    && (s.m.control.mode == Running ==> FirstReason(steps) == NoReason)
  }

  /**
   The mode is immediate exactly when a TERM was handled; otherwise the reason is that of the first signal
   handled, except that tcpdump's own exit counts if none was handled before its status was examined.
   */
  lemma {:induction false} SignalsDecideTheReason(c: Config, steps: seq<Step>, s: State)
    requires Run(c, Init, steps, s)
    ensures ControlFollowsSignals(steps, s)
    decreases |steps|
  {
    if steps != [] {
      var n := |steps| - 1;
      var u :| Run(c, Init, steps[..n], u) && Enabled(u, steps[n]) && s == Apply(c, u, steps[n]);
      SignalsDecideTheReason(c, steps[..n], u);
      InitInv(c);
      RunKeepsInv(c, Init, steps[..n], u);
      hide Run, Init;
      TermHandledExtends(steps);
      hide TermHandled;
      StepFollowsSignals(c, steps, u, s);
    }
  }

  lemma TermHandledExtends(steps: seq<Step>)
    requires steps != []
    ensures TermHandled(steps) <==> TermHandled(steps[..|steps| - 1]) || steps[|steps| - 1] == Handle(TERM)
  {}

  lemma StepFollowsSignals(c: Config, steps: seq<Step>, u: State, s: State)
    requires steps != [] && Inv(c, u)
    requires var n := |steps| - 1; ControlFollowsSignals(steps[..n], u) && Enabled(u, steps[n]) && s == Apply(c, u, steps[n])
    requires TermHandled(steps) <==> TermHandled(steps[..|steps| - 1]) || steps[|steps| - 1] == Handle(TERM)
    ensures ControlFollowsSignals(steps, s)
  {
    hide GroupRunning, TermHandled, Files, Procs, Pids, Unique, Recovery, Progress, Apply, Enabled;
    var step := steps[|steps| - 1];
    if step.MainStep? {
      MainApplied(c, u, step.ok, step.status, s);
      MainFollows(c, u, step.ok, step.status, s);
    } else if step.Handle? {
      HandleChanges(c, u, step.sig, s);
    } else {
      OthersKeepScript(c, u, step, s);
    }
  }

  /** tcpdump's own status is the result only if no stop request was handled before it was examined. */
  lemma {:induction false} OwnStatusOnlyWithoutRequests(c: Config, steps: seq<Step>, s: State)
    requires Run(c, Init, steps, s) && s.m.control.reason == TcpdumpExit
    ensures exists n, u :: 0 <= n < |steps| && Run(c, Init, steps[..n], u) && u.m.pc.Decide? && FirstReason(steps[..n]) == NoReason
    decreases |steps|
  {
    if steps != [] {
      var n := |steps| - 1;
      var u :| Run(c, Init, steps[..n], u) && Enabled(u, steps[n]) && s == Apply(c, u, steps[n]);
      hide Enabled, Apply;
      if u.m.control.reason == TcpdumpExit {
        OwnStatusOnlyWithoutRequests(c, steps[..n], u);
        var k, v :| 0 <= k < n && Run(c, Init, steps[..n][..k], v) && v.m.pc.Decide? && FirstReason(steps[..n][..k]) == NoReason;
        assert steps[..n][..k] == steps[..k];
      } else {
        SignalsDecideTheReason(c, steps[..n], u);
        OnlyDecideTakesTheStatus(c, u, steps[n], s);
      }
    }
  }

  lemma OnlyDecideTakesTheStatus(c: Config, s: State, step: Step, t: State)
    requires Enabled(s, step) && t == Apply(c, s, step)
    requires s.m.control.reason != TcpdumpExit && t.m.control.reason == TcpdumpExit
    ensures s.m.pc.Decide? && s.m.control.mode == Running
  {
    hide GroupRunning, Apply, Enabled;
    if step.MainStep? {
      MainApplied(c, s, step.ok, step.status, t);
    } else if step.Handle? {
      HandleChanges(c, s, step.sig, t);
    } else {
      OthersKeepScript(c, s, step, t);
    }
  }

  // ---------------------------------------------------------------- low disk space

  /** A stop for low disk space never starts the recovery loop. */
  lemma {:induction false} LowDiskStartsNoRecovery(c: Config, steps: seq<Step>, s: State)
    requires Run(c, Init, steps, s)
    ensures s.m.control.reason == LowDisk ==> !InRecovery(s.m.pc)
    decreases |steps|
  {
    if steps != [] {
      var n := |steps| - 1;
      var u :| Run(c, Init, steps[..n], u) && Enabled(u, steps[n]) && s == Apply(c, u, steps[n]);
      LowDiskStartsNoRecovery(c, steps[..n], u);
      InitInv(c);
      RunKeepsInv(c, Init, steps[..n], u);
      LowDiskStep(c, u, steps[n], s);
    }
  }

  lemma LowDiskStep(c: Config, s: State, step: Step, t: State)
    requires Inv(c, s) && Enabled(s, step) && t == Apply(c, s, step)
    requires s.m.control.reason == LowDisk ==> !InRecovery(s.m.pc)
    ensures t.m.control.reason == LowDisk ==> !InRecovery(t.m.pc)
  {
    hide GroupRunning, Files, Procs, Pids, Unique, Recovery, Progress, Phase, Apply, Enabled;
    if step.MainStep? {
      MainApplied(c, s, step.ok, step.status, t);
      MainFollows(c, s, step.ok, step.status, t);
      if s.m.pc.CheckLowDisk? { LowDiskSkipsRecovery(c, s, step.ok, step.status, t); }
    } else if step.Handle? {
      HandleChanges(c, s, step.sig, t);
    } else {
      OthersKeepScript(c, s, step, t);
    }
  }

  lemma LowDiskSkipsRecovery(c: Config, s: State, ok: bool, status: int, t: State)
    requires Enabled(s, MainStep(ok, status)) && t == Apply(c, s, MainStep(ok, status)) && s.m.pc.CheckLowDisk?
    ensures s.m.control.reason == LowDisk ==> t.m.pc.AfterGraceful?
  {}
}
