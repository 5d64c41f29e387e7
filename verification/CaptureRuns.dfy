/**
 Three runs that share their beginning.

 In the first an xz still runs when the staging directory is deleted: the main script sends TERM to its
 recovery handler twice, the second one ends the handler (its trap was reset by the first) while it waits
 for xz, and only the handler is waited for.

 In the second the exit code reports a failed compression although every file was published: the wait for the
 recovery handler was interrupted when the handler had just ended.

 In the third a recovery handler is started after a TERM was handled.
 */
module CaptureRuns {
  import opened Basics
  import opened CaptureNames
  import opened CaptureModel
  import opened CaptureInvariant
  import opened CaptureFrames
  import opened CaptureTheorems
  import opened CaptureResults

  const ONE := Config(1, "raw_")

  lemma Go(c: Config, s: State, step: Step, t: State)
    requires Reachable(c, s) && Enabled(s, step) && t == Apply(c, s, step)
    ensures Reachable(c, t)
  {
    var steps :| Run(c, Init, steps, s);
    var longer := steps + [step];
    assert longer[..|longer| - 1] == steps;
    hide Enabled, Apply;
    assert Run(c, Init, longer, t);
  }

  /** One file of three bytes was captured, then tcpdump ended with status 0. */
  function Captured(m: Script): State {
    State(map[0 := [7, 8, 9]], map[], map[], Stopped(0), map[], map[], 0, m, {}, 1, map[0 := [7, 8, 9]], false, {})
  }

  function Stopping(pc: MainPc): Script {
    Script(pc, Control(Graceful, TcpdumpExit, Some(0)), true, 0, None)
  }

  lemma UpToDecide()
    ensures Reachable(ONE, Captured(Script(Decide, Control(Running, NoReason, None), true, 0, None)))
  {
    hide Reachable;
    AtStart();
    var s1 := Init.(td := Writing(0), created := 1, raw := map[0 := []], captured := map[0 := []]);
    Go(ONE, Init, TdOpen, s1);
    var s2 := s1.(raw := map[0 := [7, 8, 9]], captured := map[0 := [7, 8, 9]]);
    assert [] + [7, 8, 9] == [7, 8, 9];
    Go(ONE, s1, TdWrite([7, 8, 9]), s2);
    var s3 := s2.(td := Stopped(0));
    Go(ONE, s2, TdExit(0), s3);
    Go(ONE, s3, MainStep(true, 1), Captured(Script(Decide, Control(Running, NoReason, None), true, 0, None)));
  }

  lemma AtStart()
    ensures Reachable(ONE, Init)
  {
    assert Run(ONE, Init, [], Init);
  }

  /** The main script goes on, tcpdump and its group being gone. */
  lemma MainGoes(m: Script, n: Script)
    requires Reachable(ONE, Captured(m)) && !m.pc.RecSpawn? && !m.pc.Cleanup? && !m.pc.Exited? && m.finalGzip == None
    requires n == ScriptCommand(ONE, Captured(m), true, 1)
    ensures Reachable(ONE, Captured(n))
  {
    hide Reachable, ScriptCommand;
    Go(ONE, Captured(m), MainStep(true, 1), Captured(n));
  }

  lemma DecisionGoes(pc: MainPc, next: MainPc)
    requires Reachable(ONE, Captured(Stopping(pc))) && Decides(pc) && next == NextPc(ONE, Captured(Stopping(pc)))
    ensures Reachable(ONE, Captured(Stopping(next)))
  {
    hide Reachable, NextPc;
    DecidingStep(ONE, Captured(Stopping(pc)), true, 1);
    hide ScriptCommand;
    MainGoes(Stopping(pc), Stopping(next));
  }

  lemma UpToWait()
    ensures Reachable(ONE, Captured(Stopping(WaitGroup)))
  {
    hide Reachable;
    UpToDecide();
    MainGoes(Script(Decide, Control(Running, NoReason, None), true, 0, None), Stopping(ExitTrap));
    MainGoes(Stopping(ExitTrap), Stopping(Branch));
    DecisionGoes(Branch, GracefulReap);
    MainGoes(Stopping(GracefulReap), Stopping(WaitGroup));
  }

  lemma UpToRecovery()
    ensures Reachable(ONE, Captured(Stopping(RecSpawn(0))))
  {
    hide Reachable;
    UpToWait();
    DecisionGoes(WaitGroup, AfterGroup);
    DecisionGoes(AfterGroup, CheckLowDisk);
    DecisionGoes(CheckLowDisk, RecTop(0));
    DecisionGoes(RecTop(0), RecCheck(0));
    DecisionGoes(RecCheck(0), RecSpawn(0));
  }

  /** The recovery handler (process 0) at `pc`, the main script waiting for it, with signals still to be handled. */
  function Recovering(pc: HandlerPc, pending: set<Signal>): State {
    Captured(Stopping(RecWait(0)).(finalGzip := Some(0)))
      .(procs := map[0 := Handler(0, false, pc)], nextPid := 1, pending := pending)
  }

  lemma UpToHandler()
    ensures Reachable(ONE, Recovering(Start, {}))
  {
    hide Reachable;
    UpToRecovery();
    var s := Captured(Stopping(RecSpawn(0)));
    var t := s.(procs := map[0 := Handler(0, false, Start)], nextPid := 1, m := Stopping(RecSetPid(0, 0)));
    Go(ONE, s, MainStep(true, 1), t);
    Go(ONE, t, MainStep(true, 1), Recovering(Start, {}));
  }

  lemma HandlerGoes(s: State, t: State)
    requires Reachable(ONE, s) && 0 in s.procs && s.procs[0].Handler? && !s.procs[0].pc.Wait? && !s.procs[0].pc.TrapWait?
    requires t == HandlerCommand(ONE, s, 0, true, 1)
    ensures Reachable(ONE, t)
  {
    hide Reachable, HandlerCommand;
    Go(ONE, s, HandlerStep(0, true, 1), t);
  }

  /** process 1 compresses, process 0 waits for it. */
  function Compressing(pc: HandlerPc, pending: set<Signal>): State {
    Recovering(pc, pending)
      .(part := map[0 := Partial], nextPid := 2,
        procs := map[0 := Handler(0, false, pc), 1 := Xz(0, false, [7, 8, 9], 3)])
  }

  lemma UpToClean()
    ensures Reachable(ONE, Recovering(Clean, {USR1}))
  {
    hide Reachable;
    UpToHandler();
    IndexOfRawName("raw_", 0);
    hide GetIndex, RawName;
    HandlerGoes(Recovering(Start, {}), Recovering(CheckDest, {}));
    HandlerGoes(Recovering(CheckDest, {}), Recovering(Notify, {}));
    HandlerGoes(Recovering(Notify, {}), Recovering(Clean, {USR1}));
  }

  lemma UpToCompression()
    ensures Reachable(ONE, Compressing(Wait(1), {USR1}))
  {
    hide Reachable;
    UpToClean();
    HandlerGoes(Recovering(Clean, {USR1}), Recovering(Spawn, {USR1}));
    HandlerGoes(Recovering(Spawn, {USR1}), Compressing(Wait(1), {USR1}));
  }

  /** A TERM was handled: the main script is in the immediate mode. */
  function Immediately(pc: MainPc): Script {
    Script(pc, Control(Immediate, SigTerm, Some(EXIT_SIGTERM)), true, 0, None)
  }

  function Terminated(pc: HandlerPc): State {
    Compressing(pc, {USR1}).(m := Immediately(RecWait(0)).(finalGzip := Some(0)))
  }

  /** The first TERM to the handler, sent by the signal handler of the main script: its trap runs. */
  lemma UpToTrap()
    ensures Reachable(ONE, Terminated(TrapWait(1, true)))
  {
    hide Reachable;
    UpToCompression();
    var s := Compressing(Wait(1), {USR1, TERM});
    Go(ONE, Compressing(Wait(1), {USR1}), External(TERM), s);
    Go(ONE, s, Handle(TERM), Terminated(Wait(1)));
    Go(ONE, Terminated(Wait(1)), HandlerTerm(0), Terminated(TrapKill(Some(1), true)));
    HandlerGoes(Terminated(TrapKill(Some(1), true)), Terminated(TrapWait(1, true)));
  }

  /** The second TERM, sent after the interrupted wait, ends the handler; its xz goes on. */
  function Orphaned(m: Script): State {
    Captured(m).(part := map[0 := Partial], nextPid := 2, procs := map[1 := Xz(0, false, [7, 8, 9], 3)],
                 exits := map[0 := EXIT_SIGTERM], orphans := {1}, pending := {USR1})
  }

  lemma UpToOrphan()
    ensures Reachable(ONE, Orphaned(Immediately(RecWait(0)).(finalGzip := Some(0))))
  {
    hide Reachable;
    UpToTrap();
    Go(ONE, Terminated(TrapWait(1, true)), Kill(0, EXIT_SIGTERM), Orphaned(Immediately(RecWait(0)).(finalGzip := Some(0))));
  }

  lemma OrphanStays(m: Script, n: Script)
    requires Reachable(ONE, Orphaned(m)) && !m.pc.RecSpawn? && !m.pc.Cleanup? && !m.pc.Exited?
    requires m.finalGzip == None || (m.finalGzip == Some(0) && m.pc.RecWait?)
    requires n == ScriptCommand(ONE, Orphaned(m), true, 1)
    ensures Reachable(ONE, Orphaned(n))
  {
    hide Reachable, ScriptCommand;
    Go(ONE, Orphaned(m), MainStep(true, 1), Orphaned(n));
  }

  /** The staging directory is deleted although a process that writes to it still runs. */
  lemma WriterLeftAtCleanup()
    ensures exists s :: Reachable(ONE, s) && s.m.pc.Cleanup? && s.procs.Keys == {1} && s.procs[1].Xz? && s.procs[1].left > 0
  {
    hide Reachable;
    UpToOrphan();
    OrphanStays(Immediately(RecWait(0)).(finalGzip := Some(0)), Immediately(RecResult(0, EXIT_SIGTERM)));
    OrphanStays(Immediately(RecResult(0, EXIT_SIGTERM)), Immediately(AfterGraceful));
    OrphanStays(Immediately(AfterGraceful), Immediately(ImmediateReap));
    OrphanStays(Immediately(ImmediateReap), Immediately(ImmediateGroup));
    OrphanStays(Immediately(ImmediateGroup), Immediately(ImmediateFinal));
    OrphanStays(Immediately(ImmediateFinal), Immediately(Cleanup));
    var s := Orphaned(Immediately(Cleanup));
    assert s.procs.Keys == {1};
  }

  // ---------------------------------------------------------------- a published file and code 14

  /** `left` bytes before the end of the compression. */
  function Reading(left: nat): State {
    Compressing(Wait(1), {USR1}).(procs := map[0 := Handler(0, false, Wait(1)), 1 := Xz(0, false, [7, 8, 9], left)])
  }

  lemma UpToRead()
    ensures Reachable(ONE, Reading(0))
  {
    hide Reachable;
    UpToCompression();
    Go(ONE, Reading(3), XzRead(1), Reading(2));
    Go(ONE, Reading(2), XzRead(1), Reading(1));
    Go(ONE, Reading(1), XzRead(1), Reading(0));
  }

  /** xz is done, the handler publishes. */
  function Publishing(pc: HandlerPc): State {
    Recovering(pc, {USR1}).(part := map[0 := Complete([7, 8, 9])], nextPid := 2, exits := map[1 := 0])
  }

  lemma UpToPublish()
    ensures Reachable(ONE, Publishing(Publish))
  {
    hide Reachable;
    UpToRead();
    Go(ONE, Reading(0), XzDone(1), Publishing(Wait(1)));
    Go(ONE, Publishing(Wait(1)), HandlerStep(0, true, 1), Publishing(Publish));
  }

  lemma UpToPublished()
    ensures Reachable(ONE, Published(Stopping(RecWait(0)).(finalGzip := Some(0))))
  {
    hide Reachable;
    UpToPublish();
    var s := Publishing(RemoveRaw).(part := map[], final := map[0 := Complete([7, 8, 9])]);
    HandlerGoes(Publishing(Publish), s);
    HandlerGoes(s, Published(Stopping(RecWait(0)).(finalGzip := Some(0))));
  }

  /** The handler has ended well. */
  function Published(m: Script): State {
    Captured(m).(raw := map[], final := map[0 := Complete([7, 8, 9])], nextPid := 2, exits := map[1 := 0, 0 := 0], pending := {USR1})
  }

  /** A failed compression was recorded. */
  function Failing(pc: MainPc): Script {
    Stopping(pc).(control := Control(Graceful, TcpdumpExit, Some(EXIT_COMPRESSION_ERROR)))
  }

  lemma PublishedStays(m: Script, n: Script, ok: bool)
    requires Reachable(ONE, Published(m)) && !m.pc.RecSpawn? && !m.pc.Cleanup? && !m.pc.Exited? && m.control.mode != Running
    requires m.finalGzip == None || (m.finalGzip == Some(0) && m.pc.RecWait?)
    requires n == ScriptCommand(ONE, Published(m), ok, EXIT_SIGINT)
    ensures Reachable(ONE, Published(n))
  {
    hide Reachable, ScriptCommand;
    Go(ONE, Published(m), MainStep(ok, EXIT_SIGINT), Published(n));
  }

  lemma UpToFailing()
    ensures Reachable(ONE, Published(Failing(Cleanup)))
  {
    hide Reachable;
    UpToPublished();
    PublishedStays(Stopping(RecWait(0)).(finalGzip := Some(0)), Stopping(RecResult(0, EXIT_SIGINT)), false);
    PublishedStays(Stopping(RecResult(0, EXIT_SIGINT)), Failing(RecTop(1)), true);
    PublishedStays(Failing(RecTop(1)), Failing(AfterGraceful), true);
    PublishedStays(Failing(AfterGraceful), Failing(Cleanup), true);
  }

  lemma UpToExit()
    ensures Reachable(ONE, Published(Failing(Exited(Some(EXIT_COMPRESSION_ERROR)))))
  {
    hide Reachable;
    UpToFailing();
    var s := Published(Failing(Exiting));
    Go(ONE, Published(Failing(Cleanup)), MainStep(true, 1), s);
    Go(ONE, s, MainStep(true, 1), Published(Failing(Exited(Some(EXIT_COMPRESSION_ERROR)))));
  }

  lemma FailedWithoutLoss(steps: seq<Step>, s: State)
    requires Run(ONE, Init, steps, s) && s == Published(Failing(Exited(Some(EXIT_COMPRESSION_ERROR))))
    ensures SomeRecoveryFails(ONE, steps) && !(exists i: nat :: Lost(ONE, steps, i))
  {
    hide Run, Lost, SomeRecoveryFails;
    WhenTheCodeIsCompressionError(ONE, steps, s);
    WhenAFileIsMissing(ONE, steps, s);
    CapturedIsWritten(ONE, steps, s);
  }

  /** The exit code is 14 because a recovery failed, and yet every file is published and no file was lost. */
  lemma CompressionErrorWithoutLoss()
    ensures exists steps, s :: Run(ONE, Init, steps, s) && s.m.pc == Exited(Some(EXIT_COMPRESSION_ERROR))
                               && SomeRecoveryFails(ONE, steps) && !(exists i: nat :: Lost(ONE, steps, i))
                               && s.created == ONE.maxFiles && IsComplete(s, s.final, 0)
  {
    hide Run, Lost, SomeRecoveryFails;
    UpToExit();
    var s := Published(Failing(Exited(Some(EXIT_COMPRESSION_ERROR))));
    var steps :| Run(ONE, Init, steps, s);
    FailedWithoutLoss(steps, s);
    assert IsComplete(s, s.final, 0);
  }

  // ---------------------------------------------------------------- a handler started after a TERM

  /** The TERM is handled between the check of the files and the start of the handler. */
  lemma HandlerStartedAfterTerm()
    ensures exists s :: Reachable(ONE, s) && s.m.pc.RecSetPid? && s.m.control.mode == Immediate && s.pending == {}
                        && s.procs == map[0 := Handler(0, false, HandlerPc.Start)]
  {
    hide Reachable;
    UpToRecovery();
    var s := Captured(Stopping(RecSpawn(0)));
    var t := s.(pending := {TERM});
    Go(ONE, s, External(TERM), t);
    var u := Captured(Immediately(RecSpawn(0)));
    Go(ONE, t, Handle(TERM), u);
    var v := u.(procs := map[0 := Handler(0, false, HandlerPc.Start)], nextPid := 1, m := Immediately(RecSetPid(0, 0)));
    Go(ONE, u, MainStep(true, 1), v);
  }
}
