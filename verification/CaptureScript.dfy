/**
 The main script as it is written: functions, loops and trap handlers that update its variables. Before each
 command everything else on the system (tcpdump, handlers, xz, kills, signals) takes its turn of the schedule.
 Every method is proved to make exactly the steps that the turns it has taken make the machine of CaptureModel do,
 so that the theorems about runs hold of the script; when the schedule ends, the script has not come further yet.
 */
module CaptureScript {
  import opened Basics
  import opened CaptureModel
  import opened CaptureInvariant
  import opened CaptureMain
  import opened CaptureFrames
  import opened CaptureTheorems
  import opened CaptureHistory
  import opened CaptureResults
  import opened CaptureSchedule

  /** A signal sent by the main script. */
  datatype Sent = ToTcpdump(sig: Signal) | ToGroup | ToRecovery(p: Pid)

  /** The TERM signals sent to recovery handler `p`, and the TERM signals handled. */
  function TermsTo(sent: seq<Sent>, p: Pid): nat { multiset(sent)[ToRecovery(p)] }

  function TermsHandled(steps: seq<Step>): nat { multiset(steps)[Handle(TERM)] }

  /** TERM to the group if it runs, and to the recovery handler if there is one and it is alive. */
  function StopSignals(s: State, finalGzip: Option<Pid>): seq<Sent> {
    (if GroupRunning(s) then [ToGroup] else [])
    + (if finalGzip.Some? && finalGzip.value in s.procs then [ToRecovery(finalGzip.value)] else [])
  }

  /** What the trap handler of a signal sends: tcpdump gets an INT for an INT and a TERM otherwise. */
  function SignalsFor(sig: Signal, mode: Mode, s: State, finalGzip: Option<Pid>): seq<Sent> {
    if sig == TERM then StopSignals(s, finalGzip)
    else if mode == Immediate || s.td.Stopped? then []
    else [ToTcpdump(if sig == INT then INT else TERM)]
  }

  /**
   Between `before` and `after` one TERM was sent to the group exactly if something of it is alive, one to the
   recovery handler exactly if there is one and it is alive, and nothing else.
   */
  ghost predicate TermSent(before: seq<Sent>, after: seq<Sent>, s: State, finalGzip: Option<Pid>) {
    forall x: Sent ::
      multiset(after)[x] == multiset(before)[x] +
        match x
        case ToGroup => if !s.td.Stopped? || (exists p :: p in s.procs && s.procs[p].inGroup) then 1 else 0
        case ToRecovery(p) => if finalGzip == Some(p) && p in s.procs then 1 else 0
        case ToTcpdump(_) => 0
  }

  /** Tcpdump got one signal `g` exactly if it lives and the mode is not immediate, and nobody got anything else. */
  ghost predicate RequestSent(before: seq<Sent>, after: seq<Sent>, g: Signal, mode: Mode, s: State) {
    forall x: Sent ::
      multiset(after)[x] == multiset(before)[x] + if x == ToTcpdump(g) && !s.td.Stopped? && mode != Immediate then 1 else 0
  }

  lemma StopReachesEverybody(sent: seq<Sent>, s: State, finalGzip: Option<Pid>)
    ensures TermSent(sent, sent + StopSignals(s, finalGzip), s, finalGzip)
  {
    assert GroupRunning(s) <==> !s.td.Stopped? || (exists p :: p in s.procs && s.procs[p].inGroup);
    hide GroupRunning;
  }

  /** What the trap handlers send: TERM to everybody, or one signal to tcpdump, INT for INT and TERM for USR1 and USR2. */
  lemma TrapsSendExactly(sent: seq<Sent>, sig: Signal, mode: Mode, s: State, finalGzip: Option<Pid>)
    ensures var after := sent + SignalsFor(sig, mode, s, finalGzip);
            match sig
            case TERM => TermSent(sent, after, s, finalGzip)
            case INT => RequestSent(sent, after, INT, mode, s)
            case USR1 => RequestSent(sent, after, TERM, mode, s)
            case USR2 => RequestSent(sent, after, TERM, mode, s)
  {
    hide StopSignals, TermSent;
    if sig == TERM { StopReachesEverybody(sent, s, finalGzip); }
  }

  lemma SameToOthers(before: seq<Sent>, after: seq<Sent>, s: State, t: State, finalGzip: Option<Pid>, mode: Mode)
    requires t == s.(pending := t.pending)
    ensures TermSent(before, after, s, finalGzip) == TermSent(before, after, t, finalGzip)
    ensures forall g :: RequestSent(before, after, g, mode, s) == RequestSent(before, after, g, mode, t)
  {}

  lemma TermsAmong(sent: seq<Sent>, sig: Signal, mode: Mode, s: State, finalGzip: Option<Pid>, p: Pid)
    ensures TermsTo(sent + SignalsFor(sig, mode, s, finalGzip), p)
         == TermsTo(sent, p) + if sig == TERM && finalGzip == Some(p) && p in s.procs then 1 else 0
  {
    hide GroupRunning;
  }

  /** A recovery handler that is alive after a step was alive before it. */
  lemma AliveBefore(c: Config, trace: seq<Step>, s: State, step: Step, t: State, p: Pid)
    requires Run(c, Init, trace, s) && Enabled(s, step) && t == Apply(c, s, step)
    requires s.m.finalGzip == Some(p) && p in t.procs
    ensures p in s.procs
  {
    hide Run, Enabled, Apply;
    assert Reachable(c, s) by { InitReaches(c, trace, s); }
    ReachableInv(c, s);
    assert p < s.nextPid by { hide Files, Procs, Unique, Phase, Progress, ControlOk, Pids; }
    hide Recovery, Files, Procs, Unique, Phase, Progress, ControlOk;
    StepKeepsXz(c, s, step, t);
  }

  lemma InitReaches(c: Config, trace: seq<Step>, s: State)
    requires Run(c, Init, trace, s)
    ensures Reachable(c, s)
  {}

  class MainScript {
    const c: Config
    const plan: seq<Turn>          // the whole schedule
    var mode: Mode                 // SHUTDOWN_MODE
    var reason: Reason             // STOP_REASON
    var code: Option<int>          // FINAL_EXIT_CODE
    var tcpdumpReaped: bool
    var tcpdumpRc: int
    var finalGzip: Option<Pid>     // FINAL_GZIP_PID
    var sent: seq<Sent>
    var world: State               // files, processes and pending signals; its script part is not used
    var pc: MainPc                 // where the script is, as the machine names it
    var schedule: seq<Turn>        // what is left of it
    ghost var trace: seq<Step>

    constructor (c: Config, schedule: seq<Turn>)
      ensures this.c == c && plan == this.schedule == schedule && Valid() && pc == MainPc.WaitTcpdump && sent == []
    {
      this.c, plan, this.schedule := c, schedule, schedule;
      mode, reason, code := Running, NoReason, None;
      tcpdumpReaped, tcpdumpRc, finalGzip, sent := false, 0, None, [];
      world, pc, trace := Init, MainPc.WaitTcpdump, [];
    }

    function Control(): Control
      reads this
    {
      CaptureModel.Control(mode, reason, code)
    }

    /** The state of the machine. */
    function Now(): State
      reads this
    {
      world.(m := Script(pc, Control(), tcpdumpReaped, tcpdumpRc, finalGzip))
    }

    /** group_is_running */
    predicate GroupIsRunning()
      reads this
      ensures GroupIsRunning() == GroupRunning(Now())
    {
      GroupRunning(world)
    }

    function Taken(): nat
      reads `schedule
    {
      if |schedule| <= |plan| then |plan| - |schedule| else 0
    }

    predicate OnSchedule()
      reads `schedule
    {
      |schedule| <= |plan| && schedule == plan[Taken()..]
    }

    /** The steps so far are a run of the machine to the present state: the one the turns taken so far lead to. */
    ghost predicate Valid()
      reads this
    {
      && Run(c, Init, trace, Now())
      && OnSchedule() && Course(trace, Now()) == Play(c, TheMain, START, plan[..Taken()])
    }

    /** In the middle of a turn: the others have made their steps, and the main script is in state `s`. */
    ghost predicate MidwayIn(s: State)
      reads `schedule, `trace
    {
      && Run(c, Init, trace, s)
      && OnSchedule() && Taken() > 0 && !Play(c, TheMain, START, plan[..Taken() - 1]).state.m.pc.Exited?
      && Course(trace, s) == OthersDo(c, TheMain, Play(c, TheMain, START, plan[..Taken() - 1]), ThisTurn().steps)
    }

    ghost predicate Midway()
      reads this
    {
      MidwayIn(Now())
    }

    function ThisTurn(): Turn
      requires Taken() > 0
      reads `schedule
    {
      plan[Taken() - 1]
    }

    ghost method Took(before: State, step: Step)
      requires Run(c, Init, trace, before) && Enabled(before, step) && Now() == Apply(c, before, step)
      modifies this`trace
      ensures Run(c, Init, trace, Now()) && trace == old(trace) + [step]
    {
      hide Run, Enabled, Apply;
      trace := trace + [step];
      RunGoesOn(c, Init, old(trace), before, step, Now());
    }

    /** The command of this turn was carried out. */
    ghost method TookMain(before: State, ok: bool, status: int)
      requires MidwayIn(before) && MayGoOn(TheMain, before) && MainStep(ok, status) == Command(TheMain, before, ThisTurn())
      requires Now() == MainCommand(c, before, ok, status)
      modifies this`trace
      ensures Valid()
    {
      CommandIsEnabled(TheMain, before, ThisTurn());
      TurnPlayed(c, TheMain, START, plan, Taken());
      hide Run, Enabled, MainCommand, Play, OthersDo, Command, MayGoOn;
      Took(before, MainStep(ok, status));
    }

    /** A command that is not the end of a wait was carried out. */
    ghost method TookPlain(before: State)
      requires MidwayIn(before) && MayGoOn(TheMain, before) && !before.m.pc.WaitTcpdump? && !before.m.pc.RecWait?
      requires Now() == MainCommand(c, before, true, 1)
      modifies this`trace
      ensures Valid()
    {
      hide MidwayIn, Valid, MayGoOn, MainCommand;
      TookMain(before, true, 1);
    }

    /** The script had to wait in this turn. */
    lemma Waited()
      requires Midway() && !MayGoOn(TheMain, Now())
      ensures Valid()
    {
      TurnPlayed(c, TheMain, START, plan, Taken());
      hide Run, MayGoOn, Play, OthersDo;
    }

    lemma RunSoFar()
      requires Valid() || Midway()
      ensures Run(c, Init, trace, Now())
    {}

    // -------------------------------------------------------------- trap handlers

    method StopTcpdump(sig: Signal)
      modifies this`sent
      ensures sent == old(sent) + (if world.td.Stopped? then [] else [ToTcpdump(sig)])
    {
      if !world.td.Stopped? {
        sent := sent + [ToTcpdump(sig)];
      }
    }

    method StopProcessGroup()
      modifies this`sent
      ensures sent == old(sent) + StopSignals(world, finalGzip)
      ensures TermSent(old(sent), sent, world, finalGzip)
    {
      hide TermSent;
      StopReachesEverybody(sent, world, finalGzip);
      if GroupRunning(world) {
        sent := sent + [ToGroup];
      }
      if finalGzip.Some? && finalGzip.value in world.procs {
        sent := sent + [ToRecovery(finalGzip.value)];
      }
    }

    method RequestGraceful(reason: Reason, sig: Signal, code: int)
      modifies this`mode, this`reason, this`code, this`sent
      ensures Control() == CaptureModel.RequestGraceful(old(Control()), reason, code)
      ensures sent == old(sent) + (if old(mode) == Immediate || world.td.Stopped? then [] else [ToTcpdump(sig)])
    {
      if mode == Immediate {
        return;
      }
      if mode == Running {
        mode, this.reason, this.code := Graceful, reason, Some(code);
      }
      StopTcpdump(sig);
    }

    method RequestImmediate(reason: Reason, code: int)
      modifies this`mode, this`reason, this`code, this`sent
      ensures Control() == CaptureModel.Control(Immediate, reason, Some(code))
      ensures sent == old(sent) + StopSignals(world, finalGzip)
      ensures TermSent(old(sent), sent, world, finalGzip)
    {
      hide StopSignals, TermSent;
      mode, this.reason, this.code := Immediate, reason, Some(code);
      StopProcessGroup();
    }

    /** sigint_handle, sigterm_handle, max_files_handle and low_disk_handle. */
    method RunHandler(sig: Signal)
      modifies this`mode, this`reason, this`code, this`sent
      ensures Control() == OnSignal(old(Control()), sig)
      ensures sent == old(sent) + SignalsFor(sig, old(mode), world, finalGzip)
    {
      match sig {
        case INT => RequestGraceful(SigInt, INT, EXIT_SIGINT);
        case TERM => RequestImmediate(SigTerm, EXIT_SIGTERM);
        case USR1 => RequestGraceful(MaxFiles, TERM, EXIT_OK);
        case USR2 => RequestGraceful(LowDisk, TERM, EXIT_LOW_DISK);
      }
    }

    /** The trap handler of a pending signal runs. */
    method Trap(sig: Signal)
      requires Run(c, Init, trace, Now()) && Enabled(Now(), Handle(sig))
      modifies this`mode, this`reason, this`code, this`sent, this`world, this`trace
      ensures Run(c, Init, trace, Now()) && trace == old(trace) + [Handle(sig)] && Now() == Apply(c, old(Now()), Handle(sig))
      ensures sent == old(sent) + SignalsFor(sig, old(mode), old(world), finalGzip)
      ensures match sig
              case TERM => TermSent(old(sent), sent, world, finalGzip)
              case INT => RequestSent(old(sent), sent, INT, old(mode), world)
              case USR1 => RequestSent(old(sent), sent, TERM, old(mode), world)
              case USR2 => RequestSent(old(sent), sent, TERM, old(mode), world)
    {
      hide TermSent, RequestSent, SignalsFor;
      TrapsSendExactly(sent, sig, mode, world, finalGzip);
      SameToOthers(sent, sent + SignalsFor(sig, mode, world, finalGzip), world, world.(pending := world.pending - {sig}), finalGzip, mode);
      ghost var before := Now();
      HandleChanges(c, before, sig, Apply(c, before, Handle(sig)));
      hide Run, Enabled, Apply, OnSignal, SignalsFor;
      RunHandler(sig);
      world := world.(pending := world.pending - {sig});
      Took(before, Handle(sig));
    }

    // -------------------------------------------------------------- the rest of the system

    /** One step of the others, if it is possible; a pending signal runs its trap handler. */
    method Other(step: Step)
      requires Run(c, Init, trace, Now())
      modifies this`mode, this`reason, this`code, this`sent, this`world, this`trace
      ensures Run(c, Init, trace, Now()) && SignalsCounted()
      ensures Course(trace, Now()) == OneOther(c, TheMain, old(Course(trace, Now())), step)
      ensures sent == old(sent) + if step.Handle? && old(Enabled(Now(), step))
                                  then SignalsFor(step.sig, old(mode), old(world), finalGzip) else []
    {
      hide Run, Apply, TermsTo, SignalsFor;
      if !step.MainStep? && Enabled(Now(), step) {
        ghost var before := Now();
        if step.Handle? {
          Trap(step.sig);
          if finalGzip.Some? { TermsAmong(old(sent), step.sig, old(mode), old(world), finalGzip, finalGzip.value); }
        } else {
          OthersKeepScript(c, before, step, Apply(c, before, step));
          hide Enabled;
          world := Apply(c, Now(), step);
          Took(before, step);
        }
        OneStepCounts(old(trace), step);
        if finalGzip.Some? && finalGzip.value in world.procs { AliveBefore(c, old(trace), before, step, Now(), finalGzip.value); }
      }
    }

    /**
     A recovery handler that is still alive was alive all the time, and got one TERM for each TERM that was handled.
     */
    twostate predicate SignalsCounted()
      reads this
    {
      old(trace) <= trace && old(sent) <= sent
      && (finalGzip == old(finalGzip) && finalGzip.Some? && finalGzip.value in world.procs ==>
            && finalGzip.value in old(world).procs
            && TermsTo(sent, finalGzip.value) == TermsTo(old(sent), finalGzip.value) + TermsHandled(trace[|old(trace)|..]))
    }

    /** The others take their steps. */
    method Others(steps: seq<Step>)
      requires Run(c, Init, trace, Now())
      modifies this`mode, this`reason, this`code, this`sent, this`world, this`trace
      ensures Run(c, Init, trace, Now()) && SignalsCounted()
      ensures Course(trace, Now()) == OthersDo(c, TheMain, old(Course(trace, Now())), steps)
    {
      assert trace[|trace|..] == [];
      for n := 0 to |steps|
        invariant Run(c, Init, trace, Now()) && SignalsCounted()
        invariant Course(trace, Now()) == OthersDo(c, TheMain, old(Course(trace, Now())), steps[..n])
      {
        hide Run, TermsTo, TermsHandled, OneOther, OthersDo;
        ghost var middle := trace;
        OneMoreStep(c, TheMain, old(Course(trace, Now())), steps, n);
        Other(steps[n]);
        HandledInParts(old(trace), middle, trace);
      }
      assert steps[..|steps|] == steps;
    }

    // -------------------------------------------------------------- commands

    /** The next turn of the others, if the schedule has one. */
    method NextTurn() returns (more: bool, turn: Turn)
      requires Valid() && !pc.Exited?
      modifies this`mode, this`reason, this`code, this`sent, this`world, this`trace, this`schedule
      ensures SignalsCounted() && (more <==> old(schedule) != [])
      ensures if more then Midway() && turn == ThisTurn() && |schedule| < |old(schedule)| else Valid() && schedule == []
    {
      hide Run, Play, OthersDo, TermsTo;
      if |schedule| == 0 {
        assert trace[|trace|..] == [];
        return false, Turn([], true, 0);
      }
      turn := PopTurn();
      Others(turn.steps);
      return true, turn;
    }

    method PopTurn() returns (turn: Turn)
      requires OnSchedule() && schedule != []
      modifies this`schedule
      ensures OnSchedule() && Taken() == old(Taken()) + 1 && turn == ThisTurn() && |schedule| == |old(schedule)| - 1
    {
      turn, schedule := schedule[0], schedule[1..];
    }

    method Meanwhile() returns (more: bool)
      requires Valid() && !pc.Exited?
      modifies this`mode, this`reason, this`code, this`sent, this`world, this`trace, this`schedule
      ensures old(sent) <= sent && (more <==> old(schedule) != [])
      ensures if more then Midway() && |schedule| < |old(schedule)| else Valid() && schedule == []
    {
      hide Run, Valid, Midway;
      var turn;
      more, turn := NextTurn();
    }

    /** A command that only decides where to go on. */
    method Goto(next: MainPc)
      requires Midway() && Decides(pc) && (Prompt(pc) || MayGoOn(TheMain, Now())) && next == NextPc(c, Now())
      modifies this`pc, this`trace
      ensures Valid() && pc == next
    {
      hide MidwayIn, Valid, Enabled, NextPc, MainCommand, MayGoOn, Play, OthersDo, Run;
      ghost var before := Now();
      DecidedCommand(c, before);
      if Prompt(pc) { MayStep(before); }
      pc := next;
      TookPlain(before);
    }

    // -------------------------------------------------------------- waiting for tcpdump

    /** wait_tcpdump, called at the end of the capture and from both ways to finish. */
    method WaitTcpdump() returns (done: bool)
      requires Valid() && (pc.WaitTcpdump? || pc.GracefulReap? || pc.ImmediateReap?) && (pc.WaitTcpdump? <==> !tcpdumpReaped)
      modifies this`mode, this`reason, this`code, this`sent, this`world, this`trace, this`schedule, this`pc
      modifies this`tcpdumpReaped, this`tcpdumpRc
      ensures Valid() && |schedule| <= |old(schedule)| && old(sent) <= sent
      ensures done ==> pc == AfterReap(old(pc)) && tcpdumpReaped
      ensures !done ==> schedule == [] && !pc.Exited? && (old(schedule) != [] ==> !world.td.Stopped?)
    {
      hide Valid, Midway;
      if tcpdumpReaped {
        done := Meanwhile();
        if done {
          TakeReaped();
        }
        return;
      }
      while |schedule| > 0
        invariant Valid() && |schedule| <= |old(schedule)| && old(sent) <= sent && pc.WaitTcpdump? && !tcpdumpReaped
        invariant schedule == old(schedule) || !world.td.Stopped?
        decreases |schedule|
      {
        var _, turn := NextTurn();
        if !world.td.Stopped? {
          NotYetStopped(Now());
          Waited();
          continue;
        }
        TakeTcpdump(turn);
        return true;
      }
      return false;
    }

    method TakeReaped()
      requires Midway() && (pc.GracefulReap? || pc.ImmediateReap?) && tcpdumpReaped
      modifies this`pc, this`trace
      ensures Valid() && pc == AfterReap(old(pc))
    {
      hide MidwayIn, Valid, MayGoOn, MainCommand, Enabled, Play, OthersDo, Run;
      ghost var before := Now();
      ReapShape(c, before, true, 1);
      MayReap(before);
      pc := AfterReap(pc);
      TookPlain(before);
    }

    method TakeTcpdump(turn: Turn)
      requires Midway() && turn == ThisTurn() && pc.WaitTcpdump? && world.td.Stopped?
      modifies this`pc, this`trace, this`tcpdumpReaped, this`tcpdumpRc
      ensures Valid() && pc == Decide && tcpdumpReaped
      ensures tcpdumpRc == if turn.ok || turn.status == 0 || mode == Running then world.td.status else turn.status
    {
      hide MidwayIn, Valid, MayGoOn, MainCommand, Enabled, Command, Play, OthersDo, Run;
      ghost var before := Now();
      var ok := turn.ok || turn.status == 0 || mode == Running;
      ReapCommand(c, before, ok, turn.status);
      MayReap(before);
      EndOfWait(before, turn);
      var rc := if ok then world.td.status else turn.status;
      pc, tcpdumpReaped, tcpdumpRc := Decide, true, rc;
      assert Now() == before.(m := before.m.(pc := Decide, reaped := true, tcpdumpRc := rc));
      hide AfterReap;
      TookMain(before, ok, turn.status);
    }

    // -------------------------------------------------------------- waiting for the group

    method WaitPostrotateProcesses() returns (done: bool, ok: bool)
      requires Valid() && pc.WaitGroup?
      modifies this`mode, this`reason, this`code, this`sent, this`world, this`trace, this`schedule, this`pc
      ensures Valid() && |schedule| <= |old(schedule)| && old(sent) <= sent
      ensures done ==> pc == if ok then AfterGroup else AfterGraceful
      ensures !done ==> schedule == [] && !pc.Exited? && (old(schedule) != [] ==> GroupIsRunning() && mode != Immediate)
      ensures done && !ok ==> mode == Immediate
    {
      hide Valid, Midway, NextPc, GroupRunning, MayGoOn;
      while |schedule| > 0
        invariant Valid() && |schedule| <= |old(schedule)| && old(sent) <= sent && pc.WaitGroup?
        invariant schedule == old(schedule) || (GroupIsRunning() && mode != Immediate)
        decreases |schedule|
      {
        var _ := Meanwhile();
        GroupDecides(c, Now());
        if !GroupIsRunning() {
          Goto(AfterGroup);
          return true, true;
        }
        if mode == Immediate {
          Goto(AfterGraceful);
          return true, false;
        }
        Waited();
      }
      return false, false;
    }

    // -------------------------------------------------------------- recovery

    /** The start of the handler and the assignment of FINAL_GZIP_PID. */
    method StartHandler()
      requires Midway() && pc.RecSpawn?
      modifies this`world, this`pc, this`trace
      ensures Valid() && pc == RecSetPid(old(pc).i, old(world).nextPid)
      ensures world.procs == old(world).procs[old(world).nextPid := Handler(old(pc).i, false, Start)]
    {
      hide MidwayIn, Valid, MayGoOn, MainCommand, MainLeaves, Enabled, Play, OthersDo, Run;
      ghost var before := Now();
      SpawnStep(c, before, true, 1, MainCommand(c, before, true, 1));
      MayStep(before);
      pc := RecSetPid(pc.i, world.nextPid);
      world := Launch(world, Handler(pc.i, false, Start));
      TookPlain(before);
    }

    method NotePid()
      requires Midway() && pc.RecSetPid?
      modifies this`pc, this`trace, this`finalGzip
      ensures Valid() && pc == RecWait(old(pc).i) && finalGzip == Some(old(pc).pid)
    {
      hide MidwayIn, Valid, MayGoOn, MainCommand, Enabled, Play, OthersDo, Run;
      ghost var before := Now();
      SetPidCommand(c, before);
      MayStep(before);
      finalGzip := Some(pc.pid);
      pc := RecWait(pc.i);
      TookPlain(before);
    }

    /**
     One round of the wait for the recovery handler. If the handler is still alive, it got one TERM for each TERM
     handled meanwhile, and another one if the mode is immediate by now: so a TERM handled meanwhile reaches it
     twice.
     */
    method WaitRound() returns (more: bool, alive: bool, turn: Turn)
      requires Valid() && pc.RecWait? && finalGzip.Some?
      modifies this`mode, this`reason, this`code, this`sent, this`world, this`trace, this`schedule
      ensures old(trace) <= trace && old(sent) <= sent && (more <==> old(schedule) != [])
      ensures if more then |schedule| < |old(schedule)| else schedule == []
      ensures if more && !alive then Midway() && turn == ThisTurn() else Valid()
      ensures more ==> alive == (finalGzip.value in world.procs)
      ensures more && alive ==>
                && finalGzip.value in old(world).procs
                && TermsTo(sent, finalGzip.value)
                == TermsTo(old(sent), finalGzip.value) + TermsHandled(trace[|old(trace)|..]) + (if mode == Immediate then 1 else 0)
      ensures more && alive && Handle(TERM) in trace[|old(trace)|..] ==>
                TermsTo(sent, finalGzip.value) >= TermsTo(old(sent), finalGzip.value) + 2
    {
      hide Run, TermsTo, Play, OthersDo;
      more, turn := NextTurn();
      alive := finalGzip.value in world.procs;
      if more && alive {
        if Handle(TERM) in trace[|old(trace)|..] {
          assert Handle(TERM) in trace by { assert trace == trace[..|old(trace)|] + trace[|old(trace)|..]; }
          SignalsDecideTheReason(c, trace, Now());
        }
        if mode == Immediate {
          OneMoreTerm(sent, finalGzip.value);
          sent := sent + [ToRecovery(finalGzip.value)];
        }
        StillWaiting(Now());
        Waited();
      }
    }

    method TakeResult(turn: Turn) returns (rc: int)
      requires Midway() && turn == ThisTurn() && pc.RecWait? && finalGzip.Some? && finalGzip.value !in world.procs
      modifies this`pc, this`trace, this`finalGzip
      ensures Valid() && pc == RecResult(old(pc).i, rc) && finalGzip == None
      ensures rc == if (turn.ok || turn.status == 0 || mode == Running) && old(finalGzip).value in world.exits
                    then world.exits[old(finalGzip).value] else turn.status
    {
      hide MidwayIn, Valid, MayGoOn, MainCommand, Enabled, Command, Play, OthersDo, Run;
      ghost var before := Now();
      var ok := turn.ok || turn.status == 0 || mode == Running;
      WaitCommand(c, before, ok, turn.status);
      MayTakeResult(before);
      EndOfWait(before, turn);
      rc := if ok && finalGzip.value in world.exits then world.exits[finalGzip.value] else turn.status;
      finalGzip := None;
      pc := RecResult(pc.i, rc);
      TookMain(before, ok, turn.status);
    }

    method RunGzipHandler() returns (done: bool, rc: int)
      requires Valid() && pc.RecSpawn?
      modifies this`mode, this`reason, this`code, this`sent, this`world, this`trace, this`schedule, this`pc, this`finalGzip
      ensures Valid() && |schedule| <= |old(schedule)| && old(sent) <= sent
      ensures done ==> pc == RecResult(old(pc).i, rc) && finalGzip == None
      ensures !done ==> schedule == [] && !pc.Exited?
    {
      hide Valid, Midway, TermsTo, TermsHandled;
      var more := Meanwhile();
      if !more {
        return false, 0;
      }
      StartHandler();
      more := Meanwhile();
      if !more {
        return false, 0;
      }
      NotePid();
      done, rc := WaitHandler();
    }

    /** The loop of run_gzip_handler. */
    method WaitHandler() returns (done: bool, rc: int)
      requires Valid() && pc.RecWait? && finalGzip.Some?
      modifies this`mode, this`reason, this`code, this`sent, this`world, this`trace, this`schedule, this`pc, this`finalGzip
      ensures Valid() && |schedule| <= |old(schedule)| && old(sent) <= sent
      ensures done ==> pc == RecResult(old(pc).i, rc) && finalGzip == None
      ensures !done ==> schedule == [] && !pc.Exited? && (old(schedule) != [] ==> finalGzip.Some? && finalGzip.value in world.procs)
    {
      hide Valid, Midway, TermsTo, TermsHandled;
      while |schedule| > 0
        invariant Valid() && |schedule| <= |old(schedule)| && old(sent) <= sent && pc == RecWait(old(pc).i) && finalGzip.Some?
        invariant schedule == old(schedule) || finalGzip.value in world.procs
        decreases |schedule|
      {
        var _, alive, turn := WaitRound();
        if alive {
          continue;
        }
        rc := TakeResult(turn);
        return true, rc;
      }
      return false, 0;
    }

    /** The lines after run_gzip_handler; `done` says that the loop ends here. */
    method NoteResult() returns (done: bool)
      requires Midway() && pc.RecResult?
      modifies this`pc, this`trace, this`code
      ensures Valid()
      ensures pc == if done then AfterGraceful else RecTop(old(pc).i + 1)
      ensures done <==> old(pc).rc != 0 && mode == Immediate
      ensures code == if !done && old(pc).rc != 0 then Some(EXIT_COMPRESSION_ERROR) else old(code)
    {
      hide MidwayIn, Valid;
      if pc.rc != 0 {
        if mode == Immediate {
          StopRecovery();
          return true;
        }
        NoteFailure();
        return false;
      }
      NextIndex();
      return false;
    }

    method StopRecovery()
      requires Midway() && pc.RecResult? && pc.rc != 0 && mode == Immediate
      modifies this`pc, this`trace
      ensures Valid() && pc == AfterGraceful
    {
      hide MidwayIn, Valid, MayGoOn, MainCommand, Enabled, Play, OthersDo, Run;
      ghost var before := Now();
      ResultCommand(c, before);
      MayStep(before);
      pc := AfterGraceful;
      TookPlain(before);
    }

    method NextIndex()
      requires Midway() && pc.RecResult? && pc.rc == 0
      modifies this`pc, this`trace
      ensures Valid() && pc == RecTop(old(pc).i + 1)
    {
      hide MidwayIn, Valid, MayGoOn, MainCommand, Enabled, Play, OthersDo, Run;
      ghost var before := Now();
      ResultCommand(c, before);
      MayStep(before);
      pc := RecTop(pc.i + 1);
      TookPlain(before);
    }

    method NoteFailure()
      requires Midway() && pc.RecResult? && pc.rc != 0 && mode != Immediate
      modifies this`pc, this`trace, this`code
      ensures Valid() && pc == RecTop(old(pc).i + 1) && code == Some(EXIT_COMPRESSION_ERROR)
    {
      hide MidwayIn, Valid, MayGoOn, MainCommand, Enabled, Play, OthersDo, Run;
      ghost var before := Now();
      ResultCommand(c, before);
      MayStep(before);
      code := Some(EXIT_COMPRESSION_ERROR);
      pc := RecTop(pc.i + 1);
      TookPlain(before);
    }

    /** One round of the recovery loop, once its test let index `i` pass. */
    method RecoverFile() returns (done: bool, last: bool)
      requires Valid() && pc.RecCheck?
      modifies this`mode, this`reason, this`code, this`sent, this`world, this`trace, this`schedule, this`pc, this`finalGzip
      ensures Valid() && |schedule| <= |old(schedule)| && old(sent) <= sent
      ensures done ==> pc == if last then AfterGraceful else RecTop(old(pc).i + 1)
      ensures !done ==> schedule == [] && !pc.Exited?
    {
      hide Valid, Midway, Enabled;
      var more := Meanwhile();
      if !more {
        return false, false;
      }
      if pc.i !in world.raw || pc.i in world.final {
        Goto(RecTop(pc.i + 1));
        return true, false;
      }
      Goto(RecSpawn(pc.i));
      done, last := CompressRemaining();
    }

    /** Recovery of one file. */
    method CompressRemaining() returns (done: bool, last: bool)
      requires Valid() && pc.RecSpawn?
      modifies this`mode, this`reason, this`code, this`sent, this`world, this`trace, this`schedule, this`pc, this`finalGzip
      ensures Valid() && |schedule| <= |old(schedule)| && old(sent) <= sent
      ensures done ==> pc == if last then AfterGraceful else RecTop(old(pc).i + 1)
      ensures !done ==> schedule == [] && !pc.Exited?
    {
      hide Valid, Midway, Enabled;
      var rc;
      done, rc := RunGzipHandler();
      if !done {
        return false, false;
      }
      done := Meanwhile();
      if !done {
        return false, false;
      }
      last := NoteResult();
    }

    method RecoverFiles() returns (done: bool)
      requires Valid() && pc == RecTop(0)
      modifies this`mode, this`reason, this`code, this`sent, this`world, this`trace, this`schedule, this`pc, this`finalGzip
      ensures Valid() && |schedule| <= |old(schedule)| && old(sent) <= sent
      ensures done ==> pc == AfterGraceful
      ensures !done ==> schedule == [] && !pc.Exited?
    {
      hide Valid, Midway, Enabled;
      var i: nat := 0;
      while i < c.maxFiles
        invariant Valid() && |schedule| <= |old(schedule)| && old(sent) <= sent && pc == RecTop(i)
        decreases c.maxFiles - i
      {
        var more := Meanwhile();
        if !more {
          return false;
        }
        if mode == Immediate {
          Goto(AfterGraceful);
          return true;
        }
        Goto(RecCheck(i));
        var last;
        done, last := RecoverFile();
        if !done || last {
          return;
        }
        i := i + 1;
      }
      done := Meanwhile();
      if done {
        Goto(AfterGraceful);
      }
    }

    // -------------------------------------------------------------- finishing

    method GracefulFinish() returns (done: bool)
      requires Valid() && pc == GracefulReap && tcpdumpReaped
      modifies this
      ensures Valid() && |schedule| <= |old(schedule)|
      // first of all a live tcpdump gets a TERM
      ensures old(sent) + (if old(world).td.Stopped? then [] else [ToTcpdump(TERM)]) <= sent
      ensures done ==> pc == AfterGraceful
      ensures !done ==> schedule == [] && !pc.Exited?
    {
      hide Run, Play, OthersDo;
      StopTcpdump(TERM);
      done := AwaitAndRecover();
    }

    /** graceful_finish after stop_tcpdump. */
    method AwaitAndRecover() returns (done: bool)
      requires Valid() && pc == GracefulReap && tcpdumpReaped
      modifies this
      ensures Valid() && |schedule| <= |old(schedule)| && old(sent) <= sent
      ensures done ==> pc == AfterGraceful
      ensures !done ==> schedule == [] && !pc.Exited?
    {
      hide Valid, Midway;
      done := WaitTcpdump();
      if !done {
        return;
      }
      var ok;
      done, ok := WaitPostrotateProcesses();
      if done && ok {
        done := FinishCompression();
      }
    }

    /** The rest of graceful_finish, once the group is empty. */
    method FinishCompression() returns (done: bool)
      requires Valid() && pc == AfterGroup
      modifies this
      ensures Valid() && |schedule| <= |old(schedule)| && old(sent) <= sent
      ensures done ==> pc == AfterGraceful
      ensures !done ==> schedule == [] && !pc.Exited?
    {
      hide Valid, Midway, Enabled;
      done := Meanwhile();
      if !done {
        return;
      }
      if mode == Immediate {
        Goto(AfterGraceful);
        return;
      }
      Goto(CheckLowDisk);
      done := FinishRecovery();
    }

    method FinishRecovery() returns (done: bool)
      requires Valid() && pc == CheckLowDisk
      modifies this
      ensures Valid() && |schedule| <= |old(schedule)| && old(sent) <= sent
      ensures done ==> pc == AfterGraceful
      ensures !done ==> schedule == [] && !pc.Exited?
    {
      hide Valid, Midway, Enabled;
      done := Meanwhile();
      if !done {
        return;
      }
      if reason == LowDisk {
        Goto(AfterGraceful);
        return;
      }
      Goto(RecTop(0));
      done := RecoverFiles();
    }

    method ImmediateFinish() returns (done: bool)
      requires Valid() && pc == ImmediateReap && tcpdumpReaped
      modifies this
      ensures Valid() && |schedule| <= |old(schedule)|
      // first of all the group and a live recovery handler get a TERM
      ensures exists n :: 0 <= n <= |sent| && old(sent) <= sent[..n] && TermSent(old(sent), sent[..n], old(world), old(finalGzip))
      ensures done ==> pc == Cleanup
      ensures !done ==> schedule == [] && !pc.Exited?
    {
      hide TermSent, StopSignals, Run, Play, OthersDo;
      StopProcessGroup();
      ghost var first := sent;
      done := AwaitAll();
      assert sent[..|first|] == first;
    }

    /** immediate_finish after stop_process_group. */
    method AwaitAll() returns (done: bool)
      requires Valid() && pc == ImmediateReap && tcpdumpReaped
      modifies this
      ensures Valid() && |schedule| <= |old(schedule)| && old(sent) <= sent
      ensures done ==> pc == Cleanup
      ensures !done ==> schedule == [] && !pc.Exited?
    {
      hide Valid, Midway;
      done := WaitTcpdump();
      if !done {
        return;
      }
      done := WaitImmediateGroup();
      if done {
        done := WaitFinal();
      }
    }

    /** The wait for a recovery handler at the end of immediate_finish. */
    method WaitFinal() returns (done: bool)
      requires Valid() && pc == ImmediateFinal
      modifies this
      ensures Valid() && |schedule| <= |old(schedule)| && old(sent) <= sent
      ensures done ==> pc == Cleanup
      ensures !done ==> schedule == [] && !pc.Exited?
    {
      hide Valid, Midway;
      while |schedule| > 0
        invariant Valid() && |schedule| <= |old(schedule)| && old(sent) <= sent && pc == ImmediateFinal
        decreases |schedule|
      {
        var _ := Meanwhile();
        if finalGzip.Some? && finalGzip.value in world.procs {
          StillWaiting(Now());
          Waited();
          continue;
        }
        ForgetHandler();
        return true;
      }
      return false;
    }

    /** The loop of immediate_finish. */
    method WaitImmediateGroup() returns (done: bool)
      requires Valid() && pc == ImmediateGroup
      modifies this`mode, this`reason, this`code, this`sent, this`world, this`trace, this`schedule, this`pc
      ensures Valid() && |schedule| <= |old(schedule)| && old(sent) <= sent
      ensures done ==> pc == ImmediateFinal
      ensures !done ==> schedule == [] && !pc.Exited? && (old(schedule) != [] ==> GroupIsRunning())
    {
      hide Valid, Midway, NextPc, GroupRunning, MayGoOn;
      while |schedule| > 0
        invariant Valid() && |schedule| <= |old(schedule)| && old(sent) <= sent && pc == ImmediateGroup
        invariant schedule == old(schedule) || GroupIsRunning()
        decreases |schedule|
      {
        var _ := Meanwhile();
        GroupDecides(c, Now());
        if !GroupIsRunning() {
          Goto(ImmediateFinal);
          return true;
        }
        Waited();
      }
      return false;
    }

    method ForgetHandler()
      requires Midway() && pc == ImmediateFinal && (finalGzip.Some? ==> finalGzip.value !in world.procs)
      modifies this`pc, this`finalGzip, this`trace
      ensures Valid() && pc == Cleanup
    {
      hide MidwayIn, Valid, MayGoOn, MainCommand, Enabled, Play, OthersDo, Run;
      ghost var before := Now();
      FinalCommand(c, before);
      finalGzip := None;
      pc := Cleanup;
      TookPlain(before);
    }

    // -------------------------------------------------------------- the end

    /** The first lines of exit_handle, entered with status `rc`. */
    method EnterExit()
      requires Midway() && pc == ExitTrap
      modifies this`mode, this`reason, this`code, this`pc, this`trace
      ensures Valid() && pc == Branch && Control() == OnExitTrap(old(Control()), tcpdumpRc)
    {
      hide MidwayIn, Valid, MayGoOn, MainCommand, Enabled, Play, OthersDo, Run;
      ghost var before := Now();
      ExitCommands(c, before);
      MayStep(before);
      if code == None {
        code := Some(tcpdumpRc);
      }
      if mode == Running {
        mode, reason := Graceful, ScriptExit;
      }
      pc := Branch;
      TookPlain(before);
    }

    method CleanupDumpDir()
      requires Midway() && pc == Cleanup
      modifies this`world, this`pc, this`trace
      ensures Valid() && pc == Exiting && world.raw == map[] && world.part == map[]
    {
      hide MidwayIn, Valid, MayGoOn, MainCommand, Enabled, MainLeaves, Play, OthersDo, Run;
      ghost var before := Now();
      CleanupStep(c, before, true, 1, MainCommand(c, before, true, 1));
      MayStep(before);
      world := world.(raw := map[], part := map[]);
      pc := Exiting;
      TookPlain(before);
    }

    method Exit()
      requires Midway() && pc == Exiting
      modifies this`pc, this`trace
      ensures Valid() && pc == Exited(code)
    {
      hide MidwayIn, Valid, MayGoOn, MainCommand, Enabled, Play, OthersDo, Run;
      ghost var before := Now();
      ExitCommands(c, before);
      MayStep(before);
      pc := Exited(code);
      TookPlain(before);
    }

    /** exit_handle, up to the decision how to finish and from the deletion of the staging directory on. */
    method ExitHandle() returns (done: bool)
      requires Valid() && pc == ExitTrap && tcpdumpReaped
      modifies this
      ensures Valid() && |schedule| <= |old(schedule)|
      ensures done ==> pc == Exited(code)
      ensures !done ==> schedule == [] && !pc.Exited?
    {
      hide Valid, Midway, Enabled;
      done := Meanwhile();
      if !done {
        return;
      }
      EnterExit();
      done := Finish();
      if done {
        done := Leave();
      }
    }

    /** The deletion of the staging directory and the exit. */
    method Leave() returns (done: bool)
      requires Valid() && pc == Cleanup
      modifies this
      ensures Valid() && |schedule| <= |old(schedule)|
      ensures done ==> pc == Exited(code)
      ensures !done ==> schedule == [] && !pc.Exited?
    {
      hide Valid, Midway, Enabled;
      done := Meanwhile();
      if !done {
        return;
      }
      CleanupDumpDir();
      done := Meanwhile();
      if !done {
        return;
      }
      Exit();
    }

    method Finish() returns (done: bool)
      requires Valid() && pc == Branch && tcpdumpReaped
      modifies this
      ensures Valid() && |schedule| <= |old(schedule)|
      ensures done ==> pc == Cleanup
      ensures !done ==> schedule == [] && !pc.Exited?
    {
      hide Valid, Midway, Enabled;
      done := Meanwhile();
      if !done {
        return;
      }
      if mode == Immediate {
        Goto(ImmediateReap);
        done := ImmediateFinish();
        return;
      }
      Goto(GracefulReap);
      done := GracefulFinish();
      if !done {
        return;
      }
      done := FinishAgain();
    }

    /** A TERM during the graceful finish turns it into an immediate one. */
    method FinishAgain() returns (done: bool)
      requires Valid() && pc == AfterGraceful
      modifies this
      ensures Valid() && |schedule| <= |old(schedule)|
      ensures done ==> pc == Cleanup
      ensures !done ==> schedule == [] && !pc.Exited?
    {
      hide Valid, Midway, Enabled;
      done := Meanwhile();
      if !done {
        return;
      }
      if mode == Immediate {
        assert tcpdumpReaped by { RunSoFar(); ReapedByThen(c, trace, Now()); }
        Goto(ImmediateReap);
        done := ImmediateFinish();
        return;
      }
      Goto(Cleanup);
    }

    /** The lines after wait_tcpdump at the end of the script. */
    method DecideStatus()
      requires Midway() && pc == Decide
      modifies this`mode, this`reason, this`code, this`pc, this`trace
      ensures Valid() && pc == ExitTrap && Control() == OnTcpdumpExit(old(Control()), tcpdumpRc)
    {
      hide MidwayIn, Valid, MayGoOn, MainCommand, Enabled, Play, OthersDo, Run;
      ghost var before := Now();
      ExitCommands(c, before);
      MayStep(before);
      if mode == Running {
        mode, reason, code := Graceful, TcpdumpExit, Some(tcpdumpRc);
      }
      if code == None {
        code := Some(tcpdumpRc);
      }
      pc := ExitTrap;
      TookPlain(before);
    }

    /** The script from the start of tcpdump to its exit. */
    method RunScript() returns (done: bool)
      requires Valid() && pc == MainPc.WaitTcpdump && !tcpdumpReaped
      modifies this
      ensures Valid() && |schedule| <= |old(schedule)|
      ensures if done then pc == Exited(code) else schedule == [] && !pc.Exited?
    {
      hide Valid, Midway, Enabled;
      done := WaitTcpdump();
      if !done {
        return;
      }
      done := Meanwhile();
      if !done {
        return;
      }
      DecideStatus();
      done := ExitHandle();
    }

    /**
     Whatever the schedule, the script makes exactly the steps that the schedule makes the machine do, and ends where
     the machine ends: it is done if and only if the machine has exited. Then the exit code and the published files
     are those of that run.
     */
    method Capture() returns (done: bool)
      requires Valid() && pc == MainPc.WaitTcpdump && !tcpdumpReaped
      modifies this
      ensures trace == Play(c, TheMain, START, plan).trace && Now() == Play(c, TheMain, START, plan).state
      ensures done <==> Play(c, TheMain, START, plan).state.m.pc.Exited?
      ensures done ==> pc == Exited(code) && world.td.Stopped? && world.raw == map[] && world.part == map[]
      ensures done && mode == Immediate ==> code == Some(143)
      ensures done && mode == Graceful ==>
                code == if SomeRecoveryFails(c, trace) then Some(14)
                        else match reason
                          case SigInt => Some(130)
                          case MaxFiles => Some(0)
                          case LowDisk => Some(15)
                          case _ => Some(world.td.status)
      ensures done && mode == Graceful && reason != LowDisk ==>
                forall i: nat :: i in world.final <==> i < |Written(trace)| && i < c.maxFiles && !Lost(c, trace, i)
    {
      hide Run, Play, MidwayIn, SomeRecoveryFails, Lost, Written;
      done := RunScript();
      if done {
        NothingAfterEnd(c, TheMain, START, plan, Taken());
        RunEnds(c, trace, Now());
      } else {
        assert plan[..|plan|] == plan;
      }
    }
  }

  lemma FinalCommand(c: Config, s: State)
    requires s.m.pc.ImmediateFinal? && (s.m.finalGzip.Some? ==> s.m.finalGzip.value !in s.procs)
    ensures MainCommand(c, s, true, 1) == s.(m := s.m.(finalGzip := None, pc := Cleanup)) && MayGoOn(TheMain, s)
  {
    hide GroupRunning;
  }

  lemma ExitCommands(c: Config, s: State)
    ensures s.m.pc.Decide? ==>
              MainCommand(c, s, true, 1) == s.(m := s.m.(control := OnTcpdumpExit(s.m.control, s.m.tcpdumpRc), pc := ExitTrap))
    ensures s.m.pc.ExitTrap? ==>
              MainCommand(c, s, true, 1) == s.(m := s.m.(control := OnExitTrap(s.m.control, s.m.tcpdumpRc), pc := Branch))
    ensures s.m.pc.Exiting? ==> MainCommand(c, s, true, 1) == s.(m := s.m.(pc := Exited(s.m.control.code)))
  {
    hide OnTcpdumpExit, OnExitTrap;
  }

  lemma ReapedByThen(c: Config, trace: seq<Step>, s: State)
    requires Run(c, Init, trace, s) && s.m.pc.AfterGraceful?
    ensures s.m.reaped
  {
    InitReaches(c, trace, s);
    hide Run;
    ReachableInv(c, s);
    hide Files, Procs, Pids, Unique, Recovery, Progress, ControlOk, GroupRunning;
  }

  /** What the theorems say of a run that has ended. */
  lemma RunEnds(c: Config, trace: seq<Step>, s: State)
    requires Run(c, Init, trace, s) && s.m.pc.Exited?
    ensures s.td.Stopped? && s.raw == map[] && s.part == map[]
    ensures s.m.control.mode == Immediate ==> s.m.control.code == Some(143)
    ensures s.m.control.mode == Graceful ==>
              s.m.control.code == if SomeRecoveryFails(c, trace) then Some(14)
                                  else match s.m.control.reason
                                    case SigInt => Some(130)
                                    case MaxFiles => Some(0)
                                    case LowDisk => Some(15)
                                    case _ => Some(s.td.status)
    ensures s.m.control.mode == Graceful && s.m.control.reason != LowDisk ==>
              forall i: nat :: i in s.final <==> i < |Written(trace)| && i < c.maxFiles && !Lost(c, trace, i)
  {
    InitReaches(c, trace, s);
    hide Run, Lost, SomeRecoveryFails;
    ExitCodeSaysWhy(c, trace, s);
    StagingIsGoneAtExit(c, s);
    if s.m.control.mode == Graceful && s.m.control.reason != LowDisk {
      forall i: nat ensures i in s.final <==> i < |Written(trace)| && i < c.maxFiles && !Lost(c, trace, i) {
        PublishedFilesOfARun(c, trace, s, i);
      }
    }
  }

  lemma DecidedCommand(c: Config, s: State)
    requires Decides(s.m.pc)
    ensures MainCommand(c, s, true, 1) == s.(m := s.m.(pc := NextPc(c, s)))
  {
    hide NextPc, MainLeaves;
    ScriptStep(c, s, true, 1, MainCommand(c, s, true, 1));
    DecidingStep(c, s, true, 1);
    hide MainCommand, ScriptCommand;
  }

  lemma SetPidCommand(c: Config, s: State)
    requires s.m.pc.RecSetPid?
    ensures MainCommand(c, s, true, 1) == s.(m := s.m.(finalGzip := Some(s.m.pc.pid), pc := RecWait(s.m.pc.i)))
  {
    SetPidShape(c, s, true, 1);
    hide ScriptCommand;
  }

  lemma WaitCommand(c: Config, s: State, ok: bool, status: int)
    requires s.m.pc.RecWait? && s.m.finalGzip.Some?
    ensures var rc := if ok && s.m.finalGzip.value in s.exits then s.exits[s.m.finalGzip.value] else status;
            MainCommand(c, s, ok, status) == s.(m := s.m.(finalGzip := None, pc := RecResult(s.m.pc.i, rc)))
  {
    WaitShape(c, s, ok, status);
    hide ScriptCommand;
  }

  lemma ResultCommand(c: Config, s: State)
    requires s.m.pc.RecResult?
    ensures MainCommand(c, s, true, 1)
         == s.(m := s.m.(control := OnRecovered(s.m.control, s.m.pc.rc),
                         pc := if s.m.pc.rc != 0 && s.m.control.mode == Immediate then AfterGraceful else RecTop(s.m.pc.i + 1)))
  {
    ResultShape(c, s, true, 1);
    hide ScriptCommand, OnRecovered;
  }

  /** Program points whose command never waits. */
  predicate Prompt(pc: MainPc) {
    || pc.Decide? || pc.ExitTrap? || pc.Branch? || pc.AfterGroup? || pc.CheckLowDisk? || (InRecovery(pc) && !pc.RecWait?)
    || pc.AfterGraceful? || pc.Cleanup? || pc.Exiting?
  }

  lemma MayStep(s: State)
    requires Prompt(s.m.pc)
    ensures MayGoOn(TheMain, s)
  {
    hide GroupRunning;
  }

  lemma NotYetStopped(s: State)
    requires s.m.pc.WaitTcpdump? && !s.td.Stopped?
    ensures !MayGoOn(TheMain, s)
  {
    hide GroupRunning;
  }

  lemma StillWaiting(s: State)
    requires (s.m.pc.RecWait? || s.m.pc.ImmediateFinal?) && s.m.finalGzip.Some? && s.m.finalGzip.value in s.procs
    ensures !MayGoOn(TheMain, s)
  {
    hide GroupRunning;
  }

  lemma EndOfWait(s: State, turn: Turn)
    requires (s.m.pc.WaitTcpdump? || s.m.pc.RecWait?) && MayGoOn(TheMain, s)
    ensures Command(TheMain, s, turn) == MainStep(turn.ok || turn.status == 0 || s.m.control.mode == Running, turn.status)
  {}

  /** Where the waits for the group lead. */
  lemma GroupDecides(c: Config, s: State)
    ensures s.m.pc.WaitGroup? && !GroupRunning(s) ==> MayGoOn(TheMain, s) && NextPc(c, s) == AfterGroup
    ensures s.m.pc.WaitGroup? && GroupRunning(s) && s.m.control.mode == Immediate ==>
              MayGoOn(TheMain, s) && NextPc(c, s) == AfterGraceful
    ensures s.m.pc.WaitGroup? && GroupRunning(s) && s.m.control.mode != Immediate ==> !MayGoOn(TheMain, s)
    ensures s.m.pc.ImmediateGroup? && !GroupRunning(s) ==> MayGoOn(TheMain, s) && NextPc(c, s) == ImmediateFinal
    ensures s.m.pc.ImmediateGroup? && GroupRunning(s) ==> !MayGoOn(TheMain, s)
  {
    hide GroupRunning;
  }

  lemma MayReap(s: State)
    requires s.m.pc.WaitTcpdump? || s.m.pc.GracefulReap? || s.m.pc.ImmediateReap?
    requires if s.m.pc.WaitTcpdump? then s.td.Stopped? else s.m.reaped
    ensures MayGoOn(TheMain, s)
  {
    hide GroupRunning;
  }

  lemma MayTakeResult(s: State)
    requires s.m.pc.RecWait? && s.m.finalGzip.Some? && s.m.finalGzip.value !in s.procs
    ensures MayGoOn(TheMain, s)
  {
    hide GroupRunning;
  }

  lemma OneMoreTerm(sent: seq<Sent>, p: Pid)
    ensures TermsTo(sent + [ToRecovery(p)], p) == TermsTo(sent, p) + 1
  {}

  /** Where the script goes on after wait_tcpdump. */
  function AfterReap(pc: MainPc): MainPc {
    if pc.WaitTcpdump? then Decide else if pc.GracefulReap? then WaitGroup else ImmediateGroup
  }

  lemma ReapShape(c: Config, s: State, ok: bool, status: int)
    requires s.m.pc.WaitTcpdump? || s.m.pc.GracefulReap? || s.m.pc.ImmediateReap?
    ensures MainCommand(c, s, ok, status)
         == s.(m := s.m.(pc := AfterReap(s.m.pc), reaped := true,
                         tcpdumpRc := if !s.m.pc.WaitTcpdump? then s.m.tcpdumpRc
                                      else if ok && s.td.Stopped? then s.td.status else status))
  {}

  lemma ReapCommand(c: Config, s: State, ok: bool, status: int)
    requires s.m.pc.WaitTcpdump? && s.td.Stopped?
    ensures MainCommand(c, s, ok, status)
         == s.(m := s.m.(pc := Decide, reaped := true, tcpdumpRc := if ok then s.td.status else status))
  {
    ReapShape(c, s, ok, status);
    hide MainCommand;
  }

  lemma OneStepCounts(trace: seq<Step>, step: Step)
    ensures TermsHandled((trace + [step])[|trace|..]) == if step == Handle(TERM) then 1 else 0
  {
    assert (trace + [step])[|trace|..] == [step];
  }

  lemma HandledInParts(a: seq<Step>, b: seq<Step>, c: seq<Step>)
    requires a <= b <= c
    ensures TermsHandled(c[|a|..]) == TermsHandled(b[|a|..]) + TermsHandled(c[|b|..])
  {
    assert c[|a|..] == b[|a|..] + c[|b|..];
  }
}
