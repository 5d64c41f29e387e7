/**
 The compression handler as it is written, in the same way as CaptureScript: before each command everything else
 on the system takes a turn, which may also kill this handler or run its TERM trap. Every method is proved to make
 exactly the steps that the turns taken make the machine do.
 */
module HandlerScript {
  import opened Basics
  import opened CaptureNames
  import opened CaptureModel
  import opened CaptureInvariant
  import opened CaptureFrames
  import opened CaptureTheorems
  import opened CaptureSchedule
  import S = CaptureScript

  /** How a turn of the others leaves the handler: it goes on, runs its TERM trap, is gone, or the schedule has ended. */
  datatype Situation = GoesOn | Trapped | Gone | Over

  /** How the handler ends: with an exit status, killed, or not yet. */
  datatype Outcome = Exits(status: int) | Killed | Unfinished

  /** A signal sent by the handler. */
  datatype Sent = ToMain(sig: Signal) | ToXz(x: Pid)

  // ---------------------------------------------------------------- steps of the others

  /** Handler `p` is untouched by a step of the others, or TERM runs its trap, or it is gone. */
  predicate Untouched(s: State, t: State, p: Pid) {
    s.nextPid <= t.nextPid
    && (p in t.procs ==> p in s.procs
                         && (t.procs[p] == s.procs[p]
                             || (s.procs[p].Handler? && !InTrap(s.procs[p].pc)
                                 && t.procs[p] == s.procs[p].(pc := TrapKill(ChildOf(s.procs[p].pc), TmpSet(s.procs[p].pc))))))
  }

  lemma CommandTouchesOthers(c: Config, s: State, q: Pid, ok: bool, status: int, t: State, p: Pid)
    requires Enabled(s, HandlerStep(q, ok, status)) && t == Apply(c, s, HandlerStep(q, ok, status)) && q != p && p < s.nextPid
    ensures Untouched(s, t, p)
  {
    hide Apply, HandlerCommand, GroupRunning, ChildOf, TmpSet, InTrap;
    CommandApplied(c, s, q, ok, status, t);
  }

  lemma MainTouchesNobody(c: Config, s: State, ok: bool, status: int, t: State, p: Pid)
    requires t == MainCommand(c, s, ok, status) && p < s.nextPid
    ensures Untouched(s, t, p)
  {
    hide MainCommand, ScriptCommand, MainLeaves, ChildOf, TmpSet, InTrap;
    if s.m.pc.RecSpawn? {
      SpawnStep(c, s, ok, status, t);
    } else if s.m.pc.Cleanup? {
      CleanupStep(c, s, ok, status, t);
    } else {
      ScriptStep(c, s, ok, status, t);
    }
  }

  lemma PlainTouchesNobody(c: Config, s: State, step: Step, t: State, p: Pid)
    requires Enabled(s, step) && t == Apply(c, s, step) && p < s.nextPid && !step.HandlerStep? && !step.MainStep?
    requires step.XzRead? ==> p in s.procs ==> s.procs[p].Handler?
    ensures Untouched(s, t, p)
  {
    hide GroupRunning, ChildOf, TmpSet;
  }

  lemma OthersTouch(c: Config, s: State, step: Step, t: State, p: Pid)
    requires Enabled(s, step) && t == Apply(c, s, step) && p < s.nextPid && (step.HandlerStep? ==> step.p != p)
    requires p in s.procs ==> s.procs[p].Handler?
    ensures Untouched(s, t, p)
  {
    hide Untouched, Enabled, HandlerCommand, MainCommand;
    match step
    case HandlerStep(q, ok, status) => hide Apply; CommandTouchesOthers(c, s, q, ok, status, t, p);
    case MainStep(ok, status) => MainTouchesNobody(c, s, ok, status, t, p);
    case _ => hide Apply; PlainTouchesNobody(c, s, step, t, p);
  }

  class Handler {
    const c: Config
    const p: Pid
    const plan: seq<Turn>                 // the whole schedule
    ghost const start: Course             // where the handler starts
    var index: nat                        // INDEX
    var gzipPid: Option<Pid>              // GZIP_PID
    var temporary: bool                   // TMP_COMPRESSED_FILE is set
    var sent: seq<Sent>
    var world: State
    var schedule: seq<Turn>               // what is left of it
    ghost var trace: seq<Step>

    /** Handler process `p` of the state `world` of a run. */
    constructor (c: Config, p: Pid, world: State, schedule: seq<Turn>, ghost trace: seq<Step>)
      requires Run(c, Init, trace, world) && p in world.procs && world.procs[p].Handler? && world.procs[p].pc == Start
      ensures this.c == c && this.p == p && this.world == world && this.trace == trace
      ensures plan == this.schedule == schedule && start == Course(trace, world)
      ensures Valid() && At(Start) && sent == []
    {
      this.c, this.p, this.world, this.schedule, this.trace := c, p, world, schedule, trace;
      plan, start := schedule, Course(trace, world);
      index, gzipPid, temporary, sent := 0, None, false, [];
      new;
      NewestPid(c, trace, world, p);
    }

    predicate At(pc: HandlerPc)
      reads `world
    {
      p in world.procs && world.procs[p].Handler? && world.procs[p].pc == pc
    }

    /** The variables agree with the program point; in the trap they are what they were when it was entered. */
    predicate Linked()
      reads `index, `gzipPid, `temporary, `world
    {
      p in world.procs && world.procs[p].Handler? ==>
        var pc := world.procs[p].pc;
        && (gzipPid == ChildOf(pc) || pc.TrapClean?)
        && (temporary <==> TmpSet(pc) || (pc.TrapKill? && pc.tmp) || (pc.TrapWait? && pc.tmp) || (pc.TrapClean? && pc.tmp))
        && (!pc.Start? && !InTrap(pc) ==> index == world.procs[p].index)
    }

    function Taken(): nat
      reads `schedule
    {
      if |schedule| <= |plan| then |plan| - |schedule| else 0
    }

    predicate OnSchedule()
      reads `schedule
    {
      |schedule| <= |plan| && schedule == plan[Taken()..]
    }

    function ThisTurn(): Turn
      requires Taken() > 0
      reads `schedule
    {
      plan[Taken() - 1]
    }

    /** The machine is in a state of a run, and the variables are what they should be there. */
    ghost predicate Sound()
      reads `index, `gzipPid, `temporary, `world, `trace
    {
      && Run(c, Init, trace, world) && p < world.nextPid && Linked()
      && (p in world.procs ==> world.procs[p].Handler?)
    }

    /** The steps so far are those the turns taken so far lead to. */
    ghost predicate Played()
      reads `schedule, `trace, `world
    {
      OnSchedule() && Course(trace, world) == Play(c, TheHandler(p), start, plan[..Taken()])
    }

    ghost predicate Valid()
      reads this
    {
      Sound() && Played()
    }

    /** In the middle of a turn: the others have made their steps, which led to `s`. */
    ghost predicate MidwayIn(s: State)
      reads `schedule, `trace
    {
      && OnSchedule() && Taken() > 0 && p in Play(c, TheHandler(p), start, plan[..Taken() - 1]).state.procs
      && Course(trace, s) == OthersDo(c, TheHandler(p), Play(c, TheHandler(p), start, plan[..Taken() - 1]), ThisTurn().steps)
    }

    ghost predicate Midway()
      reads this
    {
      Sound() && MidwayIn(world)
    }

    ghost method Took(before: State, step: Step)
      requires Run(c, Init, trace, before) && Enabled(before, step) && world == Apply(c, before, step)
      modifies this`trace
      ensures Run(c, Init, trace, world) && trace == old(trace) + [step]
    {
      hide Run, Enabled, Apply;
      trace := trace + [step];
      RunGoesOn(c, Init, old(trace), before, step, world);
    }

    /** The command of this turn was carried out. */
    ghost method TookCommand(before: State, ok: bool, status: int)
      requires Run(c, Init, trace, before) && MidwayIn(before) && p in before.procs && before.procs[p].Handler?
      requires Idle(before) && world == HandlerCommand(c, before, p, ok, status)
      requires status != 0 && HandlerStep(p, ok, status) == CommandOf(before.procs[p].pc, ThisTurn())
      modifies this`trace
      ensures Run(c, Init, trace, world) && Played()
    {
      IdleMayGoOn(before, ThisTurn());
      TurnPlayed(c, TheHandler(p), start, plan, Taken());
      hide Run, HandlerCommand, GroupRunning, Play, OthersDo, Command, CommandOf, MayGoOn;
      Took(before, HandlerStep(p, ok, status));
    }

    /** The command of this turn at program point `pc`. */
    function CommandOf(pc: HandlerPc, turn: Turn): Step {
      match pc
      case Wait(_) => HandlerStep(p, turn.ok || turn.status == 0, if turn.status == 0 then 1 else turn.status)
      case Publish => HandlerStep(p, turn.ok, 1)
      case RemoveRaw => HandlerStep(p, turn.ok, 1)
      case _ => HandlerStep(p, true, 1)
    }

    lemma IdleMayGoOn(s: State, turn: Turn)
      requires p in s.procs && s.procs[p].Handler? && Idle(s)
      ensures MayGoOn(TheHandler(p), s) && Command(TheHandler(p), s, turn) == CommandOf(s.procs[p].pc, turn)
    {}

    /** The handler had to wait in this turn, or it is gone. */
    lemma Waited()
      requires Midway() && !MayGoOn(TheHandler(p), world)
      ensures Valid()
    {
      TurnPlayed(c, TheHandler(p), start, plan, Taken());
      hide Run, Linked, MayGoOn, Play, OthersDo;
    }

    lemma NotIdle(s: State)
      requires p in s.procs && s.procs[p].Handler? && !Idle(s)
      ensures !MayGoOn(TheHandler(p), s)
    {}

    /** The handler waits for nobody who is still alive. */
    predicate Idle(s: State)
      requires p in s.procs && s.procs[p].Handler?
    {
      && (s.procs[p].pc.Wait? ==> s.procs[p].pc.xz !in s.procs)
      && (s.procs[p].pc.TrapWait? ==> s.procs[p].pc.xz !in s.procs)
    }

    // -------------------------------------------------------------- turns

    method Other(step: Step)
      requires Sound()
      modifies this`world, this`trace
      ensures Sound() && Untouched(old(world), world, p)
      ensures Course(trace, world) == OneOther(c, TheHandler(p), old(Course(trace, world)), step)
    {
      hide Run, Apply;
      if !(step.HandlerStep? && step.p == p) && Enabled(world, step) {
        ghost var before := world;
        OthersTouch(c, before, step, Apply(c, before, step), p);
        hide Enabled;
        world := Apply(c, world, step);
        Took(before, step);
      }
    }

    method Others(steps: seq<Step>)
      requires Sound()
      modifies this`world, this`trace
      ensures Sound() && Untouched(old(world), world, p)
      ensures Course(trace, world) == OthersDo(c, TheHandler(p), old(Course(trace, world)), steps)
    {
      for n := 0 to |steps|
        invariant Sound() && Untouched(old(world), world, p)
        invariant Course(trace, world) == OthersDo(c, TheHandler(p), old(Course(trace, world)), steps[..n])
      {
        hide Run, Linked, OneOther, OthersDo;
        OneMoreStep(c, TheHandler(p), old(Course(trace, world)), steps, n);
        Other(steps[n]);
      }
      assert steps[..|steps|] == steps;
    }

    /** The others take their next turn. */
    method TakeTurn() returns (turn: Turn)
      requires Valid() && p in world.procs && schedule != []
      modifies this`world, this`trace, this`schedule
      ensures Midway() && turn == ThisTurn() && |schedule| == |old(schedule)| - 1 && Untouched(old(world), world, p)
    {
      hide Run, Linked, Play, OthersDo, Untouched;
      turn := PopTurn();
      Others(turn.steps);
    }

    method PopTurn() returns (turn: Turn)
      requires OnSchedule() && schedule != []
      modifies this`schedule
      ensures OnSchedule() && Taken() == old(Taken()) + 1 && turn == ThisTurn() && |schedule| == |old(schedule)| - 1
    {
      turn, schedule := schedule[0], schedule[1..];
    }

    method NextTurn() returns (situation: Situation, turn: Turn)
      requires Valid() && p in world.procs && !InTrap(world.procs[p].pc)
      modifies this`world, this`trace, this`schedule
      ensures situation == Over <==> old(schedule) == []
      ensures if situation == Over then schedule == [] else |schedule| < |old(schedule)|
      ensures if situation == GoesOn || situation == Trapped then Midway() && turn == ThisTurn() else Valid()
      ensures situation == GoesOn || situation == Over ==> p in world.procs && world.procs[p] == old(world).procs[p]
      ensures situation == Over ==> world == old(world)
      ensures situation == Trapped ==> At(TrapKill(gzipPid, temporary))
      ensures situation == Gone ==> p !in world.procs
    {
      hide Run, Played, MidwayIn;
      if |schedule| == 0 {
        return Over, Turn([], true, 1);
      }
      turn := TakeTurn();
      if p !in world.procs {
        Waited();
        return Gone, turn;
      }
      situation := if InTrap(world.procs[p].pc) then Trapped else GoesOn;
    }

    // -------------------------------------------------------------- commands

    /** A command after which the handler only goes on at `pc`. */
    method GoTo(pc: HandlerPc, ok: bool, status: int)
      requires Midway() && p in world.procs && world.procs[p].Handler? && status != 0 && Idle(world)
      requires HandlerStep(p, ok, status) == CommandOf(world.procs[p].pc, ThisTurn())
      requires HandlerCommand(c, world, p, ok, status) == world.(procs := world.procs[p := world.procs[p].(pc := pc)])
      requires ChildOf(pc) == None && (temporary <==> TmpSet(pc)) && !InTrap(pc) && !pc.Start? && index == world.procs[p].index
      modifies this`world, this`trace, this`gzipPid
      ensures Valid() && At(pc) && gzipPid == None
      ensures world.exits == old(world).exits && world.part == old(world).part
    {
      ghost var before := world;
      hide Run, HandlerCommand, Idle, CommandOf, MidwayIn, Played;
      gzipPid := None;
      world := world.(procs := world.procs[p := world.procs[p].(pc := pc)]);
      TookCommand(before, ok, status);
    }

    method SendToMain(sig: Signal)
      modifies this`sent, this`world
      ensures sent == old(sent) + [ToMain(sig)] && world == old(world).(pending := old(world).pending + {sig})
    {
      sent := sent + [ToMain(sig)];
      world := Signalled(world, sig);
    }

    /** get_index */
    method GetIndex(file: string) returns (ok: bool)
      modifies this`index
      ensures CaptureNames.GetIndex(c.rawMask, file) == if ok then Some(index) else None
      ensures !ok ==> index == old(index)
    {
      if file == c.rawMask {
        index := 0;
        return true;
      }
      if !(c.rawMask <= file) {
        return false;
      }
      var suffix := file[|c.rawMask|..];
      if !AllDigits(suffix) {
        return false;
      }
      index := ValueOf(suffix);
      return true;
    }

    /** The handler leaves; its exit follows its last command at once. */
    method Leave(status: int)
      modifies this`world
      ensures world == End(old(world), p, status)
    {
      world := End(world, p, status);
    }

    /** The first part of postrotate: the index, and an early end for a file beyond the limit. */
    method TakeIndex() returns (left: bool, rc: int)
      requires Midway() && At(Start)
      modifies this`index, this`sent, this`world, this`trace, this`gzipPid
      ensures Valid() && index == old(world).procs[p].index
      ensures left <==> index >= c.maxFiles
      ensures left ==> rc == 0 && p !in world.procs && p in world.exits && world.exits[p] == 0
      ensures left ==> sent == old(sent) + [ToMain(USR1)]
      ensures !left ==> At(CheckDest) && sent == old(sent)
    {
      hide Played, MidwayIn, Run;
      var ok := GetIndex(RawName(c.rawMask, world.procs[p].index));
      IndexOfRawName(c.rawMask, world.procs[p].index);
      hide RawName, CaptureNames.GetIndex, AllDigits, ValueOf;
      if index >= c.maxFiles {
        Overflow();
        return true, 0;
      }
      AcceptIndex();
      return false, 0;
    }

    /** A file beyond the limit: the main script is told to stop. */
    method Overflow()
      requires Midway() && At(Start) && world.procs[p].index >= c.maxFiles
      modifies this`sent, this`world, this`trace
      ensures Valid() && sent == old(sent) + [ToMain(USR1)]
      ensures p !in world.procs && p in world.exits && world.exits[p] == 0
    {
      ghost var before := world;
      StartCommand(c, before, p);
      hide Played, MidwayIn, Run, HandlerCommand;
      SendToMain(USR1);
      Leave(0);
      TookCommand(before, true, 1);
    }

    method AcceptIndex()
      requires Midway() && At(Start) && world.procs[p].index < c.maxFiles && index == world.procs[p].index
      modifies this`world, this`trace, this`gzipPid
      ensures Valid() && At(CheckDest)
    {
      StartCommand(c, world, p);
      hide Played, MidwayIn, Run, HandlerCommand;
      GoTo(CheckDest, true, 1);
    }

    /** The destination must not exist. */
    method TakeName() returns (left: bool, rc: int)
      requires Midway() && At(CheckDest)
      modifies this`sent, this`world, this`trace
      ensures Valid()
      ensures left <==> index in old(world).final
      ensures left ==> rc == 1 && p !in world.procs && p in world.exits && world.exits[p] == 1
      ensures left ==> sent == old(sent) + [ToMain(TERM)]
      ensures !left ==> At(Notify) && sent == old(sent)
    {
      ghost var before := world;
      hide Played, MidwayIn, Run;
      if index in world.final {
        SendToMain(TERM);
        Leave(1);
        world := world.(aborted := true);
        left, rc := true, 1;
      } else {
        world := world.(procs := world.procs[p := world.procs[p].(pc := Notify)]);
        left, rc := false, 0;
      }
      TookCommand(before, true, 1);
    }

    /** The last allowed file is announced; compress_file sets TMP_COMPRESSED_FILE. */
    method Announce()
      requires Midway() && At(Notify)
      modifies this`sent, this`world, this`trace, this`temporary
      ensures Valid() && At(Clean) && temporary
      ensures sent == if index + 1 == c.maxFiles then old(sent) + [ToMain(USR1)] else old(sent)
    {
      ghost var before := world;
      hide Played, MidwayIn, Run;
      if index + 1 == c.maxFiles {
        SendToMain(USR1);
      }
      temporary := true;
      world := world.(procs := world.procs[p := world.procs[p].(pc := Clean)]);
      TookCommand(before, true, 1);
    }

    method RemovePart()
      requires Midway() && At(Clean)
      modifies this`world, this`trace
      ensures Valid() && At(Spawn) && index !in world.part
    {
      ghost var before := world;
      hide Played, MidwayIn, Run;
      world := world.(part := world.part - {index}, procs := world.procs[p := world.procs[p].(pc := Spawn)]);
      TookCommand(before, true, 1);
    }

    /** xz starts; without a raw file it fails at once. */
    method StartXz() returns (started: bool)
      requires Midway() && At(Spawn)
      modifies this`world, this`trace, this`gzipPid
      ensures Valid() && started == (index in old(world).raw)
      ensures started ==> gzipPid == Some(old(world).nextPid) && At(Wait(old(world).nextPid))
                          && index in world.part && world.part[index] == Partial
      ensures !started ==> At(Discard(1)) && gzipPid == None
    {
      ghost var before := world;
      hide Played, MidwayIn, Run;
      if index in world.raw {
        var group, input := world.procs[p].inGroup, world.raw[index];
        gzipPid := Some(world.nextPid);
        world := world.(part := world.part[index := Partial], procs := world.procs[p := world.procs[p].(pc := Wait(world.nextPid))]);
        world := Launch(world, Xz(index, group, input, |input|));
        started := true;
      } else {
        world := world.(procs := world.procs[p := world.procs[p].(pc := Discard(1))]);
        started := false;
      }
      TookCommand(before, true, 1);
    }

    /** The end of the loop that waits for xz. */
    method TakeStatus(turn: Turn) returns (rc: int)
      requires Midway() && turn == ThisTurn() && p in world.procs && world.procs[p].Handler? && world.procs[p].pc.Wait?
      requires world.procs[p].pc.xz !in world.procs
      modifies this`world, this`trace, this`gzipPid
      ensures Valid() && gzipPid == None && (if rc == 0 then At(Publish) else At(Discard(rc)))
      ensures var x := old(world).procs[p].pc.xz;
              rc == if (turn.ok || turn.status == 0) && x in world.exits then world.exits[x]
                    else if turn.status == 0 then 1 else turn.status
    {
      var x, ok, status := world.procs[p].pc.xz, turn.ok || turn.status == 0, if turn.status == 0 then 1 else turn.status;
      rc := if ok && x in world.exits then world.exits[x] else status;
      WaitedCommand(c, world, p, ok, status);
      hide Run, HandlerCommand, Played, MidwayIn;
      GoTo(if rc == 0 then Publish else Discard(rc), ok, status);
    }

    /** The compression failed: the partial file goes. */
    method DiscardPart()
      requires Midway() && p in world.procs && world.procs[p].Handler? && world.procs[p].pc.Discard?
      modifies this`world, this`trace, this`temporary
      ensures Valid() && p !in world.procs && !temporary
      ensures p in world.exits && world.exits[p] == old(world).procs[p].pc.rc
      ensures world.part == old(world).part - {index} && world.raw == old(world).raw && world.final == old(world).final
    {
      ghost var before := world;
      hide Played, MidwayIn, Run;
      var rc := world.procs[p].pc.rc;
      temporary := false;
      Leave(rc);
      world := world.(part := world.part - {index});
      TookCommand(before, true, 1);
    }

    /** The move to the output directory; when it fails the partial file stays. */
    method PublishPart(ok: bool) returns (moved: bool)
      requires Midway() && At(Publish) && ok == ThisTurn().ok
      modifies this`world, this`trace, this`temporary
      ensures Valid() && moved == (ok && index in old(world).part) && world.raw == old(world).raw
      ensures moved ==> At(RemoveRaw) && !temporary && world.part == old(world).part - {index}
                        && world.final == old(world).final[index := old(world).part[index]]
      ensures !moved ==> p !in world.procs && p in world.exits && world.exits[p] == 1
                         && world.part == old(world).part && world.final == old(world).final
    {
      ghost var before := world;
      hide Played, MidwayIn, Run;
      if ok && index in world.part {
        temporary := false;
        world := world.(final := world.final[index := world.part[index]], part := world.part - {index},
                        procs := world.procs[p := world.procs[p].(pc := RemoveRaw)]);
        moved := true;
      } else {
        Leave(1);
        moved := false;
      }
      TookCommand(before, ok, 1);
    }

    method RemoveInput(ok: bool)
      requires Midway() && At(RemoveRaw) && ok == ThisTurn().ok
      modifies this`world, this`trace
      ensures Valid() && p !in world.procs
      ensures p in world.exits && world.exits[p] == if ok then 0 else 1
      ensures world.raw == (if ok then old(world).raw - {index} else old(world).raw)
      ensures world.part == old(world).part && world.final == old(world).final
      ensures index in world.final
    {
      ghost var before := world;
      RemovedIsPublished(c, trace, world, p);
      hide Played, MidwayIn, Run;
      Leave(if ok then 0 else 1);
      if ok {
        world := world.(raw := world.raw - {index});
      }
      TookCommand(before, ok, 1);
    }

    // -------------------------------------------------------------- the TERM trap

    /** In the trap of this handler, which only a kill can leave early. */
    predicate InItsTrap()
      reads this
    {
      p in world.procs && world.procs[p].Handler? && InTrap(world.procs[p].pc)
    }

    method TrapTurn() returns (situation: Situation)
      requires Valid() && InItsTrap()
      modifies this`world, this`trace, this`schedule
      ensures if situation == GoesOn then Midway() else Valid()
      ensures situation == Over <==> old(schedule) == []
      ensures if situation == Over then schedule == [] else |schedule| < |old(schedule)|
      ensures situation == GoesOn || situation == Over ==> p in world.procs && world.procs[p] == old(world).procs[p]
      ensures situation == Over ==> world == old(world)
      ensures situation == GoesOn || situation == Gone || situation == Over
      ensures situation == Gone ==> p !in world.procs
    {
      hide Run, Played, MidwayIn;
      if |schedule| == 0 {
        return Over;
      }
      var _ := TakeTurn();
      if p !in world.procs {
        Waited();
        return Gone;
      }
      return GoesOn;
    }

    /** A command of the trap after which it goes on at `pc`. */
    method TrapTo(pc: HandlerPc)
      requires Midway() && InItsTrap() && Idle(world)
      requires HandlerCommand(c, world, p, true, 1) == world.(procs := world.procs[p := world.procs[p].(pc := pc)])
      requires pc == TrapClean(temporary) || (gzipPid.Some? && pc == TrapWait(gzipPid.value, temporary))
      modifies this`world, this`trace
      ensures Valid() && At(pc) && world.procs[p].index == old(world).procs[p].index
    {
      ghost var before := world;
      hide Played, MidwayIn, Run, HandlerCommand, Idle;
      world := world.(procs := world.procs[p := world.procs[p].(pc := pc)]);
      TookCommand(before, true, 1);
    }

    /** TERM to a live xz; `waits` says whether there was one. */
    method StopXz() returns (waits: bool)
      requires Midway() && At(TrapKill(gzipPid, temporary))
      modifies this`world, this`trace, this`sent
      ensures Valid() && waits == (gzipPid.Some? && gzipPid.value in old(world).procs)
      ensures if waits then At(TrapWait(gzipPid.value, temporary)) && sent == old(sent) + [ToXz(gzipPid.value)]
              else At(TrapClean(temporary)) && sent == old(sent)
      ensures world.procs[p].index == old(world).procs[p].index
    {
      TrapKillCommand(c, world, p);
      hide Played, MidwayIn, Run, HandlerCommand, Linked;
      waits := gzipPid.Some? && gzipPid.value in world.procs;
      if waits {
        sent := sent + [ToXz(gzipPid.value)];
        TrapTo(TrapWait(gzipPid.value, temporary));
      } else {
        TrapTo(TrapClean(temporary));
      }
    }

    method XzStopped()
      requires Midway() && gzipPid.Some? && At(TrapWait(gzipPid.value, temporary)) && gzipPid.value !in world.procs
      modifies this`world, this`trace
      ensures Valid() && At(TrapClean(temporary)) && world.procs[p].index == old(world).procs[p].index
    {
      hide Played, MidwayIn, Run, Linked;
      TrapTo(TrapClean(temporary));
    }

    method LeaveTrap()
      requires Midway() && At(TrapClean(temporary))
      modifies this`world, this`trace
      ensures Valid() && p !in world.procs && p in world.exits && world.exits[p] == EXIT_SIGTERM
      ensures world.part == (if temporary then old(world).part - {old(world).procs[p].index} else old(world).part)
      ensures world.raw == old(world).raw && world.final == old(world).final
    {
      ghost var before := world;
      hide Played, MidwayIn, Run;
      var i := world.procs[p].index;
      Leave(EXIT_SIGTERM);
      if temporary {
        world := world.(part := world.part - {i});
      }
      TookCommand(before, true, 1);
    }

    /** sigterm_handle: stop xz and wait for it, remove the partial file, exit. */
    method SigtermHandle() returns (outcome: Outcome)
      requires Midway() && At(TrapKill(gzipPid, temporary))
      modifies this`world, this`trace, this`sent, this`schedule
      ensures Valid() && |schedule| <= |old(schedule)|
      ensures Ended(outcome) && (outcome.Exits? ==> outcome.status == EXIT_SIGTERM)
      ensures outcome.Exits? && temporary ==> old(world).procs[p].index !in world.part
    {
      hide Valid, Midway;
      var waits := StopXz();
      var situation;
      if waits {
        situation := WaitStopped();
        if situation != GoesOn {
          return if situation == Gone then Killed else Unfinished;
        }
      }
      situation := TrapTurn();
      if situation != GoesOn {
        return if situation == Gone then Killed else Unfinished;
      }
      LeaveTrap();
      return Exits(EXIT_SIGTERM);
    }

    method WaitStopped() returns (situation: Situation)
      requires Valid() && gzipPid.Some? && At(TrapWait(gzipPid.value, temporary))
      modifies this`world, this`trace, this`schedule
      ensures Valid() && |schedule| <= |old(schedule)|
      ensures situation == GoesOn ==> At(TrapClean(temporary)) && world.procs[p].index == old(world).procs[p].index
      ensures situation == Gone ==> p !in world.procs
      ensures situation == Over ==> schedule == [] && p in world.procs && (old(schedule) != [] ==> gzipPid.value in world.procs)
      ensures situation != Trapped
    {
      hide Valid, Midway, MayGoOn;
      while true
        invariant Valid() && |schedule| <= |old(schedule)| && At(TrapWait(gzipPid.value, temporary))
        invariant world.procs[p].index == old(world).procs[p].index
        invariant schedule == old(schedule) || gzipPid.value in world.procs
        decreases |schedule|
      {
        situation := TrapTurn();
        if situation != GoesOn {
          return;
        }
        if gzipPid.value !in world.procs {
          XzStopped();
          return;
        }
        NotIdle(world);
        Waited();
      }
    }

    /** What the outcome says of the process. */
    predicate Ended(outcome: Outcome)
      reads this
    {
      match outcome
      case Exits(status) => p !in world.procs && p in world.exits && world.exits[p] == status
      case Killed => p !in world.procs
      case Unfinished => schedule == [] && p in world.procs
    }

    /** The turn before a command did not let the handler go on. */
    method Interrupted(situation: Situation) returns (outcome: Outcome)
      requires situation != GoesOn && if situation == Trapped then Midway() else Valid()
      requires situation == Trapped ==> At(TrapKill(gzipPid, temporary))
      requires situation == Gone ==> p !in world.procs
      requires situation == Over ==> schedule == [] && p in world.procs
      modifies this`world, this`trace, this`sent, this`schedule
      ensures Valid() && |schedule| <= |old(schedule)| && Ended(outcome)
      ensures outcome.Exits? ==> outcome.status == EXIT_SIGTERM
    {
      hide Valid, Midway;
      match situation {
        case Trapped => outcome := SigtermHandle();
        case Gone => outcome := Killed;
        case Over => outcome := Unfinished;
      }
    }

    // -------------------------------------------------------------- compress_file

    /** The loop that waits for xz. */
    method WaitXz() returns (situation: Situation, rc: int)
      requires Valid() && gzipPid.Some? && At(Wait(gzipPid.value))
      modifies this`world, this`trace, this`schedule, this`gzipPid
      ensures |schedule| <= |old(schedule)| && if situation == Trapped then Midway() else Valid()
      ensures situation == GoesOn ==> if rc == 0 then At(Publish) else At(Discard(rc))
      ensures situation == Trapped ==> At(TrapKill(gzipPid, temporary))
      ensures situation == Gone ==> p !in world.procs
      ensures situation == Over ==> schedule == [] && p in world.procs
                                    && (old(schedule) != [] ==> gzipPid.Some? && gzipPid.value in world.procs)
    {
      hide Valid, Midway, MayGoOn;
      rc := 0;
      while true
        invariant Valid() && |schedule| <= |old(schedule)| && gzipPid.Some? && At(Wait(gzipPid.value))
        invariant schedule == old(schedule) || gzipPid.value in world.procs
        decreases |schedule|
      {
        var turn;
        situation, turn := NextTurn();
        if situation != GoesOn {
          return;
        }
        if gzipPid.value !in world.procs {
          rc := TakeStatus(turn);
          return;
        }
        NotIdle(world);
        Waited();
      }
    }

    /** compress_file, from its first rm to the exit of the handler. */
    method CompressFile() returns (outcome: Outcome)
      requires Valid() && At(Clean)
      modifies this
      ensures Valid() && |schedule| <= |old(schedule)| && Ended(outcome)
      ensures outcome == Exits(0) ==> index in world.final && index !in world.raw
    {
      hide Valid, Midway;
      var situation, turn := NextTurn();
      if situation != GoesOn {
        outcome := Interrupted(situation);
        return;
      }
      RemovePart();
      situation, turn := NextTurn();
      if situation != GoesOn {
        outcome := Interrupted(situation);
        return;
      }
      var started := StartXz();
      var rc := 1;
      if started {
        situation, rc := WaitXz();
        if situation != GoesOn {
          outcome := Interrupted(situation);
          return;
        }
      }
      outcome := FinishFile(rc);
    }

    /** The part of compress_file after the wait. */
    method FinishFile(rc: int) returns (outcome: Outcome)
      requires Valid() && if rc == 0 then At(Publish) else At(Discard(rc))
      modifies this
      ensures Valid() && |schedule| <= |old(schedule)| && Ended(outcome)
      ensures outcome == Exits(0) ==> index in world.final && index !in world.raw
    {
      hide Valid, Midway;
      var situation, turn := NextTurn();
      if situation != GoesOn {
        outcome := Interrupted(situation);
        return;
      }
      if rc != 0 {
        DiscardPart();
        return Exits(rc);
      }
      var moved := PublishPart(turn.ok);
      if !moved {
        return Exits(1);
      }
      situation, turn := NextTurn();
      if situation != GoesOn {
        outcome := Interrupted(situation);
        return;
      }
      RemoveInput(turn.ok);
      return Exits(if turn.ok then 0 else 1);
    }

    // -------------------------------------------------------------- postrotate

    /** postrotate and the exit of the handler. */
    method RunPostrotate() returns (outcome: Outcome)
      requires Valid() && At(Start)
      modifies this
      ensures Valid() && |schedule| <= |old(schedule)| && Ended(outcome)
      ensures outcome == Exits(0) ==> index >= c.maxFiles || (index in world.final && index !in world.raw)
    {
      hide Valid, Midway;
      var situation, turn := NextTurn();
      if situation != GoesOn {
        outcome := Interrupted(situation);
        return;
      }
      var left, rc := TakeIndex();
      if left {
        return Exits(rc);
      }
      outcome := Accepted();
    }

    /** The rest of postrotate, for a file below the limit. */
    method Accepted() returns (outcome: Outcome)
      requires Valid() && At(CheckDest)
      modifies this
      ensures Valid() && |schedule| <= |old(schedule)| && Ended(outcome)
      ensures outcome == Exits(0) ==> index in world.final && index !in world.raw
    {
      hide Valid, Midway;
      var situation, turn := NextTurn();
      if situation != GoesOn {
        outcome := Interrupted(situation);
        return;
      }
      var left, rc := TakeName();
      if left {
        return Exits(rc);
      }
      situation, turn := NextTurn();
      if situation != GoesOn {
        outcome := Interrupted(situation);
        return;
      }
      Announce();
      outcome := CompressFile();
    }

    /**
     Whatever the schedule, the handler makes exactly the steps that the schedule makes the machine do: it is finished
     if and only if the process is gone, by its exit, in its trap or killed.
     */
    method Postrotate() returns (outcome: Outcome)
      requires Valid() && At(Start)
      modifies this
      ensures trace == Play(c, TheHandler(p), start, plan).trace && world == Play(c, TheHandler(p), start, plan).state
      ensures match outcome
              case Exits(status) => p !in world.procs && p in world.exits && world.exits[p] == status
              case Killed => p !in world.procs
              case Unfinished => p in world.procs
      ensures outcome == Exits(0) ==> index >= c.maxFiles || (index in world.final && index !in world.raw)
    {
      hide Run, Linked, Play;
      outcome := RunPostrotate();
      if outcome.Unfinished? {
        assert plan[..|plan|] == plan;
      } else {
        NothingAfterEnd(c, TheHandler(p), start, plan, Taken());
      }
    }
  }

  /** Past the move the file is published. */
  lemma RemovedIsPublished(c: Config, trace: seq<Step>, s: State, p: Pid)
    requires Run(c, Init, trace, s) && p in s.procs && s.procs[p].Handler? && s.procs[p].pc.RemoveRaw?
    ensures s.procs[p].index in s.final
  {
    S.InitReaches(c, trace, s);
    hide Run;
    ReachableInv(c, s);
    assert HandlerOk(c, s, s.procs[p]);
  }

  lemma TrapKillCommand(c: Config, s: State, p: Pid)
    requires p in s.procs && s.procs[p].Handler? && s.procs[p].pc.TrapKill?
    ensures var pc := s.procs[p].pc;
            HandlerCommand(c, s, p, true, 1) ==
              s.(procs := s.procs[p := s.procs[p].(pc := if pc.child.Some? && pc.child.value in s.procs then TrapWait(pc.child.value, pc.tmp)
                                                            else TrapClean(pc.tmp))])
  {}

  lemma StartCommand(c: Config, s: State, p: Pid)
    requires p in s.procs && s.procs[p].Handler? && s.procs[p].pc.Start?
    ensures HandlerCommand(c, s, p, true, 1)
         == if s.procs[p].index >= c.maxFiles then End(Signalled(s, USR1), p, 0)
            else s.(procs := s.procs[p := s.procs[p].(pc := CheckDest)])
  {
    IndexOfRawName(c.rawMask, s.procs[p].index);
    hide RawName, GetIndex;
  }

  lemma WaitedCommand(c: Config, s: State, p: Pid, ok: bool, status: int)
    requires p in s.procs && s.procs[p].Handler? && s.procs[p].pc.Wait?
    ensures var x := s.procs[p].pc.xz;
            var rc := if ok && x in s.exits then s.exits[x] else status;
            HandlerCommand(c, s, p, ok, status)
            == s.(procs := s.procs[p := s.procs[p].(pc := if rc == 0 then Publish else Discard(rc))])
  {}

  lemma NewestPid(c: Config, trace: seq<Step>, s: State, p: Pid)
    requires Run(c, Init, trace, s) && p in s.procs
    ensures p < s.nextPid
  {
    S.InitReaches(c, trace, s);
    hide Run;
    ReachableInv(c, s);
  }
}
