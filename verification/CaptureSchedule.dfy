/**
 A schedule fixes all that is left open in a run of the machine around one of its scripts: turn by turn, what the
 others do and how the next command of the script turns out. After tcpdump has stopped, a schedule of the main
 script that keeps something moving leads to the exit.
 */
module CaptureSchedule {
  import opened CaptureModel
  import opened CaptureTheorems
  import opened CaptureTermination

  /** Whose script it is. */
  datatype Actor = TheMain | TheHandler(p: Pid)

  /** What happens before a command, whether the command succeeds or its wait is interrupted, and with what status. */
  datatype Turn = Turn(steps: seq<Step>, ok: bool, status: int)

  datatype Course = Course(trace: seq<Step>, state: State)

  /** The beginning of the capture. */
  const START := Course([], Init)

  predicate Own(who: Actor, step: Step) {
    match who
    case TheMain => step.MainStep?
    case TheHandler(p) => step.HandlerStep? && step.p == p
  }

  /** The script has come to its end. */
  predicate Over(who: Actor, s: State) {
    match who
    case TheMain => s.m.pc.Exited?
    case TheHandler(p) => p !in s.procs
  }

  /** A step of the others, if it is possible. */
  function OneOther(c: Config, who: Actor, p: Course, step: Step): Course {
    if !Own(who, step) && Enabled(p.state, step) then Course(p.trace + [step], Apply(c, p.state, step)) else p
  }

  function OthersDo(c: Config, who: Actor, p: Course, steps: seq<Step>): Course {
    if steps == [] then p
    else OneOther(c, who, OthersDo(c, who, p, steps[..|steps| - 1]), steps[|steps| - 1])
  }

  lemma OneMoreStep(c: Config, who: Actor, p: Course, steps: seq<Step>, n: nat)
    requires n < |steps|
    ensures OthersDo(c, who, p, steps[..n + 1]) == OneOther(c, who, OthersDo(c, who, p, steps[..n]), steps[n])
  {
    hide OneOther;
    assert steps[..n + 1][..n] == steps[..n];
  }

  /** The script does not have to wait. */
  predicate MayGoOn(who: Actor, s: State) {
    match who
    case TheMain => Enabled(s, MainStep(true, 1))
    case TheHandler(p) => Enabled(s, HandlerStep(p, true, 1))
  }

  /** The next command of the script. A wait of the main script is interrupted only if something can have done so. */
  function Command(who: Actor, s: State, turn: Turn): Step
    requires MayGoOn(who, s)
  {
    match who
    case TheMain =>
      if s.m.pc.WaitTcpdump? || s.m.pc.RecWait? then
        MainStep(turn.ok || turn.status == 0 || s.m.control.mode == Running, turn.status)
      else MainStep(true, 1)
    case TheHandler(p) =>
      match s.procs[p].pc
      case Wait(_) => HandlerStep(p, turn.ok || turn.status == 0, if turn.status == 0 then 1 else turn.status)
      case Publish => HandlerStep(p, turn.ok, 1)
      case RemoveRaw => HandlerStep(p, turn.ok, 1)
      case _ => HandlerStep(p, true, 1)
  }

  lemma CommandIsEnabled(who: Actor, s: State, turn: Turn)
    requires MayGoOn(who, s)
    ensures Enabled(s, Command(who, s, turn))
  {
    hide GroupRunning;
  }

  /** One command of the script, unless it has to wait. */
  function ScriptDoes(c: Config, who: Actor, p: Course, turn: Turn): Course {
    if MayGoOn(who, p.state) then
      CommandIsEnabled(who, p.state, turn);
      var step := Command(who, p.state, turn);
      Course(p.trace + [step], Apply(c, p.state, step))
    else p
  }

  /** First the others, then the script. */
  function PlayTurn(c: Config, who: Actor, p: Course, turn: Turn): Course {
    if Over(who, p.state) then p else ScriptDoes(c, who, OthersDo(c, who, p, turn.steps), turn)
  }

  /** The run of the machine under a schedule. */
  function Play(c: Config, who: Actor, start: Course, turns: seq<Turn>): Course {
    if turns == [] then start
    else PlayTurn(c, who, Play(c, who, start, turns[..|turns| - 1]), turns[|turns| - 1])
  }

  lemma TurnPlayed(c: Config, who: Actor, start: Course, turns: seq<Turn>, k: nat)
    requires 0 < k <= |turns| && !Over(who, Play(c, who, start, turns[..k - 1]).state)
    ensures Play(c, who, start, turns[..k])
         == ScriptDoes(c, who, OthersDo(c, who, Play(c, who, start, turns[..k - 1]), turns[k - 1].steps), turns[k - 1])
  {
    hide ScriptDoes, OthersDo, Over;
    assert turns[..k][..k - 1] == turns[..k - 1];
  }

  /** Nothing is played once the script is over. */
  lemma {:induction false} NothingAfterEnd(c: Config, who: Actor, start: Course, turns: seq<Turn>, k: nat)
    requires k <= |turns| && Over(who, Play(c, who, start, turns[..k]).state)
    ensures Play(c, who, start, turns) == Play(c, who, start, turns[..k])
    decreases |turns|
  {
    hide ScriptDoes, OthersDo, Over;
    if k == |turns| {
      assert turns[..k] == turns;
    } else {
      assert turns[..|turns| - 1][..k] == turns[..k];
      NothingAfterEnd(c, who, start, turns[..|turns| - 1], k);
    }
  }

  lemma RunGoesOn(c: Config, start: State, trace: seq<Step>, s: State, step: Step, t: State)
    requires Run(c, start, trace, s) && Enabled(s, step) && t == Apply(c, s, step)
    ensures Run(c, start, trace + [step], t)
  {
    hide Enabled, Apply;
    var longer := trace + [step];
    assert longer[..|longer| - 1] == trace;
  }

  // ---------------------------------------------------------------- schedules and runs

  /** Course `p` goes on where the steps `base` led to state `start`. */
  ghost predicate GoesOnFrom(c: Config, base: seq<Step>, start: State, p: Course) {
    base <= p.trace && Run(c, start, p.trace[|base|..], p.state)
  }

  lemma StepGoesOn(c: Config, base: seq<Step>, start: State, p: Course, step: Step)
    requires GoesOnFrom(c, base, start, p) && Enabled(p.state, step)
    ensures GoesOnFrom(c, base, start, Course(p.trace + [step], Apply(c, p.state, step)))
  {
    hide Enabled, Apply, Run;
    RunGoesOn(c, start, p.trace[|base|..], p.state, step, Apply(c, p.state, step));
    assert (p.trace + [step])[|base|..] == p.trace[|base|..] + [step];
  }

  lemma {:induction false} OthersGoOn(c: Config, who: Actor, base: seq<Step>, start: State, p: Course, steps: seq<Step>)
    requires GoesOnFrom(c, base, start, p)
    ensures GoesOnFrom(c, base, start, OthersDo(c, who, p, steps))
    decreases |steps|
  {
    hide Enabled, Apply, GoesOnFrom, Own;
    if steps != [] {
      var n := |steps| - 1;
      OthersGoOn(c, who, base, start, p, steps[..n]);
      var q := OthersDo(c, who, p, steps[..n]);
      if !Own(who, steps[n]) && Enabled(q.state, steps[n]) { StepGoesOn(c, base, start, q, steps[n]); }
    }
  }

  lemma TurnGoesOn(c: Config, who: Actor, base: seq<Step>, start: State, p: Course, turn: Turn)
    requires GoesOnFrom(c, base, start, p)
    ensures GoesOnFrom(c, base, start, PlayTurn(c, who, p, turn))
  {
    hide Enabled, Apply, GoesOnFrom, OthersDo, Command, MayGoOn, Over;
    if !Over(who, p.state) {
      OthersGoOn(c, who, base, start, p, turn.steps);
      var q := OthersDo(c, who, p, turn.steps);
      if MayGoOn(who, q.state) {
        CommandIsEnabled(who, q.state, turn);
        StepGoesOn(c, base, start, q, Command(who, q.state, turn));
      }
    }
  }

  lemma {:induction false} PlayGoesOn(c: Config, who: Actor, start: Course, turns: seq<Turn>, k: nat)
    requires k <= |turns|
    ensures var p := Play(c, who, start, turns[..k]); GoesOnFrom(c, p.trace, p.state, Play(c, who, start, turns))
    decreases |turns|
  {
    hide GoesOnFrom, PlayTurn;
    var p := Play(c, who, start, turns[..k]);
    if k == |turns| {
      assert turns[..k] == turns;
      StaysPut(c, p);
    } else {
      var n := |turns| - 1;
      assert turns[..n][..k] == turns[..k];
      PlayGoesOn(c, who, start, turns[..n], k);
      TurnGoesOn(c, who, p.trace, p.state, Play(c, who, start, turns[..n]), turns[n]);
    }
  }

  lemma StaysPut(c: Config, p: Course)
    ensures GoesOnFrom(c, p.trace, p.state, p)
  {
    assert p.trace[|p.trace|..] == [];
  }

  /** A schedule makes the machine run. */
  lemma PlayReaches(c: Config, turns: seq<Turn>)
    ensures Run(c, Init, Play(c, TheMain, START, turns).trace, Play(c, TheMain, START, turns).state)
    ensures Reachable(c, Play(c, TheMain, START, turns).state)
  {
    PlayGoesOn(c, TheMain, START, turns, 0);
    hide PlayTurn;
    assert turns[..0] == [];
    var q := Play(c, TheMain, START, turns);
    assert q.trace[0..] == q.trace;
  }

  /** State `s` is met in the middle of a turn of some schedule. */
  ghost predicate IsMet(c: Config, s: State) {
    exists turns, rest :: OthersDo(c, TheMain, Play(c, TheMain, START, turns), rest).state == s
  }

  /** A schedule can make the machine do whatever it can do: every state of a run is met under some schedule. */
  lemma {:induction false} SchedulesReachEverything(c: Config, steps: seq<Step>, s: State)
    requires Run(c, Init, steps, s)
    ensures exists turns, rest :: OthersDo(c, TheMain, Play(c, TheMain, START, turns), rest).state == s
    decreases |steps|
  {
    if steps == [] {
      assert OthersDo(c, TheMain, Play(c, TheMain, START, []), []).state == s;
    } else {
      var n := |steps| - 1;
      var u :| Run(c, Init, steps[..n], u) && Enabled(u, steps[n]) && s == Apply(c, u, steps[n]);
      SchedulesReachEverything(c, steps[..n], u);
      var turns, rest :| OthersDo(c, TheMain, Play(c, TheMain, START, turns), rest).state == u;
      hide Run, Play, OthersDo, Enabled, Apply;
      if steps[n].MainStep? {
        MainStepIsMet(c, turns, rest, steps[n]);
      } else {
        OtherStepIsMet(c, turns, rest, steps[n]);
      }
    }
  }

  lemma OtherStepIsMet(c: Config, turns: seq<Turn>, rest: seq<Step>, step: Step)
    requires !step.MainStep? && Enabled(OthersDo(c, TheMain, Play(c, TheMain, START, turns), rest).state, step)
    ensures IsMet(c, Apply(c, OthersDo(c, TheMain, Play(c, TheMain, START, turns), rest).state, step))
  {
    hide Play, OthersDo, Enabled, Apply;
    var longer := rest + [step];
    assert longer[..|rest|] == rest && longer[..|rest| + 1] == longer;
    OneMoreStep(c, TheMain, Play(c, TheMain, START, turns), longer, |rest|);
    assert OthersDo(c, TheMain, Play(c, TheMain, START, turns), longer).state
        == Apply(c, OthersDo(c, TheMain, Play(c, TheMain, START, turns), rest).state, step);
  }

  lemma MainStepIsMet(c: Config, turns: seq<Turn>, rest: seq<Step>, step: Step)
    requires step.MainStep? && Enabled(OthersDo(c, TheMain, Play(c, TheMain, START, turns), rest).state, step)
    ensures IsMet(c, Apply(c, OthersDo(c, TheMain, Play(c, TheMain, START, turns), rest).state, step))
  {
    var p, turn := Play(c, TheMain, START, turns), Turn(rest, step.ok, step.status);
    hide Play, OthersDo, Enabled, Apply, PlayTurn;
    OthersKeepProgramPoint(c, p, rest);
    OneMoreTurn(c, turns, turn);
    MainStepIsPlayed(c, p, rest, step);
    NoSteps(c, Play(c, TheMain, START, turns + [turn]));
    assert OthersDo(c, TheMain, Play(c, TheMain, START, turns + [turn]), []).state == Apply(c, OthersDo(c, TheMain, p, rest).state, step);
  }

  lemma NoSteps(c: Config, p: Course)
    ensures OthersDo(c, TheMain, p, []) == p
  {}

  lemma {:induction false} OthersKeepProgramPoint(c: Config, p: Course, steps: seq<Step>)
    ensures OthersDo(c, TheMain, p, steps).state.m.pc == p.state.m.pc
    decreases |steps|
  {
    hide Enabled, Apply;
    if steps != [] {
      var n := |steps| - 1;
      OthersKeepProgramPoint(c, p, steps[..n]);
      var q := OthersDo(c, TheMain, p, steps[..n]).state;
      if !steps[n].MainStep? && Enabled(q, steps[n]) {
        if steps[n].Handle? {
          HandleChanges(c, q, steps[n].sig, Apply(c, q, steps[n]));
        } else {
          OthersKeepScript(c, q, steps[n], Apply(c, q, steps[n]));
        }
      }
    }
  }

  lemma MainStepIsPlayed(c: Config, p: Course, rest: seq<Step>, step: Step)
    requires step.MainStep? && p.state.m.pc == OthersDo(c, TheMain, p, rest).state.m.pc
    requires Enabled(OthersDo(c, TheMain, p, rest).state, step)
    ensures PlayTurn(c, TheMain, p, Turn(rest, step.ok, step.status)).state == Apply(c, OthersDo(c, TheMain, p, rest).state, step)
  {
    var q := OthersDo(c, TheMain, p, rest);
    hide OthersDo;
    SameCommand(c, q.state, step.ok, step.status, Turn(rest, step.ok, step.status));
    CommandIsEnabled(TheMain, q.state, Turn(rest, step.ok, step.status));
    assert !Over(TheMain, p.state);
    hide Apply, Enabled, Command;
  }

  lemma SameCommand(c: Config, s: State, ok: bool, status: int, turn: Turn)
    requires Enabled(s, MainStep(ok, status)) && turn.ok == ok && turn.status == status
    ensures MayGoOn(TheMain, s) && Enabled(s, Command(TheMain, s, turn))
    ensures Apply(c, s, Command(TheMain, s, turn)) == Apply(c, s, MainStep(ok, status))
  {
    hide GroupRunning, NextPc, OnTcpdumpExit, OnExitTrap, OnRecovered;
  }

  // ---------------------------------------------------------------- long schedules

  /** Something moves in turn `j`, or all is over. */
  predicate Moves(c: Config, turns: seq<Turn>, j: nat)
    requires j < |turns|
  {
    var before, after := Play(c, TheMain, START, turns[..j]), Play(c, TheMain, START, turns[..j + 1]);
    before.state.m.pc.Exited? || |before.trace| < |after.trace|
  }

  lemma {:induction false} MovesAddUp(c: Config, turns: seq<Turn>, k: nat, n: nat)
    requires k <= n <= |turns| && !Play(c, TheMain, START, turns).state.m.pc.Exited?
    requires forall j: nat | k <= j < |turns| :: Moves(c, turns, j)
    ensures |Play(c, TheMain, START, turns[..n]).trace| >= |Play(c, TheMain, START, turns[..k]).trace| + (n - k)
    decreases n
  {
    hide Play;
    if n > k {
      MovesAddUp(c, turns, k, n - 1);
      assert Moves(c, turns, n - 1);
      if Play(c, TheMain, START, turns[..n - 1]).state.m.pc.Exited? { NothingAfterEnd(c, TheMain, START, turns, n - 1); }
    }
  }

  /** The signals that arrive from turn `k` on. */
  function LateArrivals(c: Config, turns: seq<Turn>, k: nat): nat
    requires k <= |turns|
  {
    var p, q := Play(c, TheMain, START, turns[..k]), Play(c, TheMain, START, turns);
    if |p.trace| <= |q.trace| then Arrivals(q.trace[|p.trace|..]) else 0
  }

  /**
   The script exits under every schedule that is long enough: once tcpdump has stopped, no more turns in which
   something moves are possible than the measure and twice the signals that still arrive.
   */
  lemma LongSchedulesEnd(c: Config, turns: seq<Turn>, k: nat)
    requires k <= |turns| && Play(c, TheMain, START, turns[..k]).state.td.Stopped?
    requires forall j: nat | k <= j < |turns| :: Moves(c, turns, j)
    requires |turns| - k > Measure(c, Play(c, TheMain, START, turns[..k]).state) + 2 * LateArrivals(c, turns, k)
    ensures Play(c, TheMain, START, turns).state.m.pc.Exited?
  {
    hide Play, Run, Measure, Arrivals, Moves;
    var p, q := Play(c, TheMain, START, turns[..k]), Play(c, TheMain, START, turns);
    PlayGoesOn(c, TheMain, START, turns, k);
    PlayReaches(c, turns[..k]);
    ShutdownIsBounded(c, p.state, q.trace[|p.trace|..], q.state);
    assert turns[..|turns|] == turns;
    if !q.state.m.pc.Exited? {
      MovesAddUp(c, turns, k, |turns|);
    }
  }

  /** As long as the script has not exited, the next turn can move something. */
  lemma ATurnCanMove(c: Config, turns: seq<Turn>)
    requires Play(c, TheMain, START, turns).state.td.Stopped? && !Play(c, TheMain, START, turns).state.m.pc.Exited?
    ensures exists turn :: |Play(c, TheMain, START, turns).trace| < |Play(c, TheMain, START, turns + [turn]).trace|
  {
    var p := Play(c, TheMain, START, turns);
    PlayReaches(c, turns);
    NeverStuck(c, p.state);
    var step :| Enabled(p.state, step) && Voluntary(step);
    var turn := Turn([step], true, 1);
    hide Play, Run, Enabled, Apply, Voluntary, PlayTurn;
    StepMoves(c, p, step);
    OneMoreTurn(c, turns, turn);
  }

  lemma StepMoves(c: Config, p: Course, step: Step)
    requires !p.state.m.pc.Exited? && Enabled(p.state, step) && Voluntary(step)
    ensures |p.trace| < |PlayTurn(c, TheMain, p, Turn([step], true, 1)).trace|
  {
    if step.MainStep? { MainMay(p.state, step.status); }
    OneStepOnly(c, p, step);
    hide Enabled, Apply, OthersDo, Command;
  }

  lemma OneStepOnly(c: Config, p: Course, step: Step)
    ensures OthersDo(c, TheMain, p, [step]) == OneOther(c, TheMain, p, step)
  {
    hide OneOther;
    assert [step][..0] == [];
    assert OthersDo(c, TheMain, p, [step][..|[step]| - 1]) == p;
  }

  lemma MainMay(s: State, status: int)
    requires Enabled(s, MainStep(true, status))
    ensures Enabled(s, MainStep(true, 1))
  {
    hide GroupRunning;
  }

  lemma OneMoreTurn(c: Config, turns: seq<Turn>, turn: Turn)
    ensures Play(c, TheMain, START, turns + [turn]) == PlayTurn(c, TheMain, Play(c, TheMain, START, turns), turn)
  {
    hide PlayTurn;
    assert (turns + [turn])[..|turns|] == turns;
  }
}
