/** Every step of every process keeps the invariant. */
module CaptureSteps {
  import opened Basics
  import opened CaptureNames
  import opened CaptureModel
  import opened CaptureInvariant

  // ---------------------------------------------------------------- what a step leaves alone

  predicate SameFiles(s: State, t: State) {
    && t.raw == s.raw && t.part == s.part && t.final == s.final
    && SameCapture(s, t) && Cleaned(t) == Cleaned(s)
  }

  predicate SameCapture(s: State, t: State) {
    t.td == s.td && t.created == s.created && t.captured == s.captured
  }

  predicate SameMain(s: State, t: State) {
    t.m == s.m && t.pending == s.pending && t.aborted == s.aborted
  }

  lemma FilesFrame(c: Config, s: State, t: State)
    requires Files(c, s) && SameFiles(s, t)
    ensures Files(c, t)
  {}

  /** No process of the main script is involved, the group does not grow, and files are only published. */
  lemma MainFrame(c: Config, s: State, t: State)
    requires Phase(s) && Progress(c, s) && ControlOk(c, s)
    requires SameMain(s, t) && t.td == s.td && t.created == s.created && s.final.Keys <= t.final.Keys
    requires GroupRunning(t) ==> GroupRunning(s)
    ensures Phase(t) && Progress(c, t) && ControlOk(c, t)
  {}

  lemma ProgressFrame(c: Config, s: State, t: State)
    requires Progress(c, s) && t.m.pc == s.m.pc && t.m.control == s.m.control && t.created == s.created
    requires s.final.Keys <= t.final.Keys
    ensures Progress(c, t)
  {}

  // ---------------------------------------------------------------- building blocks for handlers

  predicate Moved(s: State, t: State, p: Pid, pc: HandlerPc)
    requires p in s.procs && s.procs[p].Handler?
  {
    t == s.(procs := s.procs[p := s.procs[p].(pc := pc)])
  }

  lemma MoveKeepsProcs(c: Config, s: State, p: Pid, pc: HandlerPc, t: State)
    requires Procs(c, s) && p in s.procs && s.procs[p].Handler? && Moved(s, t, p, pc)
    requires HandlerOk(c, s, s.procs[p].(pc := pc))
    ensures Procs(c, t)
  {
    forall q | q in t.procs
      ensures if t.procs[q].Handler? then HandlerOk(c, t, t.procs[q]) else XzOk(c, t, t.procs[q])
    {
      if q != p { assert t.procs[q] == s.procs[q]; }
    }
  }

  predicate KeepsChild(s: State, p: Pid, pc: HandlerPc)
    requires p in s.procs && s.procs[p].Handler?
  {
    || ChildOf(pc) == ChildOf(s.procs[p].pc)
    || (ChildOf(pc) == None && ChildOf(s.procs[p].pc).Some? && ChildOf(s.procs[p].pc).value !in s.procs)
  }

  lemma MoveKeepsUnique(s: State, p: Pid, pc: HandlerPc, t: State)
    requires Unique(s) && p in s.procs && s.procs[p].Handler? && Moved(s, t, p, pc) && KeepsChild(s, p, pc)
    ensures Unique(t)
  {
    forall q, r | q in t.procs && r in t.procs && q != r && t.procs[q].index == t.procs[r].index
      ensures ParentOf(t, q, r) || ParentOf(t, r, q)
    {
      assert ParentOf(s, q, r) || ParentOf(s, r, q);
    }
  }

  lemma MoveKeepsRecovery(c: Config, s: State, p: Pid, pc: HandlerPc, t: State)
    requires Recovery(c, s) && p in s.procs && s.procs[p].Handler? && Moved(s, t, p, pc) && KeepsChild(s, p, pc)
    ensures Recovery(c, t)
  {
    forall q | q in t.procs && !t.procs[q].inGroup ensures OutsiderOk(t, q) {
      assert OutsiderOk(s, q);
    }
  }

  lemma MoveKeepsGroup(s: State, p: Pid, pc: HandlerPc, t: State)
    requires p in s.procs && s.procs[p].Handler? && Moved(s, t, p, pc)
    ensures GroupRunning(t) == GroupRunning(s)
    ensures Pids(s) ==> Pids(t)
  {
    if q :| q in s.procs && s.procs[q].inGroup { assert t.procs[q].inGroup; }
    if q :| q in t.procs && t.procs[q].inGroup { assert s.procs[q].inGroup; }
  }

  /** Handler `p` moves on without touching a file. */
  lemma HandlerMoves(c: Config, s: State, p: Pid, pc: HandlerPc)
    requires Inv(c, s) && p in s.procs && s.procs[p].Handler?
    requires HandlerOk(c, s, s.procs[p].(pc := pc)) && KeepsChild(s, p, pc)
    ensures Inv(c, s.(procs := s.procs[p := s.procs[p].(pc := pc)]))
  {
    hide Files, Procs, Unique, Phase, Recovery, Progress, ControlOk, HandlerOk, KeepsChild, GroupRunning, Pids;
    var t := s.(procs := s.procs[p := s.procs[p].(pc := pc)]);
    FilesFrame(c, s, t);
    MoveKeepsProcs(c, s, p, pc, t);
    MoveKeepsUnique(s, p, pc, t);
    MoveKeepsRecovery(c, s, p, pc, t);
    MoveKeepsGroup(s, p, pc, t);
    MainFrame(c, s, t);
  }

  // ---------------------------------------------------------------- processes that end

  /** The xz that loses its recovery handler when process `p` ends. */
  function Deserted(s: State, p: Pid): set<Pid>
    requires p in s.procs
  {
    var h := s.procs[p];
    if h.Handler? && !h.inGroup && ChildOf(h.pc).Some? && ChildOf(h.pc).value in s.procs
    then {ChildOf(h.pc).value} else {}
  }

  predicate Ended(s: State, t: State, p: Pid, status: int)
    requires p in s.procs
  {
    t == End(s, p, status).(orphans := s.orphans + Deserted(s, p))
  }

  lemma EndKeepsProcs(c: Config, s: State, p: Pid, status: int, t: State)
    requires Procs(c, s) && Pids(s) && p in s.procs && Ended(s, t, p, status)
    requires s.procs[p].Xz? ==> status != 0
    ensures Procs(c, t) && Pids(t)
  {
    forall q | q in t.procs
      ensures if t.procs[q].Handler? then HandlerOk(c, t, t.procs[q]) else XzOk(c, t, t.procs[q])
    {
      assert t.procs[q] == s.procs[q];
    }
  }

  lemma EndKeepsUnique(s: State, p: Pid, status: int, t: State)
    requires Unique(s) && p in s.procs && Ended(s, t, p, status)
    ensures Unique(t)
  {}

  lemma EndKeepsRecovery(c: Config, s: State, p: Pid, status: int, t: State)
    requires Recovery(c, s) && p in s.procs && Ended(s, t, p, status)
    requires RecPid(s) == Some(p) && status == 0 ==> s.procs[p].index in s.final
    ensures Recovery(c, t)
  {
    forall q | q in t.procs && !t.procs[q].inGroup ensures OutsiderOk(t, q) {
      assert OutsiderOk(s, q);
    }
  }

  lemma EndKeepsGroup(s: State, p: Pid, status: int, t: State)
    requires p in s.procs && Ended(s, t, p, status)
    ensures GroupRunning(t) ==> GroupRunning(s)
  {}

  /** A handler ends, or an xz is killed. */
  lemma ProcessEnds(c: Config, s: State, p: Pid, status: int)
    requires Inv(c, s) && p in s.procs && (s.procs[p].Xz? ==> status != 0)
    requires RecPid(s) == Some(p) && status == 0 ==> s.procs[p].index in s.final
    ensures Inv(c, End(s, p, status).(orphans := s.orphans + Deserted(s, p)))
  {
    hide Files, Procs, Unique, Phase, Recovery, Progress, ControlOk, GroupRunning, Pids, Deserted;
    var t := End(s, p, status).(orphans := s.orphans + Deserted(s, p));
    FilesFrame(c, s, t);
    EndKeepsProcs(c, s, p, status, t);
    EndKeepsUnique(s, p, status, t);
    EndKeepsRecovery(c, s, p, status, t);
    EndKeepsGroup(s, p, status, t);
    MainFrame(c, s, t);
  }

  /** A handler that waits for nobody leaves no orphan. */
  lemma HandlerEnds(c: Config, s: State, p: Pid, status: int)
    requires Inv(c, s) && p in s.procs && s.procs[p].Handler? && ChildOf(s.procs[p].pc) == None
    requires RecPid(s) == Some(p) && status == 0 ==> s.procs[p].index in s.final
    ensures Inv(c, End(s, p, status))
  {
    hide Inv;
    ProcessEnds(c, s, p, status);
    assert s.orphans + {} == s.orphans;
    assert End(s, p, status).(orphans := s.orphans) == End(s, p, status);
  }

  // ---------------------------------------------------------------- xz

  lemma DoneKeepsProcs(c: Config, s: State, p: Pid, t: State)
    requires Procs(c, s) && Pids(s) && Unique(s) && Enabled(s, XzDone(p)) && t == Apply(c, s, XzDone(p))
    ensures Procs(c, t) && Pids(t)
  {
    var i := s.procs[p].index;
    forall q | q in t.procs
      ensures if t.procs[q].Handler? then HandlerOk(c, t, t.procs[q]) else XzOk(c, t, t.procs[q])
    {
      assert t.procs[q] == s.procs[q];
      if s.procs[q].index == i { assert ParentOf(s, q, p) || ParentOf(s, p, q); }
    }
  }

  lemma DoneKeepsFiles(c: Config, s: State, p: Pid, t: State)
    requires Files(c, s) && Procs(c, s) && Enabled(s, XzDone(p)) && t == Apply(c, s, XzDone(p))
    ensures Files(c, t)
  {
    var i := s.procs[p].index;
    assert XzOk(c, s, s.procs[p]);
    assert t == End(s, p, 0).(part := if i in s.part then s.part[i := Complete(s.procs[p].input)] else s.part);
    hide Procs, Files, Apply, Enabled;
    if i in s.part {
      PartCompleted(c, s, i, t);
    } else {
      FilesFrame(c, s, t);
    }
  }

  lemma PartCompleted(c: Config, s: State, i: nat, t: State)
    requires Files(c, s) && i in s.part && i in s.captured && Closed(s, i)
    requires t.part == s.part[i := Complete(s.captured[i])] && t.raw == s.raw && t.final == s.final
    requires SameCapture(s, t) && Cleaned(t) == Cleaned(s)
    ensures Files(c, t)
  {}

  lemma XzDoneKeepsInv(c: Config, s: State, p: Pid)
    requires Inv(c, s) && Enabled(s, XzDone(p))
    ensures Inv(c, Apply(c, s, XzDone(p)))
  {
    hide Files, Procs, Unique, Phase, Recovery, Progress, ControlOk, GroupRunning, Pids;
    var t := Apply(c, s, XzDone(p));
    var u := End(s, p, 0).(orphans := s.orphans + Deserted(s, p));
    assert s.orphans + {} == s.orphans;
    DoneKeepsFiles(c, s, p, t);
    DoneKeepsProcs(c, s, p, t);
    EndKeepsUnique(s, p, 0, u);
    UniqueFrame(u, t);
    RecPidIsNoXz(c, s, p);
    EndKeepsRecovery(c, s, p, 0, u);
    RecoveryFrame(c, u, t);
    EndKeepsGroup(s, p, 0, u);
    GroupFrame(u, t);
    MainFrame(c, s, t);
  }

  lemma RecPidIsNoXz(c: Config, s: State, p: Pid)
    requires Recovery(c, s) && p in s.procs && s.procs[p].Xz?
    ensures RecPid(s) != Some(p)
  {}

  lemma UniqueFrame(s: State, t: State)
    requires Unique(s) && t.procs == s.procs
    ensures Unique(t)
  {}

  lemma RecoveryFrame(c: Config, s: State, t: State)
    requires Recovery(c, s) && t.procs == s.procs && t.exits == s.exits && t.nextPid == s.nextPid
    requires t.m.pc == s.m.pc && t.m.finalGzip == s.m.finalGzip && t.orphans == s.orphans && s.final.Keys <= t.final.Keys
    requires s.m.pc.RecSpawn? ==> (s.m.pc.i in s.raw ==> s.m.pc.i in t.raw) && (s.m.pc.i in t.final ==> s.m.pc.i in s.final)
    ensures Recovery(c, t)
  {}

  lemma GroupFrame(s: State, t: State)
    requires t.procs == s.procs && t.td == s.td
    ensures GroupRunning(t) == GroupRunning(s)
  {}

  lemma XzReadKeepsInv(c: Config, s: State, p: Pid)
    requires Inv(c, s) && Enabled(s, XzRead(p))
    ensures Inv(c, Apply(c, s, XzRead(p)))
  {
    hide Files, Procs, Unique, Phase, Recovery, Progress, ControlOk, GroupRunning, Pids;
    var t := Apply(c, s, XzRead(p));
    FilesFrame(c, s, t);
    ReadKeepsProcs(c, s, p, t);
    ReadKeepsOthers(c, s, p, t);
    MainFrame(c, s, t);
  }

  lemma ReadKeepsProcs(c: Config, s: State, p: Pid, t: State)
    requires Procs(c, s) && Pids(s) && Enabled(s, XzRead(p)) && t == Apply(c, s, XzRead(p))
    ensures Procs(c, t) && Pids(t)
  {
    forall q | q in t.procs
      ensures if t.procs[q].Handler? then HandlerOk(c, t, t.procs[q]) else XzOk(c, t, t.procs[q])
    {
      if q != p { assert t.procs[q] == s.procs[q]; }
    }
  }

  lemma ReadKeepsOthers(c: Config, s: State, p: Pid, t: State)
    requires Unique(s) && Recovery(c, s) && Enabled(s, XzRead(p)) && t == Apply(c, s, XzRead(p))
    ensures Unique(t) && Recovery(c, t) && (GroupRunning(t) ==> GroupRunning(s))
  {
    forall q, r | q in t.procs && r in t.procs && q != r && t.procs[q].index == t.procs[r].index
      ensures ParentOf(t, q, r) || ParentOf(t, r, q)
    {
      assert ParentOf(s, q, r) || ParentOf(s, r, q);
    }
    forall q | q in t.procs && !t.procs[q].inGroup ensures OutsiderOk(t, q) {
      assert OutsiderOk(s, q);
    }
    if q :| q in t.procs && t.procs[q].inGroup { assert s.procs[q].inGroup; }
  }

  // ---------------------------------------------------------------- signals

  lemma SignalArrives(c: Config, s: State, sig: Signal)
    requires Inv(c, s) && (sig == USR1 ==> s.created >= c.maxFiles)
    ensures Inv(c, Signalled(s, sig))
  {
    hide Files, Procs, Unique, Phase, Recovery, Progress, GroupRunning, Pids;
    var t := Signalled(s, sig);
    FilesFrame(c, s, t);
    ProcsFrame(c, s, t);
    UniqueFrame(s, t);
    RecoveryFrame(c, s, t);
    GroupFrame(s, t);
    PhaseFrame(s, t);
    ProgressFrame(c, s, t);
  }

  lemma ProcsFrame(c: Config, s: State, t: State)
    requires Procs(c, s) && Pids(s) && SameFiles(s, t)
    requires t.procs == s.procs && t.exits == s.exits && t.nextPid == s.nextPid
    ensures Procs(c, t) && Pids(t)
  {}

  lemma PhaseFrame(s: State, t: State)
    requires Phase(s) && t.m.pc == s.m.pc && t.m.reaped == s.m.reaped && t.td == s.td && GroupRunning(t) == GroupRunning(s)
    requires s.m.control.mode == Immediate ==> t.m.control.mode == Immediate
    ensures Phase(t)
  {}

  lemma SignalHandled(c: Config, s: State, sig: Signal)
    requires Inv(c, s) && Enabled(s, Handle(sig))
    ensures Inv(c, Apply(c, s, Handle(sig)))
  {
    hide Files, Procs, Unique, Phase, Recovery, GroupRunning, Pids;
    var t := Apply(c, s, Handle(sig));
    FilesFrame(c, s, t);
    ProcsFrame(c, s, t);
    UniqueFrame(s, t);
    RecoveryFrame(c, s, t);
    GroupFrame(s, t);
    PhaseFrame(s, t);
    HandleKeepsProgress(c, s, sig, t);
  }

  lemma HandleKeepsProgress(c: Config, s: State, sig: Signal, t: State)
    requires Progress(c, s) && ControlOk(c, s) && Enabled(s, Handle(sig)) && t == Apply(c, s, Handle(sig))
    requires Phase(s)
    ensures Progress(c, t) && ControlOk(c, t)
  {
    hide GroupRunning;
    ProgressFrame(c, s, s.(final := t.final));
  }

  // ---------------------------------------------------------------- handler commands on files

  /** Handler `p` is the only process that works on its index. */
  predicate Alone(s: State, p: Pid) {
    p in s.procs && forall q | q in s.procs && q != p :: s.procs[q].index != s.procs[p].index
  }

  lemma ChildlessIsAlone(c: Config, s: State, p: Pid)
    requires Unique(s) && p in s.procs && s.procs[p].Handler?
    requires ChildOf(s.procs[p].pc).Some? ==> ChildOf(s.procs[p].pc).value !in s.procs
    ensures Alone(s, p)
  {}

  /** The partial file of an index goes away. */
  lemma PartRemoved(c: Config, s: State, p: Pid)
    requires Inv(c, s) && Alone(s, p) && s.procs[p].Handler?
    requires !s.procs[p].pc.Publish? && !s.procs[p].pc.Wait?
    ensures Inv(c, s.(part := s.part - {s.procs[p].index}))
  {
    assert p in s.procs;
    hide Files, Procs, Pids, Unique, Phase, Recovery, Progress, ControlOk, GroupRunning, Alone;
    var t := s.(part := s.part - {s.procs[p].index});
    PartRemovedProcs(c, s, p, t);
    PartRemovedFiles(c, s, p, t);
    UniqueFrame(s, t);
    RecoveryFrame(c, s, t);
    GroupFrame(s, t);
    MainFrame(c, s, t);
  }

  lemma PartRemovedFiles(c: Config, s: State, p: Pid, t: State)
    requires Files(c, s) && p in s.procs && t == s.(part := s.part - {s.procs[p].index})
    ensures Files(c, t)
  {}

  lemma PartRemovedProcs(c: Config, s: State, p: Pid, t: State)
    requires Procs(c, s) && Pids(s) && Alone(s, p) && s.procs[p].Handler?
    requires !s.procs[p].pc.Publish? && !s.procs[p].pc.Wait?
    requires t == s.(part := s.part - {s.procs[p].index})
    ensures Procs(c, t) && Pids(t)
  {}

  /** xz starts and creates the partial file. */
  lemma SpawnKeepsInv(c: Config, s: State, p: Pid, ok: bool, status: int)
    requires Inv(c, s) && Enabled(s, HandlerStep(p, ok, status)) && s.procs[p].pc.Spawn?
    ensures Inv(c, Apply(c, s, HandlerStep(p, ok, status)))
  {
    hide Files, Procs, Unique, Phase, Recovery, Progress, ControlOk, GroupRunning, Pids, HandlerOk, Alone;
    var t := Apply(c, s, HandlerStep(p, ok, status));
    ChildlessIsAlone(c, s, p);
    SpawnKeepsFiles(c, s, p, t);
    SpawnKeepsProcs(c, s, p, t);
    SpawnKeepsOthers(c, s, p, t);
    MainFrame(c, s, t);
  }

  predicate Spawned(s: State, t: State, p: Pid)
    requires p in s.procs && s.procs[p].Handler? && s.procs[p].index in s.raw
  {
    var h := s.procs[p];
    var i := h.index;
    t == Launch(s.(part := s.part[i := Partial], procs := s.procs[p := h.(pc := Wait(s.nextPid))]),
                Xz(i, h.inGroup, s.raw[i], |s.raw[i]|))
  }

  lemma SpawnKeepsFiles(c: Config, s: State, p: Pid, t: State)
    requires Files(c, s) && Procs(c, s) && p in s.procs && s.procs[p].Handler? && s.procs[p].pc.Spawn?
    requires t == HandlerCommand(c, s, p, true, 1) || t == HandlerCommand(c, s, p, false, 1)
    ensures Files(c, t) && s.procs[p].index in s.raw && Spawned(s, t, p)
  {
    assert HandlerOk(c, s, s.procs[p]);
  }

  lemma SpawnKeepsProcs(c: Config, s: State, p: Pid, t: State)
    requires Files(c, s) && Procs(c, s) && Pids(s) && Alone(s, p) && s.procs[p].Handler? && s.procs[p].pc.Spawn?
    requires s.procs[p].index in s.raw && Spawned(s, t, p)
    ensures Procs(c, t) && Pids(t)
  {
    assert HandlerOk(c, s, s.procs[p]);
    forall q | q in t.procs
      ensures if t.procs[q].Handler? then HandlerOk(c, t, t.procs[q]) else XzOk(c, t, t.procs[q])
    {
      if q != p && q != s.nextPid { assert t.procs[q] == s.procs[q]; }
    }
  }

  lemma SpawnKeepsOthers(c: Config, s: State, p: Pid, t: State)
    requires Unique(s) && Pids(s) && Recovery(c, s) && Alone(s, p) && s.procs[p].Handler? && s.procs[p].pc.Spawn?
    requires s.procs[p].index in s.raw && Spawned(s, t, p)
    ensures Unique(t) && Recovery(c, t) && (GroupRunning(t) ==> GroupRunning(s))
  {
    var x := s.nextPid;
    forall q, r | q in t.procs && r in t.procs && q != r && t.procs[q].index == t.procs[r].index
      ensures ParentOf(t, q, r) || ParentOf(t, r, q)
    {
      if q != x && r != x { assert ParentOf(s, q, r) || ParentOf(s, r, q); }
    }
    forall q | q in t.procs && !t.procs[q].inGroup ensures OutsiderOk(t, q) {
      assert OutsiderOk(s, if q == x then p else q);
    }
    if q :| q in t.procs && t.procs[q].inGroup { assert s.procs[if q == x then p else q].inGroup; }
  }

  /** mv publishes the complete file. */
  lemma PublishKeepsInv(c: Config, s: State, p: Pid)
    requires Inv(c, s) && p in s.procs && Alone(s, p) && s.procs[p].Handler? && s.procs[p].pc.Publish?
    ensures Inv(c, HandlerCommand(c, s, p, true, 1))
    ensures s.procs[p].index !in s.final
  {
    hide Files, Procs, Unique, Phase, Recovery, Progress, ControlOk, GroupRunning, Pids, HandlerOk, Alone;
    var t := HandlerCommand(c, s, p, true, 1);
    PublishKeepsFiles(c, s, p, t);
    PublishKeepsProcs(c, s, p, t);
    var u := s.(procs := t.procs);
    assert Moved(s, u, p, RemoveRaw);
    MoveKeepsUnique(s, p, RemoveRaw, u);
    UniqueFrame(u, t);
    MoveKeepsRecovery(c, s, p, RemoveRaw, u);
    NotAtSpawn(c, s, p);
    RecoveryFrame(c, u, t);
    MoveKeepsGroup(s, p, RemoveRaw, u);
    GroupFrame(u, t);
    MainFrame(c, s, t);
  }

  lemma PublishKeepsFiles(c: Config, s: State, p: Pid, t: State)
    requires Files(c, s) && Procs(c, s) && p in s.procs && s.procs[p].Handler? && s.procs[p].pc.Publish?
    requires t == HandlerCommand(c, s, p, true, 1)
    ensures Files(c, t)
    ensures s.procs[p].index !in s.final && s.procs[p].index in s.part
    ensures t == s.(final := s.final[s.procs[p].index := s.part[s.procs[p].index]],
                    part := s.part - {s.procs[p].index},
                    procs := s.procs[p := s.procs[p].(pc := RemoveRaw)])
  {
    assert HandlerOk(c, s, s.procs[p]);
  }

  lemma PublishKeepsProcs(c: Config, s: State, p: Pid, t: State)
    requires Procs(c, s) && Pids(s) && Alone(s, p) && s.procs[p].Handler? && s.procs[p].pc.Publish?
    requires t == HandlerCommand(c, s, p, true, 1)
    ensures Procs(c, t) && Pids(t)
  {
    assert HandlerOk(c, s, s.procs[p]);
    forall q | q in t.procs
      ensures if t.procs[q].Handler? then HandlerOk(c, t, t.procs[q]) else XzOk(c, t, t.procs[q])
    {
      if q != p { assert t.procs[q] == s.procs[q]; }
    }
  }

  /** While a handler works, the main script is not about to start another one. */
  lemma NotAtSpawn(c: Config, s: State, p: Pid)
    requires Recovery(c, s) && Phase(s) && p in s.procs && s.procs[p].Handler?
    ensures !s.m.pc.RecSpawn?
  {}

  /** The raw file of a published index goes away once nobody works on the index. */
  lemma RawRemoved(c: Config, s: State, i: nat)
    requires Inv(c, s) && i in s.final && forall q | q in s.procs :: s.procs[q].index != i
    ensures Inv(c, s.(raw := s.raw - {i}))
  {
    hide Files, Procs, Pids, Unique, Phase, Recovery, Progress, ControlOk, GroupRunning;
    var t := s.(raw := s.raw - {i});
    RawRemovedFiles(c, s, i, t);
    RawRemovedProcs(c, s, i, t);
    UniqueFrame(s, t);
    SpawnIsUnpublished(c, s);
    RecoveryFrame(c, s, t);
    GroupFrame(s, t);
    MainFrame(c, s, t);
  }

  lemma RawRemovedFiles(c: Config, s: State, i: nat, t: State)
    requires Files(c, s) && i in s.final && t == s.(raw := s.raw - {i})
    ensures Files(c, t)
  {}

  lemma RawRemovedProcs(c: Config, s: State, i: nat, t: State)
    requires Procs(c, s) && Pids(s) && (forall q | q in s.procs :: s.procs[q].index != i) && t == s.(raw := s.raw - {i})
    ensures Procs(c, t) && Pids(t)
  {
    forall q | q in t.procs
      ensures if t.procs[q].Handler? then HandlerOk(c, t, t.procs[q]) else XzOk(c, t, t.procs[q])
    {
      assert t.procs[q].index != i;
    }
  }

  lemma SpawnIsUnpublished(c: Config, s: State)
    requires Recovery(c, s)
    ensures s.m.pc.RecSpawn? ==> s.m.pc.i !in s.final
  {}

  // ---------------------------------------------------------------- one command of a handler

  lemma HandlerStepKeepsInv(c: Config, s: State, p: Pid, ok: bool, status: int)
    requires Inv(c, s) && Enabled(s, HandlerStep(p, ok, status))
    ensures Inv(c, Apply(c, s, HandlerStep(p, ok, status)))
  {
    hide Inv, HandlerCommand;
    match s.procs[p].pc
    case Start => StartKeepsInv(c, s, p, ok, status);
    case CheckDest => CheckKeepsInv(c, s, p, ok, status);
    case Notify => NotifyKeepsInv(c, s, p, ok, status);
    case Clean => CleanKeepsInv(c, s, p, ok, status);
    case Spawn => SpawnKeepsInv(c, s, p, ok, status);
    case Wait(_) => WaitKeepsInv(c, s, p, ok, status);
    case Discard(rc) => DiscardKeepsInv(c, s, p, ok, status);
    case Publish => FinishKeepsInv(c, s, p, ok, status);
    case RemoveRaw => RemoveKeepsInv(c, s, p, ok, status);
    case TrapKill(_, _) => TrapKeepsInv(c, s, p, ok, status);
    case TrapWait(_, _) => TrapKeepsInv(c, s, p, ok, status);
    case TrapClean(_) => TrapCleanKeepsInv(c, s, p, ok, status);
  }

  lemma StartKeepsInv(c: Config, s: State, p: Pid, ok: bool, status: int)
    requires Inv(c, s) && p in s.procs && s.procs[p].Handler? && s.procs[p].pc.Start?
    ensures Inv(c, HandlerCommand(c, s, p, ok, status))
  {
    hide Inv, RawName, GetIndex;
    IndexOfRawName(c.rawMask, s.procs[p].index);
    HandlerFacts(c, s, p);
    if s.procs[p].index >= c.maxFiles {
      SignalArrives(c, s, USR1);
      HandlerEnds(c, Signalled(s, USR1), p, 0);
    } else {
      HandlerMoves(c, s, p, CheckDest);
    }
  }

  /** What the invariant says about handler `p` at its program point. */
  lemma HandlerFacts(c: Config, s: State, p: Pid)
    requires Inv(c, s) && p in s.procs && s.procs[p].Handler?
    ensures HandlerOk(c, s, s.procs[p]) && Closed(s, s.procs[p].index) && s.td != Opening(s.procs[p].index)
    ensures RecPid(s) == Some(p) ==> s.procs[p].index < c.maxFiles
  {}

  lemma CheckKeepsInv(c: Config, s: State, p: Pid, ok: bool, status: int)
    requires Inv(c, s) && p in s.procs && s.procs[p].Handler? && s.procs[p].pc.CheckDest?
    ensures Inv(c, HandlerCommand(c, s, p, ok, status))
  {
    hide Inv;
    HandlerFacts(c, s, p);
    HandlerMoves(c, s, p, Notify);
  }

  lemma NotifyKeepsInv(c: Config, s: State, p: Pid, ok: bool, status: int)
    requires Inv(c, s) && p in s.procs && s.procs[p].Handler? && s.procs[p].pc.Notify?
    ensures Inv(c, HandlerCommand(c, s, p, ok, status))
  {
    hide Inv;
    HandlerFacts(c, s, p);
    if s.procs[p].index + 1 == c.maxFiles {
      SignalArrives(c, s, USR1);
      HandlerMoves(c, Signalled(s, USR1), p, Clean);
    } else {
      HandlerMoves(c, s, p, Clean);
    }
  }

  lemma CleanKeepsInv(c: Config, s: State, p: Pid, ok: bool, status: int)
    requires Inv(c, s) && p in s.procs && s.procs[p].Handler? && s.procs[p].pc.Clean?
    ensures Inv(c, HandlerCommand(c, s, p, ok, status))
  {
    hide Files, Procs, Pids, Unique, Phase, Recovery, Progress, ControlOk, GroupRunning, Alone;
    HandlerFacts(c, s, p);
    ChildlessIsAlone(c, s, p);
    hide Inv;
    PartRemoved(c, s, p);
    HandlerMoves(c, s.(part := s.part - {s.procs[p].index}), p, Spawn);
  }

  lemma WaitKeepsInv(c: Config, s: State, p: Pid, ok: bool, status: int)
    requires Inv(c, s) && Enabled(s, HandlerStep(p, ok, status)) && s.procs[p].pc.Wait?
    ensures Inv(c, HandlerCommand(c, s, p, ok, status))
  {
    hide Inv;
    HandlerFacts(c, s, p);
    var x := s.procs[p].pc.xz;
    var rc := if ok && x in s.exits then s.exits[x] else status;
    HandlerMoves(c, s, p, if rc == 0 then Publish else Discard(rc));
  }

  lemma DiscardKeepsInv(c: Config, s: State, p: Pid, ok: bool, status: int)
    requires Inv(c, s) && p in s.procs && s.procs[p].Handler? && s.procs[p].pc.Discard?
    ensures Inv(c, HandlerCommand(c, s, p, ok, status))
  {
    hide Files, Procs, Pids, Unique, Phase, Recovery, Progress, ControlOk, GroupRunning, Alone;
    HandlerFacts(c, s, p);
    ChildlessIsAlone(c, s, p);
    hide Inv;
    PartRemoved(c, s, p);
    HandlerEnds(c, s.(part := s.part - {s.procs[p].index}), p, s.procs[p].pc.rc);
  }

  lemma FinishKeepsInv(c: Config, s: State, p: Pid, ok: bool, status: int)
    requires Inv(c, s) && p in s.procs && s.procs[p].Handler? && s.procs[p].pc.Publish?
    ensures Inv(c, HandlerCommand(c, s, p, ok, status))
  {
    HandlerFacts(c, s, p);
    ChildlessIsAlone(c, s, p);
    hide Inv;
    if ok {
      PublishKeepsInv(c, s, p);
    } else {
      HandlerEnds(c, s, p, 1);
    }
  }

  lemma RemoveKeepsInv(c: Config, s: State, p: Pid, ok: bool, status: int)
    requires Inv(c, s) && p in s.procs && s.procs[p].Handler? && s.procs[p].pc.RemoveRaw?
    ensures Inv(c, HandlerCommand(c, s, p, ok, status))
  {
    HandlerFacts(c, s, p);
    ChildlessIsAlone(c, s, p);
    hide Inv;
    if ok {
      HandlerEnds(c, s, p, 0);
      RawRemoved(c, End(s, p, 0), s.procs[p].index);
    } else {
      HandlerEnds(c, s, p, 1);
    }
  }

  lemma TrapKeepsInv(c: Config, s: State, p: Pid, ok: bool, status: int)
    requires Inv(c, s) && Enabled(s, HandlerStep(p, ok, status)) && (s.procs[p].pc.TrapKill? || s.procs[p].pc.TrapWait?)
    ensures Inv(c, HandlerCommand(c, s, p, ok, status))
  {
    hide Inv;
    HandlerFacts(c, s, p);
    HandlerMoves(c, s, p, HandlerCommand(c, s, p, ok, status).procs[p].pc);
  }

  lemma TrapCleanKeepsInv(c: Config, s: State, p: Pid, ok: bool, status: int)
    requires Inv(c, s) && p in s.procs && s.procs[p].Handler? && s.procs[p].pc.TrapClean?
    ensures Inv(c, HandlerCommand(c, s, p, ok, status))
  {
    ChildlessIsAlone(c, s, p);
    hide Inv;
    if s.procs[p].pc.tmp {
      PartRemoved(c, s, p);
      HandlerEnds(c, s.(part := s.part - {s.procs[p].index}), p, EXIT_SIGTERM);
    } else {
      HandlerEnds(c, s, p, EXIT_SIGTERM);
    }
  }

  lemma HandlerTermKeepsInv(c: Config, s: State, p: Pid)
    requires Inv(c, s) && Enabled(s, HandlerTerm(p))
    ensures Inv(c, Apply(c, s, HandlerTerm(p)))
  {
    hide Inv;
    HandlerFacts(c, s, p);
    HandlerMoves(c, s, p, TrapKill(ChildOf(s.procs[p].pc), TmpSet(s.procs[p].pc)));
  }
}
