/** A handler that nobody disturbs can run to its end: the raw file becomes the published one and nothing else is left. */
module CaptureHandler {
  import opened CaptureModel
  import opened CaptureTermination

  /** Handler `p` is through: file `i` was published with content `bytes` and its other forms are gone. */
  predicate Through(s: State, t: State, p: Pid, i: nat, bytes: Bytes) {
    && t.raw == s.raw - {i} && t.part == s.part - {i} && t.final == s.final[i := Complete(bytes)]
    && p !in t.procs && p in t.exits && t.exits[p] == 0
  }

  ghost predicate CanFinish(c: Config, s: State, p: Pid, i: nat, bytes: Bytes) {
    exists steps, t :: Run(c, s, steps, t) && Through(s, t, p, i, bytes)
  }

  lemma Before(c: Config, s: State, step: Step, u: State, p: Pid, i: nat, bytes: Bytes)
    requires Enabled(s, step) && u == Apply(c, s, step) && CanFinish(c, u, p, i, bytes)
    requires u.raw == s.raw && u.final == s.final && u.part - {i} == s.part - {i}
    ensures CanFinish(c, s, p, i, bytes)
  {
    hide Enabled, Apply, Run;
    var steps, t :| Run(c, u, steps, t) && Through(u, t, p, i, bytes);
    RunPrepend(c, s, step, steps, t);
    assert Through(s, t, p, i, bytes);
  }

  lemma FromPublish(c: Config, s: State, p: Pid, i: nat)
    requires p in s.procs && s.procs[p].Handler? && s.procs[p].index == i && s.procs[p].pc.Publish?
    requires i in s.part && s.part[i].Complete?
    ensures CanFinish(c, s, p, i, s.part[i].content)
  {
    var h := s.procs[p];
    var u := s.(final := s.final[i := s.part[i]], part := s.part - {i}, procs := s.procs[p := h.(pc := RemoveRaw)]);
    var t := End(u, p, 0).(raw := u.raw - {i});
    assert u == Apply(c, s, HandlerStep(p, true, 1));
    assert t == Apply(c, u, HandlerStep(p, true, 1));
    OneStep(c, u, HandlerStep(p, true, 1));
    RunPrepend(c, s, HandlerStep(p, true, 1), [HandlerStep(p, true, 1)], t);
    assert Through(s, t, p, i, s.part[i].content);
    hide Run, Apply;
  }

  lemma FromWait(c: Config, s: State, p: Pid, i: nat, x: Pid)
    requires p in s.procs && s.procs[p] == Handler(i, s.procs[p].inGroup, Wait(x))
    requires x !in s.procs && x in s.exits && s.exits[x] == 0 && i in s.part && s.part[i].Complete?
    ensures CanFinish(c, s, p, i, s.part[i].content)
  {
    var u := s.(procs := s.procs[p := s.procs[p].(pc := Publish)]);
    FromPublish(c, u, p, i);
    hide CanFinish;
    Before(c, s, HandlerStep(p, true, 1), u, p, i, s.part[i].content);
  }

  /** xz works, `left` bytes before its end. */
  predicate Working(s: State, p: Pid, i: nat, x: Pid) {
    && p in s.procs && x in s.procs && p != x && s.procs[p] == Handler(i, s.procs[p].inGroup, Wait(x))
    && s.procs[x].Xz? && s.procs[x].index == i && i in s.part
  }

  lemma FromDone(c: Config, s: State, p: Pid, i: nat, x: Pid)
    requires Working(s, p, i, x) && s.procs[x].left == 0
    ensures CanFinish(c, s, p, i, s.procs[x].input)
  {
    var u := End(s, x, 0).(part := s.part[i := Complete(s.procs[x].input)]);
    FromWait(c, u, p, i, x);
    hide CanFinish;
    Before(c, s, XzDone(x), u, p, i, s.procs[x].input);
  }

  lemma {:induction false} FromWork(c: Config, s: State, p: Pid, i: nat, x: Pid)
    requires Working(s, p, i, x)
    ensures CanFinish(c, s, p, i, s.procs[x].input)
    decreases s.procs[x].left
  {
    hide CanFinish;
    if s.procs[x].left == 0 {
      FromDone(c, s, p, i, x);
    } else {
      var u := s.(procs := s.procs[x := s.procs[x].(left := s.procs[x].left - 1)]);
      FromWork(c, u, p, i, x);
      Before(c, s, XzRead(x), u, p, i, s.procs[x].input);
    }
  }

  lemma UndisturbedHandler(c: Config, s: State, p: Pid, i: nat)
    requires p in s.procs && s.procs[p] == Handler(i, s.procs[p].inGroup, Clean) && i in s.raw && p < s.nextPid
    ensures CanFinish(c, s, p, i, s.raw[i])
  {
    hide CanFinish;
    var g, x := s.procs[p].inGroup, s.nextPid;
    var u := s.(part := s.part - {i}, procs := s.procs[p := Handler(i, g, Spawn)]);
    var v := Launch(u.(part := u.part[i := Partial], procs := u.procs[p := Handler(i, g, Wait(x))]), Xz(i, g, s.raw[i], |s.raw[i]|));
    FromWork(c, v, p, i, x);
    SpawnBefore(c, u, p, i, v);
    Before(c, s, HandlerStep(p, true, 1), u, p, i, s.raw[i]);
  }

  lemma SpawnBefore(c: Config, u: State, p: Pid, i: nat, v: State)
    requires p in u.procs && u.procs[p] == Handler(i, u.procs[p].inGroup, Spawn) && i in u.raw
    requires v == Launch(u.(part := u.part[i := Partial], procs := u.procs[p := u.procs[p].(pc := Wait(u.nextPid))]),
                         Xz(i, u.procs[p].inGroup, u.raw[i], |u.raw[i]|))
    requires CanFinish(c, v, p, i, u.raw[i])
    ensures CanFinish(c, u, p, i, u.raw[i])
  {
    hide CanFinish;
    Before(c, u, HandlerStep(p, true, 1), v, p, i, u.raw[i]);
  }
}
