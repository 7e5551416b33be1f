/** What the wrappers compute is what the system shows: between the start of a call and its return, a client
    changes by what arrives for it and by nothing else, and the return shows the outcome of waiting for just
    that. */
module Calls {
  import opened Posix
  import opened Session
  import opened CacheServer
  import opened CacheSystem
  import opened SystemInvariant
  import C = CacheClient

  /** What a step brings to client `c`. */
  function ArrivalOf(cfg: Config, s: State, e: Step, c: nat): seq<C.Arrival>
    requires CanStep(cfg, s, e)
  {
    match e
    case Deliver(id) =>
      var m := s.msgs[id];
      if m.client != c then []
      else if m.OpenResp? then [C.Opened(m.lfd, m.sfd)]
      else [C.Answered(m.ret)]
    case BulkDone(id) => if s.msgs[id].client == c then [C.Pushed(s.msgs[id].data)] else []
    case _ => []
  }

  function ArrivalsOf(cfg: Config, s: State, steps: seq<Step>, s': State, c: nat): seq<C.Arrival>
    requires Run(cfg, s, steps, s')
    decreases |steps|
  {
    if steps == [] then []
    else ArrivalOf(cfg, s, steps[0], c) + ArrivalsOf(cfg, Do(cfg, s, steps[0]), steps[1..], s', c)
  }

  predicate Returns(e: Step, c: nat) {
    e.AppReturn? && e.c == c
  }

  /** A blocked client changes only by what arrives, and nothing arrives once it is answered. */
  lemma BlockedStep(cfg: Config, s: State, e: Step, c: nat)
    requires SystemOk(cfg, s) && CanStep(cfg, s, e) && !Returns(e, c)
    requires c < |s.clients| && !s.clients[c].phase.Idle?
    ensures c < |Do(cfg, s, e).clients|
    ensures var cl, cl', a := s.clients[c], Do(cfg, s, e).clients[c], ArrivalOf(cfg, s, e, c);
            && cl'.phase == cl.phase
            && (a == [] || |a| == 1)
            && (cl.done == 1 ==> a == [])
            && cl' == if a == [] then cl else C.Arrive(cl, a[0])
  {
    if e.Deliver? || e.BulkDone? {
      assert MsgOk(cfg, s, e.id, s.msgs[e.id]);
    }
  }

  lemma {:induction false} BlockedRun(cfg: Config, s: State, steps: seq<Step>, s': State, c: nat)
    requires SystemOk(cfg, s) && Run(cfg, s, steps, s')
    requires forall i :: 0 <= i < |steps| ==> !Returns(steps[i], c)
    requires c < |s.clients| && !s.clients[c].phase.Idle?
    ensures c < |s'.clients| && s'.clients[c] == C.Waited(s.clients[c], ArrivalsOf(cfg, s, steps, s', c))
    ensures s'.clients[c].phase == s.clients[c].phase
    decreases |steps|
  {
    if steps == [] {
    } else {
      var e, s1 := steps[0], Do(cfg, s, steps[0]);
      StepKeeps(cfg, s, e);
      BlockedStep(cfg, s, e, c);
      BlockedRun(cfg, s1, steps[1..], s', c);
      var a, rest := ArrivalOf(cfg, s, e, c), ArrivalsOf(cfg, s1, steps[1..], s', c);
      if a == [] {
        assert a + rest == rest;
      } else {
        assert (a + rest)[1..] == rest;
      }
    }
  }

  /** A call sends its request, and what its return shows is the outcome of waiting for what arrived. */
  lemma CallReturns(cfg: Config, s: State, c: nat, fd: int, call: Call, steps: seq<Step>, s': State, fallback: Result)
    requires Reachable(cfg, s) && CanStep(cfg, s, AppCall(c, fd, call))
    requires Run(cfg, Do(cfg, s, AppCall(c, fd, call)), steps, s')
    requires forall i :: 0 <= i < |steps| ==> !Returns(steps[i], c)
    requires CanStep(cfg, s', AppReturn(c, fallback))
    ensures var cl, s1 := s.clients[c], Do(cfg, s, AppCall(c, fd, call));
            var end := C.Waited(C.StartCall(cl, fd, call, s.next), ArrivalsOf(cfg, s1, steps, s', c));
            && s1.msgs == s.msgs[s.next := C.Request(cl, c, Host(cfg, cl.fdMap[fd]), fd, call)]
            && end.done == 1
            && Shows(cfg, s', AppReturn(c, fallback)) == [Answered(c, fd, call, C.Answer(end, call, fallback))]
            && Do(cfg, s', AppReturn(c, fallback)).clients[c] == C.Leave(end)
  {
    ReachableOk(cfg, s);
    StepKeeps(cfg, s, AppCall(c, fd, call));
    BlockedRun(cfg, Do(cfg, s, AppCall(c, fd, call)), steps, s', c);
  }

  /** Likewise for an open. */
  lemma OpenReturns(cfg: Config, s: State, c: nat, fd: int, path: Path, steps: seq<Step>, s': State, fallback: Result)
    requires Reachable(cfg, s) && CanStep(cfg, s, AppOpen(c, fd, path))
    requires Run(cfg, Do(cfg, s, AppOpen(c, fd, path)), steps, s')
    requires forall i :: 0 <= i < |steps| ==> !Returns(steps[i], c)
    requires CanStep(cfg, s', AppReturn(c, fallback))
    ensures var s1 := Do(cfg, s, AppOpen(c, fd, path));
            var end := C.Waited(C.StartOpen(s.clients[c], fd, path, s.next), ArrivalsOf(cfg, s1, steps, s', c));
            && s1.msgs == s.msgs[s.next := C.OpenReq(c, Host(cfg, path), fd, path)]
            && end.done == 1 && end.fdMap == s.clients[c].fdMap[fd := path]
            && Shows(cfg, s', AppReturn(c, fallback)) == [Opened(c, fd, path, C.Redir(end, fd) != -1)]
            && Do(cfg, s', AppReturn(c, fallback)).clients[c] == C.Leave(end)
  {
    ReachableOk(cfg, s);
    StepKeeps(cfg, s, AppOpen(c, fd, path));
    var s1 := Do(cfg, s, AppOpen(c, fd, path));
    BlockedRun(cfg, s1, steps, s', c);
    TablesWhileWaiting(s1.clients[c], ArrivalsOf(cfg, s1, steps, s', c));
  }

  lemma {:induction false} TablesWhileWaiting(cl: C.Client, arrivals: seq<C.Arrival>)
    ensures C.Waited(cl, arrivals).fdMap == cl.fdMap
    decreases |arrivals|
  {
    if cl.done != 1 && arrivals != [] {
      TablesWhileWaiting(C.Arrive(cl, arrivals[0]), arrivals[1..]);
    }
  }
}
