/** What can always still happen: handlers finish, and calls are answered, unless the server they wait for is
    gone. */
module Completion {
  import opened Posix
  import opened Session
  import opened CacheServer
  import opened ServerInvariant
  import opened CacheSystem
  import opened SystemInvariant
  import opened SystemTheorems
  import C = CacheClient

  /** Some run leads from `s` to `s'`. */
  ghost predicate Leads(cfg: Config, s: State, s': State) {
    exists steps :: Run(cfg, s, steps, s')
  }

  lemma {:induction false} RunAppend(cfg: Config, s: State, a: seq<Step>, t: State, b: seq<Step>, u: State)
    requires Run(cfg, s, a, t) && Run(cfg, t, b, u)
    ensures Run(cfg, s, a + b, u)
    decreases |a|
  {
    if a == [] {
      assert a + b == b;
    } else {
      var s1 := Do(cfg, s, a[0]);
      assert (a + b)[1..] == a[1..] + b;
      RunAppend(cfg, s1, a[1..], t, b, u);
    }
  }

  lemma Stays(cfg: Config, s: State)
    ensures Leads(cfg, s, s)
  {
    assert Run(cfg, s, [], s);
  }

  lemma ThenStep(cfg: Config, s: State, t: State, e: Step)
    requires Leads(cfg, s, t) && CanStep(cfg, t, e)
    ensures Leads(cfg, s, Do(cfg, t, e))
  {
    var a :| Run(cfg, s, a, t);
    assert [e][1..] == [];
    assert Run(cfg, t, [e], Do(cfg, t, e));
    RunAppend(cfg, s, a, t, [e], Do(cfg, t, e));
  }

  lemma Then(cfg: Config, s: State, t: State, u: State)
    requires Leads(cfg, s, t) && Leads(cfg, t, u)
    ensures Leads(cfg, s, u)
  {
    var a :| Run(cfg, s, a, t);
    var b :| Run(cfg, t, b, u);
    RunAppend(cfg, s, a, t, b, u);
  }

  lemma ReachableThen(cfg: Config, s: State, t: State)
    requires Reachable(cfg, s) && Leads(cfg, s, t)
    ensures Reachable(cfg, t)
  {
    var clients, a :| Run(cfg, Init(cfg, clients), a, s);
    var b :| Run(cfg, s, b, t);
    RunAppend(cfg, Init(cfg, clients), a, s, b, t);
  }

  lemma ReachableStep(cfg: Config, s: State, e: Step)
    requires Reachable(cfg, s) && CanStep(cfg, s, e)
    ensures Reachable(cfg, Do(cfg, s, e))
  {
    Stays(cfg, s);
    ThenStep(cfg, s, s, e);
    ReachableThen(cfg, s, Do(cfg, s, e));
  }

  // ---------------------------------------------------------------- handlers finish

  lemma Member<T>(s: set<T>) returns (x: T)
    requires s != {}
    ensures x in s
  {
    x :| x in s;
  }

  /** Finitely many numbers have a bound. */
  lemma {:induction false} Bound(used: set<int>) returns (n: nat)
    ensures forall x: int :: x in used ==> x < n
  {
    if used == {} {
      n := 0;
    } else {
      var top := Member(used);
      var m := Bound(used - {top});
      n := if top < m then m else top + 1;
      forall x | x in used
        ensures x < n
      {
        assert x == top || x in used - {top};
      }
    }
  }

  /** The next step towards the end of the handler: its own, or the mover's while the mover holds
      data_mutex. */
  function NextServe(v: Server, unused: nat): Act
    requires !v.handler.Idle? && !v.handler.Aborted?
  {
    match v.handler
    case OpenFound(_, _, _, _) => Progress(OpenLookup)
    case OpenAt(_, _, _, _, _) => Progress(OpenDo(unused))
    case CloseFind(_) => Progress(CacheFind)
    case CloseLock(_) =>
      if v.mutex == Free then Progress(HandlerLock)
      else
        Move(match v.mover
             case Locked => MoverWait
             case InHand => DrainPop
             case _ => if v.queue == [] then MoverUnlock else DrainPush)
    case CloseSignal(_) => Progress(HandlerSignal)
    case ClosePush(_) => Progress(HandlerPush)
    case CloseUnlock(_) => Progress(HandlerUnlock)
    case CloseErase(_) => Progress(HandlerErase)
  }

  /** How many handler steps remain, at most. */
  function HandlerRank(k: Handler): nat {
    match k
    case Idle => 0
    case Aborted => 0
    case OpenFound(_, _, _, _) => 2
    case OpenAt(_, _, _, _, _) => 1
    case CloseFind(_) => 6
    case CloseLock(_) => 5
    case CloseSignal(_) => 4
    case ClosePush(_) => 3
    case CloseUnlock(_) => 2
    case CloseErase(_) => 1
  }

  /** How many mover steps remain until it gives data_mutex up. */
  function HoldRank(v: Server): nat {
    match v.mover
    case Locked => 1
    case Draining => 2 * |v.queue| + 1
    case InHand => 2 * |v.queue|
    case _ => 0
  }

  lemma NextServeEnabled(cfg: Config, h: nat, v: Server, unused: nat)
    requires ServerOk(cfg, h, v) && !v.handler.Idle? && !v.handler.Aborted? && unused !in v.fds
    ensures Enabled(cfg, v, NextServe(v, unused))
  {
    if v.handler.OpenAt? {
      StandInBytes(cfg, v, v.handler.target, v.handler.path);
    }
  }

  lemma NextServeRanks(cfg: Config, v: Server, unused: nat)
    requires !v.handler.Idle? && !v.handler.Aborted? && Enabled(cfg, v, NextServe(v, unused))
    ensures var v' := Apply(cfg, v, NextServe(v, unused));
            && !v'.handler.Aborted?
            && (HandlerRank(v'.handler) < HandlerRank(v.handler)
                || (v'.handler == v.handler && HoldRank(v') < HoldRank(v)))
  {
    match NextServe(v, unused)
    case Move(m) => HolderRanks(cfg, v, m);
    case Progress(_) =>
  }

  /** Every step of a mover that holds data_mutex brings it closer to giving it up. */
  lemma HolderRanks(cfg: Config, v: Server, m: MoverAct)
    requires m == MoverWait || m == DrainPop || m == MoverUnlock || m == DrainPush
    requires MoverEnabled(cfg, v, m)
    ensures MoverApply(cfg, v, m).handler == v.handler && HoldRank(MoverApply(cfg, v, m)) < HoldRank(v)
  {
  }

  predicate Carries(v: Server, c: nat, id: nat) {
    (v.handler.OpenFound? || v.handler.OpenAt?) && v.handler.client == c && v.handler.id == id
  }

  /** Between `s` and `s'` only server `h` worked, on what it had at hand: no message is taken, and an open in
      progress ends with its answer. */
  ghost predicate Finishes(s: State, s': State, h: nat)
    requires h < |s.servers| && h < |s'.servers|
  {
    && s'.clients == s.clients
    && (forall id :: id in s.msgs ==> id in s'.msgs && s'.msgs[id] == s.msgs[id])
    && (forall c, id :: Carries(s.servers[h], c, id) && !Carries(s'.servers[h], c, id) ==>
          id in s'.msgs && s'.msgs[id].OpenResp? && s'.msgs[id].client == c)
  }

  lemma NextServeFinishes(cfg: Config, s: State, h: nat, unused: nat)
    requires SystemOk(cfg, s) && h < |s.servers|
    requires !s.servers[h].handler.Idle? && !s.servers[h].handler.Aborted?
    requires CanStep(cfg, s, Serve(h, NextServe(s.servers[h], unused)))
    ensures Finishes(s, Do(cfg, s, Serve(h, NextServe(s.servers[h], unused))), h)
  {
    assert HandlerOk(cfg, s, h, s.servers[h].handler);
  }

  /** A handler can always run to its end, whatever the mover is at. */
  lemma {:induction false} HandlerFinishes(cfg: Config, s: State, h: nat) returns (s': State)
    requires SystemOk(cfg, s) && h < |s.servers| && !s.servers[h].handler.Aborted?
    ensures Leads(cfg, s, s') && SystemOk(cfg, s')
    ensures h < |s'.servers| && s'.servers[h].handler.Idle? && Finishes(s, s', h)
    decreases HandlerRank(s.servers[h].handler), HoldRank(s.servers[h])
  {
    Stays(cfg, s);
    if s.servers[h].handler.Idle? {
      s' := s;
    } else {
      assert ServerOk(cfg, h, s.servers[h]);
      var n := Bound(s.servers[h].fds.Keys);
      NextServeEnabled(cfg, h, s.servers[h], n);
      NextServeRanks(cfg, s.servers[h], n);
      var e := Serve(h, NextServe(s.servers[h], n));
      NextServeFinishes(cfg, s, h, n);
      StepKeeps(cfg, s, e);
      ThenStep(cfg, s, s, e);
      s' := HandlerFinishes(cfg, Do(cfg, s, e), h);
      Then(cfg, s, Do(cfg, s, e), s');
    }
  }

  // ---------------------------------------------------------------- calls are answered

  /** The last step: the block function sees `done`. */
  lemma CanReturn(cfg: Config, s: State, c: nat) returns (s': State)
    requires c < |s.clients| && !s.clients[c].phase.Idle? && s.clients[c].done == 1
    ensures Leads(cfg, s, s') && c < |s'.clients| && s'.clients[c].phase.Idle?
  {
    Stays(cfg, s);
    ThenStep(cfg, s, s, AppReturn(c, Result(0, [])));
    s' := Do(cfg, s, AppReturn(c, Result(0, [])));
  }

  /** From an answer on its way. */
  lemma CanDeliver(cfg: Config, s: State, c: nat) returns (s': State)
    requires SystemOk(cfg, s) && c < |s.clients| && !s.clients[c].phase.Idle?
    requires var id := s.clients[c].phase.id; id in s.msgs && Response(s.msgs[id]) && s.msgs[id].client == c
    ensures Leads(cfg, s, s') && c < |s'.clients| && s'.clients[c].phase.Idle?
  {
    var id := s.clients[c].phase.id;
    assert MsgOk(cfg, s, id, s.msgs[id]);
    Stays(cfg, s);
    ThenStep(cfg, s, s, Deliver(id));
    var t := Do(cfg, s, Deliver(id));
    s' := CanReturn(cfg, t, c);
    Then(cfg, s, t, s');
  }

  /** From a bulk transfer in progress, at a server that runs no handler. */
  lemma CanTransfer(cfg: Config, s: State, c: nat) returns (s': State)
    requires SystemOk(cfg, s) && c < |s.clients| && !s.clients[c].phase.Idle?
    requires var id := s.clients[c].phase.id; id in s.msgs && s.msgs[id].BulkPush? && s.msgs[id].client == c
    requires var h := s.msgs[s.clients[c].phase.id].host; h < |s.servers| && s.servers[h].handler.Idle?
    ensures Leads(cfg, s, s') && c < |s'.clients| && s'.clients[c].phase.Idle?
  {
    var e := BulkDone(s.clients[c].phase.id);
    Stays(cfg, s);
    ThenStep(cfg, s, s, e);
    StepKeeps(cfg, s, e);
    s' := CanDeliver(cfg, Do(cfg, s, e), c);
    Then(cfg, s, Do(cfg, s, e), s');
  }

  /** How the server can serve the request `id` now: a read transfers as much as there is. */
  function ServeOf(cfg: Config, v: Server, id: nat, m: C.Msg): HandlerAct
    requires m.OpenReq? || m.ReadReq? || m.SeekReq?
  {
    match m
    case OpenReq(c, _, lfd, path) => RecvOpen(id, c, lfd, path)
    case SeekReq(c, _, sfd, offset, whence) => RecvSeek(id, c, sfd, offset, whence)
    case ReadReq(c, _, sfd, count, offset) =>
      RecvRead(id, c, sfd, count, offset,
               if count < 0 || ReadFails(v, sfd, offset) then 0
               else
                 var left := Available(Size(cfg, v, sfd), ReadFrom(v, sfd, offset));
                 if count <= left then count else left)
  }

  predicate Request(m: C.Msg) {
    m.OpenReq? || m.ReadReq? || m.SeekReq?
  }

  /** From a request, at a server that runs no handler. */
  lemma CanServe(cfg: Config, s: State, c: nat) returns (s': State)
    requires SystemOk(cfg, s) && c < |s.clients| && !s.clients[c].phase.Idle?
    requires var id := s.clients[c].phase.id; id in s.msgs && Request(s.msgs[id]) && s.msgs[id].client == c
    requires var h := s.msgs[s.clients[c].phase.id].host; h < |s.servers| && s.servers[h].handler.Idle?
    ensures Leads(cfg, s, s') && c < |s'.clients| && s'.clients[c].phase.Idle?
  {
    var id := s.clients[c].phase.id;
    var m := s.msgs[id];
    assert MsgOk(cfg, s, id, m) && ClientOk(cfg, s, c);
    var e := Serve(m.host, Progress(ServeOf(cfg, s.servers[m.host], id, m)));
    assert CanStep(cfg, s, e);
    var t := Do(cfg, s, e);
    Stays(cfg, s);
    ThenStep(cfg, s, s, e);
    StepKeeps(cfg, s, e);
    match m {
      case ReadReq(_, _, _, _, _) => s' := CanTransfer(cfg, t, c);
      case SeekReq(_, _, _, _, _) => s' := CanDeliver(cfg, t, c);
      case OpenReq(_, _, _, _) => s' := CanOpen(cfg, t, c, m.host);
    }
    Then(cfg, s, t, s');
  }

  /** From an open in progress. */
  lemma CanOpen(cfg: Config, s: State, c: nat, h: nat) returns (s': State)
    requires SystemOk(cfg, s) && c < |s.clients| && !s.clients[c].phase.Idle?
    requires h < |s.servers| && Carries(s.servers[h], c, s.clients[c].phase.id)
    ensures Leads(cfg, s, s') && c < |s'.clients| && s'.clients[c].phase.Idle?
  {
    var t := HandlerFinishes(cfg, s, h);
    s' := CanDeliver(cfg, t, c);
    Then(cfg, s, t, s');
  }

  /** The server whose process is gone has the request of client `c`, or has yet to answer the read it
      served. */
  predicate Stuck(s: State, c: nat) {
    && AwaitsAnswer(s, c)
    && s.clients[c].phase.id in s.msgs
    && var m := s.msgs[s.clients[c].phase.id];
       (Request(m) || m.BulkPush?) && m.client == c && m.host < |s.servers| && s.servers[m.host].handler.Aborted?
  }

  lemma CanAnswer(cfg: Config, s: State, c: nat) returns (s': State)
    requires SystemOk(cfg, s) && NoneLost(s) && c < |s.clients| && !s.clients[c].phase.Idle? && !Stuck(s, c)
    ensures Leads(cfg, s, s') && c < |s'.clients| && s'.clients[c].phase.Idle?
  {
    assert ClientOk(cfg, s, c);
    var id := s.clients[c].phase.id;
    if s.clients[c].done == 1 {
      s' := CanReturn(cfg, s, c);
    } else {
      assert UnderWay(s, c, id);
      if h: nat :| CarriedBy(s, h, c, id) {
        s' := CanOpen(cfg, s, c, h);
      } else {
        var m := s.msgs[id];
        assert MsgOk(cfg, s, id, m);
        if Response(m) {
          s' := CanDeliver(cfg, s, c);
        } else {
          var t := HandlerFinishes(cfg, s, m.host);
          if m.BulkPush? {
            s' := CanTransfer(cfg, t, c);
          } else {
            s' := CanServe(cfg, t, c);
          }
          Then(cfg, s, t, s');
        }
      }
    }
  }

  lemma StuckClientStep(cfg: Config, s: State, e: Step, c: nat)
    requires LinksOk(cfg, s) && Stuck(s, c) && CanStep(cfg, s, e) && !e.Serve?
    ensures Stuck(Do(cfg, s, e), c)
  {
    var id := s.clients[c].phase.id;
    assert ClientOk(cfg, s, c);
    if e.Deliver? || e.BulkDone? {
      assert MsgOk(cfg, s, e.id, s.msgs[e.id]);
    }
  }

  lemma StuckServeStep(cfg: Config, s: State, h: nat, a: Act, c: nat)
    requires HandlersOk(cfg, s) && Stuck(s, c) && CanStep(cfg, s, Serve(h, a))
    ensures Stuck(Do(cfg, s, Serve(h, a)), c)
  {
    var id := s.clients[c].phase.id;
    var s' := Do(cfg, s, Serve(h, a));
    assert HandlerOk(cfg, s, h, s.servers[h].handler);
    assert s.msgs[id].host != h;
    assert id in s'.msgs && s'.msgs[id] == s.msgs[id];
  }

  /** A stuck client stays stuck. */
  lemma StuckStep(cfg: Config, s: State, e: Step, c: nat)
    requires LinksOk(cfg, s) && Stuck(s, c) && CanStep(cfg, s, e)
    ensures Stuck(Do(cfg, s, e), c)
  {
    match e
    case Serve(h, a) => StuckServeStep(cfg, s, h, a, c);
    case _ => StuckClientStep(cfg, s, e, c);
  }

  lemma {:induction false} StuckRun(cfg: Config, s: State, steps: seq<Step>, s': State, c: nat)
    requires SystemOk(cfg, s) && Stuck(s, c) && Run(cfg, s, steps, s')
    ensures Stuck(s', c)
    decreases |steps|
  {
    if steps == [] {
    } else {
      StuckStep(cfg, s, steps[0], c);
      StepKeeps(cfg, s, steps[0]);
      StuckRun(cfg, Do(cfg, s, steps[0]), steps[1..], s', c);
    }
  }

  ghost predicate CanComplete(cfg: Config, s: State, c: nat) {
    exists s' :: Leads(cfg, s, s') && c < |s'.clients| && s'.clients[c].phase.Idle?
  }

  /** In every reachable state a blocked call can still be completed, exactly unless a server whose process is
      gone has its request, or the read it has served but not answered. */
  lemma CompletesIffNotStuck(cfg: Config, s: State, c: nat)
    requires Reachable(cfg, s) && c < |s.clients| && !s.clients[c].phase.Idle?
    ensures CanComplete(cfg, s, c) <==> !Stuck(s, c)
  {
    ReachableNoneLost(cfg, s);
    ReachableOk(cfg, s);
    if Stuck(s, c) {
      if s' :| Leads(cfg, s, s') && c < |s'.clients| && s'.clients[c].phase.Idle? {
        var steps :| Run(cfg, s, steps, s');
        StuckRun(cfg, s, steps, s', c);
      }
    } else {
      var s' := CanAnswer(cfg, s, c);
    }
  }

  /** Where opens do not fail, every blocked call can be completed. */
  lemma AlwaysCompletes(cfg: Config, s: State, c: nat)
    requires !cfg.opensMayFail && Reachable(cfg, s) && c < |s.clients| && !s.clients[c].phase.Idle?
    ensures CanComplete(cfg, s, c)
  {
    CompletesIffNotStuck(cfg, s, c);
    if Stuck(s, c) {
      AbortedHadFailed(cfg, s, s.msgs[s.clients[c].phase.id].host);
    }
  }

  // ---------------------------------------------------------------- the assertion in close

  /** A client that closes a descriptor whose open failed can bring the server down. */
  lemma FailedOpenCanAbort(cfg: Config, s: State, c: nat, fd: int) returns (s': State)
    requires SystemOk(cfg, s) && CanStep(cfg, s, AppClose(c, fd))
    requires fd in s.clients[c].fdMap && fd in s.clients[c].redir && s.clients[c].redir[fd] == -1
    requires !s.servers[Host(cfg, s.clients[c].fdMap[fd])].handler.Aborted?
    ensures Leads(cfg, s, s') && SomeAborted(s')
  {
    var h := Host(cfg, s.clients[c].fdMap[fd]);
    var id := s.next;
    var s1 := Do(cfg, s, AppClose(c, fd));
    Stays(cfg, s);
    ThenStep(cfg, s, s, AppClose(c, fd));
    StepKeeps(cfg, s, AppClose(c, fd));
    var s2 := HandlerFinishes(cfg, s1, h);
    Then(cfg, s, s1, s2);
    var e := Serve(h, Progress(RecvClose(id, -1)));
    assert s2.msgs[id] == C.CloseReq(h, -1);
    ThenStep(cfg, s, s2, e);
    s' := Do(cfg, s2, e);
    assert ServerOk(cfg, h, s2.servers[h]);
    assert s'.servers[h].handler.Aborted?;
  }

  /** The server answers the only open there is with -1. */
  lemma OpenCanFail(cfg: Config, path: Path) returns (s: State)
    requires cfg.opensMayFail && Tracked(cfg, path)
    ensures Reachable(cfg, s) && |s.clients| == 1 && AwaitsAnswer(s, 0)
    ensures s.clients[0].phase.fd == 3 && s.clients[0].phase.Opening?
    ensures var id := s.clients[0].phase.id; id in s.msgs && s.msgs[id] == C.OpenResp(0, Host(cfg, path), 3, -1)
    ensures forall h :: 0 <= h < |s.servers| ==> s.servers[h].handler.Idle?
  {
    var s0 := Init(cfg, 1);
    var h := Host(cfg, path);
    var e0, e1, e2 := AppOpen(0, 3, path), Serve(h, Progress(RecvOpen(0, 0, 3, path))), Serve(h, Progress(OpenDo(-1)));
    assert Run(cfg, s0, [], s0);
    Stays(cfg, s0);
    ThenStep(cfg, s0, s0, e0);
    var s1 := Do(cfg, s0, e0);
    ThenStep(cfg, s0, s1, e1);
    var s2 := Do(cfg, s1, e1);
    ThenStep(cfg, s0, s2, e2);
    s := Do(cfg, s2, e2);
    ReachableThen(cfg, s0, s);
  }

  /** The client takes -1 for a descriptor. */
  lemma FailedOpenReturns(cfg: Config, s: State, host: nat) returns (t: State)
    requires SystemOk(cfg, s) && |s.clients| == 1 && AwaitsAnswer(s, 0)
    requires s.clients[0].phase.fd == 3
    requires var id := s.clients[0].phase.id; id in s.msgs && s.msgs[id] == C.OpenResp(0, host, 3, -1)
    ensures Leads(cfg, s, t) && t.servers == s.servers && CanStep(cfg, t, AppClose(0, 3))
    ensures 3 in t.clients[0].fdMap && 3 in t.clients[0].redir && t.clients[0].redir[3] == -1
  {
    assert ClientOk(cfg, s, 0);
    var d := Deliver(s.clients[0].phase.id);
    var u := Do(cfg, s, d);
    assert u.servers == s.servers && u.clients == [C.OnOpenResp(s.clients[0], 3, -1)];
    t := AnsweredReturns(cfg, u);
    TwoSteps(cfg, s, d, AppReturn(0, Result(0, [])));
  }

  lemma AnsweredReturns(cfg: Config, u: State) returns (t: State)
    requires |u.clients| == 1 && !u.clients[0].phase.Idle? && u.clients[0].done == 1
    ensures CanStep(cfg, u, AppReturn(0, Result(0, []))) && t == Do(cfg, u, AppReturn(0, Result(0, [])))
    ensures t.servers == u.servers && t.clients == [C.Leave(u.clients[0])]
  {
    t := Do(cfg, u, AppReturn(0, Result(0, [])));
  }

  lemma TwoSteps(cfg: Config, s: State, d: Step, e: Step)
    requires CanStep(cfg, s, d) && CanStep(cfg, Do(cfg, s, d), e)
    ensures Leads(cfg, s, Do(cfg, Do(cfg, s, d), e))
  {
    Stays(cfg, s);
    ThenStep(cfg, s, s, d);
    ThenStep(cfg, s, Do(cfg, s, d), e);
  }

  ghost predicate SomeAborted(s: State) {
    exists h: nat :: h < |s.servers| && s.servers[h].handler.Aborted?
  }

  lemma FailureCanAbort(cfg: Config, path: Path) returns (s: State)
    requires cfg.opensMayFail && Tracked(cfg, path)
    ensures Reachable(cfg, s) && SomeAborted(s)
  {
    var s1 := OpenCanFail(cfg, path);
    ReachableOk(cfg, s1);
    var s2 := FailedOpenReturns(cfg, s1, Host(cfg, path));
    ReachableThen(cfg, s1, s2);
    ReachableOk(cfg, s2);
    assert ClientOk(cfg, s2, 0);
    s := FailedOpenCanAbort(cfg, s2, 0, 3);
    ReachableThen(cfg, s2, s);
  }

  /** Some run brings a server down exactly where opens may fail and there is a file to open. */
  lemma AbortsIffOpensMayFail(cfg: Config)
    ensures (exists s :: Reachable(cfg, s) && SomeAborted(s)) <==> cfg.opensMayFail && exists p :: Tracked(cfg, p)
  {
    if s :| Reachable(cfg, s) && SomeAborted(s) {
      var h: nat :| h < |s.servers| && s.servers[h].handler.Aborted?;
      AbortedHadFailed(cfg, s, h);
    }
    if cfg.opensMayFail && exists p :: Tracked(cfg, p) {
      var p :| Tracked(cfg, p);
      var s := FailureCanAbort(cfg, p);
    }
  }
}
