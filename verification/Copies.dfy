/** Copies, the queue and the mover do not show: states whose servers hold the same descriptors, at the same
    offsets and for the same paths, show the same traces, whatever is cached, queued or being copied. */
module Copies {
  import opened Posix
  import opened Session
  import opened CacheServer
  import opened ServerInvariant
  import opened MoverTheorems
  import opened CacheSystem
  import opened SystemInvariant
  import opened Completion
  import opened Traces
  import opened ServerProcess
  import opened UpToNames
  import C = CacheClient

  /** What a handler is at, as far as clients can tell. */
  datatype Stage = Free | Opens(id: nat, client: nat, lfd: int, path: Path) | Closes(fd: int) | Gone

  function StageOf(k: Handler): Stage {
    match k
    case Idle => Stage.Free
    case OpenFound(id, c, lfd, path) => Opens(id, c, lfd, path)
    case OpenAt(id, c, lfd, path, _) => Opens(id, c, lfd, path)
    case CloseFind(fd) => Closes(fd)
    case CloseLock(fd) => Closes(fd)
    case CloseSignal(fd) => Closes(fd)
    case ClosePush(fd) => Closes(fd)
    case CloseUnlock(fd) => Closes(fd)
    case CloseErase(fd) => Closes(fd)
    case Aborted => Gone
  }

  /** The servers hold the same descriptors for the same paths at the same offsets.  Which file a descriptor
      was opened on, the original or some copy, is not compared; neither are disk, cache, queues and mover. */
  ghost predicate SameFace(v: Server, w: Server) {
    && StageOf(w.handler) == StageOf(v.handler)
    && w.fdToPath == v.fdToPath
    && w.fds.Keys == v.fds.Keys
    && forall fd :: fd in v.fds ==> w.fds[fd].off == v.fds[fd].off
  }

  ghost predicate SameFaces(s: State, t: State) {
    && t.clients == s.clients && t.msgs == s.msgs && t.next == s.next && |t.servers| == |s.servers|
    && forall h :: 0 <= h < |s.servers| ==> SameFace(s.servers[h], t.servers[h])
  }

  /** Two consistent states that differ in the servers' copies and queues only. */
  ghost predicate Indistinct(cfg: Config, s: State, t: State) {
    SystemOk(cfg, s) && SystemOk(cfg, t) && SameFaces(s, t)
  }

  lemma IndistinctBack(cfg: Config, s: State, t: State)
    requires Indistinct(cfg, s, t)
    ensures Indistinct(cfg, t, s)
  {
    forall h | 0 <= h < |t.servers|
      ensures SameFace(t.servers[h], s.servers[h])
    {
      assert SameFace(s.servers[h], t.servers[h]);
    }
  }

  // ---------------------------------------------------------------- one server

  /** The same descriptors read the same bytes. */
  lemma SameContent(cfg: Config, h: nat, v: Server, w: Server, fd: int)
    requires ServerOk(cfg, h, v) && ServerOk(cfg, h, w) && SameFace(v, w) && fd in v.fds
    ensures Bytes(cfg, w, w.fds[fd].name) == Bytes(cfg, v, v.fds[fd].name)
  {
    OpenBytes(cfg, h, v, fd);
    OpenBytes(cfg, h, w, fd);
  }

  lemma SameOperation(cfg: Config, h: nat, v: Server, w: Server, a: HandlerAct)
    requires SameFace(v, w) && HandlerEnabled(cfg, v, a) && (a.RecvRead? || a.RecvSeek?)
    requires a.sfd in v.fds ==> Bytes(cfg, w, w.fds[a.sfd].name) == Bytes(cfg, v, v.fds[a.sfd].name)
    ensures HandlerEnabled(cfg, w, a)
    ensures SameFace(HandlerApply(cfg, v, a), HandlerApply(cfg, w, a))
    ensures a.RecvRead? ==>
              ReadData(cfg, w, a.sfd, a.count, a.offset, a.n) == ReadData(cfg, v, a.sfd, a.count, a.offset, a.n)
    ensures a.RecvSeek? ==>
              SeekAnswer(cfg, w, a.sfd, a.offset, a.whence) == SeekAnswer(cfg, v, a.sfd, a.offset, a.whence)
  {
  }

  /** The steps of a handler that no client notices. */
  predicate Unnoticed(a: Act) {
    match a
    case Move(_) => true
    case Progress(k) =>
      k.OpenLookup? || k.CacheFind? || k.HandlerLock? || k.HandlerSignal? || k.HandlerPush? || k.HandlerUnlock?
  }

  lemma UnnoticedKeepsFace(cfg: Config, v: Server, a: Act)
    requires TableOk(cfg, v) && Enabled(cfg, v, a) && Unnoticed(a)
    ensures SameFace(v, Apply(cfg, v, a))
  {
    match a
    case Move(m) => MoverKeepsFace(cfg, v, m);
    case Progress(CacheFind) =>
    case Progress(HandlerPush) =>
    case Progress(_) =>
  }

  lemma MoverKeepsFace(cfg: Config, v: Server, m: MoverAct)
    requires MoverEnabled(cfg, v, m)
    ensures SameFace(v, MoverApply(cfg, v, m))
  {
  }

  lemma SameFaceThen(u: Server, v: Server, w: Server)
    requires SameFace(u, v) && SameFace(v, w)
    ensures SameFace(u, w)
  {
  }

  lemma SameFaceBack(v: Server, w: Server)
    requires SameFace(v, w)
    ensures SameFace(w, v)
  {
  }

  lemma SameOpenDo(cfg: Config, v: Server, w: Server, sfd: int)
    requires SameFace(v, w) && v.handler.OpenAt? && w.handler.OpenAt?
    requires HandlerEnabled(cfg, v, OpenDo(sfd)) && (sfd == -1 ==> cfg.opensMayFail)
    requires Exists(cfg, w, w.handler.target)
    ensures HandlerEnabled(cfg, w, OpenDo(sfd))
    ensures SameFace(HandlerApply(cfg, v, OpenDo(sfd)), HandlerApply(cfg, w, OpenDo(sfd)))
  {
  }

  lemma SameRecv(cfg: Config, v: Server, w: Server, a: HandlerAct)
    requires SameFace(v, w) && HandlerEnabled(cfg, v, a) && (a.RecvOpen? || a.RecvClose?)
    ensures HandlerEnabled(cfg, w, a)
    ensures SameFace(HandlerApply(cfg, v, a), HandlerApply(cfg, w, a))
  {
  }

  lemma SameErase(cfg: Config, v: Server, w: Server)
    requires SameFace(v, w) && HandlerEnabled(cfg, v, HandlerErase) && HandlerEnabled(cfg, w, HandlerErase)
    ensures SameFace(HandlerApply(cfg, v, HandlerErase), HandlerApply(cfg, w, HandlerErase))
  {
  }

  // ---------------------------------------------------------------- the system

  /** `t` can follow `s` to `s'`: it shows the same events and is indistinct again. */
  ghost predicate Follows(cfg: Config, t: State, trace: seq<Event>, s': State) {
    exists t' :: Displays(cfg, t, trace, t') && Indistinct(cfg, s', t')
  }

  lemma ClientFollows(cfg: Config, s: State, t: State, e: Step)
    requires Indistinct(cfg, s, t) && CanStep(cfg, s, e) && !e.Serve?
    ensures Follows(cfg, t, Shows(cfg, s, e), Do(cfg, s, e))
  {
    ClientSame(cfg, s, t, e);
    StepKeeps(cfg, s, e);
    StepKeeps(cfg, t, e);
    DisplaysStep(cfg, t, e);
  }

  lemma ClientSame(cfg: Config, s: State, t: State, e: Step)
    requires SameFaces(s, t) && CanStep(cfg, s, e) && !e.Serve?
    ensures CanStep(cfg, t, e) && Shows(cfg, t, e) == Shows(cfg, s, e)
    ensures SameFaces(Do(cfg, s, e), Do(cfg, t, e))
  {
    if e.BulkDone? {
      assert SameFace(s.servers[s.msgs[e.id].host], t.servers[s.msgs[e.id].host]);
    }
  }

  /** A step of `s` that no client notices. */
  lemma UnnoticedFollows(cfg: Config, s: State, t: State, h: nat, a: Act)
    requires Indistinct(cfg, s, t) && CanStep(cfg, s, Serve(h, a)) && Unnoticed(a)
    ensures Indistinct(cfg, Do(cfg, s, Serve(h, a)), t)
  {
    assert ServerOk(cfg, h, s.servers[h]);
    StepKeeps(cfg, s, Serve(h, a));
    UnnoticedFaces(cfg, s, t, h, a);
  }

  lemma UnnoticedFaces(cfg: Config, s: State, t: State, h: nat, a: Act)
    requires SameFaces(s, t) && CanStep(cfg, s, Serve(h, a)) && Unnoticed(a) && TableOk(cfg, s.servers[h])
    ensures SameFaces(Do(cfg, s, Serve(h, a)), t)
  {
    var s' := Do(cfg, s, Serve(h, a));
    UnnoticedKeepsFace(cfg, s.servers[h], a);
    SameFaceBack(s.servers[h], s'.servers[h]);
    SameFaceThen(s'.servers[h], s.servers[h], t.servers[h]);
    assert forall g :: 0 <= g < |s.servers| && g != h ==> s'.servers[g] == s.servers[g];
    forall g | 0 <= g < |s'.servers|
      ensures SameFace(s'.servers[g], t.servers[g])
    {
      assert SameFace(s.servers[g], t.servers[g]);
    }
  }

  /** A step of `t` that no client notices. */
  lemma UnnoticedStep(cfg: Config, s: State, t: State, h: nat, a: Act)
    requires Indistinct(cfg, s, t) && CanStep(cfg, t, Serve(h, a)) && Unnoticed(a)
    ensures Indistinct(cfg, s, Do(cfg, t, Serve(h, a)))
    ensures Displays(cfg, t, [], Do(cfg, t, Serve(h, a)))
  {
    IndistinctBack(cfg, s, t);
    UnnoticedFollows(cfg, t, s, h, a);
    IndistinctBack(cfg, Do(cfg, t, Serve(h, a)), s);
    DisplaysStep(cfg, t, Serve(h, a));
  }

  /** The same step of both, when it leads to servers with the same face and the same messages. */
  lemma SameServe(cfg: Config, s: State, t: State, h: nat, a: Act)
    requires Indistinct(cfg, s, t) && CanStep(cfg, s, Serve(h, a)) && CanStep(cfg, t, Serve(h, a))
    requires SameFace(Apply(cfg, s.servers[h], a), Apply(cfg, t.servers[h], a))
    requires Do(cfg, t, Serve(h, a)).msgs == Do(cfg, s, Serve(h, a)).msgs
    ensures Follows(cfg, t, [], Do(cfg, s, Serve(h, a)))
  {
    StepKeeps(cfg, s, Serve(h, a));
    StepKeeps(cfg, t, Serve(h, a));
    ServedFaces(cfg, s, t, h, a);
    DisplaysStep(cfg, t, Serve(h, a));
  }

  lemma ServedFaces(cfg: Config, s: State, t: State, h: nat, a: Act)
    requires SameFaces(s, t) && CanStep(cfg, s, Serve(h, a)) && CanStep(cfg, t, Serve(h, a))
    requires SameFace(Apply(cfg, s.servers[h], a), Apply(cfg, t.servers[h], a))
    requires Do(cfg, t, Serve(h, a)).msgs == Do(cfg, s, Serve(h, a)).msgs
    ensures SameFaces(Do(cfg, s, Serve(h, a)), Do(cfg, t, Serve(h, a)))
  {
    forall g | 0 <= g < |s.servers|
      ensures SameFace(Do(cfg, s, Serve(h, a)).servers[g], Do(cfg, t, Serve(h, a)).servers[g])
    {
      assert SameFace(s.servers[g], t.servers[g]);
    }
  }

  lemma OperationFollows(cfg: Config, s: State, t: State, h: nat, a: HandlerAct)
    requires Indistinct(cfg, s, t) && CanStep(cfg, s, Serve(h, Progress(a))) && (a.RecvRead? || a.RecvSeek?)
    ensures Follows(cfg, t, [], Do(cfg, s, Serve(h, Progress(a))))
  {
    OperandSame(cfg, s, t, h, a.sfd);
    SameOperation(cfg, h, s.servers[h], t.servers[h], a);
    SameReply(cfg, s, t, h, a);
    SameServe(cfg, s, t, h, Progress(a));
  }

  lemma SameReply(cfg: Config, s: State, t: State, h: nat, a: HandlerAct)
    requires SameFaces(s, t) && CanStep(cfg, s, Serve(h, Progress(a))) && (a.RecvRead? || a.RecvSeek?)
    requires HandlerEnabled(cfg, t.servers[h], a)
    requires var v, w := s.servers[h], t.servers[h];
             && (a.RecvRead? ==>
                   ReadData(cfg, w, a.sfd, a.count, a.offset, a.n) == ReadData(cfg, v, a.sfd, a.count, a.offset, a.n))
             && (a.RecvSeek? ==>
                   SeekAnswer(cfg, w, a.sfd, a.offset, a.whence) == SeekAnswer(cfg, v, a.sfd, a.offset, a.whence))
    ensures CanStep(cfg, t, Serve(h, Progress(a)))
    ensures Do(cfg, t, Serve(h, Progress(a))).msgs == Do(cfg, s, Serve(h, Progress(a))).msgs
  {
  }

  lemma OperandSame(cfg: Config, s: State, t: State, h: nat, sfd: int)
    requires Indistinct(cfg, s, t) && h < |s.servers|
    ensures SameFace(s.servers[h], t.servers[h])
    ensures var v, w := s.servers[h], t.servers[h];
            sfd in v.fds ==> Bytes(cfg, w, w.fds[sfd].name) == Bytes(cfg, v, v.fds[sfd].name)
  {
    assert ServerOk(cfg, h, s.servers[h]) && ServerOk(cfg, h, t.servers[h]);
    if sfd in s.servers[h].fds {
      SameContent(cfg, h, s.servers[h], t.servers[h], sfd);
    }
  }

  lemma RecvFollows(cfg: Config, s: State, t: State, h: nat, a: HandlerAct)
    requires Indistinct(cfg, s, t) && CanStep(cfg, s, Serve(h, Progress(a))) && (a.RecvOpen? || a.RecvClose?)
    ensures Follows(cfg, t, [], Do(cfg, s, Serve(h, Progress(a))))
  {
    assert SameFace(s.servers[h], t.servers[h]);
    SameRecv(cfg, s.servers[h], t.servers[h], a);
    SameServe(cfg, s, t, h, Progress(a));
  }

  /** An open ends in `s`; in `t` it may still have its lookup before it. */
  lemma OpenFollows(cfg: Config, s: State, t: State, h: nat, sfd: int)
    requires Indistinct(cfg, s, t) && CanStep(cfg, s, Serve(h, Progress(OpenDo(sfd))))
    ensures Follows(cfg, t, [], Do(cfg, s, Serve(h, Progress(OpenDo(sfd)))))
  {
    var w := t.servers[h];
    OpenStands(cfg, s, t, h, sfd);
    if w.handler.OpenFound? {
      var e := Serve(h, Progress(OpenLookup));
      UnnoticedStep(cfg, s, t, h, Progress(OpenLookup));
      OpenedFollows(cfg, s, Do(cfg, t, e), h, sfd);
      var s' := Do(cfg, s, Serve(h, Progress(OpenDo(sfd))));
      var t' :| Displays(cfg, Do(cfg, t, e), [], t') && Indistinct(cfg, s', t');
      DisplaysThen(cfg, t, [], Do(cfg, t, e), [], t');
    } else {
      OpenedFollows(cfg, s, t, h, sfd);
    }
  }

  lemma OpenStands(cfg: Config, s: State, t: State, h: nat, sfd: int)
    requires Indistinct(cfg, s, t) && CanStep(cfg, s, Serve(h, Progress(OpenDo(sfd))))
    ensures sfd == -1 ==> cfg.opensMayFail
    ensures var w := t.servers[h];
            w.handler.OpenAt? || (w.handler.OpenFound? && CanStep(cfg, t, Serve(h, Progress(OpenLookup))))
  {
    assert SameFace(s.servers[h], t.servers[h]);
    FailureAllowed(cfg, s, h, sfd);
    if t.servers[h].handler.OpenFound? {
      LookupPossible(cfg, t, h);
    }
  }

  lemma FailureAllowed(cfg: Config, s: State, h: nat, sfd: int)
    requires SystemOk(cfg, s) && CanStep(cfg, s, Serve(h, Progress(OpenDo(sfd))))
    ensures sfd == -1 ==> cfg.opensMayFail
  {
    assert ServerOk(cfg, h, s.servers[h]);
    OpenTableKept(cfg, h, s.servers[h], sfd);
  }

  lemma LookupPossible(cfg: Config, t: State, h: nat)
    requires SystemOk(cfg, t) && h < |t.servers| && t.servers[h].handler.OpenFound?
    ensures CanStep(cfg, t, Serve(h, Progress(OpenLookup)))
  {
    assert ServerOk(cfg, h, t.servers[h]);
    assert CacheOk(cfg, t.servers[h]);
  }

  lemma OpenedFollows(cfg: Config, s: State, t: State, h: nat, sfd: int)
    requires Indistinct(cfg, s, t) && CanStep(cfg, s, Serve(h, Progress(OpenDo(sfd)))) && t.servers[h].handler.OpenAt?
    requires sfd == -1 ==> cfg.opensMayFail
    ensures Follows(cfg, t, [], Do(cfg, s, Serve(h, Progress(OpenDo(sfd)))))
  {
    var w := t.servers[h];
    assert SameFace(s.servers[h], w) && ServerOk(cfg, h, w);
    StandInBytes(cfg, w, w.handler.target, w.handler.path);
    SameOpenDo(cfg, s.servers[h], w, sfd);
    SameServe(cfg, s, t, h, Progress(OpenDo(sfd)));
  }

  /** A handler that closes gets to its last step without being noticed. */
  lemma {:induction false} CloseCatchesUp(cfg: Config, s: State, t: State, h: nat) returns (t': State)
    requires Indistinct(cfg, s, t) && h < |t.servers| && StageOf(t.servers[h].handler).Closes?
    ensures Displays(cfg, t, [], t') && Indistinct(cfg, s, t')
    ensures h < |t'.servers| && t'.servers[h].handler.CloseErase?
    decreases HandlerRank(t.servers[h].handler), HoldRank(t.servers[h])
  {
    if t.servers[h].handler.CloseErase? {
      t' := t;
      DisplaysNothing(cfg, t);
    } else {
      var n := Bound(t.servers[h].fds.Keys);
      var a := NextServe(t.servers[h], n);
      assert ServerOk(cfg, h, t.servers[h]);
      NextServeEnabled(cfg, h, t.servers[h], n);
      NextServeRanks(cfg, t.servers[h], n);
      UnnoticedStep(cfg, s, t, h, a);
      t' := CloseCatchesUp(cfg, s, Do(cfg, t, Serve(h, a)), h);
      DisplaysThen(cfg, t, [], Do(cfg, t, Serve(h, a)), [], t');
    }
  }

  lemma EraseFollows(cfg: Config, s: State, t: State, h: nat)
    requires Indistinct(cfg, s, t) && CanStep(cfg, s, Serve(h, Progress(HandlerErase)))
    ensures Follows(cfg, t, [], Do(cfg, s, Serve(h, Progress(HandlerErase))))
  {
    assert SameFace(s.servers[h], t.servers[h]);
    var u := CloseCatchesUp(cfg, s, t, h);
    assert SameFace(s.servers[h], u.servers[h]);
    SameErase(cfg, s.servers[h], u.servers[h]);
    SameServe(cfg, s, u, h, Progress(HandlerErase));
    var t' :| Displays(cfg, u, [], t') && Indistinct(cfg, Do(cfg, s, Serve(h, Progress(HandlerErase))), t');
    DisplaysThen(cfg, t, [], u, [], t');
  }

  lemma StepFollows(cfg: Config, s: State, t: State, e: Step)
    requires Indistinct(cfg, s, t) && CanStep(cfg, s, e)
    ensures Follows(cfg, t, Shows(cfg, s, e), Do(cfg, s, e))
  {
    if !e.Serve? {
      ClientFollows(cfg, s, t, e);
    } else if Unnoticed(e.a) {
      UnnoticedFollows(cfg, s, t, e.h, e.a);
      DisplaysNothing(cfg, t);
    } else {
      match e.a.h
      case RecvRead(_, _, _, _, _, _) => OperationFollows(cfg, s, t, e.h, e.a.h);
      case RecvSeek(_, _, _, _, _) => OperationFollows(cfg, s, t, e.h, e.a.h);
      case RecvOpen(_, _, _, _) => RecvFollows(cfg, s, t, e.h, e.a.h);
      case RecvClose(_, _) => RecvFollows(cfg, s, t, e.h, e.a.h);
      case OpenDo(sfd) => OpenFollows(cfg, s, t, e.h, sfd);
      case HandlerErase => EraseFollows(cfg, s, t, e.h);
      case _ =>
    }
  }

  lemma {:induction false} RunFollows(cfg: Config, s: State, steps: seq<Step>, s': State, t: State)
    requires Indistinct(cfg, s, t) && Run(cfg, s, steps, s')
    ensures Follows(cfg, t, Trace(cfg, s, steps, s'), s')
    decreases |steps|
  {
    if steps == [] {
      DisplaysNothing(cfg, t);
    } else {
      var s1, a := Do(cfg, s, steps[0]), Shows(cfg, s, steps[0]);
      StepFollows(cfg, s, t, steps[0]);
      var t1 :| Displays(cfg, t, a, t1) && Indistinct(cfg, s1, t1);
      RunFollows(cfg, s1, steps[1..], s', t1);
      var rest := Trace(cfg, s1, steps[1..], s');
      var t' :| Displays(cfg, t1, rest, t') && Indistinct(cfg, s', t');
      DisplaysThen(cfg, t, a, t1, rest, t');
    }
  }

  lemma IndistinctCanShow(cfg: Config, s: State, t: State, trace: seq<Event>)
    requires Indistinct(cfg, s, t) && CanShow(cfg, s, trace)
    ensures CanShow(cfg, t, trace)
  {
    var s' :| Displays(cfg, s, trace, s');
    var steps :| Run(cfg, s, steps, s') && Trace(cfg, s, steps, s') == trace;
    RunFollows(cfg, s, steps, s', t);
  }

  /** Whatever is cached, queued or being copied, the applications can observe the same. */
  lemma CopiesDoNotShow(cfg: Config, s: State, t: State, trace: seq<Event>)
    requires Indistinct(cfg, s, t)
    ensures CanShow(cfg, s, trace) <==> CanShow(cfg, t, trace)
  {
    if CanShow(cfg, s, trace) {
      IndistinctCanShow(cfg, s, t, trace);
    }
    if CanShow(cfg, t, trace) {
      IndistinctBack(cfg, s, t);
      IndistinctCanShow(cfg, t, s, trace);
    }
  }

  // ---------------------------------------------------------------- in particular

  /** No step of a mover shows: not the copying, not the publication, not the failure of a copy. */
  lemma MoverDoesNotShow(cfg: Config, s: State, h: nat, m: MoverAct, trace: seq<Event>)
    requires Reachable(cfg, s) && CanStep(cfg, s, Serve(h, Move(m)))
    ensures CanShow(cfg, s, trace) <==> CanShow(cfg, Do(cfg, s, Serve(h, Move(m))), trace)
  {
    ReachableOk(cfg, s);
    IndistinctItself(cfg, s);
    UnnoticedStep(cfg, s, s, h, Move(m));
    CopiesDoNotShow(cfg, s, Do(cfg, s, Serve(h, Move(m))), trace);
  }

  lemma IndistinctItself(cfg: Config, s: State)
    requires SystemOk(cfg, s)
    ensures Indistinct(cfg, s, s)
  {
  }

  /** The order in which two closes reach a server, the one thing in which they do not commute, does not show. */
  lemma CloseOrderDoesNotShow(cfg: Config, s: State, h: nat, i: nat, j: nat, trace: seq<Event>)
    requires Reachable(cfg, s) && h < |s.servers| && s.servers[h].handler.Idle? && i != j
    requires AsksClose(s, h, i) && AsksClose(s, h, j) && s.msgs[i].sfd != -1 && s.msgs[j].sfd != -1
    ensures CanShow(cfg, CloseServed(CloseServed(s, h, i), h, j), trace)
       <==> CanShow(cfg, CloseServed(CloseServed(s, h, j), h, i), trace)
  {
    var t, u := CloseServed(CloseServed(s, h, i), h, j), CloseServed(CloseServed(s, h, j), h, i);
    ClosesCommuteIff(cfg, s, h, i, j);
    TwoClosesRun(cfg, s, h, i, j);
    TwoClosesRun(cfg, s, h, j, i);
    ReachableOk(cfg, t);
    ReachableOk(cfg, u);
    OrderFaces(t, u, h);
    CopiesDoNotShow(cfg, t, u, trace);
  }

  lemma OrderFaces(t: State, u: State, h: nat)
    requires h < |t.servers| && h < |u.servers| && u == t.(servers := t.servers[h := u.servers[h]])
    requires var v, w := t.servers[h], u.servers[h];
             w == v.(queue := w.queue, pushed := w.pushed, missed := w.missed)
    ensures SameFaces(t, u)
  {
    assert forall g :: 0 <= g < |t.servers| && g != h ==> u.servers[g] == t.servers[g];
  }
}
