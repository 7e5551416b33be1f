/** The specification is exact: the traces of runs are all the traces it accepts, and no others. */
module Exactness {
  import opened Posix
  import opened Session
  import opened CacheServer
  import opened ServerInvariant
  import opened CacheSystem
  import opened SystemInvariant
  import opened Transparency
  import opened Completion
  import opened Traces
  import C = CacheClient

  /** An event that can be meant: a client there is, a descriptor number, a tracked path, a call that is
      modelled. */
  predicate Plausible(cfg: Config, clients: nat, ev: Event) {
    ev.c < clients &&
    match ev
    case Opened(_, fd, path, _) => fd >= 0 && Tracked(cfg, path)
    case Answered(_, _, call, _) => ValidCall(call)
    case Closed(_, _) => true
  }

  predicate AllPlausible(cfg: Config, clients: nat, trace: seq<Event>) {
    forall i :: 0 <= i < |trace| ==> Plausible(cfg, clients, trace[i])
  }

  lemma PlausibleThen(cfg: Config, clients: nat, a: seq<Event>, b: seq<Event>)
    requires AllPlausible(cfg, clients, a) && AllPlausible(cfg, clients, b)
    ensures AllPlausible(cfg, clients, a + b)
  {
  }

  lemma PlausibleParts(cfg: Config, clients: nat, trace: seq<Event>)
    requires trace != [] && AllPlausible(cfg, clients, trace)
    ensures Plausible(cfg, clients, trace[0]) && AllPlausible(cfg, clients, trace[1..])
  {
  }

  // ---------------------------------------------------------------- what runs show is plausible

  ghost predicate Sane(s: State, clients: nat) {
    && |s.clients| == clients
    && forall c, fd :: 0 <= c < |s.clients| && fd in s.clients[c].fdMap ==> fd >= 0
  }

  lemma StepSane(cfg: Config, clients: nat, s: State, e: Step)
    requires SystemOk(cfg, s) && Sane(s, clients) && CanStep(cfg, s, e)
    ensures Sane(Do(cfg, s, e), clients)
    ensures AllPlausible(cfg, clients, Shows(cfg, s, e))
  {
    if e.AppReturn? {
      assert ClientOk(cfg, s, e.c);
      ReturnPlausible(cfg, clients, s, e.c, e.fallback);
    }
    StaysSane(cfg, clients, s, e);
  }

  lemma ReturnPlausible(cfg: Config, clients: nat, s: State, c: nat, fallback: Result)
    requires Sane(s, clients) && CanStep(cfg, s, AppReturn(c, fallback)) && ClientOk(cfg, s, c)
    ensures AllPlausible(cfg, clients, Shows(cfg, s, AppReturn(c, fallback)))
  {
  }

  lemma StaysSane(cfg: Config, clients: nat, s: State, e: Step)
    requires Sane(s, clients) && CanStep(cfg, s, e)
    ensures Sane(Do(cfg, s, e), clients)
  {
  }

  lemma {:induction false} RunPlausible(cfg: Config, clients: nat, s: State, steps: seq<Step>, s': State)
    requires SystemOk(cfg, s) && Sane(s, clients) && Run(cfg, s, steps, s')
    ensures AllPlausible(cfg, clients, Trace(cfg, s, steps, s'))
    decreases |steps|
  {
    if steps == [] {
    } else {
      var s1 := Do(cfg, s, steps[0]);
      StepSane(cfg, clients, s, steps[0]);
      StepKeeps(cfg, s, steps[0]);
      RunPlausible(cfg, clients, s1, steps[1..], s');
      PlausibleThen(cfg, clients, Shows(cfg, s, steps[0]), Trace(cfg, s1, steps[1..], s'));
    }
  }

  // ---------------------------------------------------------------- one event after the other

  predicate CalmClient(cl: C.Client) {
    cl.phase.Idle? && cl.local == cl.fdMap.Keys
  }

  predicate CalmServer(v: Server) {
    v.handler.Idle? && v.cache == map[]
  }

  /** Nobody is in the middle of anything but the closes that are on their way. */
  ghost predicate Calm(cfg: Config, clients: nat, s: State, spec: Spec) {
    && SystemOk(cfg, s) && Simulates(cfg, s, spec) && |s.clients| == clients
    && (forall c :: 0 <= c < |s.clients| ==> CalmClient(s.clients[c]))
    && (forall h :: 0 <= h < |s.servers| ==> CalmServer(s.servers[h]))
  }

  /** A run that shows one event keeps step with the specification. */
  lemma SpecKeepsStep(cfg: Config, s: State, spec: Spec, ev: Event, t: State)
    requires SystemOk(cfg, s) && Simulates(cfg, s, spec) && Displays(cfg, s, [ev], t)
    ensures SystemOk(cfg, t) && Allows(cfg, spec, ev) && Simulates(cfg, t, Advance(cfg, spec, ev))
  {
    var steps :| Run(cfg, s, steps, t) && Trace(cfg, s, steps, t) == [ev];
    RunKeeps(cfg, s, steps, t);
    RunSimulated(cfg, s, steps, t, spec);
    assert After(cfg, spec, [ev]) == Advance(cfg, spec, ev);
  }

  lemma CalmClose(cfg: Config, clients: nat, s: State, spec: Spec, c: nat, fd: int) returns (t: State)
    requires Calm(cfg, clients, s, spec) && Allows(cfg, spec, Closed(c, fd))
    ensures Displays(cfg, s, [Closed(c, fd)], t) && Calm(cfg, clients, t, Advance(cfg, spec, Closed(c, fd)))
  {
    assert Settled(s, c, fd);
    assert CalmClient(s.clients[c]);
    var e := AppClose(c, fd);
    t := Do(cfg, s, e);
    DisplaysStep(cfg, s, e);
    SpecKeepsStep(cfg, s, spec, Closed(c, fd), t);
    CloseStaysCalm(cfg, s, c, fd);
  }

  lemma CloseStaysCalm(cfg: Config, s: State, c: nat, fd: int)
    requires c < |s.clients| && CalmClient(s.clients[c]) && CanStep(cfg, s, AppClose(c, fd)) && fd in s.clients[c].fdMap
    ensures var t := Do(cfg, s, AppClose(c, fd));
            && t.servers == s.servers && |t.clients| == |s.clients| && CalmClient(t.clients[c])
            && forall d :: 0 <= d < |s.clients| && d != c ==> t.clients[d] == s.clients[d]
  {
  }

  /** The states an open goes through: asked, received, opened, answered, returned. */
  lemma CalmOpen(cfg: Config, clients: nat, s: State, spec: Spec, c: nat, fd: int, path: Path, live: bool)
    returns (t: State)
    requires Calm(cfg, clients, s, spec) && Allows(cfg, spec, Opened(c, fd, path, live))
    requires Plausible(cfg, clients, Opened(c, fd, path, live))
    ensures Displays(cfg, s, [Opened(c, fd, path, live)], t)
    ensures Calm(cfg, clients, t, Advance(cfg, spec, Opened(c, fd, path, live)))
  {
    assert CalmClient(s.clients[c]);
    assert fd !in s.clients[c].fdMap by {
      assert !Settled(s, c, fd);
    }
    var h := Host(cfg, path);
    assert CalmServer(s.servers[h]);
    var sfd: int := -1;
    if live {
      sfd := Bound(s.servers[h].fds.Keys);
    }
    var s1 := AskOpen(cfg, s, c, fd, path);
    var s2 := ServeOpen(cfg, s1, c, fd, path, s.next, sfd);
    StepKeeps(cfg, s, AppOpen(c, fd, path));
    t := AnswerOpen(cfg, s2, c, fd, path, s.next, sfd);
    SilentThenShows(cfg, s, s1, s2, Opened(c, fd, path, live), t);
    SpecKeepsStep(cfg, s, spec, Opened(c, fd, path, live), t);
    OpenStaysCalm(s, s1, s2, t, c, fd, path, h);
  }

  lemma AskOpen(cfg: Config, s: State, c: nat, fd: int, path: Path) returns (t: State)
    requires CanStep(cfg, s, AppOpen(c, fd, path))
    ensures t == Do(cfg, s, AppOpen(c, fd, path)) && Displays(cfg, s, [], t)
    ensures t.servers == s.servers && |t.clients| == |s.clients|
    ensures t.clients == s.clients[c := C.StartOpen(s.clients[c], fd, path, s.next)]
    ensures s.next in t.msgs && t.msgs[s.next] == C.OpenReq(c, Host(cfg, path), fd, path)
  {
    t := Do(cfg, s, AppOpen(c, fd, path));
    DisplaysStep(cfg, s, AppOpen(c, fd, path));
  }

  lemma ServeOpen(cfg: Config, s: State, c: nat, fd: int, path: Path, id: nat, sfd: int) returns (t: State)
    requires Tracked(cfg, path) && id in s.msgs && s.msgs[id] == C.OpenReq(c, Host(cfg, path), fd, path)
    requires Host(cfg, path) < |s.servers| && CalmServer(s.servers[Host(cfg, path)])
    requires if sfd == -1 then cfg.opensMayFail else sfd >= 0 && sfd !in s.servers[Host(cfg, path)].fds
    ensures Displays(cfg, s, [], t) && t.clients == s.clients && |t.servers| == |s.servers|
    ensures CalmServer(t.servers[Host(cfg, path)])
    ensures forall g :: 0 <= g < |s.servers| && g != Host(cfg, path) ==> t.servers[g] == s.servers[g]
    ensures id in t.msgs && t.msgs[id] == C.OpenResp(c, Host(cfg, path), fd, sfd)
  {
    var a := Serve(Host(cfg, path), Progress(RecvOpen(id, c, fd, path)));
    var u := Do(cfg, s, a);
    DisplaysStep(cfg, s, a);
    t := FinishOpen(cfg, u, c, fd, path, id, sfd);
    DisplaysThen(cfg, s, [], u, [], t);
  }

  lemma FinishOpen(cfg: Config, s: State, c: nat, fd: int, path: Path, id: nat, sfd: int) returns (t: State)
    requires Tracked(cfg, path) && Host(cfg, path) < |s.servers|
    requires var v := s.servers[Host(cfg, path)];
             && v.handler == OpenAt(id, c, fd, path, path) && v.cache == map[]
             && if sfd == -1 then cfg.opensMayFail else sfd >= 0 && sfd !in v.fds
    ensures Displays(cfg, s, [], t) && t.clients == s.clients && |t.servers| == |s.servers|
    ensures CalmServer(t.servers[Host(cfg, path)])
    ensures forall g :: 0 <= g < |s.servers| && g != Host(cfg, path) ==> t.servers[g] == s.servers[g]
    ensures id in t.msgs && t.msgs[id] == C.OpenResp(c, Host(cfg, path), fd, sfd)
  {
    var e := Serve(Host(cfg, path), Progress(OpenDo(sfd)));
    DisplaysStep(cfg, s, e);
    t := Do(cfg, s, e);
  }

  lemma AnswerOpen(cfg: Config, s: State, c: nat, fd: int, path: Path, id: nat, sfd: int) returns (t: State)
    requires c < |s.clients| && s.clients[c].phase == C.Opening(id, fd) && s.clients[c].done == 0
    requires fd in s.clients[c].fdMap && s.clients[c].fdMap[fd] == path
    requires id in s.msgs && s.msgs[id] == C.OpenResp(c, Host(cfg, path), fd, sfd)
    ensures Displays(cfg, s, [Opened(c, fd, path, sfd != -1)], t)
    ensures t.servers == s.servers && |t.clients| == |s.clients|
    ensures t.clients == s.clients[c := C.Leave(C.OnOpenResp(s.clients[c], fd, sfd))]
  {
    var d, e := Deliver(id), AppReturn(c, Result(0, []));
    var u := Do(cfg, s, d);
    DisplaysStep(cfg, s, d);
    DisplaysStep(cfg, u, e);
    t := Do(cfg, u, e);
    DisplaysThen(cfg, s, [], u, [Opened(c, fd, path, sfd != -1)], t);
  }

  lemma OpenStaysCalm(s: State, s1: State, s2: State, t: State, c: nat, fd: int, path: Path, h: nat)
    requires c < |s.clients| && h < |s.servers| && CalmClient(s.clients[c])
    requires s1.servers == s.servers && s1.clients == s.clients[c := C.StartOpen(s.clients[c], fd, path, s.next)]
    requires s2.clients == s1.clients && |s2.servers| == |s1.servers| && CalmServer(s2.servers[h])
    requires forall g :: 0 <= g < |s1.servers| && g != h ==> s2.servers[g] == s1.servers[g]
    requires t.servers == s2.servers
    requires exists sfd :: t.clients == s2.clients[c := C.Leave(C.OnOpenResp(s2.clients[c], fd, sfd))]
    requires forall d :: 0 <= d < |s.clients| ==> CalmClient(s.clients[d])
    requires forall g :: 0 <= g < |s.servers| ==> CalmServer(s.servers[g])
    ensures |t.clients| == |s.clients|
    ensures forall d :: 0 <= d < |t.clients| ==> CalmClient(t.clients[d])
    ensures forall g :: 0 <= g < |t.servers| ==> CalmServer(t.servers[g])
  {
    forall d | 0 <= d < |t.clients|
      ensures CalmClient(t.clients[d])
    {
      if d == c {
        assert CalmClient(s.clients[c]);
        assert t.clients[c].fdMap.Keys == s.clients[c].fdMap.Keys + {fd};
      } else {
        assert t.clients[d] == s.clients[d];
      }
    }
  }

  // ---------------------------------------------------------------- calls

  /** How much the server's read has to transfer for the answer `r`. */
  function Transferred(live: bool, call: Call, r: Result): nat {
    if live && !call.Seek? && r.ret >= 0 && (SequentialCall(call) || call.offset >= 0) then r.ret else 0
  }

  lemma CalmCall(cfg: Config, clients: nat, s: State, spec: Spec, c: nat, fd: int, call: Call, r: Result)
    returns (t: State)
    requires Calm(cfg, clients, s, spec) && Allows(cfg, spec, Answered(c, fd, call, r)) && ValidCall(call)
    ensures Displays(cfg, s, [Answered(c, fd, call, r)], t)
    ensures Calm(cfg, clients, t, Advance(cfg, spec, Answered(c, fd, call, r)))
  {
    assert Settled(s, c, fd);
    assert CalmClient(s.clients[c]) && ClientOk(cfg, s, c);
    var h := Host(cfg, s.clients[c].fdMap[fd]);
    CalledOperand(cfg, s, spec, c, fd, call, r);
    assert CalmServer(s.servers[h]);
    t := WholeCall(cfg, s, c, fd, call, r, spec[(c, fd)].live, spec[(c, fd)].off);
    SpecKeepsStep(cfg, s, spec, Answered(c, fd, call, r), t);
    CallStaysCalm(s, t, c, h);
  }

  /** A call, from its request to its return. */
  lemma WholeCall(cfg: Config, s: State, c: nat, fd: int, call: Call, r: Result, live: bool, off: nat)
    returns (t: State)
    requires SystemOk(cfg, s) && CanStep(cfg, s, AppCall(c, fd, call)) && CalmClient(s.clients[c])
    requires fd in s.clients[c].redir
    requires var h := Host(cfg, s.clients[c].fdMap[fd]);
             && h < |s.servers| && CalmServer(s.servers[h])
             && Operand(cfg, s.servers[h], s.clients[c].redir[fd], live, off, call, r)
    ensures Displays(cfg, s, [Answered(c, fd, call, r)], t)
    ensures |t.servers| == |s.servers| && |t.clients| == |s.clients| && CalmClient(t.clients[c])
    ensures var h := Host(cfg, s.clients[c].fdMap[fd]);
            CalmServer(t.servers[h]) && forall g :: 0 <= g < |s.servers| && g != h ==> t.servers[g] == s.servers[g]
    ensures forall d :: 0 <= d < |s.clients| && d != c ==> t.clients[d] == s.clients[d]
  {
    var s1 := Do(cfg, s, AppCall(c, fd, call));
    DisplaysStep(cfg, s, AppCall(c, fd, call));
    StepKeeps(cfg, s, AppCall(c, fd, call));
    var s2 := ServeCall(cfg, s1, c, s.next, fd, call, r, live, off);
    AnswerFits(cfg, s.servers[Host(cfg, s.clients[c].fdMap[fd])], s.clients[c].redir[fd], live, off, call, r);
    t := AnswerCall(cfg, s2, c, s.next, fd, call, r);
    SilentThenShows(cfg, s, s1, s2, Answered(c, fd, call, r), t);
  }

  lemma SilentThenShows(cfg: Config, s: State, s1: State, s2: State, ev: Event, t: State)
    requires Displays(cfg, s, [], s1) && Displays(cfg, s1, [], s2) && Displays(cfg, s2, [ev], t)
    ensures Displays(cfg, s, [ev], t)
  {
    DisplaysThen(cfg, s, [], s1, [], s2);
    DisplaysThen(cfg, s, [], s2, [ev], t);
  }

  lemma AnswerFits(cfg: Config, v: Server, sfd: int, live: bool, off: nat, call: Call, r: Result)
    requires Operand(cfg, v, sfd, live, off, call, r)
    ensures if call.Seek? then r.buf == [] else r.ret != -1
  {
  }

  lemma CallStaysCalm(s: State, t: State, c: nat, h: nat)
    requires c < |s.clients| == |t.clients| && h < |s.servers| == |t.servers|
    requires forall d :: 0 <= d < |s.clients| ==> CalmClient(s.clients[d])
    requires forall g :: 0 <= g < |s.servers| ==> CalmServer(s.servers[g])
    requires forall d :: 0 <= d < |s.clients| && d != c ==> t.clients[d] == s.clients[d]
    requires forall g :: 0 <= g < |s.servers| && g != h ==> t.servers[g] == s.servers[g]
    requires CalmClient(t.clients[c]) && CalmServer(t.servers[h])
    ensures forall d :: 0 <= d < |t.clients| ==> CalmClient(t.clients[d])
    ensures forall g :: 0 <= g < |t.servers| ==> CalmServer(t.servers[g])
  {
  }

  /** The server descriptor `sfd` of server `v` is one on which the specification allows the answer. */
  ghost predicate Operand(cfg: Config, v: Server, sfd: int, live: bool, off: nat, call: Call, r: Result) {
    if !live then sfd !in v.fds && r == Unserved(call)
    else
      && sfd in v.fds && v.fds[sfd].off == off
      && ServedOk(cfg.fullReads, Bytes(cfg, v, v.fds[sfd].name), off, call, r)
  }

  lemma CalledOperand(cfg: Config, s: State, spec: Spec, c: nat, fd: int, call: Call, r: Result)
    requires SystemOk(cfg, s) && Simulates(cfg, s, spec) && Allows(cfg, spec, Answered(c, fd, call, r))
    requires c < |s.clients| && s.clients[c].phase.Idle? && fd in s.clients[c].fdMap && fd in s.clients[c].redir
    ensures var h := Host(cfg, s.clients[c].fdMap[fd]);
            && h < |s.servers|
            && Operand(cfg, s.servers[h], s.clients[c].redir[fd], spec[(c, fd)].live, spec[(c, fd)].off, call, r)
  {
    var cl := s.clients[c];
    var h, sfd, d := Host(cfg, cl.fdMap[fd]), cl.redir[fd], spec[(c, fd)];
    assert Settled(s, c, fd) && SameFile(s, c, fd, d);
    assert Linked(cfg, s, c, fd, OffOf(spec, c, fd));
    assert ServerOk(cfg, h, s.servers[h]);
    assert ClientOk(cfg, s, c);
    assert OpenFor(cfg, s, h, sfd, cl.fdMap[fd]);
    OperandBytes(cfg, h, s.servers[h], sfd, cl.fdMap[fd]);
  }

  lemma OperandBytes(cfg: Config, h: nat, v: Server, sfd: int, path: Path)
    requires PathsOk(cfg, h, v) && DiskOk(cfg, v) && TableOk(cfg, v)
    ensures -1 !in v.fds
    ensures sfd in v.fds && sfd in v.fdToPath && v.fdToPath[sfd] == path ==>
              path in cfg.files && Bytes(cfg, v, v.fds[sfd].name) == cfg.files[path]
  {
    if sfd in v.fds && sfd in v.fdToPath && v.fdToPath[sfd] == path {
      StandInBytes(cfg, v, v.fds[sfd].name, path);
    }
  }

  /** The server serves the call as the answer requires; a read is transferred, too. */
  lemma ServeCall(cfg: Config, s: State, c: nat, id: nat, fd: int, call: Call, r: Result, live: bool, off: nat)
    returns (t: State)
    requires SystemOk(cfg, s) && ValidCall(call) && c < |s.clients| && fd in s.clients[c].redir &&
             fd in s.clients[c].fdMap
    requires s.clients[c].phase == C.Calling(id, fd, call) && s.clients[c].buf == if call.Seek? then [] else call.buf
    requires id in s.msgs && s.msgs[id] == C.Request(s.clients[c], c, Host(cfg, s.clients[c].fdMap[fd]), fd, call)
    requires var h := Host(cfg, s.clients[c].fdMap[fd]);
             && h < |s.servers| && CalmServer(s.servers[h])
             && Operand(cfg, s.servers[h], s.clients[c].redir[fd], live, off, call, r)
    ensures Displays(cfg, s, [], t) && |t.servers| == |s.servers| && |t.clients| == |s.clients|
    ensures var h := Host(cfg, s.clients[c].fdMap[fd]);
            CalmServer(t.servers[h]) && forall g :: 0 <= g < |s.servers| && g != h ==> t.servers[g] == s.servers[g]
    ensures forall d :: 0 <= d < |s.clients| && d != c ==> t.clients[d] == s.clients[d]
    ensures t.clients[c] == s.clients[c].(buf := if call.Seek? then [] else r.buf)
    ensures var h := Host(cfg, s.clients[c].fdMap[fd]);
            id in t.msgs && t.msgs[id] == if call.Seek? then C.SeekResp(c, h, r.ret) else C.ReadResp(c, h, r.ret)
  {
    if call.Seek? {
      t := ServeSeek(cfg, s, c, id, fd, call, r, live, off);
    } else {
      t := ServeRead(cfg, s, c, id, fd, call, r, live, off);
    }
  }

  lemma SeekAnswers(cfg: Config, v: Server, sfd: int, live: bool, off: nat, call: Call, r: Result)
    requires call.Seek? && Operand(cfg, v, sfd, live, off, call, r)
    ensures r == Result(SeekAnswer(cfg, v, sfd, ToInt32(call.offset), call.whence), [])
  {
  }

  lemma ServeSeek(cfg: Config, s: State, c: nat, id: nat, fd: int, call: Call, r: Result, live: bool, off: nat)
    returns (t: State)
    requires call.Seek? && c < |s.clients| && fd in s.clients[c].redir && fd in s.clients[c].fdMap
    requires id in s.msgs && s.msgs[id] == C.Request(s.clients[c], c, Host(cfg, s.clients[c].fdMap[fd]), fd, call)
    requires s.clients[c].buf == []
    requires var h := Host(cfg, s.clients[c].fdMap[fd]);
             && h < |s.servers| && CalmServer(s.servers[h])
             && Operand(cfg, s.servers[h], s.clients[c].redir[fd], live, off, call, r)
    ensures Displays(cfg, s, [], t) && |t.servers| == |s.servers| && t.clients == s.clients
    ensures var h := Host(cfg, s.clients[c].fdMap[fd]);
            CalmServer(t.servers[h]) && forall g :: 0 <= g < |s.servers| && g != h ==> t.servers[g] == s.servers[g]
    ensures id in t.msgs && t.msgs[id] == C.SeekResp(c, Host(cfg, s.clients[c].fdMap[fd]), r.ret)
  {
    var h, sfd := Host(cfg, s.clients[c].fdMap[fd]), s.clients[c].redir[fd];
    var e := Serve(h, Progress(RecvSeek(id, c, sfd, ToInt32(call.offset), call.whence)));
    SeekAnswers(cfg, s.servers[h], sfd, live, off, call, r);
    DisplaysStep(cfg, s, e);
    t := Do(cfg, s, e);
  }

  /** The right transfer is possible, and gives the right bytes. */
  lemma ReadAnswers(cfg: Config, v: Server, sfd: int, live: bool, off: nat, call: Call, r: Result)
    requires !call.Seek? && Operand(cfg, v, sfd, live, off, call, r)
    ensures !ReadFails(v, sfd, C.WireOffset(call)) ==>
              ReadLen(cfg.fullReads, Size(cfg, v, sfd), ReadFrom(v, sfd, C.WireOffset(call)), |call.buf|,
                      Transferred(live, call, r))
    ensures var data := ReadData(cfg, v, sfd, |call.buf|, C.WireOffset(call), Transferred(live, call, r));
            |data| <= |call.buf| && r == Result(|data|, Fill(call.buf, data))
  {
    if ReadFails(v, sfd, C.WireOffset(call)) {
      assert Fill(call.buf, Zeros(|call.buf|)) == Zeros(|call.buf|);
    }
  }

  lemma ServeRead(cfg: Config, s: State, c: nat, id: nat, fd: int, call: Call, r: Result, live: bool, off: nat)
    returns (t: State)
    requires !call.Seek? && ValidCall(call) && c < |s.clients| && fd in s.clients[c].redir && fd in s.clients[c].fdMap
    requires id in s.msgs && s.msgs[id] == C.Request(s.clients[c], c, Host(cfg, s.clients[c].fdMap[fd]), fd, call)
    requires s.clients[c].buf == call.buf
    requires var h := Host(cfg, s.clients[c].fdMap[fd]);
             && h < |s.servers| && CalmServer(s.servers[h])
             && Operand(cfg, s.servers[h], s.clients[c].redir[fd], live, off, call, r)
    ensures Displays(cfg, s, [], t) && |t.servers| == |s.servers| && |t.clients| == |s.clients|
    ensures var h := Host(cfg, s.clients[c].fdMap[fd]);
            CalmServer(t.servers[h]) && forall g :: 0 <= g < |s.servers| && g != h ==> t.servers[g] == s.servers[g]
    ensures t.clients == s.clients[c := s.clients[c].(buf := r.buf)]
    ensures id in t.msgs && t.msgs[id] == C.ReadResp(c, Host(cfg, s.clients[c].fdMap[fd]), r.ret)
  {
    var h, sfd := Host(cfg, s.clients[c].fdMap[fd]), s.clients[c].redir[fd];
    var n := Transferred(live, call, r);
    ReadAnswers(cfg, s.servers[h], sfd, live, off, call, r);
    var e := Serve(h, Progress(RecvRead(id, c, sfd, |call.buf|, C.WireOffset(call), n)));
    DisplaysStep(cfg, s, e);
    var u := Do(cfg, s, e);
    ThenSilently(cfg, s, [], u, BulkDone(id));
    t := Do(cfg, u, BulkDone(id));
  }

  /** The answer reaches the client, and the call returns it. */
  lemma AnswerCall(cfg: Config, s: State, c: nat, id: nat, fd: int, call: Call, r: Result) returns (t: State)
    requires c < |s.clients| && s.clients[c].phase == C.Calling(id, fd, call) && s.clients[c].done == 0
    requires if call.Seek? then r.buf == [] else s.clients[c].buf == r.buf && r.ret != -1
    requires id in s.msgs && (s.msgs[id].ReadResp? || s.msgs[id].SeekResp?)
    requires s.msgs[id].client == c && s.msgs[id].ret == r.ret
    ensures Displays(cfg, s, [Answered(c, fd, call, r)], t)
    ensures t.servers == s.servers && |t.clients| == |s.clients|
    ensures t.clients == s.clients[c := C.Leave(C.OnAnswer(s.clients[c], r.ret))]
  {
    var d, e := Deliver(id), AppReturn(c, Result(0, []));
    var u := Do(cfg, s, d);
    DisplaysStep(cfg, s, d);
    DisplaysStep(cfg, u, e);
    t := Do(cfg, u, e);
    DisplaysThen(cfg, s, [], u, [Answered(c, fd, call, r)], t);
  }

  // ---------------------------------------------------------------- all traces

  lemma CalmEvent(cfg: Config, clients: nat, s: State, spec: Spec, ev: Event) returns (t: State)
    requires Calm(cfg, clients, s, spec) && Allows(cfg, spec, ev) && Plausible(cfg, clients, ev)
    ensures Displays(cfg, s, [ev], t) && Calm(cfg, clients, t, Advance(cfg, spec, ev))
  {
    match ev
    case Opened(c, fd, path, live) => t := CalmOpen(cfg, clients, s, spec, c, fd, path, live);
    case Answered(c, fd, call, r) => t := CalmCall(cfg, clients, s, spec, c, fd, call, r);
    case Closed(c, fd) => t := CalmClose(cfg, clients, s, spec, c, fd);
  }

  lemma ShowsThen(cfg: Config, s: State, ev: Event, t: State, rest: seq<Event>)
    requires Displays(cfg, s, [ev], t) && CanShow(cfg, t, rest)
    ensures CanShow(cfg, s, [ev] + rest)
  {
    var u :| Displays(cfg, t, rest, u);
    DisplaysThen(cfg, s, [ev], t, rest, u);
  }

  lemma {:induction false} CalmTrace(cfg: Config, clients: nat, s: State, spec: Spec, trace: seq<Event>)
    requires Calm(cfg, clients, s, spec) && Accepts(cfg, spec, trace) && AllPlausible(cfg, clients, trace)
    ensures CanShow(cfg, s, trace)
    decreases |trace|
  {
    if trace == [] {
      DisplaysNothing(cfg, s);
    } else {
      var ev, rest := trace[0], trace[1..];
      PlausibleParts(cfg, clients, trace);
      var t := CalmEvent(cfg, clients, s, spec, ev);
      CalmTrace(cfg, clients, t, Advance(cfg, spec, ev), rest);
      ShowsThen(cfg, s, ev, t, rest);
      assert trace == [ev] + rest;
    }
  }

  /** The specification is exact: a trace is one of the system, for some interleaving, delivery and choice of
      the operating system, exactly when the specification accepts it. */
  lemma SpecificationIsExact(cfg: Config, clients: nat, trace: seq<Event>)
    ensures CanShow(cfg, Init(cfg, clients), trace) <==>
              Accepts(cfg, map[], trace) && AllPlausible(cfg, clients, trace)
  {
    if CanShow(cfg, Init(cfg, clients), trace) {
      ShownIsAccepted(cfg, clients, trace);
    }
    if Accepts(cfg, map[], trace) && AllPlausible(cfg, clients, trace) {
      InitCalm(cfg, clients);
      CalmTrace(cfg, clients, Init(cfg, clients), map[], trace);
    }
  }

  lemma ShownIsAccepted(cfg: Config, clients: nat, trace: seq<Event>)
    requires CanShow(cfg, Init(cfg, clients), trace)
    ensures Accepts(cfg, map[], trace) && AllPlausible(cfg, clients, trace)
  {
    var s := Init(cfg, clients);
    var t :| Displays(cfg, s, trace, t);
    var steps :| Run(cfg, s, steps, t) && Trace(cfg, s, steps, t) == trace;
    InitOk(cfg, clients);
    EveryRunIsServed(cfg, clients, steps, t);
    RunPlausible(cfg, clients, s, steps, t);
  }

  lemma InitCalm(cfg: Config, clients: nat)
    ensures Calm(cfg, clients, Init(cfg, clients), map[])
  {
    InitOk(cfg, clients);
    InitSimulates(cfg, clients);
    assert C.FRESH.fdMap.Keys == {};
  }

  /** Every call out of range shows: some run makes it on a newly opened file and gets an answer, or an offset,
      that the plain file system would not give. */
  lemma OutOfRangeShows(cfg: Config, path: Path, call: Call) returns (trace: seq<Event>)
    requires Tracked(cfg, path) && ValidCall(call) && !InRange(|cfg.files[path]|, 0, call)
    ensures CanShow(cfg, Init(cfg, 1), trace)
    ensures Accepts(cfg, map[], trace) && !AgreesWithPosix(cfg, map[], trace)
    ensures |trace| == 2 && trace[0] == Opened(0, 3, path, true) && trace[1].Answered? && trace[1].call == call
  {
    var r := SomeAnswer(cfg.fullReads, cfg.files[path], 0, call);
    trace := [Opened(0, 3, path, true), Answered(0, 3, call, r)];
    var spec := Advance(cfg, map[], trace[0]);
    assert trace[1..] == [trace[1]] && [trace[1]][1..] == [];
    assert spec[(0, 3)] == SpecFd(path, 0, true);
    assert Allows(cfg, spec, trace[1]);
    SpecificationIsExact(cfg, 1, trace);
    InRangeIffAgrees(cfg, map[], trace);
    assert !CallsInRange(cfg, spec, trace[1..]);
  }
}
