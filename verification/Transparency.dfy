/** The main theorem: whatever the interleaving of clients, servers, message deliveries and copies, every
    descriptor behaves as a path and an offset over an immutable file system. */
module Transparency {
  import opened Posix
  import opened Session
  import opened CacheServer
  import opened ServerInvariant
  import opened CacheSystem
  import opened SystemInvariant
  import C = CacheClient

  // ---------------------------------------------------------------- the specification

  /** The specification's view of a descriptor. */
  datatype SpecFd = SpecFd(path: Path, off: nat, live: bool)

  /** The specification state: a path and an offset, and whether the server could open it, for each tracked
      descriptor of each client. */
  type Spec = map<(nat, int), SpecFd>

  /** `ev` is something the specification may do next. */
  predicate Allows(cfg: Config, spec: Spec, ev: Event) {
    match ev
    case Opened(c, fd, path, live) => (c, fd) !in spec && path in cfg.files && (live || cfg.opensMayFail)
    case Answered(c, fd, call, r) =>
      && (c, fd) in spec && spec[(c, fd)].path in cfg.files
      && var d := spec[(c, fd)];
         AnswerOk(cfg.fullReads, cfg.files[d.path], d.live, d.off, call, r)
    case Closed(c, fd) => (c, fd) in spec
  }

  function Advance(cfg: Config, spec: Spec, ev: Event): Spec
    requires Allows(cfg, spec, ev)
  {
    match ev
    case Opened(c, fd, path, live) => spec[(c, fd) := SpecFd(path, 0, live)]
    case Answered(c, fd, call, r) =>
      var d := spec[(c, fd)];
      spec[(c, fd) := d.(off := OffAfter(cfg.files[d.path], d.live, d.off, call, r))]
    case Closed(c, fd) => spec - {(c, fd)}
  }

  /** The specification can produce the whole trace. */
  predicate Accepts(cfg: Config, spec: Spec, trace: seq<Event>)
    decreases |trace|
  {
    trace == [] || (Allows(cfg, spec, trace[0]) && Accepts(cfg, Advance(cfg, spec, trace[0]), trace[1..]))
  }

  function After(cfg: Config, spec: Spec, trace: seq<Event>): Spec
    requires Accepts(cfg, spec, trace)
    decreases |trace|
  {
    if trace == [] then spec else After(cfg, Advance(cfg, spec, trace[0]), trace[1..])
  }

  // ---------------------------------------------------------------- the simulation relation

  datatype Outcome = Pending | Fixed(result: Result)

  /** The result of the call client `c` is blocked on, as soon as a server has fixed it. */
  function OutcomeOf(s: State, c: nat): Outcome
    requires c < |s.clients|
  {
    var cl := s.clients[c];
    if !cl.phase.Calling? then Pending
    else if cl.done == 1 then Fixed(Result(cl.readRet, if cl.phase.call.Seek? then [] else cl.buf))
    else if cl.phase.id !in s.msgs then Pending
    else
      match s.msgs[cl.phase.id]
      case BulkPush(_, _, data) =>
        if !cl.phase.call.Seek? && |data| <= |cl.phase.call.buf|
        then Fixed(Result(|data|, Fill(cl.phase.call.buf, data)))
        else Pending
      case ReadResp(_, _, ret) => Fixed(Result(ret, cl.buf))
      case SeekResp(_, _, ret) => Fixed(Result(ret, []))
      case _ => Pending
  }

  /** The table entry of `fd` leads to an open server descriptor, or says that the open failed. */
  ghost predicate Entry(cfg: Config, s: State, c: nat, fd: int) {
    && c < |s.clients| && fd in s.clients[c].fdMap && fd in s.clients[c].redir
    && s.clients[c].fdMap[fd] in cfg.files
    && Host(cfg, s.clients[c].fdMap[fd]) < |s.servers|
    && (LiveFd(s, c, fd) ==> s.clients[c].redir[fd] in s.servers[Host(cfg, s.clients[c].fdMap[fd])].fds)
    && (!LiveFd(s, c, fd) ==> cfg.opensMayFail)
  }

  /** The server could open the file behind `fd`. */
  predicate LiveFd(s: State, c: nat, fd: int) {
    c < |s.clients| && fd in s.clients[c].redir && s.clients[c].redir[fd] != -1
  }

  /** The offset of the server descriptor behind `fd`. */
  ghost function RemoteOff(cfg: Config, s: State, c: nat, fd: int): nat
    requires Entry(cfg, s, c, fd)
  {
    if !LiveFd(s, c, fd) then 0
    else s.servers[Host(cfg, s.clients[c].fdMap[fd])].fds[s.clients[c].redir[fd]].off
  }

  /** The server descriptor is where the specification is, unless a call on it is fixed but not yet
      returned; then that call's result and effect are ones the specification allows. */
  ghost predicate Linked(cfg: Config, s: State, c: nat, fd: int, off: nat) {
    && Entry(cfg, s, c, fd)
    && var cl := s.clients[c];
       var content := cfg.files[cl.fdMap[fd]];
       if cl.phase.Calling? && cl.phase.fd == fd && OutcomeOf(s, c).Fixed? then
         && AnswerOk(cfg.fullReads, content, LiveFd(s, c, fd), off, cl.phase.call, OutcomeOf(s, c).result)
         && RemoteOff(cfg, s, c, fd) == OffAfter(content, LiveFd(s, c, fd), off, cl.phase.call, OutcomeOf(s, c).result)
       else RemoteOff(cfg, s, c, fd) == off
  }

  function OffOf(spec: Spec, c: nat, fd: int): nat {
    if (c, fd) in spec then spec[(c, fd)].off else 0
  }

  /** The application knows `fd` as an open tracked descriptor. */
  predicate Settled(s: State, c: nat, fd: int) {
    c < |s.clients| && fd in s.clients[c].fdMap
    && !(s.clients[c].phase.Opening? && s.clients[c].phase.fd == fd)
  }

  predicate SameFile(s: State, c: nat, fd: int, d: SpecFd)
    requires Settled(s, c, fd)
  {
    d.path == s.clients[c].fdMap[fd] && d.live == LiveFd(s, c, fd)
  }

  /** The specification's descriptors are the application's. */
  ghost predicate SameDescriptors(s: State, spec: Spec) {
    && (forall c: nat, fd: int :: (c, fd) in spec <==> Settled(s, c, fd))
    && (forall c: nat, fd: int :: (c, fd) in spec && Settled(s, c, fd) ==> SameFile(s, c, fd, spec[(c, fd)]))
  }

  ghost predicate AllLinked(cfg: Config, s: State, spec: Spec) {
    forall c: nat, fd: int :: c < |s.clients| && fd in s.clients[c].redir ==> Linked(cfg, s, c, fd, OffOf(spec, c, fd))
  }

  ghost predicate Simulates(cfg: Config, s: State, spec: Spec) {
    SameDescriptors(s, spec) && AllLinked(cfg, s, spec)
  }

  lemma InitSimulates(cfg: Config, clients: nat)
    ensures Simulates(cfg, Init(cfg, clients), map[])
  {
  }

  // ---------------------------------------------------------------- steps of one client

  /** Nothing changed for `fd`: same entry, same server descriptor, same call in the same state. */
  lemma LinkedFrame(cfg: Config, s: State, s': State, c: nat, fd: int, off: nat)
    requires Linked(cfg, s, c, fd, off) && |s'.clients| == |s.clients| && |s'.servers| == |s.servers|
    requires var cl, cl' := s.clients[c], s'.clients[c];
             && fd in cl'.fdMap && cl'.fdMap[fd] == cl.fdMap[fd] && fd in cl'.redir && cl'.redir[fd] == cl.redir[fd]
             && ((cl'.phase == cl.phase && OutcomeOf(s', c) == OutcomeOf(s, c))
                 || (!(cl.phase.Calling? && cl.phase.fd == fd && OutcomeOf(s, c).Fixed?)
                     && !(cl'.phase.Calling? && cl'.phase.fd == fd && OutcomeOf(s', c).Fixed?)))
    requires LiveFd(s, c, fd) ==>
               var h := Host(cfg, s.clients[c].fdMap[fd]); var sfd := s.clients[c].redir[fd];
               sfd in s'.servers[h].fds && s'.servers[h].fds[sfd].off == s.servers[h].fds[sfd].off
    ensures Linked(cfg, s', c, fd, off)
  {
  }

  /** A client's step does not show at another client: its call's messages are its own. */
  lemma OtherOutcome(cfg: Config, s: State, s': State, d: nat, id: nat, c: nat)
    requires OnlyClient(s, s', d, id) && c != d && c < |s.clients|
    requires s.clients[c].phase.Calling? && s.clients[c].done != 1 ==> s.clients[c].phase.id != id
    ensures OutcomeOf(s', c) == OutcomeOf(s, c)
  {
    if s.clients[c].phase.Calling? && s.clients[c].done != 1 {
      OtherMsgs(s, s', d, id, s.clients[c].phase.id);
    }
  }

  lemma OtherLinked(cfg: Config, s: State, s': State, d: nat, id: nat, c: nat, fd: int, off: nat)
    requires OnlyClient(s, s', d, id) && c != d && Linked(cfg, s, c, fd, off)
    requires s.clients[c].phase.Calling? && s.clients[c].done != 1 ==> s.clients[c].phase.id != id
    ensures Linked(cfg, s', c, fd, off)
  {
    OtherOutcome(cfg, s, s', d, id, c);
    LinkedFrame(cfg, s, s', c, fd, off);
  }

  /** The handle of a message belongs to one client only. */
  lemma HandleIsMine(cfg: Config, s: State, d: nat, id: nat, c: nat)
    requires LinksOk(cfg, s) && c < |s.clients| && d < |s.clients| && c != d
    requires id == s.next || (!s.clients[d].phase.Idle? && s.clients[d].phase.id == id)
    ensures !s.clients[c].phase.Idle? ==> s.clients[c].phase.id != id
  {
    assert ClientOk(cfg, s, c);
  }

  /** A step of client `d` simulates if its own descriptors stay linked. */
  lemma ClientSimulates(cfg: Config, s: State, s': State, d: nat, id: nat, spec: Spec, spec': Spec)
    requires LinksOk(cfg, s) && Simulates(cfg, s, spec) && OnlyClient(s, s', d, id)
    requires id == s.next || (!s.clients[d].phase.Idle? && s.clients[d].phase.id == id)
    requires forall c: nat, fd: int :: c != d ==> ((c, fd) in spec' <==> (c, fd) in spec)
    requires forall c: nat, fd: int :: c != d && (c, fd) in spec ==> spec'[(c, fd)] == spec[(c, fd)]
    requires forall fd: int :: (d, fd) in spec' <==> Settled(s', d, fd)
    requires forall fd: int :: (d, fd) in spec' && Settled(s', d, fd) ==> SameFile(s', d, fd, spec'[(d, fd)])
    requires forall fd: int :: fd in s'.clients[d].redir ==> Linked(cfg, s', d, fd, OffOf(spec', d, fd))
    ensures Simulates(cfg, s', spec')
  {
    forall c: nat, fd: int | c != d
      ensures (c, fd) in spec' <==> Settled(s', c, fd)
      ensures (c, fd) in spec' ==> SameFile(s', c, fd, spec'[(c, fd)])
    {
      assert (c, fd) in spec <==> Settled(s, c, fd);
    }
    forall c: nat, fd: int | c < |s'.clients| && fd in s'.clients[c].redir
      ensures Linked(cfg, s', c, fd, OffOf(spec', c, fd))
    {
      if c != d {
        HandleIsMine(cfg, s, d, id, c);
        assert OffOf(spec', c, fd) == OffOf(spec, c, fd);
        OtherLinked(cfg, s, s', d, id, c, fd, OffOf(spec, c, fd));
      }
    }
  }

  /** The events of a step are allowed, and the relation holds again after them. */
  ghost predicate StepSimulated(cfg: Config, s: State, e: Step, spec: Spec)
    requires CanStep(cfg, s, e)
  {
    Accepts(cfg, spec, Shows(cfg, s, e)) && Simulates(cfg, Do(cfg, s, e), After(cfg, spec, Shows(cfg, s, e)))
  }

  lemma OpenSimulated(cfg: Config, s: State, c: nat, fd: int, path: Path, spec: Spec)
    requires LinksOk(cfg, s) && Simulates(cfg, s, spec) && CanStep(cfg, s, AppOpen(c, fd, path))
    ensures StepSimulated(cfg, s, AppOpen(c, fd, path), spec)
  {
    var s' := Do(cfg, s, AppOpen(c, fd, path));
    assert ClientOk(cfg, s, c);
    forall g: int | g in s'.clients[c].redir
      ensures Linked(cfg, s', c, g, OffOf(spec, c, g))
    {
      LinkedFrame(cfg, s, s', c, g, OffOf(spec, c, g));
    }
    forall g: int
      ensures Settled(s', c, g) <==> Settled(s, c, g)
    {
    }
    ClientSimulates(cfg, s, s', c, s.next, spec, spec);
  }

  lemma OpenOtherSimulated(cfg: Config, s: State, c: nat, fd: int, spec: Spec)
    requires LinksOk(cfg, s) && Simulates(cfg, s, spec) && CanStep(cfg, s, AppOpenOther(c, fd))
    ensures StepSimulated(cfg, s, AppOpenOther(c, fd), spec)
  {
    var s' := Do(cfg, s, AppOpenOther(c, fd));
    forall g: int | g in s'.clients[c].redir
      ensures Linked(cfg, s', c, g, OffOf(spec, c, g))
    {
      LinkedFrame(cfg, s, s', c, g, OffOf(spec, c, g));
    }
    ClientSimulates(cfg, s, s', c, s.next, spec, spec);
  }

  lemma CallSimulated(cfg: Config, s: State, c: nat, fd: int, call: Call, spec: Spec)
    requires LinksOk(cfg, s) && Simulates(cfg, s, spec) && CanStep(cfg, s, AppCall(c, fd, call))
    ensures StepSimulated(cfg, s, AppCall(c, fd, call), spec)
  {
    var s' := Do(cfg, s, AppCall(c, fd, call));
    assert ClientOk(cfg, s, c);
    assert OutcomeOf(s', c).Pending?;
    forall g: int | g in s'.clients[c].redir
      ensures Linked(cfg, s', c, g, OffOf(spec, c, g))
    {
      LinkedFrame(cfg, s, s', c, g, OffOf(spec, c, g));
    }
    ClientSimulates(cfg, s, s', c, s.next, spec, spec);
  }

  /** The specification after close(). */
  function CloseSpec(s: State, c: nat, fd: int, spec: Spec): Spec
    requires c < |s.clients|
  {
    if fd in s.clients[c].fdMap then spec - {(c, fd)} else spec
  }

  /** The other descriptors of the client stay linked. */
  lemma CloseLinked(cfg: Config, s: State, c: nat, fd: int, spec: Spec, g: int)
    requires LinksOk(cfg, s) && Simulates(cfg, s, spec) && CanStep(cfg, s, AppClose(c, fd))
    requires g in Do(cfg, s, AppClose(c, fd)).clients[c].redir
    ensures Linked(cfg, Do(cfg, s, AppClose(c, fd)), c, g, OffOf(CloseSpec(s, c, fd, spec), c, g))
  {
    assert ClientOk(cfg, s, c);
    LinkedFrame(cfg, s, Do(cfg, s, AppClose(c, fd)), c, g, OffOf(spec, c, g));
  }

  lemma CloseSimulated(cfg: Config, s: State, c: nat, fd: int, spec: Spec)
    requires LinksOk(cfg, s) && Simulates(cfg, s, spec) && CanStep(cfg, s, AppClose(c, fd))
    ensures StepSimulated(cfg, s, AppClose(c, fd), spec)
  {
    var s' := Do(cfg, s, AppClose(c, fd));
    var spec' := CloseSpec(s, c, fd, spec);
    forall g: int | g in s'.clients[c].redir
      ensures Linked(cfg, s', c, g, OffOf(spec', c, g))
    {
      CloseLinked(cfg, s, c, fd, spec, g);
    }
    forall g: int
      ensures (c, g) in spec' <==> Settled(s', c, g)
    {
      assert (c, g) in spec <==> Settled(s, c, g);
    }
    assert fd in s.clients[c].fdMap ==> Settled(s, c, fd);
    ClientSimulates(cfg, s, s', c, s.next, spec, spec');
    OneEvent(cfg, s, AppClose(c, fd), spec, spec');
  }

  /** A step that shows at most one event. */
  lemma OneEvent(cfg: Config, s: State, e: Step, spec: Spec, spec': Spec)
    requires CanStep(cfg, s, e)
    requires var evs := Shows(cfg, s, e);
             if evs == [] then spec' == spec
             else |evs| == 1 && Allows(cfg, spec, evs[0]) && spec' == Advance(cfg, spec, evs[0])
    ensures Accepts(cfg, spec, Shows(cfg, s, e)) && After(cfg, spec, Shows(cfg, s, e)) == spec'
  {
  }

  lemma ReturnOpenSimulated(cfg: Config, s: State, c: nat, fallback: Result, spec: Spec)
    requires LinksOk(cfg, s) && Simulates(cfg, s, spec) && CanStep(cfg, s, AppReturn(c, fallback))
    requires s.clients[c].phase.Opening?
    ensures StepSimulated(cfg, s, AppReturn(c, fallback), spec)
  {
    var s' := Do(cfg, s, AppReturn(c, fallback));
    var cl := s.clients[c];
    assert ClientOk(cfg, s, c);
    var fd := cl.phase.fd;
    assert !Settled(s, c, fd);
    assert fd in cl.redir && OpenFor(cfg, s, Host(cfg, cl.fdMap[fd]), cl.redir[fd], cl.fdMap[fd]);
    var spec' := Advance(cfg, spec, Opened(c, fd, cl.fdMap[fd], LiveFd(s, c, fd)));
    forall g: int | g in s'.clients[c].redir
      ensures Linked(cfg, s', c, g, OffOf(spec', c, g))
    {
      assert OffOf(spec', c, g) == OffOf(spec, c, g);
      LinkedFrame(cfg, s, s', c, g, OffOf(spec, c, g));
    }
    forall g: int
      ensures (c, g) in spec' <==> Settled(s', c, g)
    {
      assert (c, g) in spec <==> Settled(s, c, g);
    }
    ClientSimulates(cfg, s, s', c, s.next, spec, spec');
    OneEvent(cfg, s, AppReturn(c, fallback), spec, spec');
  }

  lemma ReturnCallSimulated(cfg: Config, s: State, c: nat, fallback: Result, spec: Spec)
    requires LinksOk(cfg, s) && Simulates(cfg, s, spec) && CanStep(cfg, s, AppReturn(c, fallback))
    requires s.clients[c].phase.Calling?
    ensures StepSimulated(cfg, s, AppReturn(c, fallback), spec)
  {
    var s' := Do(cfg, s, AppReturn(c, fallback));
    var cl := s.clients[c];
    assert ClientOk(cfg, s, c);
    var fd, call := cl.phase.fd, cl.phase.call;
    assert Settled(s, c, fd) && (c, fd) in spec;
    assert Linked(cfg, s, c, fd, OffOf(spec, c, fd));
    var r := OutcomeOf(s, c).result;
    assert r == C.Answer(cl, call, fallback);
    var spec' := Advance(cfg, spec, Answered(c, fd, call, r));
    forall g: int | g in s'.clients[c].redir
      ensures Linked(cfg, s', c, g, OffOf(spec', c, g))
    {
      assert Linked(cfg, s, c, g, OffOf(spec, c, g));
      if g != fd {
        LinkedFrame(cfg, s, s', c, g, OffOf(spec, c, g));
      }
    }
    ClientSimulates(cfg, s, s', c, s.next, spec, spec');
    OneEvent(cfg, s, AppReturn(c, fallback), spec, spec');
  }

  lemma DeliverSimulated(cfg: Config, s: State, id: nat, spec: Spec)
    requires LinksOk(cfg, s) && Simulates(cfg, s, spec) && CanStep(cfg, s, Deliver(id))
    ensures StepSimulated(cfg, s, Deliver(id), spec)
  {
    var s' := Do(cfg, s, Deliver(id));
    var m := s.msgs[id];
    var cl := s.clients[m.client];
    assert MsgOk(cfg, s, id, m);
    assert ClientOk(cfg, s, m.client);
    assert !m.OpenResp? ==> OutcomeOf(s', m.client) == OutcomeOf(s, m.client);
    forall g: int | g in s'.clients[m.client].redir
      ensures Linked(cfg, s', m.client, g, OffOf(spec, m.client, g))
    {
      if m.OpenResp? && g == m.lfd {
        assert !Settled(s, m.client, g);
      } else {
        LinkedFrame(cfg, s, s', m.client, g, OffOf(spec, m.client, g));
      }
    }
    forall g: int
      ensures Settled(s', m.client, g) <==> Settled(s, m.client, g)
    {
    }
    ClientSimulates(cfg, s, s', m.client, id, spec, spec);
  }

  lemma BulkSimulated(cfg: Config, s: State, id: nat, spec: Spec)
    requires LinksOk(cfg, s) && Simulates(cfg, s, spec) && CanStep(cfg, s, BulkDone(id))
    ensures StepSimulated(cfg, s, BulkDone(id), spec)
  {
    var s' := Do(cfg, s, BulkDone(id));
    var m := s.msgs[id];
    assert MsgOk(cfg, s, id, m);
    assert ClientOk(cfg, s, m.client);
    assert OutcomeOf(s', m.client) == OutcomeOf(s, m.client);
    forall g: int | g in s'.clients[m.client].redir
      ensures Linked(cfg, s', m.client, g, OffOf(spec, m.client, g))
    {
      LinkedFrame(cfg, s, s', m.client, g, OffOf(spec, m.client, g));
    }
    ClientSimulates(cfg, s, s', m.client, id, spec, spec);
  }

  // ---------------------------------------------------------------- steps of one server

  /** The step that serves a read transfers what the specification transfers, from the original or from a
      copy. */
  lemma ReadServes(cfg: Config, v: Server, a: HandlerAct, call: Call, content: seq<Byte>)
    requires HandlerEnabled(cfg, v, a) && a.RecvRead? && !call.Seek?
    requires a.sfd in v.fds && Bytes(cfg, v, v.fds[a.sfd].name) == content
    requires a.count == |call.buf| && a.offset == C.WireOffset(call)
    ensures var data := ReadData(cfg, v, a.sfd, a.count, a.offset, a.n);
            && |data| <= |call.buf|
            && var r := Result(|data|, Fill(call.buf, data));
               && ServedOk(cfg.fullReads, content, v.fds[a.sfd].off, call, r)
               && HandlerApply(cfg, v, a).fds[a.sfd].off == ServedOff(content, v.fds[a.sfd].off, call, r)
  {
  }

  lemma SeekServes(cfg: Config, v: Server, a: HandlerAct, call: Call, content: seq<Byte>)
    requires HandlerEnabled(cfg, v, a) && a.RecvSeek? && call.Seek?
    requires a.sfd in v.fds && Bytes(cfg, v, v.fds[a.sfd].name) == content
    requires a.offset == ToInt32(call.offset) && a.whence == call.whence
    ensures var r := Result(SeekAnswer(cfg, v, a.sfd, a.offset, a.whence), []);
            && ServedOk(cfg.fullReads, content, v.fds[a.sfd].off, call, r)
            && HandlerApply(cfg, v, a).fds[a.sfd].off == ServedOff(content, v.fds[a.sfd].off, call, r)
  {
  }

  /** A step of a server that serves no call leaves every descriptor linked. */
  lemma UnservedLinked(cfg: Config, s: State, s': State, h: nat, id: nat, c: nat, fd: int, off: nat)
    requires OnlyServer(s, s', h, id) && Linked(cfg, s, c, fd, off)
    requires !s.clients[c].phase.Idle? && s.clients[c].phase.id == id ==> OutcomeOf(s', c) == OutcomeOf(s, c)
    requires Host(cfg, s.clients[c].fdMap[fd]) == h && LiveFd(s, c, fd) ==>
               var sfd := s.clients[c].redir[fd];
               sfd in s'.servers[h].fds && s'.servers[h].fds[sfd].off == s.servers[h].fds[sfd].off
    ensures Linked(cfg, s', c, fd, off)
  {
    var cl := s.clients[c];
    if cl.phase.Idle? || cl.phase.id != id {
      if !cl.phase.Idle? {
        SameOtherMsgs(s, s', h, id, cl.phase.id);
      }
      assert OutcomeOf(s', c) == OutcomeOf(s, c);
    }
    LinkedFrame(cfg, s, s', c, fd, off);
  }

  /** A step of server `h` simulates silently if every descriptor stays linked. */
  lemma ServerSimulates(cfg: Config, s: State, h: nat, a: Act, spec: Spec)
    requires Simulates(cfg, s, spec) && CanStep(cfg, s, Serve(h, a))
    requires forall c: nat, fd: int :: Linked(cfg, s, c, fd, OffOf(spec, c, fd)) ==>
               Linked(cfg, Do(cfg, s, Serve(h, a)), c, fd, OffOf(spec, c, fd))
    ensures StepSimulated(cfg, s, Serve(h, a), spec)
  {
    var s' := Do(cfg, s, Serve(h, a));
    forall c: nat, fd: int
      ensures Settled(s', c, fd) <==> Settled(s, c, fd)
    {
    }
    forall c: nat, fd: int | c < |s'.clients| && fd in s'.clients[c].redir
      ensures Linked(cfg, s', c, fd, OffOf(spec, c, fd))
    {
      assert Linked(cfg, s, c, fd, OffOf(spec, c, fd));
    }
  }

  lemma InnerLinked(cfg: Config, s: State, h: nat, a: Act, c: nat, fd: int, off: nat)
    requires LinksOk(cfg, s) && CanStep(cfg, s, Serve(h, a)) && !TakesMessage(a)
    requires TableOk(cfg, s.servers[h]) && Linked(cfg, s, c, fd, off)
    ensures Linked(cfg, Do(cfg, s, Serve(h, a)), c, fd, off)
  {
    InnerTables(cfg, s.servers[h], a);
    assert ClientOk(cfg, s, c);
    UnservedLinked(cfg, s, Do(cfg, s, Serve(h, a)), h, s.next, c, fd, off);
  }

  lemma RecvOpenLinked(cfg: Config, s: State, h: nat, a: HandlerAct, c: nat, fd: int, off: nat)
    requires LinksOk(cfg, s) && CanStep(cfg, s, Serve(h, Progress(a))) && a.RecvOpen?
    requires Linked(cfg, s, c, fd, off)
    ensures Linked(cfg, Do(cfg, s, Serve(h, Progress(a))), c, fd, off)
  {
    assert MsgOk(cfg, s, a.id, s.msgs[a.id]);
    UnservedLinked(cfg, s, Do(cfg, s, Serve(h, Progress(a))), h, a.id, c, fd, off);
  }

  lemma OpenDoLinked(cfg: Config, s: State, h: nat, sfd: int, c: nat, fd: int, off: nat)
    requires LinksOk(cfg, s) && CanStep(cfg, s, Serve(h, Progress(OpenDo(sfd))))
    requires Linked(cfg, s, c, fd, off)
    ensures Linked(cfg, Do(cfg, s, Serve(h, Progress(OpenDo(sfd)))), c, fd, off)
  {
    assert HandlerOk(cfg, s, h, s.servers[h].handler);
    UnservedLinked(cfg, s, Do(cfg, s, Serve(h, Progress(OpenDo(sfd)))), h, s.servers[h].handler.id, c, fd, off);
  }

  lemma RecvCloseLinked(cfg: Config, s: State, h: nat, id: nat, sfd: int, c: nat, fd: int, off: nat)
    requires LinksOk(cfg, s) && OwnersOk(cfg, s) && CanStep(cfg, s, Serve(h, Progress(RecvClose(id, sfd))))
    requires Linked(cfg, s, c, fd, off)
    ensures Linked(cfg, Do(cfg, s, Serve(h, Progress(RecvClose(id, sfd)))), c, fd, off)
  {
    assert MsgOk(cfg, s, id, s.msgs[id]);
    assert Holds(cfg, s, InMessage(id), h, sfd);
    if Host(cfg, s.clients[c].fdMap[fd]) == h && LiveFd(s, c, fd) {
      assert Holds(cfg, s, InTable(c, fd), h, s.clients[c].redir[fd]);
    }
    UnservedLinked(cfg, s, Do(cfg, s, Serve(h, Progress(RecvClose(id, sfd)))), h, id, c, fd, off);
  }

  /** The descriptor a request names is the client's, and reads the bytes of the client's file. */
  lemma RequestBytes(cfg: Config, s: State, h: nat, a: HandlerAct)
    requires CanStep(cfg, s, Serve(h, Progress(a))) && (a.RecvRead? || a.RecvSeek?)
    requires MsgOk(cfg, s, a.id, s.msgs[a.id]) && ClientOk(cfg, s, a.client)
    requires PathsOk(cfg, h, s.servers[h]) && DiskOk(cfg, s.servers[h]) && TableOk(cfg, s.servers[h])
    ensures var cl, v := s.clients[a.client], s.servers[h];
            && cl.phase.fd in cl.redir && a.sfd == cl.redir[cl.phase.fd]
            && cl.phase.fd in cl.fdMap && cl.fdMap[cl.phase.fd] in cfg.files
            && (if a.sfd == -1 then a.sfd !in v.fds
                else a.sfd in v.fds && Bytes(cfg, v, v.fds[a.sfd].name) == cfg.files[cl.fdMap[cl.phase.fd]])
  {
    var cl, v := s.clients[a.client], s.servers[h];
    assert OpenFor(cfg, s, h, a.sfd, cl.fdMap[cl.phase.fd]);
    if a.sfd != -1 {
      StandInBytes(cfg, v, v.fds[a.sfd].name, cl.fdMap[cl.phase.fd]);
    }
  }

  /** A call on a descriptor the server could not open. */
  lemma FailingLinked(cfg: Config, s: State, h: nat, a: HandlerAct, off: nat)
    requires CanStep(cfg, s, Serve(h, Progress(a))) && (a.RecvRead? || a.RecvSeek?)
    requires MsgOk(cfg, s, a.id, s.msgs[a.id])
    requires Linked(cfg, s, a.client, s.clients[a.client].phase.fd, off)
    requires a.sfd == -1 && a.sfd !in s.servers[h].fds
    ensures Linked(cfg, Do(cfg, s, Serve(h, Progress(a))), a.client, s.clients[a.client].phase.fd, off)
  {
    if a.RecvRead? {
      assert Fill(s.clients[a.client].phase.call.buf, Zeros(a.count)) == Zeros(a.count);
    }
  }

  lemma ReaderLinked(cfg: Config, s: State, h: nat, a: HandlerAct, off: nat)
    requires CanStep(cfg, s, Serve(h, Progress(a))) && a.RecvRead?
    requires MsgOk(cfg, s, a.id, s.msgs[a.id])
    requires Linked(cfg, s, a.client, s.clients[a.client].phase.fd, off)
    requires var cl, v := s.clients[a.client], s.servers[h];
             a.sfd != -1 && a.sfd in v.fds && Bytes(cfg, v, v.fds[a.sfd].name) == cfg.files[cl.fdMap[cl.phase.fd]]
    ensures Linked(cfg, Do(cfg, s, Serve(h, Progress(a))), a.client, s.clients[a.client].phase.fd, off)
  {
    var cl := s.clients[a.client];
    ReadServes(cfg, s.servers[h], a, cl.phase.call, cfg.files[cl.fdMap[cl.phase.fd]]);
  }

  lemma SeekerLinked(cfg: Config, s: State, h: nat, a: HandlerAct, off: nat)
    requires CanStep(cfg, s, Serve(h, Progress(a))) && a.RecvSeek?
    requires MsgOk(cfg, s, a.id, s.msgs[a.id])
    requires Linked(cfg, s, a.client, s.clients[a.client].phase.fd, off)
    requires var cl, v := s.clients[a.client], s.servers[h];
             a.sfd != -1 && a.sfd in v.fds && Bytes(cfg, v, v.fds[a.sfd].name) == cfg.files[cl.fdMap[cl.phase.fd]]
    ensures Linked(cfg, Do(cfg, s, Serve(h, Progress(a))), a.client, s.clients[a.client].phase.fd, off)
  {
    var cl := s.clients[a.client];
    SeekServes(cfg, s.servers[h], a, cl.phase.call, cfg.files[cl.fdMap[cl.phase.fd]]);
  }

  /** The client a request comes from sees its call fixed as the specification fixes it. */
  lemma CallerLinked(cfg: Config, s: State, h: nat, a: HandlerAct, off: nat)
    requires CanStep(cfg, s, Serve(h, Progress(a))) && (a.RecvRead? || a.RecvSeek?)
    requires MsgOk(cfg, s, a.id, s.msgs[a.id]) && ClientOk(cfg, s, a.client)
    requires Linked(cfg, s, a.client, s.clients[a.client].phase.fd, off)
    requires PathsOk(cfg, h, s.servers[h]) && DiskOk(cfg, s.servers[h]) && TableOk(cfg, s.servers[h])
    ensures Linked(cfg, Do(cfg, s, Serve(h, Progress(a))), a.client, s.clients[a.client].phase.fd, off)
  {
    RequestBytes(cfg, s, h, a);
    if a.sfd == -1 {
      FailingLinked(cfg, s, h, a, off);
    } else if a.RecvRead? {
      ReaderLinked(cfg, s, h, a, off);
    } else {
      SeekerLinked(cfg, s, h, a, off);
    }
  }

  lemma OperateLinked(cfg: Config, s: State, h: nat, a: HandlerAct, c: nat, fd: int, off: nat)
    requires LinksOk(cfg, s) && OwnersOk(cfg, s) && CanStep(cfg, s, Serve(h, Progress(a)))
    requires a.RecvRead? || a.RecvSeek?
    requires PathsOk(cfg, h, s.servers[h]) && DiskOk(cfg, s.servers[h]) && TableOk(cfg, s.servers[h])
    requires Linked(cfg, s, c, fd, off)
    ensures Linked(cfg, Do(cfg, s, Serve(h, Progress(a))), c, fd, off)
  {
    RequestOpen(cfg, s, a.id);
    assert ClientOk(cfg, s, a.client);
    var g := s.clients[a.client].phase.fd;
    if c == a.client && fd == g {
      CallerLinked(cfg, s, h, a, off);
    } else {
      OperateTables(cfg, s.servers[h], a);
      assert Holds(cfg, s, InTable(a.client, g), h, a.sfd);
      if Host(cfg, s.clients[c].fdMap[fd]) == h && LiveFd(s, c, fd) {
        assert Holds(cfg, s, InTable(c, fd), h, s.clients[c].redir[fd]);
      }
      NotCallerLinked(cfg, s, h, a, c, fd, off);
    }
  }

  lemma NotCallerLinked(cfg: Config, s: State, h: nat, a: HandlerAct, c: nat, fd: int, off: nat)
    requires LinksOk(cfg, s) && CanStep(cfg, s, Serve(h, Progress(a))) && (a.RecvRead? || a.RecvSeek?)
    requires Linked(cfg, s, c, fd, off) && MsgOk(cfg, s, a.id, s.msgs[a.id])
    requires c != a.client || fd != s.clients[a.client].phase.fd
    requires Host(cfg, s.clients[c].fdMap[fd]) == h && LiveFd(s, c, fd) ==>
               && s.clients[c].redir[fd] != a.sfd
               && s.servers[h].fds.Keys == Do(cfg, s, Serve(h, Progress(a))).servers[h].fds.Keys
               && forall sfd :: sfd in s.servers[h].fds && sfd != a.sfd ==>
                    Do(cfg, s, Serve(h, Progress(a))).servers[h].fds[sfd] == s.servers[h].fds[sfd]
    ensures Linked(cfg, Do(cfg, s, Serve(h, Progress(a))), c, fd, off)
  {
    var s' := Do(cfg, s, Serve(h, Progress(a)));
    if c == a.client {
      LinkedFrame(cfg, s, s', c, fd, off);
    } else {
      HandleIsMine(cfg, s, a.client, a.id, c);
      UnservedLinked(cfg, s, s', h, a.id, c, fd, off);
    }
  }

  lemma ServeLinked(cfg: Config, s: State, h: nat, a: Act, c: nat, fd: int, off: nat)
    requires LinksOk(cfg, s) && OwnersOk(cfg, s) && CanStep(cfg, s, Serve(h, a))
    requires PathsOk(cfg, h, s.servers[h]) && DiskOk(cfg, s.servers[h])
    requires CacheOk(cfg, s.servers[h]) && TableOk(cfg, s.servers[h])
    requires Linked(cfg, s, c, fd, off)
    ensures Linked(cfg, Do(cfg, s, Serve(h, a)), c, fd, off)
  {
    if !TakesMessage(a) {
      InnerLinked(cfg, s, h, a, c, fd, off);
    } else {
      match a.h
      case RecvOpen(_, _, _, _) => RecvOpenLinked(cfg, s, h, a.h, c, fd, off);
      case OpenDo(sfd) =>
        OpenTableKept(cfg, h, s.servers[h], sfd);
        OpenDoLinked(cfg, s, h, sfd, c, fd, off);
      case RecvClose(id, sfd) => RecvCloseLinked(cfg, s, h, id, sfd, c, fd, off);
      case RecvRead(_, _, _, _, _, _) => OperateLinked(cfg, s, h, a.h, c, fd, off);
      case RecvSeek(_, _, _, _, _) => OperateLinked(cfg, s, h, a.h, c, fd, off);
      case _ =>
    }
  }

  lemma ServeSimulated(cfg: Config, s: State, h: nat, a: Act, spec: Spec)
    requires SystemOk(cfg, s) && Simulates(cfg, s, spec) && CanStep(cfg, s, Serve(h, a))
    ensures StepSimulated(cfg, s, Serve(h, a), spec)
  {
    assert ServerOk(cfg, h, s.servers[h]);
    forall c: nat, fd: int | Linked(cfg, s, c, fd, OffOf(spec, c, fd))
      ensures Linked(cfg, Do(cfg, s, Serve(h, a)), c, fd, OffOf(spec, c, fd))
    {
      ServeLinked(cfg, s, h, a, c, fd, OffOf(spec, c, fd));
    }
    ServerSimulates(cfg, s, h, a, spec);
  }

  // ---------------------------------------------------------------- whole runs

  lemma StepIsSimulated(cfg: Config, s: State, e: Step, spec: Spec)
    requires SystemOk(cfg, s) && Simulates(cfg, s, spec) && CanStep(cfg, s, e)
    ensures StepSimulated(cfg, s, e, spec)
  {
    match e
    case AppOpen(c, fd, path) => OpenSimulated(cfg, s, c, fd, path, spec);
    case AppOpenOther(c, fd) => OpenOtherSimulated(cfg, s, c, fd, spec);
    case AppCall(c, fd, call) => CallSimulated(cfg, s, c, fd, call, spec);
    case AppClose(c, fd) => CloseSimulated(cfg, s, c, fd, spec);
    case AppReturn(c, fallback) =>
      if s.clients[c].phase.Opening? {
        ReturnOpenSimulated(cfg, s, c, fallback, spec);
      } else {
        ReturnCallSimulated(cfg, s, c, fallback, spec);
      }
    case Deliver(id) => DeliverSimulated(cfg, s, id, spec);
    case BulkDone(id) => BulkSimulated(cfg, s, id, spec);
    case Serve(h, a) => ServeSimulated(cfg, s, h, a, spec);
  }

  lemma {:induction false} AcceptsAppend(cfg: Config, spec: Spec, t: seq<Event>, u: seq<Event>)
    requires Accepts(cfg, spec, t) && Accepts(cfg, After(cfg, spec, t), u)
    ensures Accepts(cfg, spec, t + u)
    ensures After(cfg, spec, t + u) == After(cfg, After(cfg, spec, t), u)
    decreases |t|
  {
    if t == [] {
      assert t + u == u;
    } else {
      assert (t + u)[1..] == t[1..] + u;
      AcceptsAppend(cfg, Advance(cfg, spec, t[0]), t[1..], u);
    }
  }

  lemma {:induction false} RunSimulated(cfg: Config, s: State, steps: seq<Step>, s': State, spec: Spec)
    requires SystemOk(cfg, s) && Simulates(cfg, s, spec) && Run(cfg, s, steps, s')
    ensures Accepts(cfg, spec, Trace(cfg, s, steps, s'))
    ensures Simulates(cfg, s', After(cfg, spec, Trace(cfg, s, steps, s')))
    decreases |steps|
  {
    if steps == [] {
    } else {
      var s1 := Do(cfg, s, steps[0]);
      var t := Shows(cfg, s, steps[0]);
      StepIsSimulated(cfg, s, steps[0], spec);
      StepKeeps(cfg, s, steps[0]);
      RunSimulated(cfg, s1, steps[1..], s', After(cfg, spec, t));
      AcceptsAppend(cfg, spec, t, Trace(cfg, s1, steps[1..], s'));
    }
  }

  /** Everything the applications observe in any run is what the specification allows: a path and an
      offset per descriptor, over files that never change. */
  lemma EveryRunIsServed(cfg: Config, clients: nat, steps: seq<Step>, s: State)
    requires Run(cfg, Init(cfg, clients), steps, s)
    ensures Accepts(cfg, map[], Trace(cfg, Init(cfg, clients), steps, s))
  {
    InitOk(cfg, clients);
    InitSimulates(cfg, clients);
    RunSimulated(cfg, Init(cfg, clients), steps, s, map[]);
  }

  // ---------------------------------------------------------------- the plain file system

  /** On the descriptors the servers could open, the trace is one of the plain file system. */
  predicate PosixTrace(cfg: Config, spec: Spec, trace: seq<Event>)
    decreases |trace|
  {
    trace == [] ||
    match trace[0]
    case Opened(c, fd, path, live) =>
      (c, fd) !in spec && path in cfg.files && PosixTrace(cfg, spec[(c, fd) := SpecFd(path, 0, live)], trace[1..])
    case Answered(c, fd, call, r) =>
      && (c, fd) in spec && spec[(c, fd)].path in cfg.files
      && var d := spec[(c, fd)];
         && (d.live ==> PosixOk(cfg.fullReads, cfg.files[d.path], d.off, call, r))
         && var off := if d.live then PosixOff(cfg.files[d.path], d.off, call, r) else d.off;
            PosixTrace(cfg, spec[(c, fd) := d.(off := off)], trace[1..])
    case Closed(c, fd) => (c, fd) in spec && PosixTrace(cfg, spec - {(c, fd)}, trace[1..])
  }

  /** Every call on a descriptor the server could open is in range where it is made. */
  predicate CallsInRange(cfg: Config, spec: Spec, trace: seq<Event>)
    requires Accepts(cfg, spec, trace)
    decreases |trace|
  {
    trace == [] ||
    (&& (trace[0].Answered? ==>
           var d := spec[(trace[0].c, trace[0].fd)];
           d.live ==> InRange(|cfg.files[d.path]|, d.off, trace[0].call))
     && CallsInRange(cfg, Advance(cfg, spec, trace[0]), trace[1..]))
  }

  /** At every answer on a descriptor the server could open, the plain file system may answer the same and
      ends at the same offset. */
  predicate AgreesWithPosix(cfg: Config, spec: Spec, trace: seq<Event>)
    requires Accepts(cfg, spec, trace)
    decreases |trace|
  {
    trace == [] ||
    (&& (trace[0].Answered? ==>
           var d, e := spec[(trace[0].c, trace[0].fd)], trace[0];
           d.live ==>
           && PosixOk(cfg.fullReads, cfg.files[d.path], d.off, e.call, e.result)
           && ServedOff(cfg.files[d.path], d.off, e.call, e.result) ==
              PosixOff(cfg.files[d.path], d.off, e.call, e.result))
     && AgreesWithPosix(cfg, Advance(cfg, spec, trace[0]), trace[1..]))
  }

  lemma {:induction false} InRangeIffAgrees(cfg: Config, spec: Spec, trace: seq<Event>)
    requires Accepts(cfg, spec, trace)
    ensures CallsInRange(cfg, spec, trace) <==> AgreesWithPosix(cfg, spec, trace)
    decreases |trace|
  {
    if trace == [] {
    } else {
      if trace[0].Answered? {
        var d := spec[(trace[0].c, trace[0].fd)];
        if d.live {
          AnswerFaithfulIffInRange(cfg.fullReads, cfg.files[d.path], d.off, trace[0].call, trace[0].result);
        }
      }
      InRangeIffAgrees(cfg, Advance(cfg, spec, trace[0]), trace[1..]);
    }
  }

  lemma {:induction false} AgreeingIsPosix(cfg: Config, spec: Spec, trace: seq<Event>)
    requires Accepts(cfg, spec, trace) && AgreesWithPosix(cfg, spec, trace)
    ensures PosixTrace(cfg, spec, trace)
    decreases |trace|
  {
    if trace == [] {
    } else {
      AgreeingIsPosix(cfg, Advance(cfg, spec, trace[0]), trace[1..]);
    }
  }

  /** Transparency: in every run, the applications observe what the plain file system would have given
      them exactly as long as their calls are in range. */
  lemma Transparency(cfg: Config, clients: nat, steps: seq<Step>, s: State)
    requires Run(cfg, Init(cfg, clients), steps, s)
    ensures var trace := Trace(cfg, Init(cfg, clients), steps, s);
            && Accepts(cfg, map[], trace)
            && (CallsInRange(cfg, map[], trace) <==> AgreesWithPosix(cfg, map[], trace))
            && (CallsInRange(cfg, map[], trace) ==> PosixTrace(cfg, map[], trace))
  {
    EveryRunIsServed(cfg, clients, steps, s);
    var trace := Trace(cfg, Init(cfg, clients), steps, s);
    InRangeIffAgrees(cfg, map[], trace);
    if CallsInRange(cfg, map[], trace) {
      AgreeingIsPosix(cfg, map[], trace);
    }
  }
}
