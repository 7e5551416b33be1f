/** What every step keeps true of the whole system: tables, messages, and who owns each server descriptor. */
module SystemInvariant {
  import opened Posix
  import opened Session
  import opened CacheServer
  import opened ServerInvariant
  import opened CacheSystem
  import C = CacheClient

  /** `sfd` is what server `h` answered to an open of `p`, and not closed since: a descriptor open for `p`,
      or -1 if the open failed. */
  ghost predicate OpenFor(cfg: Config, s: State, h: nat, sfd: int, p: Path) {
    && h < |s.servers|
    && (if sfd == -1 then cfg.opensMayFail && -1 in s.servers[h].fdToPath
        else
          && sfd in s.servers[h].fds
          && sfd in s.servers[h].fdToPath
          && s.servers[h].fdToPath[sfd] == p)
  }

  /** The descriptor whose open has not been answered yet. */
  function Unanswered(cl: C.Client): set<int> {
    if cl.phase.Opening? && cl.done == 0 then {cl.phase.fd} else {}
  }

  /** Both tables have the same keys, all open local descriptors, except while an open is in progress; every
      entry leads to a descriptor the file's server has open for that file. */
  ghost predicate ClientOk(cfg: Config, s: State, c: nat)
    requires c < |s.clients|
  {
    var cl := s.clients[c];
    && cl.fdMap.Keys <= cl.local
    && cl.redir.Keys == cl.fdMap.Keys - Unanswered(cl)
    && (forall fd :: fd in cl.fdMap ==> Tracked(cfg, cl.fdMap[fd]))
    && (forall fd :: fd in cl.redir ==> OpenFor(cfg, s, Host(cfg, cl.fdMap[fd]), cl.redir[fd], cl.fdMap[fd]))
    && cl.done <= 1
    && (!cl.phase.Idle? ==> cl.phase.id < s.next && cl.phase.fd in cl.fdMap)
    && (cl.phase.Calling? ==> ValidCall(cl.phase.call))
  }

  /** A message of the RPC the client `m.client` is blocked on. */
  ghost predicate Awaited(s: State, id: nat, m: C.Msg)
    requires !m.CloseReq?
  {
    && m.client < |s.clients|
    && !s.clients[m.client].phase.Idle?
    && s.clients[m.client].phase.id == id
    && s.clients[m.client].done == 0
    && s.clients[m.client].phase.fd in s.clients[m.client].fdMap
  }

  ghost predicate MsgOk(cfg: Config, s: State, id: nat, m: C.Msg) {
    && id < s.next
    && m.host < |s.servers|
    && (if m.CloseReq? then Known(s.servers[m.host], m.sfd) && (m.sfd == -1 ==> cfg.opensMayFail)
        else
          && Awaited(s, id, m)
          && var cl := s.clients[m.client];
             var path := cl.fdMap[cl.phase.fd];
             && m.host == Host(cfg, path)
             && match m
                case OpenReq(_, _, lfd, p) => cl.phase == C.Opening(id, lfd) && p == path
                case OpenResp(_, host, lfd, sfd) =>
                  cl.phase == C.Opening(id, lfd) && OpenFor(cfg, s, host, sfd, path)
                  && (sfd != -1 ==> s.servers[host].fds[sfd].off == 0)
                case ReadReq(_, _, sfd, count, offset) =>
                  && cl.phase.Calling? && !cl.phase.call.Seek?
                  && cl.phase.fd in cl.redir && sfd == cl.redir[cl.phase.fd]
                  && count == |cl.phase.call.buf| && offset == C.WireOffset(cl.phase.call)
                  && cl.buf == cl.phase.call.buf
                case BulkPush(_, _, data) =>
                  && cl.phase.Calling? && !cl.phase.call.Seek?
                  && |data| <= |cl.phase.call.buf| && cl.buf == cl.phase.call.buf
                case ReadResp(_, _, _) => cl.phase.Calling? && !cl.phase.call.Seek?
                case SeekReq(_, _, sfd, offset, whence) =>
                  && cl.phase.Calling? && cl.phase.call.Seek?
                  && cl.phase.fd in cl.redir && sfd == cl.redir[cl.phase.fd]
                  && offset == ToInt32(cl.phase.call.offset) && whence == cl.phase.call.whence
                case SeekResp(_, _, _) => cl.phase.Calling? && cl.phase.call.Seek?)
  }

  /** The open RPC that the handler of server `h` carries is the one its client is blocked on. */
  ghost predicate HandlerOk(cfg: Config, s: State, h: nat, k: Handler) {
    k.OpenFound? || k.OpenAt? ==>
      && Host(cfg, k.path) == h
      && k.id < s.next && k.id !in s.msgs
      && k.client < |s.clients|
      && s.clients[k.client].phase == C.Opening(k.id, k.lfd)
      && s.clients[k.client].done == 0
      && k.lfd in s.clients[k.client].fdMap
      && s.clients[k.client].fdMap[k.lfd] == k.path
  }

  /** The places a server descriptor can be held in. */
  datatype Holder = InTable(c: nat, fd: int) | InMessage(id: nat)

  predicate Holds(cfg: Config, s: State, x: Holder, h: nat, sfd: int) {
    match x
    case InTable(c, fd) =>
      && c < |s.clients| && fd in s.clients[c].fdMap && fd in s.clients[c].redir
      && Host(cfg, s.clients[c].fdMap[fd]) == h && s.clients[c].redir[fd] == sfd
    case InMessage(id) =>
      && id in s.msgs
      && (s.msgs[id].OpenResp? || s.msgs[id].CloseReq?)
      && s.msgs[id].host == h && s.msgs[id].sfd == sfd
  }

  /** Each server descriptor is held in one place only. */
  ghost predicate OwnedOnce(cfg: Config, s: State) {
    forall x, y, h, sfd :: sfd != -1 && Holds(cfg, s, x, h, sfd) && Holds(cfg, s, y, h, sfd) ==> x == y
  }

  ghost predicate Owned(cfg: Config, s: State, h: nat, sfd: int) {
    exists x :: Holds(cfg, s, x, h, sfd)
  }

  /** The numbers a server has handed out: its open descriptors, and -1 after an open that failed. */
  predicate InUse(v: Server, sfd: int) {
    sfd in v.fds || (sfd == -1 && -1 in v.fdToPath && !v.handler.Aborted?)
  }

  /** Each number in use is held in some place. */
  ghost predicate NoneOrphaned(cfg: Config, s: State) {
    forall h, sfd :: 0 <= h < |s.servers| && InUse(s.servers[h], sfd) ==> Owned(cfg, s, h, sfd)
  }

  ghost predicate ServersOk(cfg: Config, s: State) {
    && |s.servers| == cfg.servers
    && (forall h :: 0 <= h < |s.servers| ==> ServerOk(cfg, h, s.servers[h]))
  }

  ghost predicate ClientsOk(cfg: Config, s: State) {
    forall c :: 0 <= c < |s.clients| ==> ClientOk(cfg, s, c)
  }

  ghost predicate MsgsOk(cfg: Config, s: State) {
    forall id :: id in s.msgs ==> MsgOk(cfg, s, id, s.msgs[id])
  }

  ghost predicate HandlersOk(cfg: Config, s: State) {
    forall h :: 0 <= h < |s.servers| ==> HandlerOk(cfg, s, h, s.servers[h].handler)
  }

  /** No two clients are blocked on the same RPC. */
  ghost predicate HandlesUnique(s: State) {
    forall c, d :: 0 <= c < d < |s.clients| && !s.clients[c].phase.Idle? && !s.clients[d].phase.Idle? ==>
      s.clients[c].phase.id != s.clients[d].phase.id
  }

  /** Tables, messages and handlers agree with each other. */
  ghost predicate LinksOk(cfg: Config, s: State) {
    && ClientsOk(cfg, s)
    && MsgsOk(cfg, s)
    && HandlersOk(cfg, s)
    && HandlesUnique(s)
  }

  ghost predicate OwnersOk(cfg: Config, s: State) {
    OwnedOnce(cfg, s) && NoneOrphaned(cfg, s)
  }

  ghost predicate SystemOk(cfg: Config, s: State) {
    && ServersOk(cfg, s)
    && LinksOk(cfg, s)
    && OwnersOk(cfg, s)
  }

  lemma InitOk(cfg: Config, clients: nat)
    ensures SystemOk(cfg, Init(cfg, clients))
  {
    assert forall h :: 0 <= h < cfg.servers ==> ServerOk(cfg, h, BOOT);
  }

  // ---------------------------------------------------------------- steps of one client

  /** Apart from the message `id`, nothing under way concerns client `c`. */
  ghost predicate Quiet(s: State, c: nat, id: nat) {
    && (forall j :: j in s.msgs && j != id && !s.msgs[j].CloseReq? ==> s.msgs[j].client != c)
    && (forall h :: 0 <= h < |s.servers| && (s.servers[h].handler.OpenFound? || s.servers[h].handler.OpenAt?) ==>
          s.servers[h].handler.client != c && s.servers[h].handler.id != id)
  }

  /** A client that is not waiting for an answer has nothing under way. */
  lemma NotWaitingIsQuiet(cfg: Config, s: State, c: nat)
    requires MsgsOk(cfg, s) && HandlersOk(cfg, s) && c < |s.clients|
    requires s.clients[c].phase.Idle? || s.clients[c].done == 1
    ensures Quiet(s, c, s.next)
    ensures s.next !in s.msgs
  {
    forall j | j in s.msgs && !s.msgs[j].CloseReq?
      ensures s.msgs[j].client != c
    {
      assert MsgOk(cfg, s, j, s.msgs[j]);
    }
  }

  /** A client has at most one message under way: that of the RPC it is blocked on. */
  lemma AwaitedIsQuiet(cfg: Config, s: State, id: nat)
    requires MsgsOk(cfg, s) && HandlersOk(cfg, s) && id in s.msgs && !s.msgs[id].CloseReq?
    ensures Quiet(s, s.msgs[id].client, id)
  {
    assert MsgOk(cfg, s, id, s.msgs[id]);
    forall j | j in s.msgs && j != id && !s.msgs[j].CloseReq?
      ensures s.msgs[j].client != s.msgs[id].client
    {
      assert MsgOk(cfg, s, j, s.msgs[j]);
    }
  }

  /** Only client `c` and message `id` differ. */
  predicate OnlyClient(s: State, s': State, c: nat, id: nat) {
    && s'.servers == s.servers
    && c < |s.clients| == |s'.clients|
    && (forall d :: 0 <= d < |s.clients| && d != c ==> s'.clients[d] == s.clients[d])
    && s'.msgs - {id} == s.msgs - {id}
    && s.next <= s'.next
  }

  lemma OtherMsgs(s: State, s': State, c: nat, id: nat, j: nat)
    requires OnlyClient(s, s', c, id) && j != id
    ensures j in s'.msgs <==> j in s.msgs
    ensures j in s.msgs ==> s'.msgs[j] == s.msgs[j]
  {
    assert j in s'.msgs <==> j in s'.msgs - {id};
    assert j in s.msgs <==> j in s.msgs - {id};
    if j in s.msgs {
      assert (s'.msgs - {id})[j] == (s.msgs - {id})[j];
    }
  }

  lemma OtherMsgOk(cfg: Config, s: State, s': State, c: nat, id: nat, j: nat)
    requires OnlyClient(s, s', c, id) && Quiet(s, c, id)
    requires j != id && j in s.msgs && MsgOk(cfg, s, j, s.msgs[j])
    ensures MsgOk(cfg, s', j, s.msgs[j])
  {
  }

  lemma OtherClientOk(cfg: Config, s: State, s': State, c: nat, id: nat, d: nat)
    requires OnlyClient(s, s', c, id)
    requires d != c && d < |s.clients| && ClientOk(cfg, s, d)
    ensures ClientOk(cfg, s', d)
  {
    assert s'.clients[d] == s.clients[d];
    forall fd | fd in s.clients[d].redir
      ensures OpenFor(cfg, s', Host(cfg, s.clients[d].fdMap[fd]), s.clients[d].redir[fd], s.clients[d].fdMap[fd])
    {
      assert OpenFor(cfg, s, Host(cfg, s.clients[d].fdMap[fd]), s.clients[d].redir[fd], s.clients[d].fdMap[fd]);
    }
  }

  lemma ClientStep(cfg: Config, s: State, s': State, c: nat, id: nat)
    requires LinksOk(cfg, s)
    requires OnlyClient(s, s', c, id) && Quiet(s, c, id)
    requires ClientOk(cfg, s', c)
    requires id in s'.msgs ==> MsgOk(cfg, s', id, s'.msgs[id])
    requires !s'.clients[c].phase.Idle? ==>
               || s'.clients[c].phase.id == s.next
               || (!s.clients[c].phase.Idle? && s'.clients[c].phase.id == s.clients[c].phase.id)
    ensures LinksOk(cfg, s')
  {
    forall d | 0 <= d < |s'.clients|
      ensures ClientOk(cfg, s', d)
      ensures d != c && !s'.clients[d].phase.Idle? ==> s'.clients[d].phase.id < s.next
    {
      if d != c {
        assert ClientOk(cfg, s, d);
        OtherClientOk(cfg, s, s', c, id, d);
      }
    }
    forall j | j in s'.msgs
      ensures MsgOk(cfg, s', j, s'.msgs[j])
    {
      if j != id {
        OtherMsgs(s, s', c, id, j);
        OtherMsgOk(cfg, s, s', c, id, j);
      }
    }
    forall h | 0 <= h < |s'.servers|
      ensures HandlerOk(cfg, s', h, s'.servers[h].handler)
    {
      var k := s.servers[h].handler;
      assert HandlerOk(cfg, s, h, k);
      if k.OpenFound? || k.OpenAt? {
        OtherMsgs(s, s', c, id, k.id);
      }
    }
  }

  /** Ownership passes from one place to another, or (when they are the same) stays as it is. */
  ghost predicate Passes(cfg: Config, s: State, s': State, src: Holder, dst: Holder) {
    && (forall x, h, sfd :: Holds(cfg, s', x, h, sfd) <==>
          if x == dst then Holds(cfg, s, src, h, sfd) else x != src && Holds(cfg, s, x, h, sfd))
    && (src != dst ==> forall h, sfd :: !Holds(cfg, s, dst, h, sfd))
  }

  lemma OwnershipPasses(cfg: Config, s: State, s': State, src: Holder, dst: Holder)
    requires OwnersOk(cfg, s)
    requires Passes(cfg, s, s', src, dst)
    requires |s'.servers| == |s.servers|
    requires forall h, sfd :: 0 <= h < |s.servers| && InUse(s'.servers[h], sfd) ==> InUse(s.servers[h], sfd)
    ensures OwnersOk(cfg, s')
  {
    forall x, y, h, sfd | sfd != -1 && Holds(cfg, s', x, h, sfd) && Holds(cfg, s', y, h, sfd)
      ensures x == y
    {
      var x0 := if x == dst then src else x;
      var y0 := if y == dst then src else y;
      assert Holds(cfg, s, x0, h, sfd) && Holds(cfg, s, y0, h, sfd);
    }
    forall h, sfd | 0 <= h < |s'.servers| && InUse(s'.servers[h], sfd)
      ensures Owned(cfg, s', h, sfd)
    {
      assert InUse(s.servers[h], sfd);
      assert Owned(cfg, s, h, sfd);
      var x :| Holds(cfg, s, x, h, sfd);
      assert Holds(cfg, s', if x == src then dst else x, h, sfd);
    }
  }

  /** Steps that touch no descriptor's place. */
  lemma OwnershipStays(cfg: Config, s: State, s': State)
    requires OwnersOk(cfg, s)
    requires forall x, h, sfd :: Holds(cfg, s', x, h, sfd) <==> Holds(cfg, s, x, h, sfd)
    requires |s'.servers| == |s.servers|
    requires forall h, sfd :: 0 <= h < |s.servers| && InUse(s'.servers[h], sfd) ==> InUse(s.servers[h], sfd)
    ensures OwnersOk(cfg, s')
  {
    OwnershipPasses(cfg, s, s', InMessage(0), InMessage(0));
  }

  lemma OpenKeeps(cfg: Config, s: State, c: nat, fd: int, path: Path)
    requires LinksOk(cfg, s) && OwnersOk(cfg, s) && CanStep(cfg, s, AppOpen(c, fd, path))
    requires |s.servers| == cfg.servers
    ensures LinksOk(cfg, Do(cfg, s, AppOpen(c, fd, path))) && OwnersOk(cfg, Do(cfg, s, AppOpen(c, fd, path)))
  {
    assert ClientOk(cfg, s, c);
    NotWaitingIsQuiet(cfg, s, c);
    OpenClient(cfg, s, c, fd, path);
    ClientStep(cfg, s, Do(cfg, s, AppOpen(c, fd, path)), c, s.next);
    OwnershipStays(cfg, s, Do(cfg, s, AppOpen(c, fd, path)));
  }

  lemma OpenClient(cfg: Config, s: State, c: nat, fd: int, path: Path)
    requires CanStep(cfg, s, AppOpen(c, fd, path)) && ClientOk(cfg, s, c)
    requires |s.servers| == cfg.servers
    ensures var s' := Do(cfg, s, AppOpen(c, fd, path));
            ClientOk(cfg, s', c) && s.next in s'.msgs && MsgOk(cfg, s', s.next, s'.msgs[s.next])
    ensures fd !in s.clients[c].fdMap && fd !in s.clients[c].redir
  {
    var s', cl := Do(cfg, s, AppOpen(c, fd, path)), s.clients[c];
    assert cl.redir.Keys == s'.clients[c].fdMap.Keys - {fd};
    forall g | g in cl.redir
      ensures OpenFor(cfg, s', Host(cfg, s'.clients[c].fdMap[g]), cl.redir[g], s'.clients[c].fdMap[g])
    {
      assert OpenFor(cfg, s, Host(cfg, cl.fdMap[g]), cl.redir[g], cl.fdMap[g]);
    }
  }

  lemma OpenOtherKeeps(cfg: Config, s: State, c: nat, fd: int)
    requires LinksOk(cfg, s) && OwnersOk(cfg, s) && CanStep(cfg, s, AppOpenOther(c, fd))
    ensures LinksOk(cfg, Do(cfg, s, AppOpenOther(c, fd))) && OwnersOk(cfg, Do(cfg, s, AppOpenOther(c, fd)))
  {
    var s' := Do(cfg, s, AppOpenOther(c, fd));
    var cl := s.clients[c];
    NotWaitingIsQuiet(cfg, s, c);
    ClientEntries(cfg, s, s', c);
    ClientStep(cfg, s, s', c, s.next);
    OwnershipStays(cfg, s, s');
  }

  /** A client whose tables did not change keeps its links. */
  lemma ClientEntries(cfg: Config, s: State, s': State, c: nat)
    requires c < |s.clients| && c < |s'.clients| && ClientOk(cfg, s, c) && s'.servers == s.servers
    requires s'.clients[c].fdMap == s.clients[c].fdMap && s'.clients[c].redir == s.clients[c].redir
    ensures forall fd :: fd in s'.clients[c].redir ==>
              OpenFor(cfg, s', Host(cfg, s'.clients[c].fdMap[fd]), s'.clients[c].redir[fd], s'.clients[c].fdMap[fd])
  {
    var cl := s.clients[c];
    forall fd | fd in cl.redir
      ensures OpenFor(cfg, s', Host(cfg, cl.fdMap[fd]), cl.redir[fd], cl.fdMap[fd])
    {
      assert OpenFor(cfg, s, Host(cfg, cl.fdMap[fd]), cl.redir[fd], cl.fdMap[fd]);
    }
  }

  lemma CallLinks(cfg: Config, s: State, c: nat, fd: int, call: Call)
    requires LinksOk(cfg, s) && CanStep(cfg, s, AppCall(c, fd, call))
    requires |s.servers| == cfg.servers
    ensures LinksOk(cfg, Do(cfg, s, AppCall(c, fd, call))) && s.next !in s.msgs
    ensures Do(cfg, s, AppCall(c, fd, call)).clients[c].redir == s.clients[c].redir
  {
    var s' := Do(cfg, s, AppCall(c, fd, call));
    NotWaitingIsQuiet(cfg, s, c);
    assert ClientOk(cfg, s, c);
    assert s'.clients[c].redir == s.clients[c].redir;
    ClientEntries(cfg, s, s', c);
    RequestOk(cfg, s, c, fd, call);
    ClientStep(cfg, s, s', c, s.next);
  }

  lemma CallKeeps(cfg: Config, s: State, c: nat, fd: int, call: Call)
    requires LinksOk(cfg, s) && OwnersOk(cfg, s) && CanStep(cfg, s, AppCall(c, fd, call))
    requires |s.servers| == cfg.servers
    ensures LinksOk(cfg, Do(cfg, s, AppCall(c, fd, call))) && OwnersOk(cfg, Do(cfg, s, AppCall(c, fd, call)))
  {
    CallLinks(cfg, s, c, fd, call);
    OwnershipStays(cfg, s, Do(cfg, s, AppCall(c, fd, call)));
  }

  /** The request of a call names the descriptor the file's server opened for it. */
  lemma RequestOk(cfg: Config, s: State, c: nat, fd: int, call: Call)
    requires CanStep(cfg, s, AppCall(c, fd, call)) && ClientOk(cfg, s, c)
    requires |s.servers| == cfg.servers
    ensures var s' := Do(cfg, s, AppCall(c, fd, call));
            s.next in s'.msgs && MsgOk(cfg, s', s.next, s'.msgs[s.next])
  {
    assert fd in s.clients[c].redir;
  }

  lemma CloseTrackedKeeps(cfg: Config, s: State, c: nat, fd: int)
    requires LinksOk(cfg, s) && CanStep(cfg, s, AppClose(c, fd))
    requires fd in s.clients[c].fdMap
    ensures LinksOk(cfg, Do(cfg, s, AppClose(c, fd)))
    ensures fd in s.clients[c].redir && s.next !in s.msgs
  {
    assert ClientOk(cfg, s, c);
    NotWaitingIsQuiet(cfg, s, c);
    CloseTrackedClient(cfg, s, c, fd);
    ClientStep(cfg, s, Do(cfg, s, AppClose(c, fd)), c, s.next);
  }

  lemma CloseTrackedClient(cfg: Config, s: State, c: nat, fd: int)
    requires CanStep(cfg, s, AppClose(c, fd)) && ClientOk(cfg, s, c)
    requires fd in s.clients[c].fdMap
    ensures var s' := Do(cfg, s, AppClose(c, fd));
            ClientOk(cfg, s', c) && s.next in s'.msgs && MsgOk(cfg, s', s.next, s'.msgs[s.next])
  {
    var s', cl := Do(cfg, s, AppClose(c, fd)), s.clients[c];
    assert OpenFor(cfg, s, Host(cfg, cl.fdMap[fd]), cl.redir[fd], cl.fdMap[fd]);
    forall g | g in s'.clients[c].redir
      ensures OpenFor(cfg, s', Host(cfg, cl.fdMap[g]), cl.redir[g], cl.fdMap[g])
    {
      assert OpenFor(cfg, s, Host(cfg, cl.fdMap[g]), cl.redir[g], cl.fdMap[g]);
    }
  }

  lemma CloseTrackedPasses(cfg: Config, s: State, c: nat, fd: int)
    requires OwnersOk(cfg, s) && CanStep(cfg, s, AppClose(c, fd))
    requires fd in s.clients[c].fdMap && fd in s.clients[c].redir && s.next !in s.msgs
    ensures OwnersOk(cfg, Do(cfg, s, AppClose(c, fd)))
  {
    OwnershipPasses(cfg, s, Do(cfg, s, AppClose(c, fd)), InTable(c, fd), InMessage(s.next));
  }

  lemma CloseOtherKeeps(cfg: Config, s: State, c: nat, fd: int)
    requires LinksOk(cfg, s) && OwnersOk(cfg, s) && CanStep(cfg, s, AppClose(c, fd))
    requires fd !in s.clients[c].fdMap
    ensures LinksOk(cfg, Do(cfg, s, AppClose(c, fd))) && OwnersOk(cfg, Do(cfg, s, AppClose(c, fd)))
  {
    var s' := Do(cfg, s, AppClose(c, fd));
    NotWaitingIsQuiet(cfg, s, c);
    ClientEntries(cfg, s, s', c);
    ClientStep(cfg, s, s', c, s.next);
    OwnershipStays(cfg, s, s');
  }

  lemma CloseKeeps(cfg: Config, s: State, c: nat, fd: int)
    requires LinksOk(cfg, s) && OwnersOk(cfg, s) && CanStep(cfg, s, AppClose(c, fd))
    ensures LinksOk(cfg, Do(cfg, s, AppClose(c, fd))) && OwnersOk(cfg, Do(cfg, s, AppClose(c, fd)))
  {
    if fd in s.clients[c].fdMap {
      CloseTrackedKeeps(cfg, s, c, fd);
      CloseTrackedPasses(cfg, s, c, fd);
    } else {
      CloseOtherKeeps(cfg, s, c, fd);
    }
  }

  lemma ReturnKeeps(cfg: Config, s: State, c: nat, fallback: Result)
    requires LinksOk(cfg, s) && OwnersOk(cfg, s) && CanStep(cfg, s, AppReturn(c, fallback))
    ensures LinksOk(cfg, Do(cfg, s, AppReturn(c, fallback))) && OwnersOk(cfg, Do(cfg, s, AppReturn(c, fallback)))
  {
    var s' := Do(cfg, s, AppReturn(c, fallback));
    NotWaitingIsQuiet(cfg, s, c);
    ClientEntries(cfg, s, s', c);
    ClientStep(cfg, s, s', c, s.next);
    OwnershipStays(cfg, s, s');
  }

  lemma DeliverOpenKeeps(cfg: Config, s: State, id: nat)
    requires LinksOk(cfg, s) && CanStep(cfg, s, Deliver(id)) && s.msgs[id].OpenResp?
    ensures LinksOk(cfg, Do(cfg, s, Deliver(id)))
  {
    var s' := Do(cfg, s, Deliver(id));
    var m := s.msgs[id];
    var cl := s.clients[m.client];
    assert MsgOk(cfg, s, id, m);
    AwaitedIsQuiet(cfg, s, id);
    assert ClientOk(cfg, s, m.client);
    assert cl.redir.Keys + {m.lfd} == cl.fdMap.Keys;
    forall fd | fd in s'.clients[m.client].redir
      ensures OpenFor(cfg, s', Host(cfg, cl.fdMap[fd]), s'.clients[m.client].redir[fd], cl.fdMap[fd])
    {
      if fd != m.lfd {
        assert OpenFor(cfg, s, Host(cfg, cl.fdMap[fd]), cl.redir[fd], cl.fdMap[fd]);
      }
    }
    ClientStep(cfg, s, s', m.client, id);
  }

  lemma DeliverOpenPasses(cfg: Config, s: State, id: nat)
    requires OwnersOk(cfg, s) && CanStep(cfg, s, Deliver(id)) && s.msgs[id].OpenResp?
    requires MsgOk(cfg, s, id, s.msgs[id]) && ClientOk(cfg, s, s.msgs[id].client)
    ensures OwnersOk(cfg, Do(cfg, s, Deliver(id)))
  {
    var m := s.msgs[id];
    assert m.lfd !in s.clients[m.client].redir;
    OwnershipPasses(cfg, s, Do(cfg, s, Deliver(id)), InMessage(id), InTable(m.client, m.lfd));
  }

  lemma DeliverAnswerKeeps(cfg: Config, s: State, id: nat)
    requires LinksOk(cfg, s) && OwnersOk(cfg, s) && CanStep(cfg, s, Deliver(id)) && !s.msgs[id].OpenResp?
    ensures LinksOk(cfg, Do(cfg, s, Deliver(id))) && OwnersOk(cfg, Do(cfg, s, Deliver(id)))
  {
    var s' := Do(cfg, s, Deliver(id));
    var m := s.msgs[id];
    assert MsgOk(cfg, s, id, m);
    AwaitedIsQuiet(cfg, s, id);
    assert ClientOk(cfg, s, m.client);
    ClientEntries(cfg, s, s', m.client);
    ClientStep(cfg, s, s', m.client, id);
    OwnershipStays(cfg, s, s');
  }

  lemma DeliverKeeps(cfg: Config, s: State, id: nat)
    requires LinksOk(cfg, s) && OwnersOk(cfg, s) && CanStep(cfg, s, Deliver(id))
    ensures LinksOk(cfg, Do(cfg, s, Deliver(id))) && OwnersOk(cfg, Do(cfg, s, Deliver(id)))
  {
    if s.msgs[id].OpenResp? {
      DeliverOpenKeeps(cfg, s, id);
      assert MsgOk(cfg, s, id, s.msgs[id]) && ClientOk(cfg, s, s.msgs[id].client);
      DeliverOpenPasses(cfg, s, id);
    } else {
      DeliverAnswerKeeps(cfg, s, id);
    }
  }

  lemma BulkLinks(cfg: Config, s: State, id: nat)
    requires LinksOk(cfg, s) && CanStep(cfg, s, BulkDone(id))
    ensures LinksOk(cfg, Do(cfg, s, BulkDone(id)))
  {
    var s' := Do(cfg, s, BulkDone(id));
    var m := s.msgs[id];
    assert MsgOk(cfg, s, id, m);
    AwaitedIsQuiet(cfg, s, id);
    assert ClientOk(cfg, s, m.client);
    ClientEntries(cfg, s, s', m.client);
    ClientStep(cfg, s, s', m.client, id);
  }

  lemma BulkKeeps(cfg: Config, s: State, id: nat)
    requires LinksOk(cfg, s) && OwnersOk(cfg, s) && CanStep(cfg, s, BulkDone(id))
    ensures LinksOk(cfg, Do(cfg, s, BulkDone(id))) && OwnersOk(cfg, Do(cfg, s, BulkDone(id)))
  {
    BulkLinks(cfg, s, id);
    OwnershipStays(cfg, s, Do(cfg, s, BulkDone(id)));
  }

  // ---------------------------------------------------------------- steps of one server

  /** Only server `h` and message `id` differ. */
  ghost predicate OnlyServer(s: State, s': State, h: nat, id: nat) {
    && s'.clients == s.clients
    && s'.next == s.next
    && h < |s.servers| == |s'.servers|
    && (forall g :: 0 <= g < |s.servers| && g != h ==> s'.servers[g] == s.servers[g])
    && s'.msgs - {id} == s.msgs - {id}
  }

  lemma SameOtherMsgs(s: State, s': State, h: nat, id: nat, j: nat)
    requires OnlyServer(s, s', h, id) && j != id
    ensures j in s'.msgs <==> j in s.msgs
    ensures j in s.msgs ==> s'.msgs[j] == s.msgs[j]
  {
    assert j in s'.msgs <==> j in s'.msgs - {id};
    assert j in s.msgs <==> j in s.msgs - {id};
    if j in s.msgs {
      assert (s'.msgs - {id})[j] == (s.msgs - {id})[j];
    }
  }

  /** A descriptor that stays open for the same file; a failed open stays recorded. */
  predicate StaysOpen(v: Server, v': Server, sfd: int) {
    && (sfd in v.fds && sfd in v.fdToPath && sfd != -1 ==>
          sfd in v'.fds && sfd in v'.fdToPath && v'.fdToPath[sfd] == v.fdToPath[sfd])
    && (-1 in v.fdToPath ==> -1 in v'.fdToPath)
  }

  /** Every descriptor held anywhere but in message `id` stays open for the same file. */
  ghost predicate HeldStay(cfg: Config, s: State, s': State, h: nat, id: nat)
    requires h < |s.servers| == |s'.servers|
  {
    && (forall x, sfd :: Holds(cfg, s, x, h, sfd) && x != InMessage(id) ==> StaysOpen(s.servers[h], s'.servers[h], sfd))
    && (forall j :: j in s.msgs && j != id && s.msgs[j].OpenResp? && s.msgs[j].host == h
                    && s.msgs[j].sfd != -1
                    && s.msgs[j].sfd in s.servers[h].fds && s.msgs[j].sfd in s'.servers[h].fds ==>
          s'.servers[h].fds[s.msgs[j].sfd].off == s.servers[h].fds[s.msgs[j].sfd].off)
  }

  lemma ServerMsgOk(cfg: Config, s: State, s': State, h: nat, id: nat, j: nat)
    requires OnlyServer(s, s', h, id) && HeldStay(cfg, s, s', h, id)
    requires j != id && j in s.msgs && MsgOk(cfg, s, j, s.msgs[j])
    requires s.msgs[j].CloseReq? && s.msgs[j].host == h ==> Known(s'.servers[h], s.msgs[j].sfd)
    ensures MsgOk(cfg, s', j, s.msgs[j])
  {
    var m := s.msgs[j];
    if m.OpenResp? && m.host == h {
      assert Holds(cfg, s, InMessage(j), h, m.sfd);
    }
  }

  lemma ServerClientOk(cfg: Config, s: State, s': State, h: nat, id: nat, c: nat)
    requires OnlyServer(s, s', h, id) && HeldStay(cfg, s, s', h, id)
    requires c < |s.clients| && ClientOk(cfg, s, c)
    ensures ClientOk(cfg, s', c)
  {
    var cl := s.clients[c];
    forall fd | fd in cl.redir
      ensures OpenFor(cfg, s', Host(cfg, cl.fdMap[fd]), cl.redir[fd], cl.fdMap[fd])
    {
      assert OpenFor(cfg, s, Host(cfg, cl.fdMap[fd]), cl.redir[fd], cl.fdMap[fd]);
      if Host(cfg, cl.fdMap[fd]) == h {
        assert Holds(cfg, s, InTable(c, fd), h, cl.redir[fd]);
      }
    }
  }

  lemma ServerLinks(cfg: Config, s: State, s': State, h: nat, id: nat)
    requires LinksOk(cfg, s) && OnlyServer(s, s', h, id) && HeldStay(cfg, s, s', h, id)
    requires id in s'.msgs ==> MsgOk(cfg, s', id, s'.msgs[id])
    requires HandlerOk(cfg, s', h, s'.servers[h].handler)
    requires forall g :: 0 <= g < |s.servers| && g != h
                         && (s.servers[g].handler.OpenFound? || s.servers[g].handler.OpenAt?) ==>
               s.servers[g].handler.id != id
    requires forall j :: j in s.msgs && j != id && s.msgs[j].CloseReq? && s.msgs[j].host == h ==>
               Known(s'.servers[h], s.msgs[j].sfd)
    ensures LinksOk(cfg, s')
  {
    forall c | 0 <= c < |s'.clients|
      ensures ClientOk(cfg, s', c)
    {
      ServerClientOk(cfg, s, s', h, id, c);
    }
    forall j | j in s'.msgs
      ensures MsgOk(cfg, s', j, s'.msgs[j])
    {
      if j != id {
        SameOtherMsgs(s, s', h, id, j);
        ServerMsgOk(cfg, s, s', h, id, j);
      }
    }
    forall g | 0 <= g < |s'.servers|
      ensures HandlerOk(cfg, s', g, s'.servers[g].handler)
    {
      if g != h {
        var k := s.servers[g].handler;
        assert HandlerOk(cfg, s, g, k);
        if k.OpenFound? || k.OpenAt? {
          SameOtherMsgs(s, s', h, id, k.id);
        }
      }
    }
  }

  /** Two servers never carry the same open RPC. */
  lemma CarriedOnce(cfg: Config, s: State, h: nat, g: nat)
    requires LinksOk(cfg, s) && h < |s.servers| && g < |s.servers| && g != h
    requires s.servers[h].handler.OpenFound? || s.servers[h].handler.OpenAt?
    requires s.servers[g].handler.OpenFound? || s.servers[g].handler.OpenAt?
    ensures s.servers[g].handler.id != s.servers[h].handler.id
  {
    var k, l := s.servers[h].handler, s.servers[g].handler;
    assert HandlerOk(cfg, s, h, k) && HandlerOk(cfg, s, g, l);
  }

  predicate TakesMessage(a: Act) {
    a.Progress? && (a.h.RecvOpen? || a.h.OpenDo? || a.h.RecvRead? || a.h.RecvSeek? || a.h.RecvClose?)
  }

  /** Descriptors and their files as before; an open in progress stays the same open. */
  ghost predicate SameOpens(v: Server, v': Server) {
    && v'.fds == v.fds
    && (-1 in v.fdToPath <==> -1 in v'.fdToPath)
    && (v.handler.Aborted? ==> v'.handler.Aborted?)
    && (forall sfd :: sfd in v.fds ==> sfd in v.fdToPath && sfd in v'.fdToPath && v'.fdToPath[sfd] == v.fdToPath[sfd])
    && (v'.handler.OpenFound? || v'.handler.OpenAt? ==>
          && (v.handler.OpenFound? || v.handler.OpenAt?)
          && v'.handler.id == v.handler.id && v'.handler.client == v.handler.client
          && v'.handler.lfd == v.handler.lfd && v'.handler.path == v.handler.path)
  }

  lemma InnerHandler(cfg: Config, v: Server, a: HandlerAct)
    requires TableOk(cfg, v) && HandlerEnabled(cfg, v, a) && !TakesMessage(Progress(a))
    ensures SameOpens(v, HandlerApply(cfg, v, a))
  {
    match a
    case HandlerErase =>
    case CacheFind =>
    case HandlerPush =>
    case _ =>
  }

  lemma InnerMover(cfg: Config, v: Server, a: MoverAct)
    requires TableOk(cfg, v) && MoverEnabled(cfg, v, a)
    ensures SameOpens(v, MoverApply(cfg, v, a))
  {
  }

  /** The steps of a server that neither take nor send a message leave its descriptors as they are. */
  lemma InnerTables(cfg: Config, v: Server, a: Act)
    requires TableOk(cfg, v) && Enabled(cfg, v, a) && !TakesMessage(a)
    ensures SameOpens(v, Apply(cfg, v, a))
  {
    match a
    case Progress(k) => InnerHandler(cfg, v, k);
    case Move(m) => InnerMover(cfg, v, m);
  }

  lemma InnerKeeps(cfg: Config, s: State, h: nat, a: Act)
    requires LinksOk(cfg, s) && OwnersOk(cfg, s) && CanStep(cfg, s, Serve(h, a)) && !TakesMessage(a)
    requires TableOk(cfg, s.servers[h])
    ensures LinksOk(cfg, Do(cfg, s, Serve(h, a))) && OwnersOk(cfg, Do(cfg, s, Serve(h, a)))
  {
    var s' := Do(cfg, s, Serve(h, a));
    InnerTables(cfg, s.servers[h], a);
    assert s'.msgs == s.msgs;
    assert HandlerOk(cfg, s, h, s.servers[h].handler);
    CloseTargets(cfg, s, h);
    NextUnused(cfg, s);
    ServerLinks(cfg, s, s', h, s.next);
    OwnershipStays(cfg, s, s');
  }

  lemma NextUnused(cfg: Config, s: State)
    requires MsgsOk(cfg, s) && HandlersOk(cfg, s)
    ensures s.next !in s.msgs
    ensures forall g :: 0 <= g < |s.servers| && (s.servers[g].handler.OpenFound? || s.servers[g].handler.OpenAt?) ==>
              s.servers[g].handler.id < s.next
  {
  }

  lemma RecvOpenKeeps(cfg: Config, s: State, h: nat, a: Act)
    requires LinksOk(cfg, s) && OwnersOk(cfg, s) && CanStep(cfg, s, Serve(h, a)) && a.Progress? && a.h.RecvOpen?
    ensures LinksOk(cfg, Do(cfg, s, Serve(h, a))) && OwnersOk(cfg, Do(cfg, s, Serve(h, a)))
  {
    var s' := Do(cfg, s, Serve(h, a));
    assert MsgOk(cfg, s, a.h.id, s.msgs[a.h.id]);
    CloseTargets(cfg, s, h);
    ServerLinks(cfg, s, s', h, a.h.id);
    OwnershipStays(cfg, s, s');
  }

  /** Whatever is held is in use. */
  lemma HeldIsKnown(cfg: Config, s: State, x: Holder, h: nat, sfd: int)
    requires ClientsOk(cfg, s) && MsgsOk(cfg, s) && Holds(cfg, s, x, h, sfd)
    ensures h < |s.servers| && Known(s.servers[h], sfd) && (sfd == -1 ==> cfg.opensMayFail)
  {
    match x
    case InTable(c, fd) =>
      assert ClientOk(cfg, s, c);
      assert OpenFor(cfg, s, Host(cfg, s.clients[c].fdMap[fd]), s.clients[c].redir[fd], s.clients[c].fdMap[fd]);
    case InMessage(id) =>
      assert MsgOk(cfg, s, id, s.msgs[id]);
  }

  lemma OpenDoLinks(cfg: Config, s: State, h: nat, sfd: int)
    requires LinksOk(cfg, s) && CanStep(cfg, s, Serve(h, Progress(OpenDo(sfd))))
    requires sfd == -1 ==> cfg.opensMayFail
    ensures LinksOk(cfg, Do(cfg, s, Serve(h, Progress(OpenDo(sfd)))))
  {
    var s' := Do(cfg, s, Serve(h, Progress(OpenDo(sfd))));
    var k := s.servers[h].handler;
    assert HandlerOk(cfg, s, h, k);
    forall g | 0 <= g < |s.servers| && g != h && (s.servers[g].handler.OpenFound? || s.servers[g].handler.OpenAt?)
      ensures s.servers[g].handler.id != k.id
    {
      CarriedOnce(cfg, s, h, g);
    }
    CloseTargets(cfg, s, h);
    ServerLinks(cfg, s, s', h, k.id);
  }

  lemma OpenDoOwners(cfg: Config, s: State, h: nat, sfd: int)
    requires LinksOk(cfg, s) && OwnersOk(cfg, s) && CanStep(cfg, s, Serve(h, Progress(OpenDo(sfd))))
    ensures OwnersOk(cfg, Do(cfg, s, Serve(h, Progress(OpenDo(sfd)))))
  {
    var s' := Do(cfg, s, Serve(h, Progress(OpenDo(sfd))));
    var me := InMessage(s.servers[h].handler.id);
    assert HandlerOk(cfg, s, h, s.servers[h].handler);
    forall x, y, g, fd | fd != -1 && Holds(cfg, s', x, g, fd) && Holds(cfg, s', y, g, fd)
      ensures x == y
    {
      if x != me {
        assert Holds(cfg, s, x, g, fd);
        HeldIsKnown(cfg, s, x, g, fd);
      }
      if y != me {
        assert Holds(cfg, s, y, g, fd);
        HeldIsKnown(cfg, s, y, g, fd);
      }
    }
    forall g, fd | 0 <= g < |s'.servers| && InUse(s'.servers[g], fd)
      ensures Owned(cfg, s', g, fd)
    {
      if g == h && fd == sfd {
        assert Holds(cfg, s', me, g, fd);
      } else {
        assert Owned(cfg, s, g, fd);
        var x :| Holds(cfg, s, x, g, fd);
        assert Holds(cfg, s', x, g, fd);
      }
    }
  }

  /** A request under way for a call is the only message about its descriptor. */
  lemma RequestHolds(cfg: Config, s: State, id: nat, j: nat)
    requires LinksOk(cfg, s) && OwnersOk(cfg, s)
    requires id in s.msgs && (s.msgs[id].ReadReq? || s.msgs[id].SeekReq?)
    requires j in s.msgs && (s.msgs[j].OpenResp? || s.msgs[j].CloseReq?) && s.msgs[j].host == s.msgs[id].host
    requires s.msgs[id].sfd != -1
    ensures s.msgs[j].sfd != s.msgs[id].sfd
  {
    var m := s.msgs[id];
    assert MsgOk(cfg, s, id, m);
    if s.msgs[j].sfd == m.sfd {
      assert Holds(cfg, s, InTable(m.client, s.clients[m.client].phase.fd), m.host, m.sfd);
      assert Holds(cfg, s, InMessage(j), m.host, m.sfd);
    }
  }

  /** Serving a read or seek only moves the offset of the descriptor it names. */
  lemma OperateTables(cfg: Config, v: Server, a: HandlerAct)
    requires TableOk(cfg, v) && HandlerEnabled(cfg, v, a) && (a.RecvRead? || a.RecvSeek?)
    requires Known(v, a.sfd)
    ensures var v' := HandlerApply(cfg, v, a);
            && v'.fds.Keys == v.fds.Keys && v'.fdToPath == v.fdToPath && v'.handler.Idle? == v.handler.Idle?
            && forall sfd :: sfd in v.fds && sfd != a.sfd ==> v'.fds[sfd] == v.fds[sfd]
  {
  }

  lemma OperateReply(cfg: Config, s: State, h: nat, a: HandlerAct)
    requires CanStep(cfg, s, Serve(h, Progress(a))) && (a.RecvRead? || a.RecvSeek?)
    requires MsgOk(cfg, s, a.id, s.msgs[a.id])
    ensures var s' := Do(cfg, s, Serve(h, Progress(a)));
            a.id in s'.msgs && MsgOk(cfg, s', a.id, s'.msgs[a.id])
  {
  }

  /** Nobody else holds the descriptor a request names, so nobody notices its offset moving. */
  lemma OperateHeld(cfg: Config, s: State, h: nat, a: HandlerAct)
    requires LinksOk(cfg, s) && OwnersOk(cfg, s) && CanStep(cfg, s, Serve(h, Progress(a)))
    requires a.RecvRead? || a.RecvSeek?
    requires TableOk(cfg, s.servers[h]) && Known(s.servers[h], a.sfd)
    ensures var s' := Do(cfg, s, Serve(h, Progress(a)));
            && HeldStay(cfg, s, s', h, a.id)
            && forall sfd :: InUse(s'.servers[h], sfd) ==> InUse(s.servers[h], sfd)
  {
    OperateTables(cfg, s.servers[h], a);
    forall j | j in s.msgs && s.msgs[j].OpenResp? && s.msgs[j].host == h && a.sfd != -1
      ensures s.msgs[j].sfd != a.sfd
    {
      RequestHolds(cfg, s, a.id, j);
    }
  }

  lemma RequestOpen(cfg: Config, s: State, id: nat)
    requires ClientsOk(cfg, s) && MsgsOk(cfg, s)
    requires id in s.msgs && (s.msgs[id].ReadReq? || s.msgs[id].SeekReq?)
    ensures MsgOk(cfg, s, id, s.msgs[id])
    ensures Known(s.servers[s.msgs[id].host], s.msgs[id].sfd)
  {
    assert MsgOk(cfg, s, id, s.msgs[id]);
    assert ClientOk(cfg, s, s.msgs[id].client);
  }

  lemma CloseTargets(cfg: Config, s: State, h: nat)
    requires MsgsOk(cfg, s) && h < |s.servers|
    ensures forall j :: j in s.msgs && s.msgs[j].CloseReq? && s.msgs[j].host == h ==> Known(s.servers[h], s.msgs[j].sfd)
  {
    forall j | j in s.msgs && s.msgs[j].CloseReq? && s.msgs[j].host == h
      ensures Known(s.servers[h], s.msgs[j].sfd)
    {
      assert MsgOk(cfg, s, j, s.msgs[j]);
    }
  }

  lemma OperateLinks(cfg: Config, s: State, h: nat, a: HandlerAct)
    requires LinksOk(cfg, s) && OwnersOk(cfg, s) && CanStep(cfg, s, Serve(h, Progress(a)))
    requires a.RecvRead? || a.RecvSeek?
    requires TableOk(cfg, s.servers[h])
    ensures LinksOk(cfg, Do(cfg, s, Serve(h, Progress(a))))
    ensures forall sfd :: InUse(Do(cfg, s, Serve(h, Progress(a))).servers[h], sfd) ==> InUse(s.servers[h], sfd)
  {
    RequestOpen(cfg, s, a.id);
    OperateHeld(cfg, s, h, a);
    OperateReply(cfg, s, h, a);
    CloseTargets(cfg, s, h);
    OperateFrame(cfg, s, h, a);
    ServerLinks(cfg, s, Do(cfg, s, Serve(h, Progress(a))), h, a.id);
  }

  lemma OperateFrame(cfg: Config, s: State, h: nat, a: HandlerAct)
    requires HandlersOk(cfg, s) && CanStep(cfg, s, Serve(h, Progress(a))) && (a.RecvRead? || a.RecvSeek?)
    ensures var s' := Do(cfg, s, Serve(h, Progress(a)));
            && OnlyServer(s, s', h, a.id) && HandlerOk(cfg, s', h, s'.servers[h].handler)
    ensures forall g :: 0 <= g < |s.servers| && (s.servers[g].handler.OpenFound? || s.servers[g].handler.OpenAt?) ==>
              s.servers[g].handler.id != a.id
  {
  }

  lemma OperateOwners(cfg: Config, s: State, h: nat, a: HandlerAct)
    requires OwnersOk(cfg, s) && CanStep(cfg, s, Serve(h, Progress(a)))
    requires a.RecvRead? || a.RecvSeek?
    requires forall sfd :: InUse(Do(cfg, s, Serve(h, Progress(a))).servers[h], sfd) ==> InUse(s.servers[h], sfd)
    ensures OwnersOk(cfg, Do(cfg, s, Serve(h, Progress(a))))
  {
    OwnershipStays(cfg, s, Do(cfg, s, Serve(h, Progress(a))));
  }

  lemma RecvCloseOwners(cfg: Config, s: State, h: nat, id: nat, sfd: int)
    requires OwnersOk(cfg, s) && CanStep(cfg, s, Serve(h, Progress(RecvClose(id, sfd))))
    requires TableOk(cfg, s.servers[h]) && Known(s.servers[h], sfd)
    ensures OwnersOk(cfg, Do(cfg, s, Serve(h, Progress(RecvClose(id, sfd)))))
  {
    var s' := Do(cfg, s, Serve(h, Progress(RecvClose(id, sfd))));
    forall x, y, g, fd | fd != -1 && Holds(cfg, s', x, g, fd) && Holds(cfg, s', y, g, fd)
      ensures x == y
    {
      assert Holds(cfg, s, x, g, fd) && Holds(cfg, s, y, g, fd);
    }
    forall g, fd | 0 <= g < |s'.servers| && InUse(s'.servers[g], fd)
      ensures Owned(cfg, s', g, fd)
    {
      assert InUse(s.servers[g], fd);
      assert Owned(cfg, s, g, fd);
      var x :| Holds(cfg, s, x, g, fd);
      assert x != InMessage(id);
      assert Holds(cfg, s', x, g, fd);
    }
  }

  lemma RecvCloseLinks(cfg: Config, s: State, h: nat, id: nat, sfd: int)
    requires LinksOk(cfg, s) && OwnersOk(cfg, s) && CanStep(cfg, s, Serve(h, Progress(RecvClose(id, sfd))))
    requires TableOk(cfg, s.servers[h])
    ensures Known(s.servers[h], sfd)
    ensures LinksOk(cfg, Do(cfg, s, Serve(h, Progress(RecvClose(id, sfd)))))
  {
    var s' := Do(cfg, s, Serve(h, Progress(RecvClose(id, sfd))));
    assert MsgOk(cfg, s, id, s.msgs[id]);
    assert Holds(cfg, s, InMessage(id), h, sfd);
    forall j | j in s.msgs && j != id && s.msgs[j].CloseReq? && s.msgs[j].host == h
      ensures Known(s'.servers[h], s.msgs[j].sfd)
    {
      assert MsgOk(cfg, s, j, s.msgs[j]);
      assert Holds(cfg, s, InMessage(j), h, s.msgs[j].sfd);
    }
    ServerLinks(cfg, s, s', h, id);
  }

  /** The messages a server takes are ones it can rely on. */
  lemma MessagesFit(cfg: Config, s: State, h: nat, a: Act)
    requires LinksOk(cfg, s) && CanStep(cfg, s, Serve(h, a))
    ensures InputOk(cfg, h, s.servers[h], a)
  {
    if a.Progress? && (a.h.RecvOpen? || a.h.RecvRead? || a.h.RecvClose?) {
      assert MsgOk(cfg, s, a.h.id, s.msgs[a.h.id]);
      if !a.h.RecvClose? {
        assert ClientOk(cfg, s, a.h.client);
      }
    }
  }

  lemma ServeKeeps(cfg: Config, s: State, h: nat, a: Act)
    requires SystemOk(cfg, s) && CanStep(cfg, s, Serve(h, a))
    ensures SystemOk(cfg, Do(cfg, s, Serve(h, a)))
  {
    assert ServerOk(cfg, h, s.servers[h]);
    MessagesFit(cfg, s, h, a);
    ServerStepKeeps(cfg, h, s.servers[h], a);
    ServeLinks(cfg, s, h, a);
  }

  lemma ServeLinks(cfg: Config, s: State, h: nat, a: Act)
    requires LinksOk(cfg, s) && OwnersOk(cfg, s) && CanStep(cfg, s, Serve(h, a))
    requires PathsOk(cfg, h, s.servers[h]) && DiskOk(cfg, s.servers[h])
    requires CacheOk(cfg, s.servers[h]) && TableOk(cfg, s.servers[h])
    ensures LinksOk(cfg, Do(cfg, s, Serve(h, a))) && OwnersOk(cfg, Do(cfg, s, Serve(h, a)))
  {
    if !TakesMessage(a) {
      InnerKeeps(cfg, s, h, a);
    } else {
      match a.h
      case RecvOpen(_, _, _, _) => RecvOpenKeeps(cfg, s, h, a);
      case OpenDo(sfd) =>
        OpenTableKept(cfg, h, s.servers[h], sfd);
        OpenDoLinks(cfg, s, h, sfd);
        OpenDoOwners(cfg, s, h, sfd);
      case RecvClose(id, sfd) =>
        RecvCloseLinks(cfg, s, h, id, sfd);
        RecvCloseOwners(cfg, s, h, id, sfd);
      case RecvRead(_, _, _, _, _, _) =>
        OperateLinks(cfg, s, h, a.h);
        OperateOwners(cfg, s, h, a.h);
      case RecvSeek(_, _, _, _, _) =>
        OperateLinks(cfg, s, h, a.h);
        OperateOwners(cfg, s, h, a.h);
      case _ =>
    }
  }

  lemma ClientStepKeeps(cfg: Config, s: State, e: Step)
    requires LinksOk(cfg, s) && OwnersOk(cfg, s) && |s.servers| == cfg.servers
    requires CanStep(cfg, s, e) && !e.Serve?
    ensures LinksOk(cfg, Do(cfg, s, e)) && OwnersOk(cfg, Do(cfg, s, e))
    ensures Do(cfg, s, e).servers == s.servers
  {
    match e
    case AppOpen(c, fd, path) => OpenKeeps(cfg, s, c, fd, path);
    case AppOpenOther(c, fd) => OpenOtherKeeps(cfg, s, c, fd);
    case AppCall(c, fd, call) => CallKeeps(cfg, s, c, fd, call);
    case AppClose(c, fd) => CloseKeeps(cfg, s, c, fd);
    case AppReturn(c, fallback) => ReturnKeeps(cfg, s, c, fallback);
    case Deliver(id) => DeliverKeeps(cfg, s, id);
    case BulkDone(id) => BulkKeeps(cfg, s, id);
  }

  /** Every step of the system keeps it consistent. */
  lemma StepKeeps(cfg: Config, s: State, e: Step)
    requires SystemOk(cfg, s) && CanStep(cfg, s, e)
    ensures SystemOk(cfg, Do(cfg, s, e))
  {
    match e
    case Serve(h, a) => ServeKeeps(cfg, s, h, a);
    case _ => ClientStepKeeps(cfg, s, e);
  }

  lemma {:induction false} RunKeeps(cfg: Config, s: State, steps: seq<Step>, s': State)
    requires SystemOk(cfg, s) && Run(cfg, s, steps, s')
    ensures SystemOk(cfg, s')
    decreases |steps|
  {
    if steps == [] {
    } else {
      StepKeeps(cfg, s, steps[0]);
      RunKeeps(cfg, Do(cfg, s, steps[0]), steps[1..], s');
    }
  }

  /** Every reachable state is consistent. */
  lemma ReachableOk(cfg: Config, s: State)
    requires Reachable(cfg, s)
    ensures SystemOk(cfg, s)
  {
    var clients, steps :| Run(cfg, Init(cfg, clients), steps, s);
    InitOk(cfg, clients);
    RunKeeps(cfg, Init(cfg, clients), steps, s);
  }
}
