/** Consequences for the reachable states of the system, in the terms its users care about. */
module SystemTheorems {
  import opened Posix
  import opened Session
  import opened CacheServer
  import opened ServerInvariant
  import opened CacheSystem
  import opened SystemInvariant
  import opened Transparency
  import C = CacheClient

  // ---------------------------------------------------------------- ownership

  /** Each open server descriptor is held in exactly one place: one client's table, one undelivered open
      answer, or one undelivered close request.  Nothing else is held, save the -1 of a failed open. */
  lemma OneOwner(cfg: Config, s: State, h: nat, sfd: int)
    requires Reachable(cfg, s) && sfd != -1
    ensures (h < |s.servers| && sfd in s.servers[h].fds) <==> (exists x :: Holds(cfg, s, x, h, sfd))
    ensures forall x, y :: Holds(cfg, s, x, h, sfd) && Holds(cfg, s, y, h, sfd) ==> x == y
  {
    ReachableOk(cfg, s);
    if x :| Holds(cfg, s, x, h, sfd) {
      HeldIsKnown(cfg, s, x, h, sfd);
    }
    if h < |s.servers| && sfd in s.servers[h].fds {
      assert InUse(s.servers[h], sfd);
      assert Owned(cfg, s, h, sfd);
    }
  }

  // ---------------------------------------------------------------- the assertion in close

  /** The close request a client sends carries what its table holds for the descriptor. */
  lemma CloseSends(cfg: Config, s: State, c: nat, fd: int)
    requires Reachable(cfg, s) && CanStep(cfg, s, AppClose(c, fd)) && fd in s.clients[c].fdMap
    ensures fd in s.clients[c].redir
    ensures Do(cfg, s, AppClose(c, fd)).msgs ==
            s.msgs[s.next := C.CloseReq(Host(cfg, s.clients[c].fdMap[fd]), s.clients[c].redir[fd])]
  {
    ReachableOk(cfg, s);
    assert ClientOk(cfg, s, c);
  }

  /** Serving a close request fails the server's assertion exactly when the request carries -1, that is, when
      the open of that descriptor had failed; although close requests are neither answered nor ordered and
      descriptor numbers are used again. */
  lemma CloseAbortsIff(cfg: Config, s: State, h: nat, id: nat, sfd: int)
    requires Reachable(cfg, s) && CanStep(cfg, s, Serve(h, Progress(RecvClose(id, sfd))))
    ensures Do(cfg, s, Serve(h, Progress(RecvClose(id, sfd)))).servers[h].handler.Aborted? <==> sfd == -1
  {
    ReachableOk(cfg, s);
    CloseIsKnown(cfg, s, h, id, sfd);
    CloseOutcome(cfg, s.servers[h], id, sfd);
  }

  lemma CloseIsKnown(cfg: Config, s: State, h: nat, id: nat, sfd: int)
    requires SystemOk(cfg, s) && CanStep(cfg, s, Serve(h, Progress(RecvClose(id, sfd))))
    ensures TableOk(cfg, s.servers[h]) && Known(s.servers[h], sfd)
  {
    assert ServerOk(cfg, h, s.servers[h]);
    CloseTargets(cfg, s, h);
  }

  lemma CloseOutcome(cfg: Config, v: Server, id: nat, sfd: int)
    requires TableOk(cfg, v) && v.handler.Idle? && Known(v, sfd)
    ensures HandlerApply(cfg, v, RecvClose(id, sfd)).handler.Aborted? <==> sfd == -1
  {
  }

  /** No other step fails an assertion. */
  lemma OthersDoNotAbort(cfg: Config, v: Server, a: Act)
    requires Enabled(cfg, v, a) && !(a.Progress? && a.h.RecvClose?)
    ensures !Apply(cfg, v, a).handler.Aborted?
  {
    match a
    case Move(m) => assert MoverApply(cfg, v, m).handler == v.handler;
    case Progress(HandlerPush) =>
    case Progress(CacheFind) =>
    case Progress(RecvRead(_, _, _, _, _, _)) =>
    case Progress(RecvSeek(_, _, _, _, _)) =>
    case Progress(_) =>
  }

  /** In every run, a server has failed its assertion exactly when it served the close of a descriptor whose
      open had failed. */
  lemma {:induction false} AbortedIff(cfg: Config, s: State, steps: seq<Step>, s': State, h: nat)
    requires SystemOk(cfg, s) && Run(cfg, s, steps, s') && h < |s.servers| && !s.servers[h].handler.Aborted?
    ensures h < |s'.servers|
    ensures s'.servers[h].handler.Aborted? <==> exists e :: e in steps && ClosesFailed(e, h)
    decreases |steps|
  {
    if steps == [] {
    } else {
      var e, s1 := steps[0], Do(cfg, s, steps[0]);
      StepKeeps(cfg, s, e);
      AbortStep(cfg, s, e, h);
      if s1.servers[h].handler.Aborted? {
        assert ClosesFailed(e, h) && e in steps;
        AbortedStays(cfg, s1, steps[1..], s', h);
      } else {
        AbortedIff(cfg, s1, steps[1..], s', h);
        if f :| f in steps && ClosesFailed(f, h) {
          assert f in steps[1..];
        }
      }
    }
  }

  predicate ClosesFailed(e: Step, h: nat) {
    e.Serve? && e.h == h && e.a.Progress? && e.a.h.RecvClose? && e.a.h.sfd == -1
  }

  lemma AbortStep(cfg: Config, s: State, e: Step, h: nat)
    requires SystemOk(cfg, s) && CanStep(cfg, s, e) && h < |s.servers| && !s.servers[h].handler.Aborted?
    ensures Do(cfg, s, e).servers[h].handler.Aborted? <==> ClosesFailed(e, h)
  {
    if e.Serve? && e.h == h {
      if e.a.Progress? && e.a.h.RecvClose? {
        CloseIsKnown(cfg, s, h, e.a.h.id, e.a.h.sfd);
        CloseOutcome(cfg, s.servers[h], e.a.h.id, e.a.h.sfd);
      } else {
        OthersDoNotAbort(cfg, s.servers[h], e.a);
      }
    }
  }

  /** A process that is gone stays gone. */
  lemma {:induction false} AbortedStays(cfg: Config, s: State, steps: seq<Step>, s': State, h: nat)
    requires Run(cfg, s, steps, s') && h < |s.servers| && s.servers[h].handler.Aborted?
    ensures h < |s'.servers| && s'.servers[h] == s.servers[h]
    decreases |steps|
  {
    if steps == [] {
    } else {
      assert Do(cfg, s, steps[0]).servers[h] == s.servers[h];
      AbortedStays(cfg, Do(cfg, s, steps[0]), steps[1..], s', h);
    }
  }

  /** A server that failed its assertion had been asked for a file of its own, and opens may fail. */
  lemma AbortedHadFailed(cfg: Config, s: State, h: nat)
    requires Reachable(cfg, s) && h < |s.servers| && s.servers[h].handler.Aborted?
    ensures cfg.opensMayFail
    ensures -1 in s.servers[h].fdToPath && Mine(cfg, h, s.servers[h].fdToPath[-1])
  {
    ReachableOk(cfg, s);
    var v := s.servers[h];
    assert ServerOk(cfg, h, v);
    assert TableOk(cfg, v) && PathsOk(cfg, h, v);
    assert -1 !in v.fds;
  }

  // ---------------------------------------------------------------- tables

  /** Between calls both tables have the same keys, all of them open local descriptors. */
  lemma TablesInLockstep(cfg: Config, s: State, c: nat)
    requires Reachable(cfg, s)
    requires c < |s.clients| && s.clients[c].phase.Idle?
    ensures s.clients[c].fdMap.Keys == s.clients[c].redir.Keys <= s.clients[c].local
  {
    ReachableOk(cfg, s);
    assert ClientOk(cfg, s, c);
  }

  /** No read, seek or close request ever carries a descriptor made up by operator[], and each goes to the
      server that opened the file: it carries a descriptor open there for the file, or the -1 that server
      answered. */
  lemma RequestsAreRouted(cfg: Config, s: State, id: nat)
    requires Reachable(cfg, s) && id in s.msgs
    requires s.msgs[id].ReadReq? || s.msgs[id].SeekReq? || s.msgs[id].CloseReq?
    ensures var m := s.msgs[id];
            && m.host < |s.servers|
            && Known(s.servers[m.host], m.sfd)
            && (m.sfd != -1 ==>
                  && m.sfd in s.servers[m.host].fds && m.sfd in s.servers[m.host].fdToPath
                  && Host(cfg, s.servers[m.host].fdToPath[m.sfd]) == m.host)
            && (!m.CloseReq? ==>
                  m.client < |s.clients| && var cl := s.clients[m.client];
                  && !cl.phase.Idle? && cl.phase.fd in cl.fdMap && cl.phase.fd in cl.redir
                  && m.sfd == cl.redir[cl.phase.fd] && m.host == Host(cfg, cl.fdMap[cl.phase.fd])
                  && (m.sfd != -1 ==> s.servers[m.host].fdToPath[m.sfd] == cl.fdMap[cl.phase.fd]))
  {
    ReachableOk(cfg, s);
    var m := s.msgs[id];
    assert MsgOk(cfg, s, id, m);
    assert ServerOk(cfg, m.host, s.servers[m.host]);
    if !m.CloseReq? {
      assert ClientOk(cfg, s, m.client);
      var cl := s.clients[m.client];
      assert OpenFor(cfg, s, m.host, m.sfd, cl.fdMap[cl.phase.fd]);
    }
  }

  /** A file that a server has open, queued or cached. */
  ghost predicate Knows(v: Server, p: Path) {
    p in v.cache || p in v.queue || exists fd :: fd in v.fdToPath && v.fdToPath[fd] == p
  }

  lemma KnownIsMine(cfg: Config, h: nat, v: Server, p: Path)
    requires PathsOk(cfg, h, v) && Knows(v, p)
    ensures Host(cfg, p) == h
  {
    if p in v.queue {
      assert exists i :: 0 <= i < |v.queue| && v.queue[i] == p && Mine(cfg, h, v.queue[i]);
    }
  }

  /** The files are partitioned among the servers: whatever a server has open, queued or cached hashes to
      it, so no file is cached by two servers. */
  lemma KnownToOneServer(cfg: Config, s: State, h: nat, g: nat, p: Path)
    requires Reachable(cfg, s)
    requires h < |s.servers| && g < |s.servers|
    requires Knows(s.servers[h], p) && Knows(s.servers[g], p)
    ensures h == g == Host(cfg, p)
  {
    ReachableOk(cfg, s);
    assert ServerOk(cfg, h, s.servers[h]) && ServerOk(cfg, g, s.servers[g]);
    KnownIsMine(cfg, h, s.servers[h], p);
    KnownIsMine(cfg, g, s.servers[g], p);
  }

  // ---------------------------------------------------------------- the RPC handshake

  /** The messages and handlers at work for client `c`. */
  ghost predicate UnderWay(s: State, c: nat, id: nat) {
    || (id in s.msgs && !s.msgs[id].CloseReq? && s.msgs[id].client == c)
    || (exists h :: CarriedBy(s, h, c, id))
  }

  predicate CarriedBy(s: State, h: nat, c: nat, id: nat) {
    && h < |s.servers|
    && (s.servers[h].handler.OpenFound? || s.servers[h].handler.OpenAt?)
    && s.servers[h].handler.client == c && s.servers[h].handler.id == id
  }

  predicate AwaitsAnswer(s: State, c: nat) {
    c < |s.clients| && !s.clients[c].phase.Idle? && s.clients[c].done == 0
  }

  /** No RPC is lost: what a client waits for is under way. */
  ghost predicate NoneLost(s: State) {
    forall c: nat :: AwaitsAnswer(s, c) ==> UnderWay(s, c, s.clients[c].phase.id)
  }

  lemma ClientNoneLost(cfg: Config, s: State, e: Step)
    requires LinksOk(cfg, s) && NoneLost(s) && CanStep(cfg, s, e) && !e.Serve?
    ensures NoneLost(Do(cfg, s, e))
  {
    var s' := Do(cfg, s, e);
    if e.Deliver? || e.BulkDone? {
      assert MsgOk(cfg, s, e.id, s.msgs[e.id]);
    }
    forall c: nat | AwaitsAnswer(s', c)
      ensures UnderWay(s', c, s'.clients[c].phase.id)
    {
      if s'.clients[c].phase == s.clients[c].phase {
        assert AwaitsAnswer(s, c);
        StillUnderWay(cfg, s, e, c);
      } else {
        assert s'.clients[c].phase.id == s.next;
      }
    }
  }

  lemma StillUnderWay(cfg: Config, s: State, e: Step, c: nat)
    requires LinksOk(cfg, s) && CanStep(cfg, s, e) && !e.Serve?
    requires AwaitsAnswer(s, c) && AwaitsAnswer(Do(cfg, s, e), c)
    requires Do(cfg, s, e).clients[c].phase == s.clients[c].phase
    requires UnderWay(s, c, s.clients[c].phase.id)
    ensures UnderWay(Do(cfg, s, e), c, s.clients[c].phase.id)
  {
    var s' := Do(cfg, s, e);
    var id := s.clients[c].phase.id;
    assert ClientOk(cfg, s, c);
    if h: nat :| CarriedBy(s, h, c, id) {
      assert CarriedBy(s', h, c, id);
    } else if e.Deliver? {
      assert MsgOk(cfg, s, e.id, s.msgs[e.id]);
    }
  }

  lemma ServerNoneLost(cfg: Config, s: State, h: nat, a: Act)
    requires LinksOk(cfg, s) && NoneLost(s) && CanStep(cfg, s, Serve(h, a))
    ensures NoneLost(Do(cfg, s, Serve(h, a)))
  {
    var s' := Do(cfg, s, Serve(h, a));
    forall c: nat | AwaitsAnswer(s', c)
      ensures UnderWay(s', c, s'.clients[c].phase.id)
    {
      assert AwaitsAnswer(s, c);
      var id := s.clients[c].phase.id;
      if g: nat :| CarriedBy(s, g, c, id) {
        CarriedOn(cfg, s, h, a, g, c, id);
      } else if a.Progress? && a.h.RecvOpen? && a.h.id == id {
        assert CarriedBy(s', h, c, id);
      } else {
        OtherMessageStays(cfg, s, h, a, c, id);
      }
    }
  }

  lemma CarriedOn(cfg: Config, s: State, h: nat, a: Act, g: nat, c: nat, id: nat)
    requires CanStep(cfg, s, Serve(h, a)) && CarriedBy(s, g, c, id)
    ensures UnderWay(Do(cfg, s, Serve(h, a)), c, id)
  {
    var s' := Do(cfg, s, Serve(h, a));
    if g == h {
      match a {
        case Progress(OpenDo(_)) => assert s'.msgs[id].OpenResp?;
        case Progress(OpenLookup) => assert CarriedBy(s', g, c, id);
        case Progress(_) => assert false;
        case Move(_) => assert CarriedBy(s', g, c, id);
      }
    } else {
      assert CarriedBy(s', g, c, id);
    }
  }

  lemma OtherMessageStays(cfg: Config, s: State, h: nat, a: Act, c: nat, id: nat)
    requires CanStep(cfg, s, Serve(h, a)) && HandlersOk(cfg, s)
    requires id in s.msgs && !s.msgs[id].CloseReq? && s.msgs[id].client == c
    requires !(a.Progress? && a.h.RecvOpen? && a.h.id == id)
    ensures UnderWay(Do(cfg, s, Serve(h, a)), c, id)
  {
    assert HandlerOk(cfg, s, h, s.servers[h].handler);
    var s' := Do(cfg, s, Serve(h, a));
    assert id in s'.msgs && !s'.msgs[id].CloseReq? && s'.msgs[id].client == c;
  }

  lemma {:induction false} RunNoneLost(cfg: Config, s: State, steps: seq<Step>, s': State)
    requires SystemOk(cfg, s) && NoneLost(s) && Run(cfg, s, steps, s')
    ensures NoneLost(s')
    decreases |steps|
  {
    if steps == [] {
    } else {
      match steps[0] {
        case Serve(h, a) => ServerNoneLost(cfg, s, h, a);
        case _ => ClientNoneLost(cfg, s, steps[0]);
      }
      StepKeeps(cfg, s, steps[0]);
      RunNoneLost(cfg, Do(cfg, s, steps[0]), steps[1..], s');
    }
  }

  lemma ReachableNoneLost(cfg: Config, s: State)
    requires Reachable(cfg, s)
    ensures LinksOk(cfg, s) && NoneLost(s)
  {
    ReachableOk(cfg, s);
    var clients, steps :| Run(cfg, Init(cfg, clients), steps, s);
    InitOk(cfg, clients);
    RunNoneLost(cfg, Init(cfg, clients), steps, s);
  }

  lemma UnderWayIsAwaited(cfg: Config, s: State, c: nat, id: nat)
    requires MsgsOk(cfg, s) && HandlersOk(cfg, s) && UnderWay(s, c, id)
    ensures AwaitsAnswer(s, c) && id == s.clients[c].phase.id
  {
    if h: nat :| CarriedBy(s, h, c, id) {
      assert HandlerOk(cfg, s, h, s.servers[h].handler);
    } else {
      assert MsgOk(cfg, s, id, s.msgs[id]);
    }
  }

  /** The handshake: `done` is 0 or 1; a client that waits has exactly its own RPC under way, and any other
      client (about to be answered, or about to reset `done`) has nothing under way.  So the answer a
      block function returns is that of its own call. */
  lemma HandshakeIsFresh(cfg: Config, s: State, c: nat, id: nat)
    requires Reachable(cfg, s) && c < |s.clients|
    ensures s.clients[c].done <= 1
    ensures UnderWay(s, c, id) <==> AwaitsAnswer(s, c) && id == s.clients[c].phase.id
  {
    ReachableNoneLost(cfg, s);
    assert ClientOk(cfg, s, c);
    if UnderWay(s, c, id) {
      UnderWayIsAwaited(cfg, s, c, id);
    }
  }

  lemma ReachableSimulated(cfg: Config, s: State) returns (spec: Spec)
    requires Reachable(cfg, s)
    ensures Simulates(cfg, s, spec)
  {
    var clients, steps :| Run(cfg, Init(cfg, clients), steps, s);
    InitOk(cfg, clients);
    InitSimulates(cfg, clients);
    RunSimulated(cfg, Init(cfg, clients), steps, s, map[]);
    spec := After(cfg, map[], Trace(cfg, Init(cfg, clients), steps, s));
  }

  /** A tracked read is never answered -1, so the wrapper never falls back to the real descriptor. */
  lemma FallbackNeverTaken(cfg: Config, s: State, c: nat)
    requires Reachable(cfg, s)
    requires c < |s.clients| && s.clients[c].phase.Calling? && !s.clients[c].phase.call.Seek?
    requires s.clients[c].done == 1
    ensures 0 <= s.clients[c].readRet <= |s.clients[c].phase.call.buf|
  {
    ReachableLinks(cfg, s);
    var spec := ReachableSimulated(cfg, s);
    assert ClientOk(cfg, s, c);
    assert Linked(cfg, s, c, s.clients[c].phase.fd, OffOf(spec, c, s.clients[c].phase.fd));
  }

  // ---------------------------------------------------------------- no leak

  /** The table entries that lead to a descriptor of server `h`. */
  function EntriesAt(cfg: Config, s: State, h: nat): set<Holder> {
    set c, fd | 0 <= c < |s.clients| && fd in s.clients[c].redir.Keys && fd in s.clients[c].fdMap
                && Host(cfg, s.clients[c].fdMap[fd]) == h && s.clients[c].redir[fd] != -1 :: InTable(c, fd)
  }

  function AnswersFrom(s: State, h: nat): set<Holder> {
    set id | id in s.msgs.Keys && s.msgs[id].OpenResp? && s.msgs[id].host == h && s.msgs[id].sfd != -1 :: InMessage(id)
  }

  function ClosesFor(s: State, h: nat): set<Holder> {
    set id | id in s.msgs.Keys && s.msgs[id].CloseReq? && s.msgs[id].host == h && s.msgs[id].sfd != -1 :: InMessage(id)
  }

  ghost function OwnerOf(cfg: Config, s: State, h: nat, sfd: int): Holder
    requires Owned(cfg, s, h, sfd)
  {
    var x :| Holds(cfg, s, x, h, sfd); x
  }

  /** The values of an injective map are as many as its keys. */
  lemma {:induction false} InjectiveCount<K, V>(m: map<K, V>)
    requires forall k, l :: k in m && l in m && m[k] == m[l] ==> k == l
    ensures |m.Values| == |m|
  {
    if m.Keys == {} {
      assert m.Values == {};
    } else {
      var k :| k in m.Keys;
      var rest := m - {k};
      InjectiveCount(rest);
      assert m.Values == rest.Values + {m[k]};
      assert m.Keys == rest.Keys + {k};
      assert |m| == |m.Keys| && |rest| == |rest.Keys|;
    }
  }

  lemma ThreeParts(a: set<Holder>, b: set<Holder>, c: set<Holder>)
    requires a !! b && (a + b) !! c
    ensures |a + b + c| == |a| + |b| + |c|
  {
    assert |a + b + c| == |a + b| + |c|;
  }

  lemma OwnerMap(cfg: Config, s: State, h: nat) returns (owner: map<int, Holder>)
    requires LinksOk(cfg, s) && OwnersOk(cfg, s) && h < |s.servers|
    ensures owner.Keys == s.servers[h].fds.Keys
    ensures forall sfd :: sfd in owner ==> Holds(cfg, s, owner[sfd], h, sfd)
  {
    forall sfd | sfd in s.servers[h].fds
      ensures Owned(cfg, s, h, sfd)
    {
      assert InUse(s.servers[h], sfd);
    }
    owner := map sfd | sfd in s.servers[h].fds :: OwnerOf(cfg, s, h, sfd);
  }

  /** The open descriptors of a server number exactly the table entries that lead to it, the open answers on
      their way and the close requests on their way; between handlers they are the keys of fd_to_path, save the -1
      of failed opens. */
  lemma DescriptorCount(cfg: Config, s: State, h: nat)
    requires Reachable(cfg, s) && h < |s.servers|
    ensures |s.servers[h].fds| == |EntriesAt(cfg, s, h)| + |AnswersFrom(s, h)| + |ClosesFor(s, h)|
    ensures s.servers[h].handler.Idle? ==> s.servers[h].fdToPath.Keys - {-1} == s.servers[h].fds.Keys
  {
    TableKeys(cfg, s, h);
    ReachableLinks(cfg, s);
    var owner := OwnerMap(cfg, s, h);
    OpenIsNotNegative(cfg, s, h);
    OwnersAreHolders(cfg, s, h, owner);
    InjectiveCount(owner);
    assert |s.servers[h].fds| == |s.servers[h].fds.Keys| == |owner.Keys| == |owner|;
    ThreeParts(EntriesAt(cfg, s, h), AnswersFrom(s, h), ClosesFor(s, h));
  }

  lemma OpenIsNotNegative(cfg: Config, s: State, h: nat)
    requires Reachable(cfg, s) && h < |s.servers|
    ensures -1 !in s.servers[h].fds
  {
    ReachableOk(cfg, s);
    assert ServerOk(cfg, h, s.servers[h]);
  }

  lemma TableKeys(cfg: Config, s: State, h: nat)
    requires Reachable(cfg, s) && h < |s.servers|
    ensures s.servers[h].handler.Idle? ==> s.servers[h].fdToPath.Keys - {-1} == s.servers[h].fds.Keys
  {
    ReachableOk(cfg, s);
    assert ServerOk(cfg, h, s.servers[h]);
    if s.servers[h].handler.Idle? {
      KeysBetweenHandlers(cfg, s.servers[h]);
    }
  }

  lemma KeysBetweenHandlers(cfg: Config, v: Server)
    requires TableOk(cfg, v) && v.handler.Idle?
    ensures v.fdToPath.Keys - {-1} == v.fds.Keys
  {
    assert forall fd :: fd in v.fdToPath.Keys - {-1} <==> fd in v.fds.Keys;
  }

  lemma ReachableLinks(cfg: Config, s: State)
    requires Reachable(cfg, s)
    ensures LinksOk(cfg, s) && OwnersOk(cfg, s)
  {
    ReachableOk(cfg, s);
  }

  lemma OwnersAreHolders(cfg: Config, s: State, h: nat, owner: map<int, Holder>)
    requires LinksOk(cfg, s) && OwnersOk(cfg, s) && h < |s.servers|
    requires owner.Keys == s.servers[h].fds.Keys && -1 !in owner
    requires forall sfd :: sfd in owner ==> Holds(cfg, s, owner[sfd], h, sfd)
    ensures owner.Values == EntriesAt(cfg, s, h) + AnswersFrom(s, h) + ClosesFor(s, h)
    ensures forall k, l :: k in owner && l in owner && owner[k] == owner[l] ==> k == l
  {
    var all := EntriesAt(cfg, s, h) + AnswersFrom(s, h) + ClosesFor(s, h);
    forall x | x in all
      ensures x in owner.Values
    {
      var sfd := match x case InTable(c, fd) => s.clients[c].redir[fd] case InMessage(id) => s.msgs[id].sfd;
      assert Holds(cfg, s, x, h, sfd);
      HeldIsKnown(cfg, s, x, h, sfd);
      assert owner[sfd] == x;
    }
    forall x | x in owner.Values
      ensures x in all
    {
      var sfd :| sfd in owner && owner[sfd] == x;
      assert Holds(cfg, s, x, h, sfd);
    }
  }

  /** No leak: once the clients have closed everything, all messages are delivered and no handler is
      running, the server has no client descriptor open and remembers none, not even a failed open. */
  lemma NoLeakAtQuiescence(cfg: Config, s: State, h: nat)
    requires Reachable(cfg, s) && h < |s.servers|
    requires forall c :: 0 <= c < |s.clients| ==> s.clients[c].fdMap == map[]
    requires s.msgs == map[] && s.servers[h].handler.Idle?
    ensures s.servers[h].fds == map[] && s.servers[h].fdToPath == map[]
  {
    ReachableOk(cfg, s);
    var v := s.servers[h];
    assert ServerOk(cfg, h, v);
    assert forall x, sfd :: !Holds(cfg, s, x, h, sfd);
    forall sfd
      ensures !InUse(v, sfd)
    {
      assert InUse(v, sfd) ==> Owned(cfg, s, h, sfd);
    }
    NothingInUse(cfg, v);
  }

  lemma NothingInUse(cfg: Config, v: Server)
    requires TableOk(cfg, v) && v.handler.Idle? && forall sfd :: !InUse(v, sfd)
    ensures v.fds == map[] && v.fdToPath == map[]
  {
    forall sfd
      ensures sfd !in v.fds && sfd !in v.fdToPath
    {
      assert !InUse(v, sfd) && !InUse(v, -1);
    }
    assert v.fds.Keys == {} && v.fdToPath.Keys == {};
  }

  // ---------------------------------------------------------------- each server's share of a run

  /** The steps server `h` takes in a run. */
  function ActsOf(steps: seq<Step>, h: nat): seq<Act> {
    if steps == [] then []
    else (if steps[0].Serve? && steps[0].h == h then [steps[0].a] else []) + ActsOf(steps[1..], h)
  }

  /** In a run of the system every server makes a run of its own, so what holds of all runs of one server
      (queue order, wake-ups, publication, bounded drain) holds of it in the system. */
  lemma {:induction false} ServerShare(cfg: Config, s: State, steps: seq<Step>, s': State, h: nat)
    requires SystemOk(cfg, s) && Run(cfg, s, steps, s') && h < |s.servers|
    ensures h < |s'.servers|
    ensures Runs(cfg, h, s.servers[h], ActsOf(steps, h), s'.servers[h])
    decreases |steps|
  {
    if steps == [] {
    } else {
      var e := steps[0];
      var s1 := Do(cfg, s, e);
      StepKeeps(cfg, s, e);
      ServerShare(cfg, s1, steps[1..], s', h);
      if e.Serve? && e.h == h {
        MessagesFit(cfg, s, h, e.a);
        var rest := ActsOf(steps[1..], h);
        assert ([e.a] + rest)[1..] == rest;
      } else {
        assert s1.servers[h] == s.servers[h];
        assert [] + ActsOf(steps[1..], h) == ActsOf(steps[1..], h);
      }
    }
  }
}
