/** States that differ only in the names of RPC handles and of server descriptors cannot be told apart: they
    make the same steps and show the same events. */
module Renaming {
  import opened Posix
  import opened Session
  import opened CacheServer
  import opened ServerInvariant
  import opened CacheSystem
  import opened SystemInvariant
  import opened Traces
  import C = CacheClient

  /** New names: for RPC handles, and for the descriptors of each server. */
  datatype Names = Names(id: nat -> nat, fd: (nat, int) -> int)

  /** Different things keep different names, and a failed open stays one. */
  ghost predicate Proper(r: Names) {
    && (forall i: nat, j: nat :: r.id(i) == r.id(j) ==> i == j)
    && (forall h: nat, x: int, y: int :: r.fd(h, x) == r.fd(h, y) ==> x == y)
    && (forall h: nat :: r.fd(h, -1) == -1)
    && (forall h: nat, x: int :: x >= 0 ==> r.fd(h, x) >= 0)
  }

  function NewPhase(r: Names, p: C.Phase): C.Phase {
    match p
    case Idle => p
    case Opening(id, fd) => C.Opening(r.id(id), fd)
    case Calling(id, fd, call) => C.Calling(r.id(id), fd, call)
  }

  function NewMsg(r: Names, m: C.Msg): C.Msg {
    match m
    case OpenResp(c, h, lfd, sfd) => C.OpenResp(c, h, lfd, r.fd(h, sfd))
    case ReadReq(c, h, sfd, count, offset) => C.ReadReq(c, h, r.fd(h, sfd), count, offset)
    case SeekReq(c, h, sfd, offset, whence) => C.SeekReq(c, h, r.fd(h, sfd), offset, whence)
    case CloseReq(h, sfd) => C.CloseReq(h, r.fd(h, sfd))
    case _ => m
  }

  function NewHandler(r: Names, h: nat, k: Handler): Handler {
    match k
    case OpenFound(id, c, lfd, path) => OpenFound(r.id(id), c, lfd, path)
    case OpenAt(id, c, lfd, path, target) => OpenAt(r.id(id), c, lfd, path, target)
    case CloseFind(fd) => CloseFind(r.fd(h, fd))
    case CloseLock(fd) => CloseLock(r.fd(h, fd))
    case CloseSignal(fd) => CloseSignal(r.fd(h, fd))
    case ClosePush(fd) => ClosePush(r.fd(h, fd))
    case CloseUnlock(fd) => CloseUnlock(r.fd(h, fd))
    case CloseErase(fd) => CloseErase(r.fd(h, fd))
    case _ => k
  }

  function NewAct(r: Names, h: nat, a: Act): Act {
    match a
    case Move(_) => a
    case Progress(k) => Progress(NewHandlerAct(r, h, k))
  }

  function NewHandlerAct(r: Names, h: nat, k: HandlerAct): HandlerAct {
    match k
    case RecvOpen(id, c, lfd, path) => RecvOpen(r.id(id), c, lfd, path)
    case OpenDo(sfd) => OpenDo(r.fd(h, sfd))
    case RecvRead(id, c, sfd, count, offset, n) => RecvRead(r.id(id), c, r.fd(h, sfd), count, offset, n)
    case RecvSeek(id, c, sfd, offset, whence) => RecvSeek(r.id(id), c, r.fd(h, sfd), offset, whence)
    case RecvClose(id, sfd) => RecvClose(r.id(id), r.fd(h, sfd))
    case _ => k
  }

  function NewStep(r: Names, e: Step): Step {
    match e
    case Deliver(id) => Deliver(r.id(id))
    case BulkDone(id) => BulkDone(r.id(id))
    case Serve(h, a) => Serve(h, NewAct(r, h, a))
    case _ => e
  }

  /** Descriptor `sfd` of server `v` is descriptor `r.fd(h, sfd)` of `w`.  Which path the last failed open
      was for, recorded under -1, is not compared. */
  ghost predicate SameFd(r: Names, h: nat, v: Server, w: Server, sfd: int) {
    && (sfd in v.fds <==> r.fd(h, sfd) in w.fds)
    && (sfd in v.fds ==> w.fds[r.fd(h, sfd)] == v.fds[sfd])
    && (sfd in v.fdToPath <==> r.fd(h, sfd) in w.fdToPath)
    && (sfd in v.fdToPath && sfd != -1 ==> w.fdToPath[r.fd(h, sfd)] == v.fdToPath[sfd])
  }

  ghost predicate SameServer(r: Names, h: nat, v: Server, w: Server) {
    && (forall sfd: int :: SameFd(r, h, v, w, sfd))
    && w == v.(fds := w.fds, fdToPath := w.fdToPath, handler := NewHandler(r, h, v.handler))
  }

  ghost predicate SameEntry(cfg: Config, r: Names, a: C.Client, b: C.Client, fd: int) {
    && (fd in a.redir <==> fd in b.redir)
    && (fd in a.redir && fd in a.fdMap ==> b.redir[fd] == r.fd(Host(cfg, a.fdMap[fd]), a.redir[fd]))
  }

  ghost predicate SameClient(cfg: Config, r: Names, a: C.Client, b: C.Client) {
    && (forall fd: int :: SameEntry(cfg, r, a, b, fd))
    && b == a.(redir := b.redir, phase := NewPhase(r, a.phase))
  }

  ghost predicate SameMsg(r: Names, s: State, t: State, id: nat) {
    && (id in s.msgs <==> r.id(id) in t.msgs)
    && (id in s.msgs ==> t.msgs[r.id(id)] == NewMsg(r, s.msgs[id]))
  }

  /** `t` is `s` with new names. */
  ghost predicate Same(cfg: Config, r: Names, s: State, t: State) {
    && |t.clients| == |s.clients| && |t.servers| == |s.servers| && t.next == s.next
    && (forall c :: 0 <= c < |s.clients| ==> SameClient(cfg, r, s.clients[c], t.clients[c]))
    && (forall h :: 0 <= h < |s.servers| ==> SameServer(r, h, s.servers[h], t.servers[h]))
    && (forall id: nat :: SameMsg(r, s, t, id))
    && (forall id: nat :: id >= s.next ==> r.id(id) == id)
  }

  /** `q` takes the new names back. */
  ghost predicate Inverse(r: Names, q: Names) {
    && Proper(r) && Proper(q)
    && (forall i: nat :: q.id(r.id(i)) == i && r.id(q.id(i)) == i)
    && (forall h: nat, x: int :: q.fd(h, r.fd(h, x)) == x && r.fd(h, q.fd(h, x)) == x)
  }

  /** `s` and `t` are the same but for names: a bijection of RPC handles, and one of the descriptors of each
      server, take `s` to `t`. */
  ghost predicate Alike(cfg: Config, s: State, t: State) {
    exists r, q :: Inverse(r, q) && Same(cfg, r, s, t)
  }

  lemma SameFdBack(r: Names, q: Names, h: nat, v: Server, w: Server, y: int)
    requires Inverse(r, q) && SameServer(r, h, v, w)
    ensures SameFd(q, h, w, v, y)
  {
    var x := q.fd(h, y);
    assert r.fd(h, x) == y && SameFd(r, h, v, w, x);
    assert y == -1 <==> x == -1;
  }

  lemma SameServerBack(r: Names, q: Names, h: nat, v: Server, w: Server)
    requires Inverse(r, q) && SameServer(r, h, v, w)
    ensures SameServer(q, h, w, v)
  {
    forall y: int
      ensures SameFd(q, h, w, v, y)
    {
      SameFdBack(r, q, h, v, w, y);
    }
    assert NewHandler(q, h, NewHandler(r, h, v.handler)) == v.handler;
  }

  lemma SameClientBack(cfg: Config, r: Names, q: Names, a: C.Client, b: C.Client)
    requires Inverse(r, q) && SameClient(cfg, r, a, b)
    ensures SameClient(cfg, q, b, a)
  {
    forall fd: int
      ensures SameEntry(cfg, q, b, a, fd)
    {
      assert SameEntry(cfg, r, a, b, fd);
    }
    assert NewPhase(q, NewPhase(r, a.phase)) == a.phase;
  }

  lemma SameMsgBack(r: Names, q: Names, s: State, t: State, id: nat)
    requires Inverse(r, q) && (forall j: nat :: SameMsg(r, s, t, j))
    ensures SameMsg(q, t, s, id)
  {
    var j := q.id(id);
    assert r.id(j) == id && SameMsg(r, s, t, j);
    if j in s.msgs {
      assert NewMsg(q, NewMsg(r, s.msgs[j])) == s.msgs[j];
    }
  }

  lemma SameBack(cfg: Config, r: Names, q: Names, s: State, t: State)
    requires Inverse(r, q) && Same(cfg, r, s, t)
    ensures Same(cfg, q, t, s)
  {
    forall c | 0 <= c < |s.clients|
      ensures SameClient(cfg, q, t.clients[c], s.clients[c])
    {
      SameClientBack(cfg, r, q, s.clients[c], t.clients[c]);
    }
    forall h | 0 <= h < |s.servers|
      ensures SameServer(q, h, t.servers[h], s.servers[h])
    {
      SameServerBack(r, q, h, s.servers[h], t.servers[h]);
    }
    forall id: nat
      ensures SameMsg(q, t, s, id)
    {
      SameMsgBack(r, q, s, t, id);
    }
    forall id: nat | id >= t.next
      ensures q.id(id) == id
    {
      assert r.id(id) == id;
      assert q.id(r.id(id)) == id;
    }
  }

  lemma AlikeBack(cfg: Config, s: State, t: State)
    requires Alike(cfg, s, t)
    ensures Alike(cfg, t, s)
  {
    var r, q :| Inverse(r, q) && Same(cfg, r, s, t);
    SameBack(cfg, r, q, s, t);
    assert Inverse(q, r);
  }

  // ---------------------------------------------------------------- one server

  lemma SameReads(cfg: Config, r: Names, h: nat, v: Server, w: Server, sfd: int)
    requires Proper(r) && SameServer(r, h, v, w)
    ensures sfd in v.fds <==> r.fd(h, sfd) in w.fds
    ensures sfd in v.fds ==> w.fds[r.fd(h, sfd)] == v.fds[sfd] && Size(cfg, w, r.fd(h, sfd)) == Size(cfg, v, sfd)
  {
    assert SameFd(r, h, v, w, sfd);
  }

  lemma RenamedHandlerEnabled(cfg: Config, r: Names, h: nat, v: Server, w: Server, a: HandlerAct)
    requires Proper(r) && SameServer(r, h, v, w) && HandlerEnabled(cfg, v, a)
    ensures HandlerEnabled(cfg, w, NewHandlerAct(r, h, a))
  {
    match a
    case OpenDo(sfd) => SameReads(cfg, r, h, v, w, sfd);
    case RecvRead(_, _, sfd, _, _, _) => SameReads(cfg, r, h, v, w, sfd);
    case _ =>
  }

  /** Operations, and the end of an open. */
  lemma RenamedOperation(cfg: Config, r: Names, h: nat, v: Server, w: Server, a: HandlerAct)
    requires Proper(r) && SameServer(r, h, v, w) && HandlerEnabled(cfg, v, a) && (a.RecvRead? || a.RecvSeek?)
    requires HandlerEnabled(cfg, w, NewHandlerAct(r, h, a))
    ensures SameServer(r, h, HandlerApply(cfg, v, a), HandlerApply(cfg, w, NewHandlerAct(r, h, a)))
  {
    SameReads(cfg, r, h, v, w, a.sfd);
    var v', w' := HandlerApply(cfg, v, a), HandlerApply(cfg, w, NewHandlerAct(r, h, a));
    forall x: int
      ensures SameFd(r, h, v', w', x)
    {
      assert SameFd(r, h, v, w, x);
    }
  }

  lemma RenamedOpenDo(cfg: Config, r: Names, h: nat, v: Server, w: Server, sfd: int)
    requires Proper(r) && SameServer(r, h, v, w) && HandlerEnabled(cfg, v, OpenDo(sfd))
    requires HandlerEnabled(cfg, w, OpenDo(r.fd(h, sfd)))
    ensures SameServer(r, h, HandlerApply(cfg, v, OpenDo(sfd)), HandlerApply(cfg, w, OpenDo(r.fd(h, sfd))))
  {
    var v', w' := HandlerApply(cfg, v, OpenDo(sfd)), HandlerApply(cfg, w, OpenDo(r.fd(h, sfd)));
    forall x: int
      ensures SameFd(r, h, v', w', x)
    {
      assert SameFd(r, h, v, w, x);
    }
  }

  /** The start of a close. */
  lemma RenamedRecvClose(cfg: Config, r: Names, h: nat, v: Server, w: Server, id: nat, sfd: int)
    requires Proper(r) && SameServer(r, h, v, w) && v.handler.Idle? && w.handler.Idle?
    ensures SameServer(r, h, HandlerApply(cfg, v, RecvClose(id, sfd)),
                       HandlerApply(cfg, w, RecvClose(r.id(id), r.fd(h, sfd))))
  {
    var v', w' := HandlerApply(cfg, v, RecvClose(id, sfd)), HandlerApply(cfg, w, RecvClose(r.id(id), r.fd(h, sfd)));
    assert SameFd(r, h, v, w, sfd);
    forall x: int
      ensures SameFd(r, h, v', w', x)
    {
      assert SameFd(r, h, v, w, x);
    }
  }

  /** The other steps of a close. */
  lemma RenamedClose(cfg: Config, r: Names, h: nat, v: Server, w: Server, a: HandlerAct)
    requires Proper(r) && SameServer(r, h, v, w) && TableOk(cfg, v) && HandlerEnabled(cfg, v, a)
    requires a.CacheFind? || a.HandlerPush? || a.HandlerErase?
    requires HandlerEnabled(cfg, w, NewHandlerAct(r, h, a))
    ensures SameServer(r, h, HandlerApply(cfg, v, a), HandlerApply(cfg, w, NewHandlerAct(r, h, a)))
  {
    var v', w' := HandlerApply(cfg, v, a), HandlerApply(cfg, w, NewHandlerAct(r, h, a));
    assert SameFd(r, h, v, w, v.handler.fd);
    forall x: int
      ensures SameFd(r, h, v', w', x)
    {
      assert SameFd(r, h, v, w, x);
    }
  }

  /** The steps that touch no descriptor. */
  lemma RenamedOther(cfg: Config, r: Names, h: nat, v: Server, w: Server, a: HandlerAct)
    requires Proper(r) && SameServer(r, h, v, w) && HandlerEnabled(cfg, v, a)
    requires a.RecvOpen? || a.OpenLookup? || a.HandlerLock? || a.HandlerSignal? || a.HandlerUnlock?
    requires HandlerEnabled(cfg, w, NewHandlerAct(r, h, a))
    ensures SameServer(r, h, HandlerApply(cfg, v, a), HandlerApply(cfg, w, NewHandlerAct(r, h, a)))
  {
    var v', w' := HandlerApply(cfg, v, a), HandlerApply(cfg, w, NewHandlerAct(r, h, a));
    forall x: int
      ensures SameFd(r, h, v', w', x)
    {
      assert SameFd(r, h, v, w, x);
    }
  }

  lemma RenamedMove(cfg: Config, r: Names, h: nat, v: Server, w: Server, a: MoverAct)
    requires SameServer(r, h, v, w) && MoverEnabled(cfg, v, a)
    ensures MoverEnabled(cfg, w, a) && SameServer(r, h, MoverApply(cfg, v, a), MoverApply(cfg, w, a))
  {
    forall x: int
      ensures SameFd(r, h, MoverApply(cfg, v, a), MoverApply(cfg, w, a), x)
    {
      assert SameFd(r, h, v, w, x);
    }
  }

  lemma RenamedAct(cfg: Config, r: Names, h: nat, v: Server, w: Server, a: Act)
    requires Proper(r) && SameServer(r, h, v, w) && TableOk(cfg, v) && Enabled(cfg, v, a)
    ensures Enabled(cfg, w, NewAct(r, h, a)) && SameServer(r, h, Apply(cfg, v, a), Apply(cfg, w, NewAct(r, h, a)))
  {
    match a
    case Move(m) => RenamedMove(cfg, r, h, v, w, m);
    case Progress(k) =>
      RenamedHandlerEnabled(cfg, r, h, v, w, k);
      if k.RecvRead? || k.RecvSeek? {
        RenamedOperation(cfg, r, h, v, w, k);
      } else if k.OpenDo? {
        RenamedOpenDo(cfg, r, h, v, w, k.sfd);
      } else if k.RecvClose? {
        RenamedRecvClose(cfg, r, h, v, w, k.id, k.sfd);
      } else if k.CacheFind? || k.HandlerPush? || k.HandlerErase? {
        RenamedClose(cfg, r, h, v, w, k);
      } else {
        RenamedOther(cfg, r, h, v, w, k);
      }
  }

  /** What a server puts into the pool. */
  lemma RenamedReply(cfg: Config, r: Names, h: nat, v: Server, w: Server, a: HandlerAct)
    requires Proper(r) && SameServer(r, h, v, w)
    requires HandlerEnabled(cfg, v, a) && HandlerEnabled(cfg, w, NewHandlerAct(r, h, a))
    ensures a.RecvRead? ==>
              ReadData(cfg, w, r.fd(h, a.sfd), a.count, a.offset, a.n) ==
                ReadData(cfg, v, a.sfd, a.count, a.offset, a.n)
    ensures a.RecvSeek? ==>
              SeekAnswer(cfg, w, r.fd(h, a.sfd), a.offset, a.whence) == SeekAnswer(cfg, v, a.sfd, a.offset, a.whence)
  {
    if a.RecvRead? || a.RecvSeek? {
      SameReads(cfg, r, h, v, w, a.sfd);
    }
  }

  // ---------------------------------------------------------------- steps of the system

  lemma RenamedCanServe(cfg: Config, r: Names, s: State, t: State, h: nat, a: Act)
    requires Proper(r) && Same(cfg, r, s, t) && CanStep(cfg, s, Serve(h, a)) && TableOk(cfg, s.servers[h])
    ensures CanStep(cfg, t, Serve(h, NewAct(r, h, a)))
    ensures SameServer(r, h, Apply(cfg, s.servers[h], a), Apply(cfg, t.servers[h], NewAct(r, h, a)))
  {
    assert SameServer(r, h, s.servers[h], t.servers[h]);
    RenamedAct(cfg, r, h, s.servers[h], t.servers[h], a);
    if a.Progress? && (a.h.RecvOpen? || a.h.RecvRead? || a.h.RecvSeek? || a.h.RecvClose?) {
      assert SameMsg(r, s, t, a.h.id);
    }
  }

  /** The pool after one message is put in. */
  lemma RenamedPut(r: Names, s: State, t: State, id: nat, m: C.Msg, s': State, t': State)
    requires Proper(r) && (forall j: nat :: SameMsg(r, s, t, j))
    requires s'.msgs == s.msgs[id := m] && t'.msgs == t.msgs[r.id(id) := NewMsg(r, m)]
    ensures forall j: nat :: SameMsg(r, s', t', j)
  {
    forall j: nat
      ensures SameMsg(r, s', t', j)
    {
      assert SameMsg(r, s, t, j);
    }
  }

  lemma RenamedDrop(r: Names, s: State, t: State, id: nat, s': State, t': State)
    requires Proper(r) && (forall j: nat :: SameMsg(r, s, t, j))
    requires s'.msgs == s.msgs - {id} && t'.msgs == t.msgs - {r.id(id)}
    ensures forall j: nat :: SameMsg(r, s', t', j)
  {
    forall j: nat
      ensures SameMsg(r, s', t', j)
    {
      assert SameMsg(r, s, t, j);
    }
  }

  lemma RenamedKeep(r: Names, s: State, t: State, s': State, t': State)
    requires forall j: nat :: SameMsg(r, s, t, j)
    requires s'.msgs == s.msgs && t'.msgs == t.msgs
    ensures forall j: nat :: SameMsg(r, s', t', j)
  {
    forall j: nat
      ensures SameMsg(r, s', t', j)
    {
      assert SameMsg(r, s, t, j);
    }
  }

  lemma RenamedAnswer(cfg: Config, r: Names, s: State, t: State, h: nat, a: HandlerAct)
    requires Proper(r) && Same(cfg, r, s, t) && CanStep(cfg, s, Serve(h, Progress(a))) && (a.RecvRead? || a.RecvSeek?)
    requires CanStep(cfg, t, Serve(h, Progress(NewHandlerAct(r, h, a))))
    ensures forall j: nat :: SameMsg(r, Do(cfg, s, Serve(h, Progress(a))),
                                     Do(cfg, t, Serve(h, Progress(NewHandlerAct(r, h, a)))), j)
  {
    var s', t' := Do(cfg, s, Serve(h, Progress(a))), Do(cfg, t, Serve(h, Progress(NewHandlerAct(r, h, a))));
    var v, w := s.servers[h], t.servers[h];
    assert SameServer(r, h, v, w);
    RenamedReply(cfg, r, h, v, w, a);
    RenamedPut(r, s, t, a.id,
               if a.RecvRead? then C.BulkPush(a.client, h, ReadData(cfg, v, a.sfd, a.count, a.offset, a.n))
               else C.SeekResp(a.client, h, SeekAnswer(cfg, v, a.sfd, a.offset, a.whence)),
               s', t');
  }

  lemma RenamedPool(cfg: Config, r: Names, s: State, t: State, h: nat, a: Act)
    requires Proper(r) && Same(cfg, r, s, t) && CanStep(cfg, s, Serve(h, a))
    requires CanStep(cfg, t, Serve(h, NewAct(r, h, a)))
    ensures forall j: nat :: SameMsg(r, Do(cfg, s, Serve(h, a)), Do(cfg, t, Serve(h, NewAct(r, h, a))), j)
  {
    var s', t' := Do(cfg, s, Serve(h, a)), Do(cfg, t, Serve(h, NewAct(r, h, a)));
    var v, w := s.servers[h], t.servers[h];
    assert SameServer(r, h, v, w);
    match a
    case Progress(RecvOpen(id, _, _, _)) => RenamedDrop(r, s, t, id, s', t');
    case Progress(RecvClose(id, _)) => RenamedDrop(r, s, t, id, s', t');
    case Progress(OpenDo(sfd)) =>
      RenamedPut(r, s, t, v.handler.id, C.OpenResp(v.handler.client, h, v.handler.lfd, sfd), s', t');
    case Progress(RecvRead(_, _, _, _, _, _)) => RenamedAnswer(cfg, r, s, t, h, a.h);
    case Progress(RecvSeek(_, _, _, _, _)) => RenamedAnswer(cfg, r, s, t, h, a.h);
    case _ => RenamedKeep(r, s, t, s', t');
  }

  lemma RenamedServe(cfg: Config, r: Names, s: State, t: State, h: nat, a: Act)
    requires Proper(r) && Same(cfg, r, s, t) && CanStep(cfg, s, Serve(h, a)) && TableOk(cfg, s.servers[h])
    ensures CanStep(cfg, t, Serve(h, NewAct(r, h, a)))
    ensures Same(cfg, r, Do(cfg, s, Serve(h, a)), Do(cfg, t, Serve(h, NewAct(r, h, a))))
  {
    RenamedCanServe(cfg, r, s, t, h, a);
    RenamedPool(cfg, r, s, t, h, a);
  }

  /** A step changes one client and the pool. */
  lemma RenamedClientStep(cfg: Config, r: Names, s: State, t: State, c: nat, s': State, t': State)
    requires Same(cfg, r, s, t) && c < |s.clients|
    requires |s'.clients| == |s.clients| && |t'.clients| == |t.clients|
    requires forall d :: 0 <= d < |s.clients| && d != c ==> s'.clients[d] == s.clients[d]
    requires forall d :: 0 <= d < |s.clients| && d != c ==> t'.clients[d] == t.clients[d]
    requires s'.servers == s.servers && t'.servers == t.servers && s'.next == t'.next >= s.next
    requires SameClient(cfg, r, s'.clients[c], t'.clients[c])
    requires forall j: nat :: SameMsg(r, s', t', j)
    ensures Same(cfg, r, s', t')
  {
  }

  lemma RenamedOpen(cfg: Config, r: Names, s: State, t: State, c: nat, fd: int, path: Path)
    requires Proper(r) && Same(cfg, r, s, t) && CanStep(cfg, s, AppOpen(c, fd, path)) && ClientOk(cfg, s, c)
    ensures CanStep(cfg, t, AppOpen(c, fd, path))
    ensures Same(cfg, r, Do(cfg, s, AppOpen(c, fd, path)), Do(cfg, t, AppOpen(c, fd, path)))
  {
    var s', t' := Do(cfg, s, AppOpen(c, fd, path)), Do(cfg, t, AppOpen(c, fd, path));
    assert SameClient(cfg, r, s.clients[c], t.clients[c]);
    forall g: int
      ensures SameEntry(cfg, r, s'.clients[c], t'.clients[c], g)
    {
      assert SameEntry(cfg, r, s.clients[c], t.clients[c], g);
    }
    RenamedPut(r, s, t, s.next, C.OpenReq(c, Host(cfg, path), fd, path), s', t');
    RenamedClientStep(cfg, r, s, t, c, s', t');
  }

  lemma RenamedOpenOther(cfg: Config, r: Names, s: State, t: State, c: nat, fd: int)
    requires Proper(r) && Same(cfg, r, s, t) && CanStep(cfg, s, AppOpenOther(c, fd))
    ensures CanStep(cfg, t, AppOpenOther(c, fd))
    ensures Same(cfg, r, Do(cfg, s, AppOpenOther(c, fd)), Do(cfg, t, AppOpenOther(c, fd)))
  {
    var s', t' := Do(cfg, s, AppOpenOther(c, fd)), Do(cfg, t, AppOpenOther(c, fd));
    assert SameClient(cfg, r, s.clients[c], t.clients[c]);
    forall g: int
      ensures SameEntry(cfg, r, s'.clients[c], t'.clients[c], g)
    {
      assert SameEntry(cfg, r, s.clients[c], t.clients[c], g);
    }
    RenamedKeep(r, s, t, s', t');
    RenamedClientStep(cfg, r, s, t, c, s', t');
  }

  lemma RenamedCall(cfg: Config, r: Names, s: State, t: State, c: nat, fd: int, call: Call)
    requires Proper(r) && Same(cfg, r, s, t) && CanStep(cfg, s, AppCall(c, fd, call)) && ClientOk(cfg, s, c)
    ensures CanStep(cfg, t, AppCall(c, fd, call))
    ensures Same(cfg, r, Do(cfg, s, AppCall(c, fd, call)), Do(cfg, t, AppCall(c, fd, call)))
  {
    var s', t' := Do(cfg, s, AppCall(c, fd, call)), Do(cfg, t, AppCall(c, fd, call));
    var a, b := s.clients[c], t.clients[c];
    assert SameClient(cfg, r, a, b) && SameEntry(cfg, r, a, b, fd);
    assert fd in a.redir && fd in b.redir;
    forall g: int
      ensures SameEntry(cfg, r, s'.clients[c], t'.clients[c], g)
    {
      assert SameEntry(cfg, r, a, b, g);
    }
    var h := Host(cfg, a.fdMap[fd]);
    RenamedPut(r, s, t, s.next, C.Request(a, c, h, fd, call), s', t');
    RenamedClientStep(cfg, r, s, t, c, s', t');
  }

  lemma RenamedAppClose(cfg: Config, r: Names, s: State, t: State, c: nat, fd: int)
    requires Proper(r) && Same(cfg, r, s, t) && CanStep(cfg, s, AppClose(c, fd)) && ClientOk(cfg, s, c)
    ensures CanStep(cfg, t, AppClose(c, fd))
    ensures Same(cfg, r, Do(cfg, s, AppClose(c, fd)), Do(cfg, t, AppClose(c, fd)))
  {
    var s', t' := Do(cfg, s, AppClose(c, fd)), Do(cfg, t, AppClose(c, fd));
    var a, b := s.clients[c], t.clients[c];
    assert SameClient(cfg, r, a, b) && SameEntry(cfg, r, a, b, fd);
    forall g: int
      ensures SameEntry(cfg, r, s'.clients[c], t'.clients[c], g)
    {
      assert SameEntry(cfg, r, a, b, g);
    }
    if fd in a.fdMap {
      assert fd in a.redir && fd in b.redir;
      RenamedPut(r, s, t, s.next, C.CloseReq(Host(cfg, a.fdMap[fd]), a.redir[fd]), s', t');
    } else {
      RenamedKeep(r, s, t, s', t');
    }
    RenamedClientStep(cfg, r, s, t, c, s', t');
  }

  lemma RenamedReturn(cfg: Config, r: Names, s: State, t: State, c: nat, fallback: Result)
    requires Proper(r) && Same(cfg, r, s, t) && CanStep(cfg, s, AppReturn(c, fallback))
    ensures CanStep(cfg, t, AppReturn(c, fallback))
    ensures Same(cfg, r, Do(cfg, s, AppReturn(c, fallback)), Do(cfg, t, AppReturn(c, fallback)))
  {
    var s', t' := Do(cfg, s, AppReturn(c, fallback)), Do(cfg, t, AppReturn(c, fallback));
    assert SameClient(cfg, r, s.clients[c], t.clients[c]);
    forall g: int
      ensures SameEntry(cfg, r, s'.clients[c], t'.clients[c], g)
    {
      assert SameEntry(cfg, r, s.clients[c], t.clients[c], g);
    }
    RenamedKeep(r, s, t, s', t');
    RenamedClientStep(cfg, r, s, t, c, s', t');
  }

  lemma RenamedDeliver(cfg: Config, r: Names, s: State, t: State, id: nat)
    requires Proper(r) && Same(cfg, r, s, t) && CanStep(cfg, s, Deliver(id)) && MsgOk(cfg, s, id, s.msgs[id])
    ensures CanStep(cfg, t, Deliver(r.id(id)))
    ensures Same(cfg, r, Do(cfg, s, Deliver(id)), Do(cfg, t, Deliver(r.id(id))))
  {
    assert SameMsg(r, s, t, id);
    var c := s.msgs[id].client;
    var s', t' := Do(cfg, s, Deliver(id)), Do(cfg, t, Deliver(r.id(id)));
    assert SameClient(cfg, r, s.clients[c], t.clients[c]);
    forall g: int
      ensures SameEntry(cfg, r, s'.clients[c], t'.clients[c], g)
    {
      assert SameEntry(cfg, r, s.clients[c], t.clients[c], g);
    }
    RenamedDrop(r, s, t, id, s', t');
    RenamedClientStep(cfg, r, s, t, c, s', t');
  }

  lemma RenamedBulk(cfg: Config, r: Names, s: State, t: State, id: nat)
    requires Proper(r) && Same(cfg, r, s, t) && CanStep(cfg, s, BulkDone(id))
    ensures CanStep(cfg, t, BulkDone(r.id(id)))
    ensures Same(cfg, r, Do(cfg, s, BulkDone(id)), Do(cfg, t, BulkDone(r.id(id))))
  {
    assert SameMsg(r, s, t, id);
    var m := s.msgs[id];
    var s', t' := Do(cfg, s, BulkDone(id)), Do(cfg, t, BulkDone(r.id(id)));
    assert SameClient(cfg, r, s.clients[m.client], t.clients[m.client]);
    forall g: int
      ensures SameEntry(cfg, r, s'.clients[m.client], t'.clients[m.client], g)
    {
      assert SameEntry(cfg, r, s.clients[m.client], t.clients[m.client], g);
    }
    RenamedPut(r, s, t, id, C.ReadResp(m.client, m.host, ToInt32(|m.data|)), s', t');
    RenamedClientStep(cfg, r, s, t, m.client, s', t');
  }

  /** Renamed states make the renamed steps, and stay renamed by the same names. */
  lemma RenamedStep(cfg: Config, r: Names, s: State, t: State, e: Step)
    requires SystemOk(cfg, s) && Proper(r) && Same(cfg, r, s, t) && CanStep(cfg, s, e)
    ensures CanStep(cfg, t, NewStep(r, e))
    ensures Same(cfg, r, Do(cfg, s, e), Do(cfg, t, NewStep(r, e)))
  {
    match e
    case AppOpen(c, fd, path) =>
      assert ClientOk(cfg, s, c);
      RenamedOpen(cfg, r, s, t, c, fd, path);
    case AppOpenOther(c, fd) => RenamedOpenOther(cfg, r, s, t, c, fd);
    case AppCall(c, fd, call) =>
      assert ClientOk(cfg, s, c);
      RenamedCall(cfg, r, s, t, c, fd, call);
    case AppClose(c, fd) =>
      assert ClientOk(cfg, s, c);
      RenamedAppClose(cfg, r, s, t, c, fd);
    case AppReturn(c, fallback) => RenamedReturn(cfg, r, s, t, c, fallback);
    case Deliver(id) =>
      assert MsgOk(cfg, s, id, s.msgs[id]);
      RenamedDeliver(cfg, r, s, t, id);
    case BulkDone(id) => RenamedBulk(cfg, r, s, t, id);
    case Serve(h, a) =>
      assert ServerOk(cfg, h, s.servers[h]);
      RenamedServe(cfg, r, s, t, h, a);
  }

  lemma RenamedShows(cfg: Config, r: Names, s: State, t: State, e: Step)
    requires SystemOk(cfg, s) && Proper(r) && Same(cfg, r, s, t)
    requires CanStep(cfg, s, e) && CanStep(cfg, t, NewStep(r, e))
    ensures Shows(cfg, t, NewStep(r, e)) == Shows(cfg, s, e)
  {
    if e.AppReturn? || e.AppClose? {
      assert SameClient(cfg, r, s.clients[e.c], t.clients[e.c]);
      assert ClientOk(cfg, s, e.c);
      if e.AppReturn? && s.clients[e.c].phase.Opening? {
        assert SameEntry(cfg, r, s.clients[e.c], t.clients[e.c], s.clients[e.c].phase.fd);
        assert s.clients[e.c].phase.fd in s.clients[e.c].redir;
      }
    }
  }

  function NewSteps(r: Names, steps: seq<Step>): (es: seq<Step>)
    ensures |es| == |steps|
  {
    if steps == [] then [] else [NewStep(r, steps[0])] + NewSteps(r, steps[1..])
  }

  /** Names do not show: whatever run one state makes, the other makes too, with the same events. */
  lemma {:induction false} NamesDoNotShow(cfg: Config, r: Names, s: State, steps: seq<Step>, s': State, t: State)
    returns (t': State)
    requires SystemOk(cfg, s) && Proper(r) && Same(cfg, r, s, t) && Run(cfg, s, steps, s')
    ensures Run(cfg, t, NewSteps(r, steps), t') && Same(cfg, r, s', t')
    ensures Trace(cfg, t, NewSteps(r, steps), t') == Trace(cfg, s, steps, s')
    decreases |steps|
  {
    if steps == [] {
      t' := t;
    } else {
      var e := steps[0];
      RenamedStep(cfg, r, s, t, e);
      RenamedShows(cfg, r, s, t, e);
      StepKeeps(cfg, s, e);
      t' := NamesDoNotShow(cfg, r, Do(cfg, s, e), steps[1..], s', Do(cfg, t, NewStep(r, e)));
      assert NewSteps(r, steps)[1..] == NewSteps(r, steps[1..]);
    }
  }

  lemma AlikeCanShow(cfg: Config, s: State, t: State, trace: seq<Event>)
    requires SystemOk(cfg, s) && Alike(cfg, s, t) && CanShow(cfg, s, trace)
    ensures CanShow(cfg, t, trace)
  {
    var r, q :| Inverse(r, q) && Same(cfg, r, s, t);
    var s' :| Displays(cfg, s, trace, s');
    var steps :| Run(cfg, s, steps, s') && Trace(cfg, s, steps, s') == trace;
    var t' := NamesDoNotShow(cfg, r, s, steps, s', t);
    assert Displays(cfg, t, trace, t');
  }

  /** States that are the same but for names show the same traces. */
  lemma AlikeShowAlike(cfg: Config, s: State, t: State, trace: seq<Event>)
    requires SystemOk(cfg, s) && SystemOk(cfg, t) && Alike(cfg, s, t)
    ensures CanShow(cfg, s, trace) <==> CanShow(cfg, t, trace)
  {
    if CanShow(cfg, s, trace) {
      AlikeCanShow(cfg, s, t, trace);
    }
    if CanShow(cfg, t, trace) {
      AlikeBack(cfg, s, t);
      AlikeCanShow(cfg, t, s, trace);
    }
  }
}
