/** What commutes up to names: requests of two clients, and whole open handlers.  Whole close handlers commute
    up to the order in which the mover finds their paths. */
module UpToNames {
  import opened Posix
  import opened Session
  import opened CacheServer
  import opened ServerInvariant
  import opened CacheSystem
  import opened SystemInvariant
  import opened Renaming
  import opened Commutation
  import opened ServerProcess
  import opened Completion
  import C = CacheClient

  // ---------------------------------------------------------------- names that are exchanged

  function Swap(a: int, b: int, x: int): int {
    if x == a then b else if x == b then a else x
  }

  /** The RPC handle `n` and the next one exchanged. */
  function SwapIds(n: nat): Names {
    Names(i => if i == n then n + 1 else if i == n + 1 then n else i, (h, x) => x)
  }

  /** On server `g`: `x` becomes `u`, and `y` becomes `w`. */
  function SwapFds(g: nat, x: int, u: int, y: int, w: int): Names {
    Names(i => i, (h, z) => if h == g then Swap(Swap(x, u, y), w, Swap(x, u, z)) else z)
  }

  function SwapFdsBack(g: nat, x: int, u: int, y: int, w: int): Names {
    Names(i => i, (h, z) => if h == g then Swap(x, u, Swap(Swap(x, u, y), w, z)) else z)
  }

  lemma SwapIdsInverse(n: nat)
    ensures Inverse(SwapIds(n), SwapIds(n))
  {
  }

  /** The outcomes of two opens, in one run and in another: they succeed alike, under different numbers. */
  predicate SameOutcomes(x: int, u: int, y: int, w: int) {
    && x >= -1 && u >= -1 && y >= -1 && w >= -1
    && (x == -1 <==> u == -1) && (y == -1 <==> w == -1)
    && (x == y ==> x == -1) && (u == w ==> u == -1)
  }

  lemma SwapFdsInverse(g: nat, x: int, u: int, y: int, w: int)
    requires SameOutcomes(x, u, y, w)
    ensures Inverse(SwapFds(g, x, u, y, w), SwapFdsBack(g, x, u, y, w))
  {
    var r, q := SwapFds(g, x, u, y, w), SwapFdsBack(g, x, u, y, w);
    assert forall h: nat, z: int :: q.fd(h, r.fd(h, z)) == z;
    assert forall h: nat, z: int :: r.fd(h, q.fd(h, z)) == z;
  }

  lemma SwapFdsTakes(g: nat, x: int, u: int, y: int, w: int)
    requires SameOutcomes(x, u, y, w)
    ensures SwapFds(g, x, u, y, w).fd(g, x) == u && SwapFds(g, x, u, y, w).fd(g, y) == w
    ensures forall h: nat, z: int :: (h != g || (z != x && z != u && z != y && z != w)) ==>
              SwapFds(g, x, u, y, w).fd(h, z) == z
  {
  }

  // ---------------------------------------------------------------- requests of two clients

  /** The state after two requests. */
  predicate SentTwo(cfg: Config, s: State, e: Step, f: Step, t: State)
    requires CanStep(cfg, s, e) && CanStep(cfg, s, f) && Sends(s, e) && Sends(s, f)
  {
    && t.clients == s.clients[ClientOf(s, e) := ClientAfter(cfg, s, e, s.next)]
                             [ClientOf(s, f) := ClientAfter(cfg, s, f, s.next + 1)]
    && t.servers == s.servers
    && t.msgs == s.msgs[s.next := SentMsg(cfg, s, e)][s.next + 1 := SentMsg(cfg, s, f)]
    && t.next == s.next + 2
  }

  lemma SendIs(cfg: Config, s: State, e: Step)
    requires CanStep(cfg, s, e) && Sends(s, e)
    ensures Do(cfg, s, e) == State(s.clients[ClientOf(s, e) := ClientAfter(cfg, s, e, s.next)], s.servers,
                                   s.msgs[s.next := SentMsg(cfg, s, e)], s.next + 1)
  {
  }

  lemma SendFrame(cfg: Config, s: State, t: State, f: Step, id: nat)
    requires CanStep(cfg, s, f) && Sends(s, f) && |t.clients| == |s.clients|
    requires t.clients[ClientOf(s, f)] == s.clients[ClientOf(s, f)]
    ensures CanStep(cfg, t, f) && Sends(t, f) && ClientOf(t, f) == ClientOf(s, f)
    ensures ClientAfter(cfg, t, f, id) == ClientAfter(cfg, s, f, id) && SentMsg(cfg, t, f) == SentMsg(cfg, s, f)
  {
  }

  lemma TwoSends(cfg: Config, s: State, e: Step, f: Step)
    requires CanStep(cfg, s, e) && CanStep(cfg, s, f) && Sends(s, e) && Sends(s, f)
    requires ClientOf(s, e) != ClientOf(s, f)
    ensures CanStep(cfg, Do(cfg, s, e), f) && SentTwo(cfg, s, e, f, Do(cfg, Do(cfg, s, e), f))
  {
    var s1 := Do(cfg, s, e);
    SendIs(cfg, s, e);
    SendFrame(cfg, s, s1, f, s.next + 1);
    SendIs(cfg, s1, f);
  }

  /** The handle a client waits for is all that its request's number changes. */
  lemma AfterRenamed(cfg: Config, s: State, e: Step, i: nat, j: nat, r: Names)
    requires CanStep(cfg, s, e) && Sends(s, e) && r.id(i) == j && (forall h: nat, x: int :: r.fd(h, x) == x)
    ensures SameClient(cfg, r, ClientAfter(cfg, s, e, i), ClientAfter(cfg, s, e, j))
  {
    var a, b := ClientAfter(cfg, s, e, i), ClientAfter(cfg, s, e, j);
    assert a.redir == b.redir;
    forall fd: int
      ensures SameEntry(cfg, r, a, b, fd)
    {
    }
  }

  /** Old names are not exchanged. */
  lemma OldClientSame(cfg: Config, s: State, c: nat, n: nat)
    requires c < |s.clients| && ClientOk(cfg, s, c) && n >= s.next
    ensures SameClient(cfg, SwapIds(n), s.clients[c], s.clients[c])
  {
    forall fd: int
      ensures SameEntry(cfg, SwapIds(n), s.clients[c], s.clients[c], fd)
    {
    }
  }

  lemma OldServerSame(cfg: Config, s: State, h: nat, n: nat)
    requires h < |s.servers| && HandlerOk(cfg, s, h, s.servers[h].handler) && n >= s.next
    ensures SameServer(SwapIds(n), h, s.servers[h], s.servers[h])
  {
    forall x: int
      ensures SameFd(SwapIds(n), h, s.servers[h], s.servers[h], x)
    {
    }
  }

  lemma SentMessagesSame(cfg: Config, s: State, e: Step, f: Step, t: State, u: State)
    requires MsgsOk(cfg, s) && CanStep(cfg, s, e) && CanStep(cfg, s, f) && Sends(s, e) && Sends(s, f)
    requires t.msgs == s.msgs[s.next := SentMsg(cfg, s, e)][s.next + 1 := SentMsg(cfg, s, f)]
    requires u.msgs == s.msgs[s.next := SentMsg(cfg, s, f)][s.next + 1 := SentMsg(cfg, s, e)]
    ensures forall id: nat :: SameMsg(SwapIds(s.next), t, u, id)
  {
    var r := SwapIds(s.next);
    forall id: nat
      ensures SameMsg(r, t, u, id)
    {
      assert id in s.msgs ==> MsgOk(cfg, s, id, s.msgs[id]);
      assert id in t.msgs ==> NewMsg(r, t.msgs[id]) == t.msgs[id];
    }
  }

  /** Opens, calls and closes of two clients commute up to the handles of their two RPCs. */
  lemma SendersCommute(cfg: Config, s: State, e: Step, f: Step)
    requires Reachable(cfg, s) && CanStep(cfg, s, e) && CanStep(cfg, s, f) && Sends(s, e) && Sends(s, f)
    requires ClientOf(s, e) != ClientOf(s, f)
    ensures CanStep(cfg, Do(cfg, s, e), f) && CanStep(cfg, Do(cfg, s, f), e)
    ensures Alike(cfg, Do(cfg, Do(cfg, s, e), f), Do(cfg, Do(cfg, s, f), e))
  {
    ReachableOk(cfg, s);
    TwoSends(cfg, s, e, f);
    TwoSends(cfg, s, f, e);
    SentAlike(cfg, s, e, f, Do(cfg, Do(cfg, s, e), f), Do(cfg, Do(cfg, s, f), e));
  }

  lemma SentAlike(cfg: Config, s: State, e: Step, f: Step, t: State, u: State)
    requires SystemOk(cfg, s) && CanStep(cfg, s, e) && CanStep(cfg, s, f) && Sends(s, e) && Sends(s, f)
    requires ClientOf(s, e) != ClientOf(s, f)
    requires SentTwo(cfg, s, e, f, t) && SentTwo(cfg, s, f, e, u)
    ensures Alike(cfg, t, u)
  {
    var r := SwapIds(s.next);
    SentMessagesSame(cfg, s, e, f, t, u);
    forall c | 0 <= c < |s.clients|
      ensures SameClient(cfg, r, t.clients[c], u.clients[c])
    {
      if c == ClientOf(s, e) {
        AfterRenamed(cfg, s, e, s.next, s.next + 1, r);
      } else if c == ClientOf(s, f) {
        AfterRenamed(cfg, s, f, s.next + 1, s.next, r);
      } else {
        assert ClientOk(cfg, s, c);
        OldClientSame(cfg, s, c, s.next);
      }
    }
    forall h | 0 <= h < |s.servers|
      ensures SameServer(r, h, t.servers[h], u.servers[h])
    {
      assert HandlerOk(cfg, s, h, s.servers[h].handler);
      OldServerSame(cfg, s, h, s.next);
    }
    SwapIdsInverse(s.next);
    assert Same(cfg, r, t, u);
  }

  lemma AlikeItself(cfg: Config, s: State)
    requires SystemOk(cfg, s)
    ensures Alike(cfg, s, s)
  {
    var r := Names(i => i, (h, x) => x);
    SparedSame(cfg, r, s);
    assert Inverse(r, r);
  }

  /** Any two steps of different clients - opens, calls, closes, deliveries, transfers, returns - are possible
      in either order, and lead to states that are the same but for names. */
  lemma SessionsCommute(cfg: Config, s: State, e: Step, f: Step)
    requires Reachable(cfg, s) && CanStep(cfg, s, e) && CanStep(cfg, s, f) && !e.Serve? && !f.Serve?
    requires ClientOf(s, e) != ClientOf(s, f)
    ensures CanStep(cfg, Do(cfg, s, e), f) && CanStep(cfg, Do(cfg, s, f), e)
    ensures Alike(cfg, Do(cfg, Do(cfg, s, e), f), Do(cfg, Do(cfg, s, f), e))
  {
    if Sends(s, e) && Sends(s, f) {
      SendersCommute(cfg, s, e, f);
    } else {
      UnrelatedStepsCommute(cfg, s, e, f);
      ReachableOk(cfg, s);
      StepKeeps(cfg, s, e);
      StepKeeps(cfg, Do(cfg, s, e), f);
      AlikeItself(cfg, Do(cfg, Do(cfg, s, e), f));
    }
  }

  // ---------------------------------------------------------------- numbers that are not in use

  /** New names that leave every number alone that is in use anywhere. */
  ghost predicate Spares(r: Names, s: State) {
    && (forall i: nat :: r.id(i) == i)
    && (forall h: nat, x: int :: h < |s.servers| && (x in s.servers[h].fds || x in s.servers[h].fdToPath) ==>
          r.fd(h, x) == x)
  }

  lemma SparedServer(cfg: Config, r: Names, s: State, h: nat)
    requires Proper(r) && Spares(r, s) && h < |s.servers| && TableOk(cfg, s.servers[h])
    ensures SameServer(r, h, s.servers[h], s.servers[h])
  {
    var v := s.servers[h];
    forall x: int
      ensures SameFd(r, h, v, v, x)
    {
      var y := r.fd(h, x);
      if y in v.fds || y in v.fdToPath {
        assert r.fd(h, y) == y;
      }
    }
  }

  lemma SparedClient(cfg: Config, r: Names, s: State, c: nat)
    requires Proper(r) && Spares(r, s) && c < |s.clients| && ClientOk(cfg, s, c)
    ensures SameClient(cfg, r, s.clients[c], s.clients[c])
  {
    var cl := s.clients[c];
    forall fd: int
      ensures SameEntry(cfg, r, cl, cl, fd)
    {
      if fd in cl.redir && fd in cl.fdMap {
        assert OpenFor(cfg, s, Host(cfg, cl.fdMap[fd]), cl.redir[fd], cl.fdMap[fd]);
      }
    }
  }

  lemma SparedMsg(cfg: Config, r: Names, s: State, id: nat)
    requires Proper(r) && Spares(r, s) && ClientsOk(cfg, s) && MsgsOk(cfg, s)
    ensures SameMsg(r, s, s, id)
  {
    if id in s.msgs {
      var m := s.msgs[id];
      assert MsgOk(cfg, s, id, m);
      if m.ReadReq? || m.SeekReq? {
        RequestOpen(cfg, s, id);
      }
    }
  }

  lemma SparedSame(cfg: Config, r: Names, s: State)
    requires SystemOk(cfg, s) && Proper(r) && Spares(r, s)
    ensures Same(cfg, r, s, s)
  {
    forall c | 0 <= c < |s.clients|
      ensures SameClient(cfg, r, s.clients[c], s.clients[c])
    {
      assert ClientOk(cfg, s, c);
      SparedClient(cfg, r, s, c);
    }
    forall h | 0 <= h < |s.servers|
      ensures SameServer(r, h, s.servers[h], s.servers[h])
    {
      assert ServerOk(cfg, h, s.servers[h]);
      SparedServer(cfg, r, s, h);
    }
    forall id: nat
      ensures SameMsg(r, s, s, id)
    {
      SparedMsg(cfg, r, s, id);
    }
  }

  /** It does not matter which unused number open() returns. */
  lemma NumbersDoNotMatter(cfg: Config, s: State, h: nat, x: int, y: int)
    requires Reachable(cfg, s) && x != -1 && y != -1
    requires CanStep(cfg, s, Serve(h, Progress(OpenDo(x)))) && CanStep(cfg, s, Serve(h, Progress(OpenDo(y))))
    ensures Alike(cfg, Do(cfg, s, Serve(h, Progress(OpenDo(x)))), Do(cfg, s, Serve(h, Progress(OpenDo(y)))))
  {
    ReachableOk(cfg, s);
    assert ServerOk(cfg, h, s.servers[h]);
    var r := SwapFds(h, x, y, -1, -1);
    UnusedIsSame(cfg, s, h, x, y, -1, -1);
    SwapFdsTakes(h, x, y, -1, -1);
    RenamedStep(cfg, r, s, s, Serve(h, Progress(OpenDo(x))));
  }

  lemma UnusedIsSpared(cfg: Config, s: State, h: nat, x: int, u: int, y: int, w: int)
    requires SameOutcomes(x, u, y, w) && h < |s.servers| && TableOk(cfg, s.servers[h]) && !Closing(s.servers[h].handler)
    requires x !in s.servers[h].fds && u !in s.servers[h].fds && y !in s.servers[h].fds && w !in s.servers[h].fds
    ensures Spares(SwapFds(h, x, u, y, w), s)
  {
    SwapFdsTakes(h, x, u, y, w);
  }

  /** Exchanging unused numbers changes nothing. */
  lemma UnusedIsSame(cfg: Config, s: State, h: nat, x: int, u: int, y: int, w: int)
    requires SystemOk(cfg, s) && SameOutcomes(x, u, y, w)
    requires h < |s.servers| && TableOk(cfg, s.servers[h]) && !Closing(s.servers[h].handler)
    requires x !in s.servers[h].fds && u !in s.servers[h].fds && y !in s.servers[h].fds && w !in s.servers[h].fds
    ensures Inverse(SwapFds(h, x, u, y, w), SwapFdsBack(h, x, u, y, w))
    ensures Same(cfg, SwapFds(h, x, u, y, w), s, s)
  {
    SwapFdsInverse(h, x, u, y, w);
    UnusedIsSpared(cfg, s, h, x, u, y, w);
    SparedSame(cfg, SwapFds(h, x, u, y, w), s);
  }

  // ---------------------------------------------------------------- whole open handlers

  predicate AsksOpen(s: State, h: nat, id: nat) {
    id in s.msgs && s.msgs[id].OpenReq? && s.msgs[id].host == h
  }

  /** Server `h` has served the open request `id`, and open() returned `sfd`. */
  function OpenServed(s: State, h: nat, id: nat, sfd: int): State
    requires h < |s.servers| && AsksOpen(s, h, id)
  {
    var m := s.msgs[id];
    s.(servers := s.servers[h := OpenedServer(s.servers[h], m.path, sfd)],
       msgs := s.msgs[id := C.OpenResp(m.client, h, m.lfd, sfd)])
  }

  predicate CanOpenAs(cfg: Config, s: State, h: nat, id: nat, sfd: int) {
    && h < |s.servers| && AsksOpen(s, h, id) && s.servers[h].handler.Idle?
    && OpenReturns(cfg, s.servers[h], s.msgs[id].path, sfd)
  }

  /** It is a run of the open handler. */
  lemma OpenHandlerRuns(cfg: Config, s: State, h: nat, id: nat, sfd: int)
    requires CanOpenAs(cfg, s, h, id, sfd)
    ensures Leads(cfg, s, OpenServed(s, h, id, sfd))
  {
    var m, v := s.msgs[id], s.servers[h];
    var a := Serve(h, Progress(RecvOpen(id, m.client, m.lfd, m.path)));
    var b, e := Serve(h, Progress(OpenLookup)), Serve(h, Progress(OpenDo(sfd)));
    Stays(cfg, s);
    ThenStep(cfg, s, s, a);
    var s1 := Do(cfg, s, a);
    assert s1.servers[h] == HandlerApply(cfg, v, a.a.h) && s1.msgs == s.msgs - {id};
    var s2 := if m.path in v.cache then Do(cfg, s1, b) else s1;
    if m.path in v.cache {
      ThenStep(cfg, s, s1, b);
    }
    var target := if m.path in v.cache then v.cache[m.path] else m.path;
    assert s2.servers[h] == v.(handler := OpenAt(id, m.client, m.lfd, m.path, target));
    ThenStep(cfg, s, s2, e);
    OpenServedIs(cfg, s, h, id, sfd, s2, target);
  }

  lemma OpenServedIs(cfg: Config, s: State, h: nat, id: nat, sfd: int, s2: State, target: Path)
    requires CanOpenAs(cfg, s, h, id, sfd)
    requires var v, p := s.servers[h], s.msgs[id].path;
             target == if p in v.cache then v.cache[p] else p
    requires var m := s.msgs[id];
             && s2.clients == s.clients && s2.next == s.next && s2.msgs == s.msgs - {id}
             && s2.servers == s.servers[h := s.servers[h].(handler := OpenAt(id, m.client, m.lfd, m.path, target))]
    ensures CanStep(cfg, s2, Serve(h, Progress(OpenDo(sfd))))
    ensures Do(cfg, s2, Serve(h, Progress(OpenDo(sfd)))) == OpenServed(s, h, id, sfd)
  {
    var t := Do(cfg, s2, Serve(h, Progress(OpenDo(sfd))));
    assert t.msgs == OpenServed(s, h, id, sfd).msgs;
    assert t.servers[h] == OpenedServer(s.servers[h], s.msgs[id].path, sfd);
  }

  lemma RenamedOpened(cfg: Config, r: Names, h: nat, v: Server, w: Server, path: Path, sfd: int)
    requires Proper(r) && SameServer(r, h, v, w)
    ensures SameServer(r, h, OpenedServer(v, path, sfd), OpenedServer(w, path, r.fd(h, sfd)))
  {
    var v', w' := OpenedServer(v, path, sfd), OpenedServer(w, path, r.fd(h, sfd));
    assert sfd == -1 <==> r.fd(h, sfd) == r.fd(h, -1);
    forall x: int
      ensures SameFd(r, h, v', w', x)
    {
      assert SameFd(r, h, v, w, x);
    }
  }

  lemma RenamedOpenServed(cfg: Config, r: Names, s: State, t: State, h: nat, id: nat, sfd: int)
    requires Proper(r) && (forall i: nat :: r.id(i) == i) && Same(cfg, r, s, t)
    requires h < |s.servers| && AsksOpen(s, h, id)
    ensures h < |t.servers| && AsksOpen(t, h, id)
    ensures Same(cfg, r, OpenServed(s, h, id, sfd), OpenServed(t, h, id, r.fd(h, sfd)))
  {
    assert SameMsg(r, s, t, id);
    var m := s.msgs[id];
    assert SameServer(r, h, s.servers[h], t.servers[h]);
    RenamedOpened(cfg, r, h, s.servers[h], t.servers[h], m.path, sfd);
    RenamedPut(r, s, t, id, C.OpenResp(m.client, h, m.lfd, sfd), OpenServed(s, h, id, sfd),
               OpenServed(t, h, id, r.fd(h, sfd)));
  }

  /** The same but for what is recorded of failed opens. */
  predicate SameButFailed(v: Server, w: Server) {
    && w == v.(fdToPath := w.fdToPath)
    && w.fdToPath.Keys == v.fdToPath.Keys
    && forall fd :: fd in v.fdToPath && fd != -1 ==> w.fdToPath[fd] == v.fdToPath[fd]
  }

  lemma OpenedTwice(v: Server, p: Path, u: int, q: Path, w: int)
    requires u == w ==> u == -1
    ensures SameButFailed(OpenedServer(OpenedServer(v, p, u), q, w), OpenedServer(OpenedServer(v, q, w), p, u))
    ensures u != w ==> OpenedServer(OpenedServer(v, p, u), q, w) == OpenedServer(OpenedServer(v, q, w), p, u)
  {
    TwoFds(v.fds, u, if p in v.cache then v.cache[p] else p, w, if q in v.cache then v.cache[q] else q);
    TwoPaths(v.fdToPath, u, p, w, q);
  }

  function Opening(fds: map<int, Ofd>, x: int, target: Path): map<int, Ofd> {
    if x == -1 then fds else fds[x := Ofd(target, 0)]
  }

  lemma TwoFds(fds: map<int, Ofd>, u: int, p: Path, w: int, q: Path)
    requires u == w ==> u == -1
    ensures Opening(Opening(fds, u, p), w, q) == Opening(Opening(fds, w, q), u, p)
  {
  }

  lemma TwoPaths(paths: map<int, Path>, u: int, p: Path, w: int, q: Path)
    requires u == w ==> u == -1
    ensures var a, b := paths[u := p][w := q], paths[w := q][u := p];
            && a.Keys == b.Keys && (forall fd :: fd in a && fd != -1 ==> a[fd] == b[fd])
            && (u != w ==> a == b)
  {
  }

  lemma SameButFailedSame(r: Names, h: nat, v: Server, w: Server, w': Server)
    requires Proper(r) && SameServer(r, h, v, w) && SameButFailed(w, w')
    ensures SameServer(r, h, v, w')
  {
    forall x: int
      ensures SameFd(r, h, v, w', x)
    {
      assert SameFd(r, h, v, w, x);
      assert r.fd(h, x) == -1 ==> r.fd(h, x) == r.fd(h, -1);
    }
  }

  /** With the same numbers, the order of two open handlers only decides which failed open is recorded. */
  lemma OrderOfOpens(cfg: Config, r: Names, s0: State, s: State, h: nat, i: nat, j: nat, u: int, w: int)
    requires Proper(r) && h < |s.servers| && AsksOpen(s, h, i) && AsksOpen(s, h, j) && i != j
    requires u == w ==> u == -1
    requires Same(cfg, r, s0, OpenServed(OpenServed(s, h, i, u), h, j, w))
    ensures Same(cfg, r, s0, OpenServed(OpenServed(s, h, j, w), h, i, u))
  {
    var t, t' := OpenServed(OpenServed(s, h, i, u), h, j, w), OpenServed(OpenServed(s, h, j, w), h, i, u);
    assert t.msgs == t'.msgs;
    OpenedTwice(s.servers[h], s.msgs[i].path, u, s.msgs[j].path, w);
    SameButFailedSame(r, h, s0.servers[h], t.servers[h], t'.servers[h]);
    forall id: nat
      ensures SameMsg(r, s0, t', id)
    {
      assert SameMsg(r, s0, t, id);
    }
    forall g | 0 <= g < |s0.servers|
      ensures SameServer(r, g, s0.servers[g], t'.servers[g])
    {
      assert SameServer(r, g, s0.servers[g], t.servers[g]);
    }
  }

  /** Two open requests at one server can be served in either order, whatever numbers open() returns in each
      order: the states are the same but for names. */
  lemma OpensCommute(cfg: Config, s: State, h: nat, i: nat, x: int, j: nat, y: int, u: int, w: int)
    requires Reachable(cfg, s) && i != j && SameOutcomes(x, u, y, w)
    requires CanOpenAs(cfg, s, h, i, x) && AsksOpen(s, h, j) && CanOpenAs(cfg, OpenServed(s, h, i, x), h, j, y)
    requires CanOpenAs(cfg, s, h, j, w) && CanOpenAs(cfg, OpenServed(s, h, j, w), h, i, u)
    ensures Leads(cfg, s, OpenServed(OpenServed(s, h, i, x), h, j, y))
    ensures Leads(cfg, s, OpenServed(OpenServed(s, h, j, w), h, i, u))
    ensures Alike(cfg, OpenServed(OpenServed(s, h, i, x), h, j, y), OpenServed(OpenServed(s, h, j, w), h, i, u))
  {
    TwoOpensRun(cfg, s, h, i, x, j, y);
    TwoOpensRun(cfg, s, h, j, w, i, u);
    ReachableOk(cfg, s);
    assert ServerOk(cfg, h, s.servers[h]);
    OpensAlike(cfg, s, h, i, x, j, y, u, w);
  }

  lemma TwoOpensRun(cfg: Config, s: State, h: nat, i: nat, x: int, j: nat, y: int)
    requires i != j && CanOpenAs(cfg, s, h, i, x) && AsksOpen(s, h, j)
    requires CanOpenAs(cfg, OpenServed(s, h, i, x), h, j, y)
    ensures Leads(cfg, s, OpenServed(OpenServed(s, h, i, x), h, j, y))
  {
    OpenHandlerRuns(cfg, s, h, i, x);
    OpenHandlerRuns(cfg, OpenServed(s, h, i, x), h, j, y);
    Then(cfg, s, OpenServed(s, h, i, x), OpenServed(OpenServed(s, h, i, x), h, j, y));
  }

  lemma OpensAlike(cfg: Config, s: State, h: nat, i: nat, x: int, j: nat, y: int, u: int, w: int)
    requires SystemOk(cfg, s) && i != j && SameOutcomes(x, u, y, w)
    requires h < |s.servers| && TableOk(cfg, s.servers[h]) && s.servers[h].handler.Idle?
    requires AsksOpen(s, h, i) && AsksOpen(s, h, j)
    requires x !in s.servers[h].fds && y !in s.servers[h].fds && u !in s.servers[h].fds && w !in s.servers[h].fds
    ensures Alike(cfg, OpenServed(OpenServed(s, h, i, x), h, j, y), OpenServed(OpenServed(s, h, j, w), h, i, u))
  {
    var r := SwapFds(h, x, u, y, w);
    UnusedIsSame(cfg, s, h, x, u, y, w);
    SwapFdsTakes(h, x, u, y, w);
    RenamedOpenServed(cfg, r, s, s, h, i, x);
    RenamedOpenServed(cfg, r, OpenServed(s, h, i, x), OpenServed(s, h, i, u), h, j, y);
    OrderOfOpens(cfg, r, OpenServed(OpenServed(s, h, i, x), h, j, y), s, h, i, j, u, w);
  }

  // ---------------------------------------------------------------- whole close handlers

  predicate AsksClose(s: State, h: nat, id: nat) {
    id in s.msgs && s.msgs[id].CloseReq? && s.msgs[id].host == h
  }

  /** Server `h` has served the close request `id`. */
  function CloseServed(s: State, h: nat, id: nat): State
    requires h < |s.servers| && AsksClose(s, h, id)
  {
    s.(servers := s.servers[h := ClosedServer(s.servers[h], s.msgs[id].sfd)], msgs := s.msgs - {id})
  }

  lemma {:induction false} InnerStepsLead(cfg: Config, s: State, h: nat, acts: seq<Act>, w: Server)
    requires h < |s.servers| && Steps(cfg, s.servers[h], acts, w)
    requires forall i :: 0 <= i < |acts| ==> !TakesMessage(acts[i])
    ensures Leads(cfg, s, s.(servers := s.servers[h := w]))
    decreases |acts|
  {
    if acts == [] {
      assert s.(servers := s.servers[h := w]) == s;
      Stays(cfg, s);
    } else {
      var e := Serve(h, acts[0]);
      assert !TakesMessage(acts[0]);
      var s1 := Do(cfg, s, e);
      assert s1.msgs == s.msgs;
      Stays(cfg, s);
      ThenStep(cfg, s, s, e);
      InnerStepsLead(cfg, s1, h, acts[1..], w);
      assert s1.servers[h := w] == s.servers[h := w];
      Then(cfg, s, s1, s.(servers := s.servers[h := w]));
    }
  }

  /** It is a run of the close handler, with the mover finishing its critical section first if it is in it. */
  lemma CloseHandlerRuns(cfg: Config, s: State, h: nat, id: nat)
    requires h < |s.servers| && AsksClose(s, h, id) && s.servers[h].handler.Idle?
    requires s.msgs[id].sfd in s.servers[h].fds && HoldsRight(s.servers[h]) && s.servers[h].mutex != ByHandler
    ensures Leads(cfg, s, CloseServed(s, h, id))
  {
    var v, sfd := s.servers[h], s.msgs[id].sfd;
    var acts := CloseActs(v, id, sfd);
    CloseIsSteps(cfg, v, id, sfd);
    ReleaseIsMoves(v);
    var e := Serve(h, acts[0]);
    assert e == Serve(h, Progress(RecvClose(id, sfd)));
    var s1 := Do(cfg, s, e);
    Stays(cfg, s);
    ThenStep(cfg, s, s, e);
    InnerStepsLead(cfg, s1, h, acts[1..], ClosedServer(v, sfd));
    var t := s1.(servers := s1.servers[h := ClosedServer(v, sfd)]);
    assert t == CloseServed(s, h, id);
    Then(cfg, s, s1, t);
  }

  /** In a reachable state the close handler can run. */
  lemma CloseRuns(cfg: Config, s: State, h: nat, j: nat)
    requires Reachable(cfg, s) && h < |s.servers| && s.servers[h].handler.Idle?
    requires AsksClose(s, h, j) && s.msgs[j].sfd != -1
    ensures Leads(cfg, s, CloseServed(s, h, j)) && Reachable(cfg, CloseServed(s, h, j))
    ensures CloseServed(s, h, j).servers[h].handler.Idle?
  {
    ReachableOk(cfg, s);
    assert ServerOk(cfg, h, s.servers[h]);
    CloseTargets(cfg, s, h);
    CloseFinds(cfg, h, s.servers[h], s.msgs[j].sfd);
    CloseHandlerRuns(cfg, s, h, j);
    ReachableThen(cfg, s, CloseServed(s, h, j));
    ReleaseLeavesTables(s.servers[h]);
  }

  lemma TwoClosesRun(cfg: Config, s: State, h: nat, i: nat, j: nat)
    requires Reachable(cfg, s) && h < |s.servers| && s.servers[h].handler.Idle? && i != j
    requires AsksClose(s, h, i) && AsksClose(s, h, j) && s.msgs[i].sfd != -1 && s.msgs[j].sfd != -1
    ensures Leads(cfg, s, CloseServed(CloseServed(s, h, i), h, j))
    ensures Reachable(cfg, CloseServed(CloseServed(s, h, i), h, j))
  {
    CloseRuns(cfg, s, h, i);
    CloseRuns(cfg, CloseServed(s, h, i), h, j);
    Then(cfg, s, CloseServed(s, h, i), CloseServed(CloseServed(s, h, i), h, j));
  }

  /** What the closing of a descriptor queues. */
  function Queued(v: Server, fd: int): seq<Path> {
    if PathOf(v, fd) in v.cache then [] else [PathOf(v, fd)]
  }

  /** The server with `ps` queued for the mover. */
  function QueueAll(v: Server, ps: seq<Path>): Server {
    if ps == [] then v
    else
      var u := ReleasedServer(v);
      var m := if u.mover == Waiting(Asleep) then Waiting(Signalled) else u.mover;
      u.(mover := m, queue := u.queue + ps, pushed := u.pushed + ps,
         missed := if m.Waiting? then u.missed else u.missed + ps)
  }

  lemma ClosedQueues(v: Server, fd: int)
    ensures ClosedServer(v, fd) == QueueAll(v, Queued(v, fd)).(fds := v.fds - {fd}, fdToPath := v.fdToPath - {fd})
  {
    ReleaseLeavesTables(v);
  }

  lemma ReleaseLeavesTables(v: Server)
    ensures var u := ReleasedServer(v); u.fdToPath == v.fdToPath && u.fds == v.fds && u.cache == v.cache
    ensures ReleasedServer(v).handler == v.handler && ReleasedServer(v).disk == v.disk
  {
    if v.mutex == ByMover && !v.mover.Locked? {
      var u := PopHand(v);
      assert u.fdToPath == v.fdToPath && u.fds == v.fds && u.cache == v.cache;
      assert u.handler == v.handler && u.disk == v.disk;
    }
  }

  lemma QueueTwice(v: Server, ps: seq<Path>, qs: seq<Path>)
    requires v.mutex != ByHandler
    ensures QueueAll(QueueAll(v, ps), qs) == QueueAll(v, ps + qs)
  {
    if ps == [] {
      assert ps + qs == qs;
    } else if qs == [] {
      assert ps + qs == ps;
    } else {
      QueueTwiceBoth(ReleasedServer(v), ps, qs);
    }
  }

  lemma QueueTwiceBoth(u: Server, ps: seq<Path>, qs: seq<Path>)
    requires u.mutex == Free && ps != [] && qs != []
    ensures QueueAll(QueueAll(u, ps), qs) == QueueAll(u, ps + qs)
  {
    assert (u.queue + ps) + qs == u.queue + (ps + qs);
    assert (u.pushed + ps) + qs == u.pushed + (ps + qs);
    assert (u.missed + ps) + qs == u.missed + (ps + qs);
  }

  lemma QueueFrame(v: Server, fds: map<int, Ofd>, fdToPath: map<int, Path>, ps: seq<Path>)
    ensures QueueAll(v.(fds := fds, fdToPath := fdToPath), ps) == QueueAll(v, ps).(fds := fds, fdToPath := fdToPath)
  {
    ReleaseFrame(v, fds, fdToPath);
  }

  lemma ReleaseFrame(v: Server, fds: map<int, Ofd>, fdToPath: map<int, Path>)
    ensures ReleasedServer(v.(fds := fds, fdToPath := fdToPath)) == ReleasedServer(v).(fds := fds, fdToPath := fdToPath)
  {
    if v.mutex == ByMover && !v.mover.Locked? {
      assert PopHand(v.(fds := fds, fdToPath := fdToPath)) == PopHand(v).(fds := fds, fdToPath := fdToPath);
    }
  }

  lemma QueueLeavesTables(v: Server, ps: seq<Path>)
    ensures var u := QueueAll(v, ps); u.fdToPath == v.fdToPath && u.fds == v.fds && u.cache == v.cache
  {
    ReleaseLeavesTables(v);
  }

  /** Two closes, one after the other. */
  lemma ClosedTwice(v: Server, a: int, b: int)
    requires a != b && v.mutex != ByHandler
    ensures ClosedServer(ClosedServer(v, a), b) ==
            QueueAll(v, Queued(v, a) + Queued(v, b)).(fds := v.fds - {a} - {b}, fdToPath := v.fdToPath - {a} - {b})
  {
    var fds, paths := v.fds - {a}, v.fdToPath - {a};
    var u := QueueAll(v, Queued(v, a));
    var v1 := ClosedServer(v, a);
    ClosedQueues(v, a);
    QueueLeavesTables(v, Queued(v, a));
    assert v1 == u.(fds := fds, fdToPath := paths);
    assert Queued(v1, b) == Queued(v, b);
    ClosedQueues(v1, b);
    QueueFrame(u, fds, paths, Queued(v, b));
    QueueTwice(v, Queued(v, a), Queued(v, b));
  }

  /** Where the mover finds two closes in different orders. */
  predicate SameButOrder(v: Server, w: Server, base: seq<Path>, p: seq<Path>, q: seq<Path>) {
    && w == v.(queue := w.queue, pushed := w.pushed, missed := w.missed)
    && v.queue == base + (p + q) && w.queue == base + (q + p)
  }

  lemma QueueOrder(v: Server, p: seq<Path>, q: seq<Path>)
    ensures var base := if p + q == [] then v.queue else ReleasedServer(v).queue;
            SameButOrder(QueueAll(v, p + q), QueueAll(v, q + p), base, p, q)
    ensures QueueAll(v, p + q) == QueueAll(v, q + p) <==> p + q == q + p
  {
    var base := if p + q == [] then v.queue else ReleasedServer(v).queue;
    if p + q == [] {
      assert p == [] && q == [];
      assert v.queue == base + (p + q);
    } else {
      assert (base + (p + q))[|base|..] == p + q;
      assert (base + (q + p))[|base|..] == q + p;
    }
  }

  lemma CloseOperands(cfg: Config, s: State, h: nat, i: nat, j: nat)
    requires SystemOk(cfg, s) && h < |s.servers| && AsksClose(s, h, i) && AsksClose(s, h, j) && i != j
    requires s.msgs[i].sfd != -1 && s.msgs[j].sfd != -1
    ensures s.msgs[i].sfd != s.msgs[j].sfd
    ensures s.msgs[i].sfd in s.servers[h].fds && s.msgs[j].sfd in s.servers[h].fds
  {
    CloseTargets(cfg, s, h);
    assert Holds(cfg, s, InMessage(i), h, s.msgs[i].sfd);
    assert Holds(cfg, s, InMessage(j), h, s.msgs[j].sfd);
  }

  /** Two close requests at one server can be served in either order.  The states differ in nothing but the
      order of the two paths at the end of data_queue (and of its history); they are the same exactly when one
      of the files is cached already or both are the same file. */
  lemma ClosesCommuteIff(cfg: Config, s: State, h: nat, i: nat, j: nat)
    requires Reachable(cfg, s) && h < |s.servers| && s.servers[h].handler.Idle? && i != j
    requires AsksClose(s, h, i) && AsksClose(s, h, j) && s.msgs[i].sfd != -1 && s.msgs[j].sfd != -1
    ensures Leads(cfg, s, CloseServed(CloseServed(s, h, i), h, j))
    ensures Leads(cfg, s, CloseServed(CloseServed(s, h, j), h, i))
    ensures var v := s.servers[h];
            var t, u := CloseServed(CloseServed(s, h, i), h, j), CloseServed(CloseServed(s, h, j), h, i);
            var p, q := Queued(v, s.msgs[i].sfd), Queued(v, s.msgs[j].sfd);
            var base := if p + q == [] then v.queue else ReleasedServer(v).queue;
            && SameButOrder(t.servers[h], u.servers[h], base, p, q)
            && u == t.(servers := t.servers[h := u.servers[h]])
            && (t == u <==> p == [] || q == [] || p == q)
  {
    TwoClosesRun(cfg, s, h, i, j);
    TwoClosesRun(cfg, s, h, j, i);
    ReachableOk(cfg, s);
    CloseOperands(cfg, s, h, i, j);
    assert ServerOk(cfg, h, s.servers[h]);
    ClosedOrder(s.servers[h], s.msgs[i].sfd, s.msgs[j].sfd);
    ClosesDiffer(s, h, i, j);
  }

  lemma ClosedOrder(v: Server, a: int, b: int)
    requires a != b && v.mutex != ByHandler
    ensures var t, u := ClosedServer(ClosedServer(v, a), b), ClosedServer(ClosedServer(v, b), a);
            var p, q := Queued(v, a), Queued(v, b);
            var base := if p + q == [] then v.queue else ReleasedServer(v).queue;
            SameButOrder(t, u, base, p, q) && (t == u <==> p == [] || q == [] || p == q)
  {
    var p, q := Queued(v, a), Queued(v, b);
    ClosedTwice(v, a, b);
    ClosedTwice(v, b, a);
    QueueOrder(v, p, q);
    QueueLeavesTables(v, p + q);
    QueueLeavesTables(v, q + p);
    assert v.fds - {a} - {b} == v.fds - {b} - {a};
    assert v.fdToPath - {a} - {b} == v.fdToPath - {b} - {a};
    SwappedEqual(p, q);
    TableUpdate(QueueAll(v, p + q), QueueAll(v, q + p), v.fds - {a} - {b}, v.fdToPath - {a} - {b});
  }

  lemma ClosesDiffer(s: State, h: nat, i: nat, j: nat)
    requires h < |s.servers| && i != j && AsksClose(s, h, i) && AsksClose(s, h, j)
    ensures var t, u := CloseServed(CloseServed(s, h, i), h, j), CloseServed(CloseServed(s, h, j), h, i);
            && t.servers[h] == ClosedServer(ClosedServer(s.servers[h], s.msgs[i].sfd), s.msgs[j].sfd)
            && u.servers[h] == ClosedServer(ClosedServer(s.servers[h], s.msgs[j].sfd), s.msgs[i].sfd)
            && u == t.(servers := t.servers[h := u.servers[h]])
            && (t == u <==> t.servers[h] == u.servers[h])
  {
    var t, u := CloseServed(CloseServed(s, h, i), h, j), CloseServed(CloseServed(s, h, j), h, i);
    assert s.msgs - {i} - {j} == s.msgs - {j} - {i};
    assert u.servers == t.servers[h := u.servers[h]];
    assert t.servers[h] == u.servers[h] ==> t.servers == u.servers;
  }

  lemma TableUpdate(v: Server, w: Server, fds: map<int, Ofd>, paths: map<int, Path>)
    requires v.fds == w.fds && v.fdToPath == w.fdToPath
    ensures v.(fds := fds, fdToPath := paths) == w.(fds := fds, fdToPath := paths) <==> v == w
  {
  }

  lemma SwappedEqual(p: seq<Path>, q: seq<Path>)
    requires |p| <= 1 && |q| <= 1
    ensures p + q == q + p <==> p == [] || q == [] || p == q
  {
    if |p| == 1 && |q| == 1 {
      assert (p + q)[0] == p[0] && (q + p)[0] == q[0];
    }
  }

  // ---------------------------------------------------------------- handlers of different kinds

  /** An open and a close at one server commute. */
  lemma OpenCloseCommute(cfg: Config, s: State, h: nat, i: nat, x: int, j: nat)
    requires Reachable(cfg, s) && CanOpenAs(cfg, s, h, i, x) && AsksClose(s, h, j) && s.msgs[j].sfd != -1
    ensures CanOpenAs(cfg, CloseServed(s, h, j), h, i, x)
    ensures AsksClose(OpenServed(s, h, i, x), h, j)
    ensures OpenServed(CloseServed(s, h, j), h, i, x) == CloseServed(OpenServed(s, h, i, x), h, j)
    ensures Leads(cfg, s, CloseServed(s, h, j))
    ensures Leads(cfg, CloseServed(s, h, j), OpenServed(CloseServed(s, h, j), h, i, x))
    ensures Leads(cfg, s, OpenServed(s, h, i, x))
    ensures Leads(cfg, OpenServed(s, h, i, x), CloseServed(OpenServed(s, h, i, x), h, j))
  {
    OpenCloseEqual(cfg, s, h, i, x, j);
    CloseRuns(cfg, s, h, j);
    OpenHandlerRuns(cfg, CloseServed(s, h, j), h, i, x);
    OpenHandlerRuns(cfg, s, h, i, x);
    ReachableThen(cfg, s, OpenServed(s, h, i, x));
    CloseRuns(cfg, OpenServed(s, h, i, x), h, j);
  }

  lemma OpenCloseEqual(cfg: Config, s: State, h: nat, i: nat, x: int, j: nat)
    requires Reachable(cfg, s) && CanOpenAs(cfg, s, h, i, x) && AsksClose(s, h, j) && s.msgs[j].sfd != -1
    ensures CanOpenAs(cfg, CloseServed(s, h, j), h, i, x)
    ensures AsksClose(OpenServed(s, h, i, x), h, j)
    ensures OpenServed(CloseServed(s, h, j), h, i, x) == CloseServed(OpenServed(s, h, i, x), h, j)
  {
    var v, p, a := s.servers[h], s.msgs[i].path, s.msgs[j].sfd;
    ClosedIsOpen(cfg, s, h, j);
    OpenedClosed(v, p, x, a);
    CloseLeaves(cfg, v, a, p, x);
    OpenCloseStates(s, h, i, x, j);
  }

  lemma ClosedIsOpen(cfg: Config, s: State, h: nat, j: nat)
    requires Reachable(cfg, s) && h < |s.servers| && AsksClose(s, h, j) && s.msgs[j].sfd != -1
    ensures s.msgs[j].sfd in s.servers[h].fds
  {
    ReachableOk(cfg, s);
    CloseTargets(cfg, s, h);
  }

  lemma OpenCloseStates(s: State, h: nat, i: nat, x: int, j: nat)
    requires h < |s.servers| && AsksOpen(s, h, i) && AsksClose(s, h, j)
    requires OpenedServer(ClosedServer(s.servers[h], s.msgs[j].sfd), s.msgs[i].path, x)
          == ClosedServer(OpenedServer(s.servers[h], s.msgs[i].path, x), s.msgs[j].sfd)
    ensures AsksOpen(CloseServed(s, h, j), h, i) && AsksClose(OpenServed(s, h, i, x), h, j)
    ensures OpenServed(CloseServed(s, h, j), h, i, x) == CloseServed(OpenServed(s, h, i, x), h, j)
  {
    var m := C.OpenResp(s.msgs[i].client, h, s.msgs[i].lfd, x);
    assert (s.msgs - {j})[i := m] == s.msgs[i := m] - {j};
    var t, u := OpenServed(CloseServed(s, h, j), h, i, x), CloseServed(OpenServed(s, h, i, x), h, j);
    assert t.servers[h] == u.servers[h];
    assert t.servers == s.servers[h := t.servers[h]] && u.servers == s.servers[h := u.servers[h]];
  }

  /** A close takes nothing from an open. */
  lemma CloseLeaves(cfg: Config, v: Server, a: int, p: Path, x: int)
    requires v.handler.Idle? && OpenReturns(cfg, v, p, x)
    ensures ClosedServer(v, a).handler.Idle? && OpenReturns(cfg, ClosedServer(v, a), p, x)
  {
    ReleaseLeavesTables(v);
  }

  lemma OpenedClosed(v: Server, p: Path, x: int, a: int)
    requires x != a
    ensures OpenedServer(ClosedServer(v, a), p, x) == ClosedServer(OpenedServer(v, p, x), a)
  {
    OpenedThenClosed(v, p, x, a);
    var c := ClosedServer(v, a);
    ClosedQueues(v, a);
    QueueLeavesTables(v, Queued(v, a));
    OpenedTables(c, p, x);
    OpenedTables(v, p, x);
    assert (v.fdToPath - {a})[x := p] == v.fdToPath[x := p] - {a};
    OpenedFds(v, p, x, a);
  }

  lemma OpenedThenClosed(v: Server, p: Path, x: int, a: int)
    requires x != a
    ensures ClosedServer(OpenedServer(v, p, x), a) ==
            QueueAll(v, Queued(v, a)).(fds := OpenedServer(v, p, x).fds - {a}, fdToPath := v.fdToPath[x := p] - {a})
  {
    var u := OpenedServer(v, p, x);
    OpenedTables(v, p, x);
    assert Queued(u, a) == Queued(v, a);
    ClosedQueues(u, a);
    QueueFrame(v, u.fds, u.fdToPath, Queued(v, a));
  }

  /** An open changes two tables. */
  lemma OpenedTables(v: Server, p: Path, x: int)
    ensures var u := OpenedServer(v, p, x);
            && u == v.(fds := u.fds, fdToPath := v.fdToPath[x := p])
            && u.fds == if x == -1 then v.fds else v.fds[x := Ofd(if p in v.cache then v.cache[p] else p, 0)]
  {
  }

  lemma OpenedFds(v: Server, p: Path, x: int, a: int)
    requires x != a
    ensures OpenedServer(v.(fds := v.fds - {a}), p, x).fds == OpenedServer(v, p, x).fds - {a}
  {
  }

  /** A read or seek, and a whole open, of different clients at one server commute. */
  lemma OperationOpenCommute(cfg: Config, s: State, h: nat, a: HandlerAct, i: nat, x: int)
    requires Reachable(cfg, s) && (a.RecvRead? || a.RecvSeek?) && CanStep(cfg, s, Serve(h, Progress(a)))
    requires CanOpenAs(cfg, s, h, i, x)
    ensures CanStep(cfg, OpenServed(s, h, i, x), Serve(h, Progress(a)))
    ensures CanOpenAs(cfg, Do(cfg, s, Serve(h, Progress(a))), h, i, x)
    ensures Do(cfg, OpenServed(s, h, i, x), Serve(h, Progress(a))) ==
            OpenServed(Do(cfg, s, Serve(h, Progress(a))), h, i, x)
  {
    ReachableOk(cfg, s);
    RequestOperates(cfg, s, h, a);
    OperationOpened(cfg, h, s.servers[h], a, s.msgs[i].path, x);
    OperationOpenStates(cfg, s, h, a, i, x);
    StillOpens(cfg, s, h, a, i, x);
  }

  lemma StillOpens(cfg: Config, s: State, h: nat, a: HandlerAct, i: nat, x: int)
    requires CanStep(cfg, s, Serve(h, Progress(a))) && CanOpenAs(cfg, s, h, i, x)
    requires AsksOpen(Do(cfg, s, Serve(h, Progress(a))), h, i)
    requires Do(cfg, s, Serve(h, Progress(a))).msgs[i] == s.msgs[i]
    requires OpenReturns(cfg, HandlerApply(cfg, s.servers[h], a), s.msgs[i].path, x)
    requires HandlerApply(cfg, s.servers[h], a).handler == s.servers[h].handler
    ensures CanOpenAs(cfg, Do(cfg, s, Serve(h, Progress(a))), h, i, x)
  {
  }

  /** The same on the whole system. */
  lemma OperationOpenStates(cfg: Config, s: State, h: nat, a: HandlerAct, i: nat, x: int)
    requires CanStep(cfg, s, Serve(h, Progress(a))) && (a.RecvRead? || a.RecvSeek?)
    requires AsksOpen(s, h, i)
    requires var v, p := s.servers[h], s.msgs[i].path;
             && HandlerEnabled(cfg, OpenedServer(v, p, x), a)
             && HandlerApply(cfg, OpenedServer(v, p, x), a) == OpenedServer(HandlerApply(cfg, v, a), p, x)
             && Reply(cfg, h, OpenedServer(v, p, x), Progress(a)) == Reply(cfg, h, v, Progress(a))
    ensures CanStep(cfg, OpenServed(s, h, i, x), Serve(h, Progress(a)))
    ensures AsksOpen(Do(cfg, s, Serve(h, Progress(a))), h, i)
    ensures Do(cfg, s, Serve(h, Progress(a))).msgs[i] == s.msgs[i]
    ensures Do(cfg, OpenServed(s, h, i, x), Serve(h, Progress(a))) ==
            OpenServed(Do(cfg, s, Serve(h, Progress(a))), h, i, x)
  {
    var v, p := s.servers[h], s.msgs[i].path;
    PoolDoes(cfg, h, v, Progress(a), s.msgs);
    PoolDoes(cfg, h, OpenedServer(v, p, x), Progress(a), OpenServed(s, h, i, x).msgs);
    PutsCommute(s.msgs, i, C.OpenResp(s.msgs[i].client, h, s.msgs[i].lfd, x), Reply(cfg, h, v, Progress(a)));
  }

  lemma PutsCommute(msgs: map<nat, C.Msg>, i: nat, m: C.Msg, p: map<nat, C.Msg>)
    requires i !in p
    ensures msgs[i := m] + p - {} == (msgs + p - {})[i := m]
  {
  }

  lemma OperationOpened(cfg: Config, h: nat, v: Server, a: HandlerAct, p: Path, x: int)
    requires Operation(v, a) && HandlerEnabled(cfg, v, a) && OpenReturns(cfg, v, p, x)
    ensures HandlerEnabled(cfg, OpenedServer(v, p, x), a)
    ensures HandlerApply(cfg, OpenedServer(v, p, x), a) == OpenedServer(HandlerApply(cfg, v, a), p, x)
    ensures Reply(cfg, h, OpenedServer(v, p, x), Progress(a)) == Reply(cfg, h, v, Progress(a))
    ensures OpenReturns(cfg, HandlerApply(cfg, v, a), p, x) && HandlerApply(cfg, v, a).handler == v.handler
  {
    var u := OpenedServer(v, p, x);
    OpenedTables(v, p, x);
    OnlyMoves(cfg, v, a);
    OpenedTables(HandlerApply(cfg, v, a), p, x);
    OperationElsewhere(cfg, h, v, a, u);
    OnlyMoves(cfg, u, a);
    MovedOpened(cfg, v, a, p, x);
  }

  lemma MovedOpened(cfg: Config, v: Server, a: HandlerAct, p: Path, x: int)
    requires Operation(v, a) && HandlerEnabled(cfg, v, a) && OpenReturns(cfg, v, p, x)
    requires Operation(OpenedServer(v, p, x), a) && HandlerEnabled(cfg, OpenedServer(v, p, x), a)
    ensures Moved(cfg, OpenedServer(v, p, x), a) == OpenedServer(v.(fds := Moved(cfg, v, a)), p, x).fds
  {
  }

  /** An operation looks at its own descriptor and the bytes behind it. */
  lemma OperationElsewhere(cfg: Config, h: nat, v: Server, a: HandlerAct, w: Server)
    requires Operation(v, a) && HandlerEnabled(cfg, v, a)
    requires w.handler == v.handler && w.disk == v.disk && a.sfd in w.fdToPath && -1 !in w.fds
    requires a.sfd in v.fds <==> a.sfd in w.fds
    requires a.sfd in v.fds ==> w.fds[a.sfd] == v.fds[a.sfd]
    ensures Operation(w, a) && HandlerEnabled(cfg, w, a)
    ensures Reply(cfg, h, w, Progress(a)) == Reply(cfg, h, v, Progress(a))
    ensures a.sfd in v.fds ==> Moved(cfg, w, a) == w.fds[a.sfd := Moved(cfg, v, a)[a.sfd]]
    ensures a.sfd !in v.fds ==> Moved(cfg, w, a) == w.fds
  {
  }

  /** A read or seek, and a whole close, of different descriptors at one server commute. */
  lemma OperationCloseCommute(cfg: Config, s: State, h: nat, a: HandlerAct, j: nat)
    requires Reachable(cfg, s) && (a.RecvRead? || a.RecvSeek?) && CanStep(cfg, s, Serve(h, Progress(a)))
    requires AsksClose(s, h, j) && s.msgs[j].sfd != -1
    ensures CanStep(cfg, CloseServed(s, h, j), Serve(h, Progress(a)))
    ensures AsksClose(Do(cfg, s, Serve(h, Progress(a))), h, j)
    ensures Do(cfg, CloseServed(s, h, j), Serve(h, Progress(a))) == CloseServed(Do(cfg, s, Serve(h, Progress(a))), h, j)
    ensures Leads(cfg, s, CloseServed(s, h, j))
    ensures Leads(cfg, Do(cfg, s, Serve(h, Progress(a))), CloseServed(Do(cfg, s, Serve(h, Progress(a))), h, j))
  {
    var t := Do(cfg, s, Serve(h, Progress(a)));
    OperationCloseEqual(cfg, s, h, a, j);
    CloseRuns(cfg, s, h, j);
    ReachableStep(cfg, s, Serve(h, Progress(a)));
    StaysIdle(cfg, s.servers[h], Progress(a));
    CloseRuns(cfg, t, h, j);
  }

  lemma OperationCloseEqual(cfg: Config, s: State, h: nat, a: HandlerAct, j: nat)
    requires Reachable(cfg, s) && (a.RecvRead? || a.RecvSeek?) && CanStep(cfg, s, Serve(h, Progress(a)))
    requires AsksClose(s, h, j) && s.msgs[j].sfd != -1
    ensures CanStep(cfg, CloseServed(s, h, j), Serve(h, Progress(a)))
    ensures AsksClose(Do(cfg, s, Serve(h, Progress(a))), h, j) && Do(cfg, s, Serve(h, Progress(a))).msgs[j] == s.msgs[j]
    ensures Do(cfg, CloseServed(s, h, j), Serve(h, Progress(a))) == CloseServed(Do(cfg, s, Serve(h, Progress(a))), h, j)
  {
    ReachableOk(cfg, s);
    RequestOperates(cfg, s, h, a);
    var v, b := s.servers[h], s.msgs[j].sfd;
    if a.sfd != -1 {
      RequestHolds(cfg, s, a.id, j);
    }
    OperationClosed(cfg, h, v, a, b);
    OperationCloseStates(cfg, s, h, a, j);
  }

  lemma OperationCloseStates(cfg: Config, s: State, h: nat, a: HandlerAct, j: nat)
    requires CanStep(cfg, s, Serve(h, Progress(a))) && (a.RecvRead? || a.RecvSeek?) && AsksClose(s, h, j)
    requires var v, b := s.servers[h], s.msgs[j].sfd;
             && HandlerEnabled(cfg, ClosedServer(v, b), a)
             && HandlerApply(cfg, ClosedServer(v, b), a) == ClosedServer(HandlerApply(cfg, v, a), b)
             && Reply(cfg, h, ClosedServer(v, b), Progress(a)) == Reply(cfg, h, v, Progress(a))
    ensures CanStep(cfg, CloseServed(s, h, j), Serve(h, Progress(a)))
    ensures AsksClose(Do(cfg, s, Serve(h, Progress(a))), h, j)
    ensures Do(cfg, CloseServed(s, h, j), Serve(h, Progress(a))) == CloseServed(Do(cfg, s, Serve(h, Progress(a))), h, j)
  {
    var v, b, e := s.servers[h], s.msgs[j].sfd, Serve(h, Progress(a));
    OperationPools(cfg, h, v, ClosedServer(v, b), a, s.msgs, j);
    assert Do(cfg, s, e).servers == s.servers[h := HandlerApply(cfg, v, a)];
    assert CloseServed(s, h, j).servers == s.servers[h := ClosedServer(v, b)];
  }

  lemma OperationPools(cfg: Config, h: nat, v: Server, w: Server, a: HandlerAct, msgs: map<nat, C.Msg>, j: nat)
    requires (a.RecvRead? || a.RecvSeek?) && a.id != j && HandlerEnabled(cfg, v, a) && HandlerEnabled(cfg, w, a)
    requires Reply(cfg, h, w, Progress(a)) == Reply(cfg, h, v, Progress(a))
    ensures Served(cfg, h, w, Progress(a), msgs - {j}) == Served(cfg, h, v, Progress(a), msgs) - {j}
  {
    PoolDoes(cfg, h, v, Progress(a), msgs);
    PoolDoes(cfg, h, w, Progress(a), msgs - {j});
    DropsCommute(msgs, j, Reply(cfg, h, v, Progress(a)));
  }

  lemma DropsCommute(msgs: map<nat, C.Msg>, j: nat, p: map<nat, C.Msg>)
    requires j !in p
    ensures msgs - {j} + p - {} == msgs + p - {} - {j}
  {
  }

  lemma OperationClosed(cfg: Config, h: nat, v: Server, a: HandlerAct, b: int)
    requires Operation(v, a) && HandlerEnabled(cfg, v, a) && a.sfd != b
    ensures HandlerEnabled(cfg, ClosedServer(v, b), a)
    ensures HandlerApply(cfg, ClosedServer(v, b), a) == ClosedServer(HandlerApply(cfg, v, a), b)
    ensures Reply(cfg, h, ClosedServer(v, b), Progress(a)) == Reply(cfg, h, v, Progress(a))
  {
    var u, w, fds := ClosedServer(v, b), HandlerApply(cfg, v, a), Moved(cfg, v, a);
    OnlyMoves(cfg, v, a);
    ClosedQueues(v, b);
    ClosedQueues(w, b);
    QueueLeavesTables(v, Queued(v, b));
    QueueFrame(v, fds, v.fdToPath, Queued(v, b));
    assert w == v.(fds := fds, fdToPath := v.fdToPath) && Queued(w, b) == Queued(v, b);
    ClosedLeavesDisk(v, b);
    OperationElsewhere(cfg, h, v, a, u);
    OnlyMoves(cfg, u, a);
    assert Moved(cfg, u, a) == fds - {b};
  }

  lemma ClosedLeavesDisk(v: Server, b: int)
    ensures ClosedServer(v, b).disk == v.disk && ClosedServer(v, b).handler == v.handler
  {
    ReleaseLeavesTables(v);
  }

  // ---------------------------------------------------------------- clients and whole handlers

  /** Any step of a client, a bulk callback included, and a whole open handler that serves another request. */
  lemma ClientOpenCommute(cfg: Config, s: State, e: Step, h: nat, i: nat, x: int)
    requires Reachable(cfg, s) && CanStep(cfg, s, e) && !e.Serve? && CanOpenAs(cfg, s, h, i, x)
    ensures CanStep(cfg, OpenServed(s, h, i, x), e) && CanOpenAs(cfg, Do(cfg, s, e), h, i, x)
    ensures Do(cfg, OpenServed(s, h, i, x), e) == OpenServed(Do(cfg, s, e), h, i, x)
    ensures Leads(cfg, s, OpenServed(s, h, i, x)) && Leads(cfg, Do(cfg, s, e), OpenServed(Do(cfg, s, e), h, i, x))
  {
    ReachableOk(cfg, s);
    ClientOpenEqual(cfg, s, e, h, i, x);
    OpenHandlerRuns(cfg, s, h, i, x);
    OpenHandlerRuns(cfg, Do(cfg, s, e), h, i, x);
  }

  lemma ClientOpenEqual(cfg: Config, s: State, e: Step, h: nat, i: nat, x: int)
    requires MsgsOk(cfg, s) && CanStep(cfg, s, e) && !e.Serve? && CanOpenAs(cfg, s, h, i, x)
    ensures CanStep(cfg, OpenServed(s, h, i, x), e) && CanOpenAs(cfg, Do(cfg, s, e), h, i, x)
    ensures Do(cfg, OpenServed(s, h, i, x), e) == OpenServed(Do(cfg, s, e), h, i, x)
  {
    var t, y := OpenServed(s, h, i, x), ClientEffect(cfg, s, e);
    HandlesInPool(cfg, s, e);
    ClientDoes(cfg, s, e);
    ClientFrame(cfg, s, t, e);
    ClientDoes(cfg, t, e);
    assert i !in y.put && i !in y.drop;
    PutOutside(s.msgs, i, t.msgs[i], y.put, y.drop);
    OverlayNothing(s.servers);
    OverlayNothing(t.servers);
  }

  lemma OverlayNothing(xs: seq<Server>)
    ensures Overlay(xs, map[]) == xs
  {
  }

  lemma PutOutside(msgs: map<nat, C.Msg>, i: nat, m: C.Msg, p: map<nat, C.Msg>, d: set<nat>)
    requires i !in p && i !in d
    ensures msgs[i := m] + p - d == (msgs + p - d)[i := m]
  {
  }

  lemma DropOutside(msgs: map<nat, C.Msg>, j: nat, p: map<nat, C.Msg>, d: set<nat>)
    requires j !in p
    ensures msgs - {j} + p - d == msgs + p - d - {j}
  {
  }

  /** Any step of a client, a bulk callback included, and a whole close handler. */
  lemma ClientCloseCommute(cfg: Config, s: State, e: Step, h: nat, j: nat)
    requires Reachable(cfg, s) && CanStep(cfg, s, e) && !e.Serve?
    requires h < |s.servers| && s.servers[h].handler.Idle? && AsksClose(s, h, j) && s.msgs[j].sfd != -1
    ensures CanStep(cfg, CloseServed(s, h, j), e) && AsksClose(Do(cfg, s, e), h, j)
    ensures Do(cfg, CloseServed(s, h, j), e) == CloseServed(Do(cfg, s, e), h, j)
    ensures Leads(cfg, s, CloseServed(s, h, j)) && Leads(cfg, Do(cfg, s, e), CloseServed(Do(cfg, s, e), h, j))
  {
    CloseRuns(cfg, s, h, j);
    ClientCloseEqual(cfg, s, e, h, j);
    ReachableStep(cfg, s, e);
    CloseRuns(cfg, Do(cfg, s, e), h, j);
  }

  lemma ClientCloseEqual(cfg: Config, s: State, e: Step, h: nat, j: nat)
    requires Reachable(cfg, s) && CanStep(cfg, s, e) && !e.Serve? && h < |s.servers| && AsksClose(s, h, j)
    requires CloseServed(s, h, j).servers[h].handler.Idle?
    ensures CanStep(cfg, CloseServed(s, h, j), e)
    ensures AsksClose(Do(cfg, s, e), h, j) && Do(cfg, s, e).msgs[j] == s.msgs[j]
    ensures Do(cfg, s, e).servers == s.servers
    ensures Do(cfg, CloseServed(s, h, j), e) == CloseServed(Do(cfg, s, e), h, j)
  {
    ReachableOk(cfg, s);
    ClientElsewhere(cfg, s, e, h, j, CloseServed(s, h, j).servers[h], CloseServed(s, h, j));
  }

  /** A step of a client, when a server is at something else and a close request is gone. */
  lemma ClientElsewhere(cfg: Config, s: State, e: Step, h: nat, j: nat, w: Server, t: State)
    requires MsgsOk(cfg, s) && CanStep(cfg, s, e) && !e.Serve? && h < |s.servers| && AsksClose(s, h, j)
    requires w.handler.Idle? && t == s.(servers := s.servers[h := w], msgs := s.msgs - {j})
    ensures CanStep(cfg, t, e)
    ensures var u := Do(cfg, s, e);
            && AsksClose(u, h, j) && u.msgs[j] == s.msgs[j] && u.servers == s.servers
            && Do(cfg, t, e) == u.(servers := u.servers[h := w], msgs := u.msgs - {j})
  {
    var y := ClientEffect(cfg, s, e);
    HandlesInPool(cfg, s, e);
    ClientDoes(cfg, s, e);
    ClientFrame(cfg, s, t, e);
    ClientDoes(cfg, t, e);
    assert j !in y.put && j !in y.drop;
    DropOutside(s.msgs, j, y.put, y.drop);
    OverlayNothing(s.servers);
    OverlayNothing(t.servers);
  }
}
