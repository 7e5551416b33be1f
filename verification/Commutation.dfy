/** Which steps commute: either order is possible and leads to the same state. */
module Commutation {
  import opened Posix
  import opened Session
  import opened CacheServer
  import opened ServerInvariant
  import opened CacheSystem
  import opened SystemInvariant
  import C = CacheClient

  /** Both orders are possible and lead to the same state. */
  predicate Commute(cfg: Config, s: State, e: Step, f: Step)
    requires CanStep(cfg, s, e) && CanStep(cfg, s, f)
  {
    && CanStep(cfg, Do(cfg, s, e), f)
    && CanStep(cfg, Do(cfg, s, f), e)
    && Do(cfg, Do(cfg, s, e), f) == Do(cfg, Do(cfg, s, f), e)
  }

  // ---------------------------------------------------------------- effects

  /** What a step changes: clients, servers, and messages put into and taken out of the pool. */
  datatype Effect = Effect(
    clients: map<nat, C.Client>,
    servers: map<nat, Server>,
    put: map<nat, C.Msg>,
    drop: set<nat>,
    sent: nat)

  function Overlay<T>(xs: seq<T>, m: map<nat, T>): (ys: seq<T>)
    ensures |ys| == |xs| && forall i :: 0 <= i < |xs| ==> ys[i] == if i in m then m[i] else xs[i]
  {
    seq(|xs|, i requires 0 <= i < |xs| => if i in m then m[i] else xs[i])
  }

  function With(s: State, x: Effect): State {
    State(Overlay(s.clients, x.clients), Overlay(s.servers, x.servers), s.msgs + x.put - x.drop, s.next + x.sent)
  }

  predicate Disjoint(x: Effect, y: Effect) {
    && x.clients.Keys !! y.clients.Keys && x.servers.Keys !! y.servers.Keys
    && x.put.Keys !! y.put.Keys && x.put.Keys !! y.drop && x.drop !! y.put.Keys
  }

  lemma OverlaysCommute<T>(xs: seq<T>, m: map<nat, T>, n: map<nat, T>)
    requires m.Keys !! n.Keys
    ensures Overlay(Overlay(xs, m), n) == Overlay(Overlay(xs, n), m)
  {
  }

  lemma PoolsCommute(msgs: map<nat, C.Msg>, p: map<nat, C.Msg>, d: set<nat>, q: map<nat, C.Msg>, e: set<nat>)
    requires p.Keys !! q.Keys && p.Keys !! e && d !! q.Keys
    ensures msgs + p - d + q - e == msgs + q - e + p - d
  {
  }

  lemma EffectsCommute(s: State, x: Effect, y: Effect)
    requires Disjoint(x, y)
    ensures With(With(s, x), y) == With(With(s, y), x)
  {
    OverlaysCommute(s.clients, x.clients, y.clients);
    OverlaysCommute(s.servers, x.servers, y.servers);
    PoolsCommute(s.msgs, x.put, x.drop, y.put, y.drop);
  }

  /** The client a step belongs to. */
  function ClientOf(s: State, e: Step): nat
    requires !e.Serve?
  {
    match e
    case AppOpen(c, _, _) => c
    case AppOpenOther(c, _) => c
    case AppCall(c, _, _) => c
    case AppClose(c, _) => c
    case AppReturn(c, _) => c
    case Deliver(id) => if id in s.msgs && !s.msgs[id].CloseReq? then s.msgs[id].client else 0
    case BulkDone(id) => if id in s.msgs && !s.msgs[id].CloseReq? then s.msgs[id].client else 0
  }

  /** The step sends a request, under the next RPC handle. */
  predicate Sends(s: State, e: Step) {
    e.AppOpen? || e.AppCall? || (e.AppClose? && e.c < |s.clients| && e.fd in s.clients[e.c].fdMap)
  }

  function SentMsg(cfg: Config, s: State, e: Step): C.Msg
    requires CanStep(cfg, s, e) && Sends(s, e)
  {
    match e
    case AppOpen(c, fd, path) => C.OpenReq(c, Host(cfg, path), fd, path)
    case AppCall(c, fd, call) => C.Request(s.clients[c], c, Host(cfg, s.clients[c].fdMap[fd]), fd, call)
    case AppClose(c, fd) => C.CloseReq(Host(cfg, s.clients[c].fdMap[fd]), C.Redir(s.clients[c], fd))
  }

  /** The client after a step that belongs to it, if the next handle is `id`. */
  function ClientAfter(cfg: Config, s: State, e: Step, id: nat): C.Client
    requires CanStep(cfg, s, e) && !e.Serve?
  {
    var cl := s.clients[ClientOf(s, e)];
    match e
    case AppOpen(_, fd, path) => C.StartOpen(cl, fd, path, id)
    case AppOpenOther(_, fd) => cl.(local := cl.local + {fd})
    case AppCall(_, fd, call) => C.StartCall(cl, fd, call, id)
    case AppClose(_, fd) => if fd in cl.fdMap then C.Forget(cl, fd) else cl.(local := cl.local - {fd})
    case AppReturn(_, _) => C.Leave(cl)
    case Deliver(j) =>
      var m := s.msgs[j];
      if m.OpenResp? then C.OnOpenResp(cl, m.lfd, m.sfd) else C.OnAnswer(cl, m.ret)
    case BulkDone(j) => C.OnBulk(cl, s.msgs[j].data)
  }

  function ClientEffect(cfg: Config, s: State, e: Step): Effect
    requires CanStep(cfg, s, e) && !e.Serve?
  {
    var clients := map[ClientOf(s, e) := ClientAfter(cfg, s, e, s.next)];
    if Sends(s, e) then Effect(clients, map[], map[s.next := SentMsg(cfg, s, e)], {}, 1)
    else if e.Deliver? then Effect(clients, map[], map[], {e.id}, 0)
    else if e.BulkDone? then
      var m := s.msgs[e.id];
      Effect(clients, map[], map[e.id := C.ReadResp(m.client, m.host, ToInt32(|m.data|))], {}, 0)
    else Effect(clients, map[], map[], {}, 0)
  }

  lemma ClientDoes(cfg: Config, s: State, e: Step)
    requires CanStep(cfg, s, e) && !e.Serve?
    ensures Do(cfg, s, e) == With(s, ClientEffect(cfg, s, e))
  {
    var x := ClientEffect(cfg, s, e);
    assert Overlay(s.clients, x.clients) == s.clients[ClientOf(s, e) := ClientAfter(cfg, s, e, s.next)];
    assert Overlay(s.servers, x.servers) == s.servers;
    if Sends(s, e) {
      assert s.msgs + x.put - {} == s.msgs[s.next := x.put[s.next]];
    } else if e.Deliver? {
      assert s.msgs + map[] - {e.id} == s.msgs - {e.id};
    } else if e.BulkDone? {
      assert s.msgs + x.put - {} == s.msgs[e.id := x.put[e.id]];
    } else {
      assert s.msgs + map[] - {} == s.msgs;
    }
  }

  /** A step of a client looks at the client, at its message, and at the next handle if it sends. */
  lemma ClientFrame(cfg: Config, s: State, t: State, e: Step)
    requires CanStep(cfg, s, e) && !e.Serve? && |t.clients| == |s.clients|
    requires t.clients[ClientOf(s, e)] == s.clients[ClientOf(s, e)]
    requires Sends(s, e) ==> t.next == s.next
    requires e.Deliver? || e.BulkDone? ==> e.id in t.msgs && t.msgs[e.id] == s.msgs[e.id]
    requires e.BulkDone? ==> s.msgs[e.id].host < |t.servers| && t.servers[s.msgs[e.id].host].handler.Idle?
    ensures CanStep(cfg, t, e) && ClientOf(t, e) == ClientOf(s, e)
    ensures ClientEffect(cfg, t, e) == ClientEffect(cfg, s, e)
  {
  }

  /** The RPC handle a server step takes from the pool or answers. */
  function HandleOf(v: Server, a: Act): set<nat> {
    match a
    case Progress(RecvOpen(id, _, _, _)) => {id}
    case Progress(RecvRead(id, _, _, _, _, _)) => {id}
    case Progress(RecvSeek(id, _, _, _, _)) => {id}
    case Progress(RecvClose(id, _)) => {id}
    case Progress(OpenDo(_)) => if v.handler.OpenAt? then {v.handler.id} else {}
    case _ => {}
  }

  function Reply(cfg: Config, h: nat, v: Server, a: Act): map<nat, C.Msg>
    requires Enabled(cfg, v, a)
  {
    match a
    case Progress(OpenDo(sfd)) => map[v.handler.id := C.OpenResp(v.handler.client, h, v.handler.lfd, sfd)]
    case Progress(RecvRead(id, c, sfd, count, offset, n)) =>
      map[id := C.BulkPush(c, h, ReadData(cfg, v, sfd, count, offset, n))]
    case Progress(RecvSeek(id, c, sfd, offset, whence)) =>
      map[id := C.SeekResp(c, h, SeekAnswer(cfg, v, sfd, offset, whence))]
    case _ => map[]
  }

  function Taken(a: Act): set<nat> {
    match a
    case Progress(RecvOpen(id, _, _, _)) => {id}
    case Progress(RecvClose(id, _)) => {id}
    case _ => {}
  }

  function ServeEffect(cfg: Config, s: State, h: nat, a: Act): Effect
    requires CanStep(cfg, s, Serve(h, a))
  {
    Effect(map[], map[h := Apply(cfg, s.servers[h], a)], Reply(cfg, h, s.servers[h], a), Taken(a), 0)
  }

  lemma PoolDoes(cfg: Config, h: nat, v: Server, a: Act, msgs: map<nat, C.Msg>)
    requires Enabled(cfg, v, a)
    ensures Served(cfg, h, v, a, msgs) == msgs + Reply(cfg, h, v, a) - Taken(a)
  {
    NothingPut(msgs);
    match a
    case Progress(RecvOpen(id, _, _, _)) =>
    case Progress(RecvClose(id, _)) =>
    case Progress(OpenDo(_)) => OnePut(msgs, v.handler.id, Reply(cfg, h, v, a)[v.handler.id]);
    case Progress(RecvRead(id, _, _, _, _, _)) => OnePut(msgs, id, Reply(cfg, h, v, a)[id]);
    case Progress(RecvSeek(id, _, _, _, _)) => OnePut(msgs, id, Reply(cfg, h, v, a)[id]);
    case _ =>
  }

  lemma OnePut(msgs: map<nat, C.Msg>, id: nat, m: C.Msg)
    ensures msgs + map[id := m] - {} == msgs[id := m]
  {
  }

  lemma NothingPut(msgs: map<nat, C.Msg>)
    ensures msgs + map[] == msgs && msgs - {} == msgs
  {
  }

  lemma ServeDoes(cfg: Config, s: State, h: nat, a: Act)
    requires CanStep(cfg, s, Serve(h, a))
    ensures Do(cfg, s, Serve(h, a)) == With(s, ServeEffect(cfg, s, h, a))
  {
    PoolDoes(cfg, h, s.servers[h], a, s.msgs);
    var x := ServeEffect(cfg, s, h, a);
    assert Overlay(s.clients, x.clients) == s.clients;
    assert Overlay(s.servers, x.servers) == s.servers[h := Apply(cfg, s.servers[h], a)];
  }

  /** A step of a server looks at the server and at the message it takes. */
  lemma ServeFrame(cfg: Config, s: State, t: State, h: nat, a: Act)
    requires CanStep(cfg, s, Serve(h, a)) && |t.servers| == |s.servers| && t.servers[h] == s.servers[h]
    requires forall id :: id in HandleOf(s.servers[h], a) && id in s.msgs ==> id in t.msgs && t.msgs[id] == s.msgs[id]
    ensures CanStep(cfg, t, Serve(h, a)) && ServeEffect(cfg, t, h, a) == ServeEffect(cfg, s, h, a)
  {
    match a
    case Progress(RecvOpen(id, _, _, _)) => assert id in HandleOf(s.servers[h], a);
    case Progress(RecvRead(id, _, _, _, _, _)) => assert id in HandleOf(s.servers[h], a);
    case Progress(RecvSeek(id, _, _, _, _)) => assert id in HandleOf(s.servers[h], a);
    case Progress(RecvClose(id, _)) => assert id in HandleOf(s.servers[h], a);
    case _ =>
  }

  lemma ServeTouches(cfg: Config, s: State, h: nat, a: Act)
    requires CanStep(cfg, s, Serve(h, a))
    ensures Reply(cfg, h, s.servers[h], a).Keys <= HandleOf(s.servers[h], a) && Taken(a) <= HandleOf(s.servers[h], a)
  {
  }

  // ---------------------------------------------------------------- steps in different places

  /** Steps of different clients, unless both send: then they commute up to the handles. */
  lemma ClientsCommute(cfg: Config, s: State, e: Step, f: Step)
    requires LinksOk(cfg, s) && CanStep(cfg, s, e) && CanStep(cfg, s, f) && !e.Serve? && !f.Serve?
    requires ClientOf(s, e) != ClientOf(s, f) && !(Sends(s, e) && Sends(s, f))
    ensures Commute(cfg, s, e, f)
  {
    var x, y := ClientEffect(cfg, s, e), ClientEffect(cfg, s, f);
    ClientEffectsDisjoint(cfg, s, e, f);
    ClientUndisturbed(cfg, s, f, e);
    ClientUndisturbed(cfg, s, e, f);
    ClientDoes(cfg, s, e);
    ClientDoes(cfg, s, f);
    ClientDoes(cfg, With(s, y), e);
    ClientDoes(cfg, With(s, x), f);
    EffectsCommute(s, x, y);
  }

  lemma ClientEffectsDisjoint(cfg: Config, s: State, e: Step, f: Step)
    requires MsgsOk(cfg, s) && CanStep(cfg, s, e) && CanStep(cfg, s, f) && !e.Serve? && !f.Serve?
    requires ClientOf(s, e) != ClientOf(s, f) && !(Sends(s, e) && Sends(s, f))
    ensures Disjoint(ClientEffect(cfg, s, e), ClientEffect(cfg, s, f))
  {
    HandlesInPool(cfg, s, e);
    HandlesInPool(cfg, s, f);
  }

  /** A step of one client leaves the steps of another as they are. */
  lemma ClientUndisturbed(cfg: Config, s: State, e: Step, f: Step)
    requires MsgsOk(cfg, s) && CanStep(cfg, s, e) && CanStep(cfg, s, f) && !e.Serve? && !f.Serve?
    requires ClientOf(s, e) != ClientOf(s, f) && !(Sends(s, e) && Sends(s, f))
    ensures var t := With(s, ClientEffect(cfg, s, e));
            CanStep(cfg, t, f) && ClientEffect(cfg, t, f) == ClientEffect(cfg, s, f)
  {
    HandlesInPool(cfg, s, e);
    HandlesInPool(cfg, s, f);
    ClientFrame(cfg, s, With(s, ClientEffect(cfg, s, e)), f);
  }

  lemma HandlesInPool(cfg: Config, s: State, e: Step)
    requires MsgsOk(cfg, s) && CanStep(cfg, s, e) && !e.Serve?
    ensures s.next !in s.msgs
    ensures e.Deliver? || e.BulkDone? ==> e.id in s.msgs && e.id != s.next && MsgOk(cfg, s, e.id, s.msgs[e.id])
  {
    if e.Deliver? || e.BulkDone? {
      assert MsgOk(cfg, s, e.id, s.msgs[e.id]);
    }
    assert s.next in s.msgs ==> MsgOk(cfg, s, s.next, s.msgs[s.next]);
  }

  /** What a server step takes or answers is a request, or an RPC it carries: no client is at it. */
  lemma HandleIsServers(cfg: Config, s: State, h: nat, a: Act, id: nat)
    requires MsgsOk(cfg, s) && HandlersOk(cfg, s) && CanStep(cfg, s, Serve(h, a)) && id in HandleOf(s.servers[h], a)
    ensures id < s.next
    ensures id in s.msgs ==> !Response(s.msgs[id]) && !s.msgs[id].BulkPush?
  {
    assert HandlerOk(cfg, s, h, s.servers[h].handler);
    if id in s.msgs {
      assert MsgOk(cfg, s, id, s.msgs[id]);
    }
  }

  /** `e` is the bulk callback of server `h`, and `a` starts a handler that keeps the progress thread. */
  predicate Occupies(s: State, h: nat, a: Act, e: Step) {
    && e.BulkDone? && e.id in s.msgs && s.msgs[e.id].BulkPush? && s.msgs[e.id].host == h
    && a.Progress? && (a.h.RecvOpen? || a.h.RecvClose?)
  }

  /** Any step of any client and any step of any server: answers, calls, opens and closes against handlers and
      movers.  The one exception is a bulk callback that has to wait for a handler. */
  lemma ClientServerCommuteIff(cfg: Config, s: State, e: Step, h: nat, a: Act)
    requires LinksOk(cfg, s) && CanStep(cfg, s, e) && !e.Serve? && CanStep(cfg, s, Serve(h, a))
    ensures Commute(cfg, s, e, Serve(h, a)) <==> !Occupies(s, h, a, e)
  {
    if !Occupies(s, h, a, e) {
      ClientServerCommute(cfg, s, e, h, a);
    }
  }

  lemma ClientServerCommute(cfg: Config, s: State, e: Step, h: nat, a: Act)
    requires LinksOk(cfg, s) && CanStep(cfg, s, e) && !e.Serve? && CanStep(cfg, s, Serve(h, a))
    requires !Occupies(s, h, a, e)
    ensures Commute(cfg, s, e, Serve(h, a))
  {
    var x, y := ClientEffect(cfg, s, e), ServeEffect(cfg, s, h, a);
    ServeTouches(cfg, s, h, a);
    ClientNotAtHandle(cfg, s, e, h, a);
    ClientNotDisturbed(cfg, s, e, h, a);
    ServeFrame(cfg, s, With(s, x), h, a);
    ClientDoes(cfg, s, e);
    ServeDoes(cfg, s, h, a);
    ClientDoes(cfg, With(s, y), e);
    ServeDoes(cfg, With(s, x), h, a);
    EffectsCommute(s, x, y);
  }

  /** Reads, seeks and mover steps leave the progress thread free. */
  lemma StaysIdle(cfg: Config, v: Server, a: Act)
    requires v.handler.Idle? && Enabled(cfg, v, a) && !(a.Progress? && (a.h.RecvOpen? || a.h.RecvClose?))
    ensures Apply(cfg, v, a).handler.Idle?
  {
  }

  lemma ClientNotDisturbed(cfg: Config, s: State, e: Step, h: nat, a: Act)
    requires LinksOk(cfg, s) && CanStep(cfg, s, e) && !e.Serve? && CanStep(cfg, s, Serve(h, a))
    requires !Occupies(s, h, a, e)
    ensures var t := With(s, ServeEffect(cfg, s, h, a));
            CanStep(cfg, t, e) && ClientEffect(cfg, t, e) == ClientEffect(cfg, s, e)
  {
    var y := ServeEffect(cfg, s, h, a);
    HandlesInPool(cfg, s, e);
    ServeTouches(cfg, s, h, a);
    if e.Deliver? || e.BulkDone? {
      assert e.id !in HandleOf(s.servers[h], a) by {
        if e.id in HandleOf(s.servers[h], a) {
          HandleIsServers(cfg, s, h, a, e.id);
        }
      }
    }
    if e.BulkDone? && s.msgs[e.id].host == h {
      StaysIdle(cfg, s.servers[h], a);
    }
    ClientFrame(cfg, s, With(s, y), e);
  }

  lemma ClientNotAtHandle(cfg: Config, s: State, e: Step, h: nat, a: Act)
    requires LinksOk(cfg, s) && CanStep(cfg, s, e) && !e.Serve? && CanStep(cfg, s, Serve(h, a))
    ensures forall id :: id in HandleOf(s.servers[h], a) ==>
              id !in ClientEffect(cfg, s, e).put && id !in ClientEffect(cfg, s, e).drop
  {
    forall id | id in HandleOf(s.servers[h], a)
      ensures id !in ClientEffect(cfg, s, e).put && id !in ClientEffect(cfg, s, e).drop
    {
      HandleIsServers(cfg, s, h, a, id);
    }
  }

  /** Two servers never have the same RPC in hand. */
  lemma HandlesDiffer(cfg: Config, s: State, h: nat, a: Act, g: nat, b: Act)
    requires LinksOk(cfg, s) && CanStep(cfg, s, Serve(h, a)) && CanStep(cfg, s, Serve(g, b)) && h != g
    ensures HandleOf(s.servers[h], a) !! HandleOf(s.servers[g], b)
  {
    var k, l := s.servers[h].handler, s.servers[g].handler;
    assert HandlerOk(cfg, s, h, k) && HandlerOk(cfg, s, g, l);
    if (k.OpenFound? || k.OpenAt?) && (l.OpenFound? || l.OpenAt?) {
      CarriedOnce(cfg, s, h, g);
    }
  }

  /** Any steps of different servers. */
  lemma ServersCommute(cfg: Config, s: State, h: nat, a: Act, g: nat, b: Act)
    requires LinksOk(cfg, s) && CanStep(cfg, s, Serve(h, a)) && CanStep(cfg, s, Serve(g, b)) && h != g
    ensures Commute(cfg, s, Serve(h, a), Serve(g, b))
  {
    var x, y := ServeEffect(cfg, s, h, a), ServeEffect(cfg, s, g, b);
    HandlesDiffer(cfg, s, h, a, g, b);
    ServeTouches(cfg, s, h, a);
    ServeTouches(cfg, s, g, b);
    ServeDoes(cfg, s, h, a);
    ServeDoes(cfg, s, g, b);
    ServeFrame(cfg, s, With(s, y), h, a);
    ServeFrame(cfg, s, With(s, x), g, b);
    ServeDoes(cfg, With(s, y), h, a);
    ServeDoes(cfg, With(s, x), g, b);
    EffectsCommute(s, x, y);
  }

  // ---------------------------------------------------------------- steps of one server

  /** Two steps of one server commute if they do on the server and answer the same in either order. */
  ghost predicate LocallyCommute(cfg: Config, h: nat, v: Server, a: Act, b: Act)
    requires Enabled(cfg, v, a) && Enabled(cfg, v, b)
  {
    && Enabled(cfg, Apply(cfg, v, a), b) && Enabled(cfg, Apply(cfg, v, b), a)
    && Apply(cfg, Apply(cfg, v, a), b) == Apply(cfg, Apply(cfg, v, b), a)
    && Reply(cfg, h, Apply(cfg, v, a), b) == Reply(cfg, h, v, b)
    && Reply(cfg, h, Apply(cfg, v, b), a) == Reply(cfg, h, v, a)
  }

  lemma OneServerCommutes(cfg: Config, s: State, h: nat, a: Act, b: Act)
    requires CanStep(cfg, s, Serve(h, a)) && CanStep(cfg, s, Serve(h, b))
    requires LocallyCommute(cfg, h, s.servers[h], a, b)
    requires HandleOf(s.servers[h], a) !! HandleOf(s.servers[h], b)
    ensures Commute(cfg, s, Serve(h, a), Serve(h, b))
  {
    RepliesCommute(cfg, s, h, a, b);
    OthersMessageStays(cfg, s, h, a, b);
    OthersMessageStays(cfg, s, h, b, a);
  }

  lemma RepliesCommute(cfg: Config, s: State, h: nat, a: Act, b: Act)
    requires CanStep(cfg, s, Serve(h, a)) && CanStep(cfg, s, Serve(h, b))
    requires LocallyCommute(cfg, h, s.servers[h], a, b)
    requires HandleOf(s.servers[h], a) !! HandleOf(s.servers[h], b)
    ensures Served(cfg, h, Apply(cfg, s.servers[h], a), b, Served(cfg, h, s.servers[h], a, s.msgs)) ==
            Served(cfg, h, Apply(cfg, s.servers[h], b), a, Served(cfg, h, s.servers[h], b, s.msgs))
  {
    var v := s.servers[h];
    ServeTouches(cfg, s, h, a);
    ServeTouches(cfg, s, h, b);
    PoolDoes(cfg, h, v, a, s.msgs);
    PoolDoes(cfg, h, v, b, s.msgs);
    PoolDoes(cfg, h, Apply(cfg, v, a), b, Served(cfg, h, v, a, s.msgs));
    PoolDoes(cfg, h, Apply(cfg, v, b), a, Served(cfg, h, v, b, s.msgs));
    PoolsCommute(s.msgs, Reply(cfg, h, v, a), Taken(a), Reply(cfg, h, v, b), Taken(b));
  }

  lemma OthersMessageStays(cfg: Config, s: State, h: nat, a: Act, b: Act)
    requires CanStep(cfg, s, Serve(h, a)) && CanStep(cfg, s, Serve(h, b))
    requires HandleOf(s.servers[h], a) !! HandleOf(s.servers[h], b)
    ensures Consumes(Do(cfg, s, Serve(h, a)), h, b)
  {
    ServeTouches(cfg, s, h, a);
    PoolDoes(cfg, h, s.servers[h], a, s.msgs);
    match b
    case Progress(RecvOpen(id, _, _, _)) => assert id in HandleOf(s.servers[h], b);
    case Progress(RecvRead(id, _, _, _, _, _)) => assert id in HandleOf(s.servers[h], b);
    case Progress(RecvSeek(id, _, _, _, _)) => assert id in HandleOf(s.servers[h], b);
    case Progress(RecvClose(id, _)) => assert id in HandleOf(s.servers[h], b);
    case _ =>
  }

  /** Serving a read or a seek. */
  predicate Operation(v: Server, a: HandlerAct) {
    (a.RecvRead? || a.RecvSeek?) && Known(v, a.sfd) && a.sfd in v.fdToPath && -1 !in v.fds
  }

  /** The descriptors after an operation. */
  function Moved(cfg: Config, v: Server, a: HandlerAct): map<int, Ofd>
    requires Operation(v, a) && HandlerEnabled(cfg, v, a)
  {
    if a.sfd == -1 then v.fds
    else
      var o := v.fds[a.sfd];
      if a.RecvSeek? then v.fds[a.sfd := o.(off := LseekOff(Size(cfg, v, a.sfd), o.off, a.offset, a.whence))]
      else if a.offset == -1 then v.fds[a.sfd := o.(off := o.off + a.n)]
      else v.fds
  }

  /** An operation does nothing else to the server. */
  lemma OnlyMoves(cfg: Config, v: Server, a: HandlerAct)
    requires Operation(v, a) && HandlerEnabled(cfg, v, a)
    ensures HandlerApply(cfg, v, a) == v.(fds := Moved(cfg, v, a))
    ensures Moved(cfg, v, a).Keys == v.fds.Keys
  {
  }

  /** An operation does not notice other descriptors moving. */
  lemma NotNoticed(cfg: Config, h: nat, v: Server, a: HandlerAct, fds: map<int, Ofd>)
    requires Operation(v, a) && HandlerEnabled(cfg, v, a)
    requires fds.Keys == v.fds.Keys && (a.sfd in v.fds ==> fds[a.sfd] == v.fds[a.sfd])
    ensures var w := v.(fds := fds);
            && HandlerEnabled(cfg, w, a) && Operation(w, a)
            && Reply(cfg, h, w, Progress(a)) == Reply(cfg, h, v, Progress(a))
            && (a.sfd in v.fds ==> Moved(cfg, w, a)[a.sfd] == Moved(cfg, v, a)[a.sfd])
  {
  }

  lemma MovedElsewhere(cfg: Config, v: Server, a: HandlerAct, fd: int)
    requires Operation(v, a) && HandlerEnabled(cfg, v, a) && fd != a.sfd && fd in v.fds
    ensures Moved(cfg, v, a).Keys == v.fds.Keys && Moved(cfg, v, a)[fd] == v.fds[fd]
  {
  }

  /** Reads and seeks on different descriptors, or on a descriptor whose open failed. */
  lemma OperationsCommute(cfg: Config, h: nat, v: Server, a: HandlerAct, b: HandlerAct)
    requires HandlerEnabled(cfg, v, a) && HandlerEnabled(cfg, v, b)
    requires Operation(v, a) && Operation(v, b) && (a.sfd == b.sfd ==> a.sfd == -1)
    ensures LocallyCommute(cfg, h, v, Progress(a), Progress(b))
  {
    OnlyMoves(cfg, v, a);
    OnlyMoves(cfg, v, b);
    if b.sfd in v.fds { MovedElsewhere(cfg, v, a, b.sfd); }
    if a.sfd in v.fds { MovedElsewhere(cfg, v, b, a.sfd); }
    NotNoticed(cfg, h, v, b, Moved(cfg, v, a));
    NotNoticed(cfg, h, v, a, Moved(cfg, v, b));
    OnlyMoves(cfg, HandlerApply(cfg, v, a), b);
    OnlyMoves(cfg, HandlerApply(cfg, v, b), a);
    MovesCommute(cfg, v, a, b);
  }

  lemma MovesCommute(cfg: Config, v: Server, a: HandlerAct, b: HandlerAct)
    requires HandlerEnabled(cfg, v, a) && HandlerEnabled(cfg, v, b)
    requires Operation(v, a) && Operation(v, b) && (a.sfd == b.sfd ==> a.sfd == -1)
    requires var va, vb := v.(fds := Moved(cfg, v, a)), v.(fds := Moved(cfg, v, b));
             && Operation(va, b) && HandlerEnabled(cfg, va, b)
             && (b.sfd in v.fds ==> Moved(cfg, va, b)[b.sfd] == Moved(cfg, v, b)[b.sfd])
             && Operation(vb, a) && HandlerEnabled(cfg, vb, a)
             && (a.sfd in v.fds ==> Moved(cfg, vb, a)[a.sfd] == Moved(cfg, v, a)[a.sfd])
    ensures Moved(cfg, v.(fds := Moved(cfg, v, a)), b) == Moved(cfg, v.(fds := Moved(cfg, v, b)), a)
  {
    var va, vb := v.(fds := Moved(cfg, v, a)), v.(fds := Moved(cfg, v, b));
    OnlyMoves(cfg, v, a);
    OnlyMoves(cfg, v, b);
    OnlyMoves(cfg, va, b);
    OnlyMoves(cfg, vb, a);
    forall fd | fd in v.fds
      ensures Moved(cfg, va, b)[fd] == Moved(cfg, vb, a)[fd]
    {
      if fd != a.sfd { MovedElsewhere(cfg, v, a, fd); MovedElsewhere(cfg, vb, a, fd); }
      if fd != b.sfd { MovedElsewhere(cfg, v, b, fd); MovedElsewhere(cfg, va, b, fd); }
    }
  }

  /** Whatever the mover does, an open descriptor reads the same bytes, and its file can be opened. */
  lemma MoverKeepsBytes(cfg: Config, h: nat, v: Server, m: MoverAct, name: Path, p: Path)
    requires DiskOk(cfg, v) && MoverOk(cfg, v) && MoverEnabled(cfg, v, m)
    requires Tracked(cfg, p) && StandsFor(cfg, v, name, p)
    ensures Bytes(cfg, MoverApply(cfg, v, m), name) == Bytes(cfg, v, name)
    ensures Exists(cfg, MoverApply(cfg, v, m), name) && Exists(cfg, v, name)
  {
    StandsForMoverKept(cfg, v, m, name, p);
    MoverDiskKept(cfg, v, m);
    StandInBytes(cfg, v, name, p);
    StandInBytes(cfg, MoverApply(cfg, v, m), name, p);
  }

  /** The mover's steps look at nothing an operation or an open changes. */
  lemma MoverFrame(cfg: Config, v: Server, m: MoverAct, fds: map<int, Ofd>, fdToPath: map<int, Path>, k: Handler)
    requires MoverEnabled(cfg, v, m)
    ensures var w := v.(fds := fds, fdToPath := fdToPath, handler := k);
            && MoverEnabled(cfg, w, m)
            && MoverApply(cfg, w, m) == MoverApply(cfg, v, m).(fds := fds, fdToPath := fdToPath, handler := k)
  {
  }

  lemma MoverLeavesTables(cfg: Config, v: Server, m: MoverAct)
    requires MoverEnabled(cfg, v, m)
    ensures var w := MoverApply(cfg, v, m); w.fds == v.fds && w.fdToPath == v.fdToPath && w.handler == v.handler
  {
  }

  /** An operation on a server whose mover went on. */
  lemma OperationFrame(cfg: Config, h: nat, v: Server, w: Server, a: HandlerAct)
    requires Operation(v, a) && HandlerEnabled(cfg, v, a)
    requires w.fds == v.fds && w.fdToPath == v.fdToPath && w.handler == v.handler
    requires a.sfd in v.fds ==> Bytes(cfg, w, v.fds[a.sfd].name) == Bytes(cfg, v, v.fds[a.sfd].name)
    ensures HandlerEnabled(cfg, w, a) && Operation(w, a)
    ensures Moved(cfg, w, a) == Moved(cfg, v, a) && Reply(cfg, h, w, Progress(a)) == Reply(cfg, h, v, Progress(a))
  {
  }

  /** Any mover step and any read or seek, also in the middle of a copy of the same file. */
  lemma MoverOperationCommute(cfg: Config, h: nat, v: Server, m: MoverAct, a: HandlerAct)
    requires ServerOk(cfg, h, v) && Enabled(cfg, v, Move(m)) && HandlerEnabled(cfg, v, a) && Operation(v, a)
    ensures LocallyCommute(cfg, h, v, Move(m), Progress(a))
  {
    var w := MoverApply(cfg, v, m);
    MoverLeavesTables(cfg, v, m);
    if a.sfd in v.fds {
      MoverKeepsBytes(cfg, h, v, m, v.fds[a.sfd].name, v.fdToPath[a.sfd]);
    }
    OperationFrame(cfg, h, v, w, a);
    OnlyMoves(cfg, v, a);
    OnlyMoves(cfg, w, a);
    MoverFrame(cfg, v, m, Moved(cfg, v, a), v.fdToPath, v.handler);
    assert v.(fds := Moved(cfg, v, a)) == v.(fds := Moved(cfg, v, a), fdToPath := v.fdToPath, handler := v.handler);
  }

  /** The handler steps of an open. */
  predicate Opens(a: HandlerAct) {
    a.RecvOpen? || a.OpenLookup? || a.OpenDo?
  }

  /** What the mover would publish now. */
  function Publishes(v: Server, m: MoverAct): set<Path> {
    if m.CopyPublish? && v.local != [] then {v.local[0]} else {}
  }

  /** The path an open looks up in this step. */
  function LooksUp(v: Server, a: HandlerAct): set<Path> {
    if a.RecvOpen? then {a.path} else if a.OpenLookup? && v.handler.OpenFound? then {v.handler.path} else {}
  }

  /** An open on a server whose mover went on. */
  lemma OpenFrame(cfg: Config, h: nat, v: Server, w: Server, a: HandlerAct)
    requires HandlerEnabled(cfg, v, a) && Opens(a)
    requires w.fds == v.fds && w.fdToPath == v.fdToPath && w.handler == v.handler
    requires a.OpenDo? ==> (Exists(cfg, w, v.handler.target) <==> Exists(cfg, v, v.handler.target))
    requires forall p :: p in LooksUp(v, a) ==>
               (p in v.cache <==> p in w.cache) && (p in v.cache ==> w.cache[p] == v.cache[p])
    ensures HandlerEnabled(cfg, w, a)
    ensures var v', w' := HandlerApply(cfg, v, a), HandlerApply(cfg, w, a);
            && v' == v.(fds := v'.fds, fdToPath := v'.fdToPath, handler := v'.handler)
            && w' == w.(fds := v'.fds, fdToPath := v'.fdToPath, handler := v'.handler)
    ensures Reply(cfg, h, w, Progress(a)) == Reply(cfg, h, v, Progress(a))
  {
    assert a.RecvOpen? ==> a.path in LooksUp(v, a);
    assert a.OpenLookup? ==> v.handler.path in LooksUp(v, a);
  }

  lemma OnlyPublishes(cfg: Config, v: Server, m: MoverAct, p: Path)
    requires MoverEnabled(cfg, v, m) && p !in Publishes(v, m)
    ensures var w := MoverApply(cfg, v, m);
            (p in v.cache <==> p in w.cache) && (p in v.cache ==> w.cache[p] == v.cache[p])
  {
  }

  /** Any mover step and any step of an open, unless the one publishes the very path the other looks up. */
  lemma MoverOpenCommute(cfg: Config, h: nat, v: Server, m: MoverAct, a: HandlerAct)
    requires ServerOk(cfg, h, v) && Enabled(cfg, v, Move(m)) && HandlerEnabled(cfg, v, a) && Opens(a)
    requires Publishes(v, m) !! LooksUp(v, a)
    ensures LocallyCommute(cfg, h, v, Move(m), Progress(a))
  {
    var w := MoverApply(cfg, v, m);
    MoverLeavesTables(cfg, v, m);
    if a.OpenDo? {
      MoverKeepsBytes(cfg, h, v, m, v.handler.target, v.handler.path);
    }
    forall p | p in LooksUp(v, a)
      ensures (p in v.cache <==> p in w.cache) && (p in v.cache ==> w.cache[p] == v.cache[p])
    {
      OnlyPublishes(cfg, v, m, p);
    }
    OpenFrame(cfg, h, v, w, a);
    var u := HandlerApply(cfg, v, a);
    MoverFrame(cfg, v, m, u.fds, u.fdToPath, u.handler);
  }

  /** Operations of two RPCs name different descriptors, or fail. */
  lemma OperandsDiffer(cfg: Config, s: State, h: nat, a: HandlerAct, b: HandlerAct)
    requires SystemOk(cfg, s) && CanStep(cfg, s, Serve(h, Progress(a))) && CanStep(cfg, s, Serve(h, Progress(b)))
    requires (a.RecvRead? || a.RecvSeek?) && (b.RecvRead? || b.RecvSeek?) && a.id != b.id
    ensures a.sfd == b.sfd ==> a.sfd == -1
  {
    assert MsgOk(cfg, s, a.id, s.msgs[a.id]) && MsgOk(cfg, s, b.id, s.msgs[b.id]);
    var ca, cb := s.clients[a.client], s.clients[b.client];
    assert a.client != b.client;
    assert Holds(cfg, s, InTable(a.client, ca.phase.fd), h, a.sfd);
    assert Holds(cfg, s, InTable(b.client, cb.phase.fd), h, b.sfd);
  }

  lemma RequestOperates(cfg: Config, s: State, h: nat, a: HandlerAct)
    requires SystemOk(cfg, s) && CanStep(cfg, s, Serve(h, Progress(a))) && (a.RecvRead? || a.RecvSeek?)
    ensures Operation(s.servers[h], a)
  {
    RequestOpen(cfg, s, a.id);
    assert ServerOk(cfg, h, s.servers[h]);
  }

  // ---------------------------------------------------------------- all of them

  /** Steps that have nothing to do with each other. */
  predicate Unrelated(s: State, e: Step, f: Step) {
    if !e.Serve? && !f.Serve? then ClientOf(s, e) != ClientOf(s, f) && !(Sends(s, e) && Sends(s, f))
    else if !e.Serve? then !Occupies(s, f.h, f.a, e)
    else if !f.Serve? then !Occupies(s, e.h, e.a, f)
    else if e.h != f.h || e.h >= |s.servers| then true
    else UnrelatedActs(s.servers[e.h], e.a, f.a) || UnrelatedActs(s.servers[e.h], f.a, e.a)
  }

  predicate IsOperation(a: Act) {
    a.Progress? && (a.h.RecvRead? || a.h.RecvSeek?)
  }

  predicate UnrelatedActs(v: Server, a: Act, b: Act) {
    || (IsOperation(a) && IsOperation(b) && a.h.id != b.h.id)
    || (a.Move? && IsOperation(b))
    || (a.Move? && b.Progress? && Opens(b.h) && Publishes(v, a.m) !! LooksUp(v, b.h))
  }

  lemma ActsCommute(cfg: Config, s: State, h: nat, a: Act, b: Act)
    requires SystemOk(cfg, s) && CanStep(cfg, s, Serve(h, a)) && CanStep(cfg, s, Serve(h, b))
    requires UnrelatedActs(s.servers[h], a, b)
    ensures Commute(cfg, s, Serve(h, a), Serve(h, b))
  {
    var v := s.servers[h];
    assert ServerOk(cfg, h, v);
    if a.Move? {
      if IsOperation(b) {
        RequestOperates(cfg, s, h, b.h);
        MoverOperationCommute(cfg, h, v, a.m, b.h);
      } else {
        MoverOpenCommute(cfg, h, v, a.m, b.h);
      }
    } else {
      RequestOperates(cfg, s, h, a.h);
      RequestOperates(cfg, s, h, b.h);
      OperandsDiffer(cfg, s, h, a.h, b.h);
      OperationsCommute(cfg, h, v, a.h, b.h);
    }
    OneServerCommutes(cfg, s, h, a, b);
  }

  /** In every reachable state, unrelated steps commute: steps of different clients, steps of different
      servers, any step of a client with any step of a server (a bulk callback, which runs on the server's
      progress thread, only with steps that leave the thread free), and on one server the reads and seeks of
      different clients with each other and with every step of the mover. */
  lemma UnrelatedStepsCommute(cfg: Config, s: State, e: Step, f: Step)
    requires Reachable(cfg, s) && CanStep(cfg, s, e) && CanStep(cfg, s, f) && Unrelated(s, e, f)
    ensures Commute(cfg, s, e, f)
  {
    ReachableOk(cfg, s);
    if !e.Serve? && !f.Serve? {
      ClientsCommute(cfg, s, e, f);
    } else if !e.Serve? {
      ClientServerCommute(cfg, s, e, f.h, f.a);
    } else if !f.Serve? {
      ClientServerCommute(cfg, s, f, e.h, e.a);
    } else if e.h != f.h {
      ServersCommute(cfg, s, e.h, e.a, f.h, f.a);
    } else if UnrelatedActs(s.servers[e.h], e.a, f.a) {
      ActsCommute(cfg, s, e.h, e.a, f.a);
    } else {
      ActsCommute(cfg, s, e.h, f.a, e.a);
    }
  }
}
