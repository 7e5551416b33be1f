/** The whole system: clients, servers, and the messages between them.

    Messages are keyed by RPC handle; none is lost or duplicated, and any of them may be delivered next.
    A run is a sequence of labelled steps; a label carries every choice that is not the code's own. */
module CacheSystem {
  import opened Posix
  import opened Session
  import opened CacheServer
  import C = CacheClient

  datatype State = State(clients: seq<C.Client>, servers: seq<Server>, msgs: map<nat, C.Msg>, next: nat)

  function Init(cfg: Config, clients: nat): State {
    State(seq(clients, _ => C.FRESH), seq(cfg.servers, _ => BOOT), map[], 0)
  }

  datatype Step =
    | AppOpen(c: nat, fd: int, path: Path)   // open() of a tracked file
    | AppOpenOther(c: nat, fd: int)          // open() of any other file
    | AppCall(c: nat, fd: int, call: Call)   // read(), pread() or lseek() on a tracked descriptor
    | AppClose(c: nat, fd: int)
    | AppReturn(c: nat, fallback: Result)    // the blocked thread sees done == HG_TRUE
    | Deliver(id: nat)                       // a response reaches its callback
    | BulkDone(id: nat)                      // a bulk transfer completes and the server responds
    | Serve(h: nat, a: Act)                  // a step of server h

  /** What the application observes.  `live`, which it does not see, tells descriptors apart that the
      server could and could not open. */
  datatype Event =
    | Opened(c: nat, fd: int, path: Path, live: bool)
    | Answered(c: nat, fd: int, call: Call, result: Result)
    | Closed(c: nat, fd: int)

  predicate Response(m: C.Msg) {
    m.OpenResp? || m.ReadResp? || m.SeekResp?
  }

  /** A handler step that starts with a message consumes that message. */
  predicate Consumes(s: State, h: nat, a: Act) {
    a.Progress? ==>
      match a.h
      case RecvOpen(id, client, lfd, path) => id in s.msgs && s.msgs[id] == C.OpenReq(client, h, lfd, path)
      case RecvRead(id, client, sfd, count, offset, _) =>
        id in s.msgs && s.msgs[id] == C.ReadReq(client, h, sfd, count, offset)
      case RecvSeek(id, client, sfd, offset, whence) =>
        id in s.msgs && s.msgs[id] == C.SeekReq(client, h, sfd, offset, whence)
      case RecvClose(id, sfd) => id in s.msgs && s.msgs[id] == C.CloseReq(h, sfd)
      case _ => true
  }

  predicate CanStep(cfg: Config, s: State, e: Step) {
    match e
    case AppOpen(c, fd, path) =>
      c < |s.clients| && s.clients[c].phase.Idle? && fd >= 0 && fd !in s.clients[c].local && Tracked(cfg, path)
    case AppOpenOther(c, fd) =>
      c < |s.clients| && s.clients[c].phase.Idle? && fd >= 0 && fd !in s.clients[c].local
    case AppCall(c, fd, call) =>
      c < |s.clients| && s.clients[c].phase.Idle? && fd in s.clients[c].fdMap && ValidCall(call)
    case AppClose(c, fd) =>
      c < |s.clients| && s.clients[c].phase.Idle? && fd in s.clients[c].local
    case AppReturn(c, fallback) =>
      c < |s.clients| && !s.clients[c].phase.Idle? && s.clients[c].done == 1
    case Deliver(id) =>
      id in s.msgs && Response(s.msgs[id]) && s.msgs[id].client < |s.clients|
    case BulkDone(id) =>
      // the callback runs on the server's progress thread, between handlers
      && id in s.msgs && s.msgs[id].BulkPush? && s.msgs[id].client < |s.clients|
      && s.msgs[id].host < |s.servers| && s.servers[s.msgs[id].host].handler.Idle?
    case Serve(h, a) =>
      h < |s.servers| && Enabled(cfg, s.servers[h], a) && Consumes(s, h, a)
  }

  function PutClient(s: State, c: nat, cl: C.Client): State
    requires c < |s.clients|
  {
    s.(clients := s.clients[c := cl])
  }

  function Send(s: State, m: C.Msg): State {
    s.(msgs := s.msgs[s.next := m], next := s.next + 1)
  }

  function Called(cfg: Config, s: State, c: nat, fd: int, call: Call): State
    requires c < |s.clients| && fd in s.clients[c].fdMap
  {
    var cl := s.clients[c];
    Send(PutClient(s, c, C.StartCall(cl, fd, call, s.next)), C.Request(cl, c, Host(cfg, cl.fdMap[fd]), fd, call))
  }

  function ClosedState(cfg: Config, s: State, c: nat, fd: int): State
    requires c < |s.clients|
  {
    var cl := s.clients[c];
    if fd in cl.fdMap then
      Send(PutClient(s, c, C.Forget(cl, fd)), C.CloseReq(Host(cfg, cl.fdMap[fd]), C.Redir(cl, fd)))
    else
      PutClient(s, c, cl.(local := cl.local - {fd}))
  }

  function Delivered(s: State, id: nat): State
    requires id in s.msgs && Response(s.msgs[id]) && s.msgs[id].client < |s.clients|
  {
    var m := s.msgs[id];
    var cl := s.clients[m.client];
    PutClient(s, m.client, if m.OpenResp? then C.OnOpenResp(cl, m.lfd, m.sfd) else C.OnAnswer(cl, m.ret))
      .(msgs := s.msgs - {id})
  }

  function Transferred(s: State, id: nat): State
    requires id in s.msgs && s.msgs[id].BulkPush? && s.msgs[id].client < |s.clients|
  {
    var m := s.msgs[id];
    PutClient(s, m.client, C.OnBulk(s.clients[m.client], m.data))
      .(msgs := s.msgs[id := C.ReadResp(m.client, m.host, ToInt32(|m.data|))])
  }

  /** The message pool after server `h`, in state `v`, does `a`. */
  function Served(cfg: Config, h: nat, v: Server, a: Act, msgs: map<nat, C.Msg>): map<nat, C.Msg>
    requires Enabled(cfg, v, a)
  {
    match a
    case Progress(RecvOpen(id, _, _, _)) => msgs - {id}
    case Progress(OpenDo(sfd)) => msgs[v.handler.id := C.OpenResp(v.handler.client, h, v.handler.lfd, sfd)]
    case Progress(RecvRead(id, client, sfd, count, offset, n)) =>
      msgs[id := C.BulkPush(client, h, ReadData(cfg, v, sfd, count, offset, n))]
    case Progress(RecvSeek(id, client, sfd, offset, whence)) =>
      msgs[id := C.SeekResp(client, h, SeekAnswer(cfg, v, sfd, offset, whence))]
    case Progress(RecvClose(id, _)) => msgs - {id}
    case _ => msgs
  }

  function ServedState(cfg: Config, s: State, h: nat, a: Act): State
    requires h < |s.servers| && Enabled(cfg, s.servers[h], a)
  {
    s.(servers := s.servers[h := Apply(cfg, s.servers[h], a)],
       msgs := Served(cfg, h, s.servers[h], a, s.msgs))
  }

  function Do(cfg: Config, s: State, e: Step): State
    requires CanStep(cfg, s, e)
  {
    match e
    case AppOpen(c, fd, path) =>
      Send(PutClient(s, c, C.StartOpen(s.clients[c], fd, path, s.next)),
           C.OpenReq(c, Host(cfg, path), fd, path))
    case AppOpenOther(c, fd) => PutClient(s, c, s.clients[c].(local := s.clients[c].local + {fd}))
    case AppCall(c, fd, call) => Called(cfg, s, c, fd, call)
    case AppClose(c, fd) => ClosedState(cfg, s, c, fd)
    case AppReturn(c, _) => PutClient(s, c, C.Leave(s.clients[c]))
    case Deliver(id) => Delivered(s, id)
    case BulkDone(id) => Transferred(s, id)
    case Serve(h, a) => ServedState(cfg, s, h, a)
  }

  /** The events a step shows: returns from open() and from calls, and closes, on tracked descriptors. */
  function Shows(cfg: Config, s: State, e: Step): seq<Event>
    requires CanStep(cfg, s, e)
  {
    match e
    case AppReturn(c, fallback) =>
      var cl := s.clients[c];
      (match cl.phase
       case Opening(_, fd) => if fd in cl.fdMap then [Opened(c, fd, cl.fdMap[fd], C.Redir(cl, fd) != -1)] else []
       case Calling(_, fd, call) => [Answered(c, fd, call, C.Answer(cl, call, fallback))]
       case Idle => [])
    case AppClose(c, fd) => if fd in s.clients[c].fdMap then [Closed(c, fd)] else []
    case _ => []
  }

  /** A run of the system. */
  predicate Run(cfg: Config, s: State, steps: seq<Step>, s': State)
    decreases |steps|
  {
    if steps == [] then s == s'
    else CanStep(cfg, s, steps[0]) && Run(cfg, Do(cfg, s, steps[0]), steps[1..], s')
  }

  /** The events along a run. */
  function Trace(cfg: Config, s: State, steps: seq<Step>, s': State): seq<Event>
    requires Run(cfg, s, steps, s')
    decreases |steps|
  {
    if steps == [] then []
    else Shows(cfg, s, steps[0]) + Trace(cfg, Do(cfg, s, steps[0]), steps[1..], s')
  }

  /** A state some run from the start reaches. */
  ghost predicate Reachable(cfg: Config, s: State) {
    exists clients, steps :: Run(cfg, Init(cfg, clients), steps, s)
  }
}
