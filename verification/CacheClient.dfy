/** One client process: the tables of tracked descriptors and the RPC handshake of its application thread. */
module CacheClient {
  import opened Posix
  import opened Session

  /** Messages between clients and servers.  Requests and their answers carry the RPC handle as their key
      in the message pool, and the client that will be called back. */
  datatype Msg =
    | OpenReq(client: nat, host: nat, lfd: int, path: Path)
    | OpenResp(client: nat, host: nat, lfd: int, sfd: int)
    | ReadReq(client: nat, host: nat, sfd: int, count: int, offset: int)
    | BulkPush(client: nat, host: nat, data: seq<Byte>)  // the bulk transfer in progress
    | ReadResp(client: nat, host: nat, ret: int)
    | SeekReq(client: nat, host: nat, sfd: int, offset: int, whence: int)
    | SeekResp(client: nat, host: nat, ret: int)
    | CloseReq(host: nat, sfd: int)

  /** Where the application thread is: outside, or blocked on the RPC `id`. */
  datatype Phase =
    | Idle
    | Opening(id: nat, fd: int)
    | Calling(id: nat, fd: int, call: Call)

  datatype Client = Client(
    fdMap: map<int, Path>,
    redir: map<int, int>,   // fd_redir_map
    local: set<int>,        // descriptors open in the client process, tracked or not
    done: nat,              // hg_bool_t
    readRet: int,
    buf: seq<Byte>,         // the buffer registered for the bulk transfer
    phase: Phase)

  const FRESH := Client(map[], map[], {}, 0, -1, [], Idle)

  /** `fd_redir_map[fd]`, read through operator[]: an absent key is inserted with 0. */
  function Redir(cl: Client, fd: int): int {
    if fd in cl.redir then cl.redir[fd] else 0
  }

  function TouchRedir(cl: Client, fd: int): map<int, int> {
    if fd in cl.redir then cl.redir else cl.redir[fd := 0]
  }

  /** open(): the real open returned `fd`, the path is recorded and the open RPC is sent. */
  function StartOpen(cl: Client, fd: int, path: Path, id: nat): Client {
    cl.(fdMap := cl.fdMap[fd := path], local := cl.local + {fd}, done := 0, phase := Opening(id, fd))
  }

  /** The offset a read request carries: -1 for read(). */
  function WireOffset(call: Call): int
    requires !call.Seek?
  {
    if call.Read? then -1 else call.offset
  }

  /** The request a call sends. */
  function Request(cl: Client, c: nat, host: nat, fd: int, call: Call): Msg {
    if call.Seek? then SeekReq(c, host, Redir(cl, fd), ToInt32(call.offset), call.whence)
    else ReadReq(c, host, Redir(cl, fd), ToInt32(|call.buf|), WireOffset(call))
  }

  function StartCall(cl: Client, fd: int, call: Call, id: nat): Client {
    cl.(redir := TouchRedir(cl, fd), done := 0, readRet := -1,
        buf := if call.Seek? then [] else call.buf,
        phase := Calling(id, fd, call))
  }

  /** close() of a tracked descriptor, once the close request is sent. */
  function Forget(cl: Client, fd: int): Client {
    cl.(fdMap := cl.fdMap - {fd}, redir := cl.redir - {fd}, local := cl.local - {fd})
  }

  /** `done++` on an 8-bit boolean. */
  function Bump(done: nat): nat {
    (done + 1) % 256
  }

  function OnOpenResp(cl: Client, lfd: int, sfd: int): Client {
    cl.(redir := cl.redir[lfd := sfd], done := Bump(cl.done))
  }

  function OnAnswer(cl: Client, ret: int): Client {
    cl.(readRet := ret, done := Bump(cl.done))
  }

  function OnBulk(cl: Client, data: seq<Byte>): Client {
    if |data| <= |cl.buf| then cl.(buf := Fill(cl.buf, data)) else cl
  }

  function Leave(cl: Client): Client {
    cl.(phase := Idle)
  }

  /** What a call returns to the application.  A read that was answered -1 is made again on the real
      descriptor; `fallback` is what that gives. */
  function Answer(cl: Client, call: Call, fallback: Result): Result {
    if call.Seek? then Result(cl.readRet, [])
    else if call.Read? && cl.readRet == -1 then fallback
    else Result(cl.readRet, cl.buf)
  }

  /** What reaches a client while its thread is blocked. */
  datatype Arrival = Opened(lfd: int, sfd: int) | Pushed(data: seq<Byte>) | Answered(ret: int)

  function Arrive(cl: Client, a: Arrival): Client {
    match a
    case Opened(lfd, sfd) => OnOpenResp(cl, lfd, sfd)
    case Pushed(data) => OnBulk(cl, data)
    case Answered(ret) => OnAnswer(cl, ret)
  }

  /** A block function: it waits until `done` is HG_TRUE. */
  function Waited(cl: Client, arrivals: seq<Arrival>): Client
    decreases |arrivals|
  {
    if cl.done == 1 || arrivals == [] then cl else Waited(Arrive(cl, arrivals[0]), arrivals[1..])
  }

  /** With its own bulk transfer and answer, a read or pread returns the bytes transferred, in the front of
      the caller's buffer, and nothing that comes later is looked at. */
  lemma ReadReturns(cl: Client, fd: int, call: Call, id: nat, data: seq<Byte>, later: seq<Arrival>, fallback: Result)
    requires !call.Seek? && |data| <= |call.buf|
    ensures var end := Waited(StartCall(cl, fd, call, id), [Pushed(data), Answered(|data|)] + later);
            end.done == 1 && Answer(end, call, fallback) == Result(|data|, Fill(call.buf, data))
  {
    var all := [Pushed(data), Answered(|data|)] + later;
    var cl1 := Arrive(StartCall(cl, fd, call, id), all[0]);
    assert all[1..][1..] == later;
    assert Waited(Arrive(cl1, all[1]), later).readRet == |data|;
  }

  /** With its own answer, a seek returns it. */
  lemma SeekReturns(cl: Client, fd: int, call: Call, id: nat, ret: int, later: seq<Arrival>, fallback: Result)
    requires call.Seek?
    ensures var end := Waited(StartCall(cl, fd, call, id), [Answered(ret)] + later);
            end.done == 1 && Answer(end, call, fallback) == Result(ret, [])
  {
    assert ([Answered(ret)] + later)[1..] == later;
  }

  /** With its own answer, an open has recorded the descriptor the server answered. */
  lemma OpenReturns(cl: Client, fd: int, path: Path, id: nat, sfd: int, later: seq<Arrival>)
    ensures var end := Waited(StartOpen(cl, fd, path, id), [Opened(fd, sfd)] + later);
            && end.done == 1 && end.fdMap == cl.fdMap[fd := path] && end.redir == cl.redir[fd := sfd]
            && end.readRet == cl.readRet && end.buf == cl.buf
  {
    assert ([Opened(fd, sfd)] + later)[1..] == later;
  }

  /** Answered -1, only a read() is made again on the real descriptor. */
  lemma OnlyReadFallsBack(cl: Client, call: Call, fallback: Result)
    requires cl.readRet == -1
    ensures call.Read? ==> Answer(cl, call, fallback) == fallback
    ensures call.Pread? ==> Answer(cl, call, fallback) == Result(-1, cl.buf)
    ensures call.Seek? ==> Answer(cl, call, fallback) == Result(-1, [])
  {
  }
}
