/** The client's code as it is written: the wrappers' tracking tables, the request generators, the callbacks
    and the block functions, updating global tables in place.

    Each method is shown to do what the corresponding function of `CacheClient` says, which is what a step
    of the system does to a client. */
module ClientProcess {
  import opened Posix
  import opened Session
  import opened CacheServer
  import C = CacheClient

  class HvacClient {
    var fdMap: map<int, Path>
    var fdRedirMap: map<int, int>
    var local: set<int>
    var done: nat
    var readRet: int
    var buffer: array<Byte>

    constructor ()
      ensures View(C.Idle) == C.FRESH && fresh(buffer)
    {
      fdMap, fdRedirMap, local, done, readRet := map[], map[], {}, 0, -1;
      buffer := new Byte[0];
    }

    /** The state of the client, given what its application thread is blocked on. */
    ghost function View(phase: C.Phase): C.Client
      reads this, buffer
    {
      C.Client(fdMap, fdRedirMap, local, done, readRet, buffer[..], phase)
    }

    /** hvac_file_tracked */
    method FileTracked(fd: int) returns (tracked: bool)
      ensures tracked <==> fd in fdMap
    {
      if fdMap == map[] {
        return false;
      }
      tracked := fd in fdMap;
    }

    /** hvac_track_file, for a file that is tracked, up to the open RPC. */
    method TrackFile(cfg: Config, c: nat, fd: int, path: Path, id: nat) returns (m: C.Msg)
      modifies this
      ensures View(C.Opening(id, fd)) == C.StartOpen(old(View(C.Idle)), fd, path, id)
      ensures m == C.OpenReq(c, Host(cfg, path), fd, path) && buffer == old(buffer)
    {
      local := local + {fd};
      fdMap := fdMap[fd := path];
      var host := Host(cfg, fdMap[fd]);
      done := 0;
      m := C.OpenReq(c, host, fd, fdMap[fd]);
    }

    /** hvac_open_cb */
    method OpenCallback(lfd: int, sfd: int, ghost phase: C.Phase)
      modifies this
      ensures View(phase) == C.OnOpenResp(old(View(phase)), lfd, sfd) && buffer == old(buffer)
    {
      fdRedirMap := fdRedirMap[lfd := sfd];
      done := C.Bump(done);
    }

    /** hvac_client_comm_gen_read_rpc */
    method GenReadRpc(c: nat, host: nat, fd: int, buf: array<Byte>, offset: int, id: nat, ghost call: Call)
      returns (m: C.Msg)
      requires !call.Seek? && call.buf == buf[..] && C.WireOffset(call) == offset
      modifies this
      ensures View(C.Calling(id, fd, call)) == C.StartCall(old(View(C.Idle)), fd, call, id)
      ensures m == C.Request(old(View(C.Idle)), c, host, fd, call) && buffer == buf
    {
      done := 0;
      readRet := -1;
      buffer := buf;
      fdRedirMap := if fd in fdRedirMap then fdRedirMap else fdRedirMap[fd := 0];
      m := C.ReadReq(c, host, fdRedirMap[fd], ToInt32(buf.Length), offset);
    }

    /** hvac_remote_read on a tracked descriptor, up to its block. */
    method RemoteRead(cfg: Config, c: nat, fd: int, buf: array<Byte>, id: nat) returns (m: C.Msg)
      requires fd in fdMap
      modifies this
      ensures View(C.Calling(id, fd, Posix.Read(buf[..]))) ==
              C.StartCall(old(View(C.Idle)), fd, Posix.Read(buf[..]), id)
      ensures m == C.Request(old(View(C.Idle)), c, Host(cfg, fdMap[fd]), fd, Posix.Read(buf[..])) && buffer == buf
    {
      m := GenReadRpc(c, Host(cfg, fdMap[fd]), fd, buf, -1, id, Posix.Read(buf[..]));
    }

    /** hvac_remote_pread on a tracked descriptor, up to its block. */
    method RemotePread(cfg: Config, c: nat, fd: int, buf: array<Byte>, offset: int, id: nat) returns (m: C.Msg)
      requires fd in fdMap
      modifies this
      ensures View(C.Calling(id, fd, Posix.Pread(buf[..], offset))) ==
              C.StartCall(old(View(C.Idle)), fd, Posix.Pread(buf[..], offset), id)
      ensures m == C.Request(old(View(C.Idle)), c, Host(cfg, fdMap[fd]), fd, Posix.Pread(buf[..], offset))
      ensures buffer == buf
    {
      m := GenReadRpc(c, Host(cfg, fdMap[fd]), fd, buf, offset, id, Posix.Pread(buf[..], offset));
    }

    /** hvac_remote_lseek on a tracked descriptor, up to its block; the offset arrives as an int. */
    method RemoteLseek(cfg: Config, c: nat, fd: int, offset: int, whence: int, id: nat) returns (m: C.Msg)
      requires fd in fdMap
      modifies this
      ensures View(C.Calling(id, fd, Seek(offset, whence))) ==
              C.StartCall(old(View(C.Idle)), fd, Seek(offset, whence), id)
      ensures m == C.Request(old(View(C.Idle)), c, Host(cfg, fdMap[fd]), fd, Seek(offset, whence)) && fresh(buffer)
    {
      var host := Host(cfg, fdMap[fd]);
      readRet := -1;
      done := 0;
      buffer := new Byte[0];
      fdRedirMap := if fd in fdRedirMap then fdRedirMap else fdRedirMap[fd := 0];
      m := C.SeekReq(c, host, fdRedirMap[fd], ToInt32(offset), whence);
    }

    /** The bulk transfer fills the front of the registered buffer. */
    method Receive(data: seq<Byte>, ghost phase: C.Phase)
      requires |data| <= buffer.Length
      modifies buffer
      ensures View(phase) == C.OnBulk(old(View(phase)), data)
    {
      var i := 0;
      while i < |data|
        invariant 0 <= i <= |data|
        invariant buffer[..i] == data[..i]
        invariant buffer[i..] == old(buffer[..])[i..]
      {
        buffer[i] := data[i];
        i := i + 1;
      }
      assert buffer[..] == buffer[..|data|] + buffer[|data|..];
    }

    /** hvac_read_cb and hvac_seek_cb */
    method AnswerCallback(ret: int, ghost phase: C.Phase)
      modifies this
      ensures View(phase) == C.OnAnswer(old(View(phase)), ret) && buffer == old(buffer)
    {
      done := C.Bump(done);
      readRet := ret;
    }

    /** The block functions: until `done` is HG_TRUE the thread waits, and what arrives runs its callback.
        The precondition says that the answer comes. */
    method Block(arrivals: seq<C.Arrival>, ghost phase: C.Phase) returns (ret: int)
      requires C.Waited(View(phase), arrivals).done == 1
      modifies this, buffer
      ensures View(phase) == C.Waited(old(View(phase)), arrivals) && done == 1
      ensures ret == readRet && buffer == old(buffer)
    {
      var i := 0;
      while done != 1
        invariant 0 <= i <= |arrivals| && buffer == old(buffer)
        invariant C.Waited(View(phase), arrivals[i..]) == C.Waited(old(View(phase)), arrivals)
        decreases |arrivals| - i
      {
        assert arrivals[i..][1..] == arrivals[i + 1..];
        match arrivals[i] {
          case Opened(lfd, sfd) => OpenCallback(lfd, sfd, phase);
          case Answered(r) => AnswerCallback(r, phase);
          case Pushed(data) =>
            if |data| <= buffer.Length {
              Receive(data, phase);
            }
        }
        i := i + 1;
      }
      ret := readRet;
    }

    /** open(), for a file that is tracked and that the real open gave the number `fd`. */
    method Open(cfg: Config, c: nat, fd: int, path: Path, id: nat, arrivals: seq<C.Arrival>) returns (m: C.Msg)
      requires C.Waited(C.StartOpen(View(C.Idle), fd, path, id), arrivals).done == 1
      modifies this, buffer
      ensures View(C.Idle) == C.Leave(C.Waited(C.StartOpen(old(View(C.Idle)), fd, path, id), arrivals))
      ensures m == C.OpenReq(c, Host(cfg, path), fd, path)
    {
      m := TrackFile(cfg, c, fd, path, id);
      var _ := Block(arrivals, C.Opening(id, fd));
    }

    /** read() on a tracked descriptor.  Answered -1, it is made again on the real descriptor, which returns
        `fallback`. */
    method Read(cfg: Config, c: nat, fd: int, buf: array<Byte>, id: nat, arrivals: seq<C.Arrival>, fallback: Result)
      returns (ret: int, m: C.Msg)
      requires fd in fdMap && |fallback.buf| == buf.Length
      requires C.Waited(C.StartCall(View(C.Idle), fd, Posix.Read(buf[..]), id), arrivals).done == 1
      modifies this, buf
      ensures var call := Posix.Read(old(buf[..])); var start := C.StartCall(old(View(C.Idle)), fd, call, id);
              && Result(ret, buf[..]) == C.Answer(C.Waited(start, arrivals), call, fallback)
              && m == C.Request(old(View(C.Idle)), c, Host(cfg, old(fdMap)[fd]), fd, call)
    {
      ghost var phase := C.Calling(id, fd, Posix.Read(buf[..]));
      m := RemoteRead(cfg, c, fd, buf, id);
      ret := Block(arrivals, phase);
      if ret == -1 {
        ret := fallback.ret;
        forall i | 0 <= i < buf.Length {
          buf[i] := fallback.buf[i];
        }
      }
    }

    /** pread() on a tracked descriptor. */
    method Pread(cfg: Config, c: nat, fd: int, buf: array<Byte>, offset: int, id: nat, arrivals: seq<C.Arrival>)
      returns (ret: int, m: C.Msg)
      requires fd in fdMap
      requires C.Waited(C.StartCall(View(C.Idle), fd, Posix.Pread(buf[..], offset), id), arrivals).done == 1
      modifies this, buf
      ensures var call := Posix.Pread(old(buf[..]), offset); var start := C.StartCall(old(View(C.Idle)), fd, call, id);
              && Result(ret, buf[..]) == C.Answer(C.Waited(start, arrivals), call, Result(0, []))
              && m == C.Request(old(View(C.Idle)), c, Host(cfg, old(fdMap)[fd]), fd, call)
    {
      ghost var phase := C.Calling(id, fd, Posix.Pread(buf[..], offset));
      m := RemotePread(cfg, c, fd, buf, offset, id);
      ret := Block(arrivals, phase);
    }

    /** lseek() and lseek64() on a tracked descriptor. */
    method Lseek(cfg: Config, c: nat, fd: int, offset: int, whence: int, id: nat, arrivals: seq<C.Arrival>)
      returns (ret: int, m: C.Msg)
      requires fd in fdMap
      requires C.Waited(C.StartCall(View(C.Idle), fd, Seek(offset, whence), id), arrivals).done == 1
      modifies this
      ensures var call := Seek(offset, whence); var start := C.StartCall(old(View(C.Idle)), fd, call, id);
              && Result(ret, []) == C.Answer(C.Waited(start, arrivals), call, Result(0, []))
              && m == C.Request(old(View(C.Idle)), c, Host(cfg, old(fdMap)[fd]), fd, call)
    {
      m := RemoteLseek(cfg, c, fd, offset, whence, id);
      ret := Block(arrivals, C.Calling(id, fd, Seek(offset, whence)));
    }

    /** hvac_remove_fd, then the real close: the close request is sent and both tables forget the descriptor
        before its number can be used again. */
    method Close(cfg: Config, fd: int) returns (m: C.Msg)
      requires fd in fdMap
      modifies this
      ensures View(C.Idle) == C.Forget(old(View(C.Idle)), fd) && buffer == old(buffer)
      ensures m == C.CloseReq(Host(cfg, old(fdMap)[fd]), C.Redir(old(View(C.Idle)), fd))
    {
      var host := Host(cfg, fdMap[fd]);
      var sfd := if fd in fdRedirMap then fdRedirMap[fd] else 0;
      m := C.CloseReq(host, sfd);
      fdRedirMap := fdRedirMap - {fd};
      fdMap := fdMap - {fd};
      local := local - {fd};
    }
  }
}
