/** One HVAC server: the progress thread that runs the RPC handlers, the data mover thread, and the
    tables they share.

    A server is a labelled transition system.  `Act` names the atomic steps of both threads together
    with the choices that are not the server's own (which descriptor open() returned, how much read()
    transferred, where a copy failed); `Enabled` says when a step can happen and `Apply` what it does.
    Steps of the two threads interleave freely, except where `data_mutex` forbids it. */
module CacheServer {
  import opened Posix
  import opened Paths
  import opened Session

  type Count = n: int | n >= 1 witness 1

  /** What does not change during a run. */
  datatype Config = Config(
    files: map<Path, seq<Byte>>,  // the files of the data directory, by canonical path
    hash: Path -> nat,            // std::hash
    servers: Count,               // HVAC_SERVER_COUNT
    nvme: Path,                   // BBPATH
    fullReads: bool,              // the operating system never reads short of the end of a file
    opensMayFail: bool)           // a server may fail to open an existing file

  /** A tracked file: it exists and it is not one of the mover's own copies. */
  predicate Tracked(cfg: Config, p: Path) {
    p in cfg.files && !Under(cfg.nvme, p)
  }

  /** The server every operation on a path is sent to. */
  function Host(cfg: Config, p: Path): (h: nat)
    ensures h < cfg.servers
  {
    cfg.hash(p) % cfg.servers
  }

  /** The server and the hash agree modulo the number of servers. */
  lemma HostLaw(cfg: Config, p: Path)
    ensures exists k: nat :: cfg.hash(p) == k * cfg.servers + Host(cfg, p)
  {
    var k := cfg.hash(p) / cfg.servers;
    assert cfg.hash(p) == k * cfg.servers + Host(cfg, p);
  }

  /** An open file description of the server process. */
  datatype Ofd = Ofd(name: Path, off: nat)

  datatype Lock = Free | ByHandler | ByMover

  /** Where the progress thread is.  Handlers run to completion one at a time. */
  datatype Handler =
    | Idle
    | OpenFound(id: nat, client: nat, lfd: int, path: Path)             // find() hit; about to look up
    | OpenAt(id: nat, client: nat, lfd: int, path: Path, target: Path)  // about to open(redir_path)
    | CloseFind(fd: int)    // close() returned 0; about to search path_cache_map
    | CloseLock(fd: int)    // not cached; about to lock data_mutex
    | CloseSignal(fd: int)
    | ClosePush(fd: int)
    | CloseUnlock(fd: int)
    | CloseErase(fd: int)   // about to erase fd_to_path[fd]
    | Aborted               // assert(ret == 0) failed; the process is gone, its mover with it

  datatype Wake = Asleep | Signalled | Spurious

  /** Where the data mover thread is. */
  datatype Mover =
    | Outside                // about to lock data_mutex
    | Locked                 // about to call pthread_cond_wait
    | Waiting(wake: Wake)
    | Draining               // in the first inner loop, data_mutex held
    | InHand                 // the front of data_queue is pushed on local_list, not yet popped
    | Working                // at the head of the second inner loop
    | Creating(target: Path) // mkdtemp() done, fs::copy about to create the file
    | Copying(target: Path)  // inside fs::copy
    | Popping(ok: bool)      // about to pop local_list; ok: the copy was published

  /** The state of one server.  The last three fields are history: what was ever pushed on data_queue,
      what was popped from local_list and whether it was published, and what was pushed since the last
      drain while the mover was outside pthread_cond_wait. */
  datatype Server = Server(
    fds: map<int, Ofd>,
    disk: map<Path, seq<Byte>>,
    dirs: set<Path>,
    fdToPath: map<int, Path>,
    cache: map<Path, Path>,
    queue: seq<Path>,
    local: seq<Path>,
    mutex: Lock,
    handler: Handler,
    mover: Mover,
    pushed: seq<Path>,
    processed: seq<(Path, bool)>,
    missed: seq<Path>)

  const BOOT := Server(map[], map[], {}, map[], map[], [], [], Free, Idle, Outside, [], [], [])

  /** The steps of the progress thread. */
  datatype HandlerAct =
    | RecvOpen(id: nat, client: nat, lfd: int, path: Path)
    | OpenLookup
    | OpenDo(sfd: int)
    | RecvRead(id: nat, client: nat, sfd: int, count: int, offset: int, n: nat)
    | RecvSeek(id: nat, client: nat, sfd: int, offset: int, whence: int)
    | RecvClose(id: nat, sfd: int)
    | CacheFind
    | HandlerLock
    | HandlerSignal
    | HandlerPush
    | HandlerUnlock
    | HandlerErase

  /** The steps of the data mover thread. */
  datatype MoverAct =
    | MoverLock
    | MoverWait
    | SpuriousWake
    | MoverWake
    | DrainPush
    | DrainPop
    | MoverUnlock
    | MakeDir(dir: Path)
    | CopyCreate
    | CopyByte
    | CopyPublish
    | CopyFail
    | LocalPop
    | NextRound

  datatype Act = Progress(h: HandlerAct) | Move(m: MoverAct)

  /** `fd_to_path[fd]`, read through operator[]: an absent key is inserted with the empty path. */
  function Touch(m: map<int, Path>, fd: int): map<int, Path> {
    if fd in m then m else m[fd := ""]
  }

  function PathOf(v: Server, fd: int): Path {
    if fd in v.fdToPath then v.fdToPath[fd] else ""
  }

  predicate Exists(cfg: Config, v: Server, name: Path) {
    name in v.disk || name in cfg.files
  }

  function Bytes(cfg: Config, v: Server, name: Path): seq<Byte> {
    if name in v.disk then v.disk[name] else if name in cfg.files then cfg.files[name] else []
  }

  function Size(cfg: Config, v: Server, sfd: int): nat
    requires sfd in v.fds
  {
    |Bytes(cfg, v, v.fds[sfd].name)|
  }

  /** Where a read starts: the offset -1 stands for the descriptor's own. */
  function ReadFrom(v: Server, sfd: int, offset: int): nat
    requires sfd in v.fds && offset >= -1
  {
    if offset == -1 then v.fds[sfd].off else offset
  }

  /** The server's read() or pread() fails: bad descriptor, or negative offset. */
  predicate ReadFails(v: Server, sfd: int, offset: int) {
    sfd !in v.fds || offset < -1
  }

  /** The bytes pushed to the client: those read, or a whole zeroed buffer when the read failed. */
  function ReadData(cfg: Config, v: Server, sfd: int, count: nat, offset: int, n: nat): (d: seq<Byte>)
    requires !ReadFails(v, sfd, offset) ==> n <= Available(Size(cfg, v, sfd), ReadFrom(v, sfd, offset))
    ensures |d| == if ReadFails(v, sfd, offset) then count else n
  {
    if ReadFails(v, sfd, offset) then Zeros(count)
    else Slice(Bytes(cfg, v, v.fds[sfd].name), ReadFrom(v, sfd, offset), n)
  }

  /** The answer to a seek request. */
  function SeekAnswer(cfg: Config, v: Server, sfd: int, offset: int, whence: int): int {
    ToInt32(if sfd in v.fds then Lseek(Size(cfg, v, sfd), v.fds[sfd].off, offset, whence) else -1)
  }

  predicate HandlerEnabled(cfg: Config, v: Server, a: HandlerAct) {
    match a
    case RecvOpen(_, _, _, _) => v.handler.Idle?
    case OpenLookup => v.handler.OpenFound? && v.handler.path in v.cache
    case OpenDo(sfd) =>
      && v.handler.OpenAt?
      && (if sfd == -1 then cfg.opensMayFail || !Exists(cfg, v, v.handler.target)
          else sfd >= 0 && sfd !in v.fds && Exists(cfg, v, v.handler.target))
    case RecvRead(_, _, sfd, count, offset, n) =>
      && v.handler.Idle?
      && count > 0
      && (!ReadFails(v, sfd, offset) ==>
            ReadLen(cfg.fullReads, Size(cfg, v, sfd), ReadFrom(v, sfd, offset), count, n))
    case RecvSeek(_, _, _, _, _) => v.handler.Idle?
    case RecvClose(_, _) => v.handler.Idle?
    case CacheFind => v.handler.CloseFind?
    case HandlerLock => v.handler.CloseLock? && v.mutex == Free
    case HandlerSignal => v.handler.CloseSignal?
    case HandlerPush => v.handler.ClosePush?
    case HandlerUnlock => v.handler.CloseUnlock?
    case HandlerErase => v.handler.CloseErase?
  }

  function HandlerApply(cfg: Config, v: Server, a: HandlerAct): Server
    requires HandlerEnabled(cfg, v, a)
  {
    match a
    case RecvOpen(id, client, lfd, path) =>
      v.(handler := if path in v.cache then OpenFound(id, client, lfd, path)
                    else OpenAt(id, client, lfd, path, path))
    case OpenLookup =>
      var h := v.handler;
      v.(handler := OpenAt(h.id, h.client, h.lfd, h.path, v.cache[h.path]))
    case OpenDo(sfd) =>
      v.(fds := if sfd == -1 then v.fds else v.fds[sfd := Ofd(v.handler.target, 0)],
         fdToPath := v.fdToPath[sfd := v.handler.path],
         handler := Idle)
    case RecvRead(_, _, sfd, count, offset, n) =>
      v.(fds := if ReadFails(v, sfd, offset) || offset != -1 then v.fds
                else v.fds[sfd := v.fds[sfd].(off := v.fds[sfd].off + n)],
         fdToPath := Touch(v.fdToPath, sfd))
    case RecvSeek(_, _, sfd, offset, whence) =>
      if sfd in v.fds then
        v.(fds := v.fds[sfd := v.fds[sfd].(off := LseekOff(Size(cfg, v, sfd), v.fds[sfd].off, offset, whence))])
      else v
    case RecvClose(_, sfd) =>
      if sfd in v.fds then v.(fds := v.fds - {sfd}, handler := CloseFind(sfd)) else v.(handler := Aborted)
    case CacheFind =>
      var fd := v.handler.fd;
      v.(fdToPath := Touch(v.fdToPath, fd),
         handler := if PathOf(v, fd) in v.cache then CloseErase(fd) else CloseLock(fd))
    case HandlerLock => v.(mutex := ByHandler, handler := CloseSignal(v.handler.fd))
    case HandlerSignal =>
      v.(mover := if v.mover == Waiting(Asleep) then Waiting(Signalled) else v.mover,
         handler := ClosePush(v.handler.fd))
    case HandlerPush =>
      var p := PathOf(v, v.handler.fd);
      v.(queue := v.queue + [p],
         fdToPath := Touch(v.fdToPath, v.handler.fd),
         handler := CloseUnlock(v.handler.fd),
         pushed := v.pushed + [p],
         missed := if v.mover.Waiting? then v.missed else v.missed + [p])
    case HandlerUnlock => v.(mutex := Free, handler := CloseErase(v.handler.fd))
    case HandlerErase => v.(fdToPath := v.fdToPath - {v.handler.fd}, handler := Idle)
  }

  predicate MoverEnabled(cfg: Config, v: Server, a: MoverAct) {
    match a
    case MoverLock => v.mover.Outside? && v.mutex == Free
    case MoverWait => v.mover.Locked?
    case SpuriousWake => v.mover == Waiting(Asleep)
    case MoverWake => v.mover.Waiting? && v.mover.wake != Asleep && v.mutex == Free
    case DrainPush => v.mover.Draining? && v.queue != []
    case DrainPop => v.mover.InHand? && v.queue != []
    case MoverUnlock => v.mover.Draining? && v.queue == []
    case MakeDir(dir) => v.mover.Working? && v.local != [] && TempDir(cfg.nvme, dir) && dir !in v.dirs
    case CopyCreate => v.mover.Creating? && v.local != [] && Exists(cfg, v, v.local[0])
    case CopyByte =>
      && v.mover.Copying? && v.local != [] && v.mover.target in v.disk
      && |v.disk[v.mover.target]| < |Bytes(cfg, v, v.local[0])|
    case CopyPublish =>
      && v.mover.Copying? && v.local != [] && v.mover.target in v.disk
      && |v.disk[v.mover.target]| == |Bytes(cfg, v, v.local[0])|
    case CopyFail => (v.mover.Working? || v.mover.Creating? || v.mover.Copying?) && v.local != []
    case LocalPop => v.mover.Popping? && v.local != []
    case NextRound => v.mover.Working? && v.local == []
  }

  function MoverApply(cfg: Config, v: Server, a: MoverAct): Server
    requires MoverEnabled(cfg, v, a)
  {
    match a
    case MoverLock => v.(mutex := ByMover, mover := Locked)
    case MoverWait => v.(mutex := Free, mover := Waiting(Asleep))
    case SpuriousWake => v.(mover := Waiting(Spurious))
    case MoverWake => v.(mutex := ByMover, mover := Draining)
    case DrainPush => v.(local := v.local + [v.queue[0]], mover := InHand)
    case DrainPop => v.(queue := v.queue[1..], mover := Draining)
    case MoverUnlock => v.(mutex := Free, mover := Working, missed := [])
    case MakeDir(dir) => v.(dirs := v.dirs + {dir}, mover := Creating(CopyName(dir, v.local[0])))
    case CopyCreate => v.(disk := v.disk[v.mover.target := []], mover := Copying(v.mover.target))
    case CopyByte =>
      var t := v.mover.target;
      v.(disk := v.disk[t := v.disk[t] + [Bytes(cfg, v, v.local[0])[|v.disk[t]|]]])
    case CopyPublish => v.(cache := v.cache[v.local[0] := v.mover.target], mover := Popping(true))
    case CopyFail => v.(mover := Popping(false))
    case LocalPop =>
      v.(local := v.local[1..], mover := Working, processed := v.processed + [(v.local[0], v.mover.ok)])
    case NextRound => v.(mover := Outside)
  }

  predicate Enabled(cfg: Config, v: Server, a: Act) {
    match a
    case Progress(h) => HandlerEnabled(cfg, v, h)
    case Move(m) => !v.handler.Aborted? && MoverEnabled(cfg, v, m)
  }

  function Apply(cfg: Config, v: Server, a: Act): Server
    requires Enabled(cfg, v, a)
  {
    match a
    case Progress(h) => HandlerApply(cfg, v, h)
    case Move(m) => MoverApply(cfg, v, m)
  }

  /** A number this server has answered to an open and not closed: an open descriptor, or -1 for an open
      that failed. */
  predicate Known(v: Server, sfd: int) {
    sfd in v.fds || (sfd == -1 && -1 in v.fdToPath)
  }

  /** What a message must satisfy for the server to rely on it: opens are for files of this server, reads and
      closes are for numbers it has answered. */
  predicate InputOk(cfg: Config, h: nat, v: Server, a: Act) {
    a.Progress? ==>
      && (a.h.RecvOpen? ==> Mine(cfg, h, a.h.path))
      && (a.h.RecvRead? ==> Known(v, a.h.sfd))
      && (a.h.RecvClose? ==> Known(v, a.h.sfd))
  }

  /** A tracked file whose operations are sent to server `h`. */
  predicate Mine(cfg: Config, h: nat, p: Path) {
    Tracked(cfg, p) && Host(cfg, p) == h
  }

  /** A run of one server. */
  ghost predicate Runs(cfg: Config, h: nat, v: Server, acts: seq<Act>, v': Server)
    decreases |acts|
  {
    if acts == [] then v == v'
    else Enabled(cfg, v, acts[0]) && InputOk(cfg, h, v, acts[0]) && Runs(cfg, h, Apply(cfg, v, acts[0]), acts[1..], v')
  }
}
