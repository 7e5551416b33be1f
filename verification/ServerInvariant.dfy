/** What every step of either thread keeps true of one server. */
module ServerInvariant {
  import opened Posix
  import opened Paths
  import opened Session
  import opened CacheServer

  /** The file the mover is writing at the moment. */
  predicate InFlight(m: Mover, name: Path) {
    (m.Creating? || m.Copying?) && m.target == name
  }

  /** `name` can be opened in place of `p`, now and for ever: it is `p` itself or a finished copy. */
  ghost predicate StandsFor(cfg: Config, v: Server, name: Path, p: Path)
    requires p in cfg.files
  {
    name == p || (name in v.disk && v.disk[name] == cfg.files[p] && !InFlight(v.mover, name))
  }

  /** Only client-requested paths of this server are in its tables. */
  ghost predicate PathsOk(cfg: Config, h: nat, v: Server) {
    && (forall fd :: fd in v.fdToPath ==> Mine(cfg, h, v.fdToPath[fd]))
    && (forall i :: 0 <= i < |v.queue| ==> Mine(cfg, h, v.queue[i]))
    && (forall i :: 0 <= i < |v.local| ==> Mine(cfg, h, v.local[i]))
    && (forall p :: p in v.cache ==> Mine(cfg, h, p))
    && (v.handler.OpenFound? || v.handler.OpenAt? ==> Mine(cfg, h, v.handler.path))
  }

  /** The node-local disk holds only files in directories the mover made. */
  ghost predicate DiskOk(cfg: Config, v: Server) {
    forall q :: q in v.disk ==> Under(cfg.nvme, q) && DirName(q) in v.dirs
  }

  /** `name` is the file name of `p` in a directory of mkdtemp(). */
  predicate NamedFor(cfg: Config, name: Path, p: Path) {
    name == CopyName(DirName(name), p) && TempDir(cfg.nvme, DirName(name))
  }

  ghost predicate MoverOk(cfg: Config, v: Server) {
    && (v.mover.InHand? ==> v.queue != [] && v.local != [] && v.local[|v.local| - 1] == v.queue[0])
    && (v.mover.Creating? || v.mover.Copying? || v.mover.Popping? ==> v.local != [])
    && (v.mover.Outside? || v.mover.Locked? || v.mover.Waiting? ==> v.local == [])
    && (v.mover.Creating? ==>
          && v.mover.target !in v.disk
          && Under(cfg.nvme, v.mover.target) && DirName(v.mover.target) in v.dirs)
    && (v.mover.Creating? || v.mover.Copying? ==> NamedFor(cfg, v.mover.target, v.local[0]))
    && (v.mover.Copying? ==>
          && v.mover.target in v.disk
          && v.local[0] in cfg.files
          && v.disk[v.mover.target] <= cfg.files[v.local[0]])
    && (v.mover.Popping? && v.mover.ok ==> v.local[0] in v.cache)
  }

  /** `p` is redirected to a complete copy that bears its name. */
  ghost predicate Published(cfg: Config, v: Server, p: Path)
    requires p in v.cache
  {
    && p in cfg.files && v.cache[p] != p && v.cache[p] in v.disk && StandsFor(cfg, v, v.cache[p], p)
    && NamedFor(cfg, v.cache[p], p)
  }

  /** Publication is sound: a redirection leads to a complete, byte-equal, node-local copy. */
  ghost predicate CacheOk(cfg: Config, v: Server) {
    && (forall p :: p in v.cache ==> Published(cfg, v, p))
    && (v.handler.OpenFound? ==> v.handler.path in v.cache)
    && (v.handler.OpenAt? ==> v.handler.path in cfg.files && StandsFor(cfg, v, v.handler.target, v.handler.path))
  }

  predicate Closing(k: Handler) {
    || k.CloseFind? || k.CloseLock? || k.CloseSignal? || k.ClosePush? || k.CloseUnlock? || k.CloseErase?
  }

  /** `fd_to_path` names exactly the open descriptors, the one the close handler is working on, and -1 once
      an open has failed. */
  ghost predicate TableOk(cfg: Config, v: Server) {
    && (forall fd :: fd in v.fds ==>
          && fd >= 0 && fd in v.fdToPath && v.fdToPath[fd] in cfg.files
          && StandsFor(cfg, v, v.fds[fd].name, v.fdToPath[fd]))
    && (forall fd :: fd in v.fdToPath ==>
          fd in v.fds || (Closing(v.handler) && fd == v.handler.fd) || (fd == -1 && cfg.opensMayFail))
    && (v.handler.Aborted? ==> -1 in v.fdToPath)
    && (Closing(v.handler) ==> v.handler.fd >= 0 && v.handler.fd !in v.fds && v.handler.fd in v.fdToPath)
  }

  /** data_mutex and the wake-up protocol. */
  ghost predicate WakeOk(v: Server) {
    && (v.mutex == ByHandler <==> v.handler.CloseSignal? || v.handler.ClosePush? || v.handler.CloseUnlock?)
    && (v.mutex == ByMover <==> v.mover.Locked? || v.mover.Draining? || v.mover.InHand?)
    && (v.mover == Waiting(Signalled) ==> v.queue != [] || v.handler.ClosePush?)
    && (!v.mover.Draining? && !v.mover.InHand? && (v.mover.Waiting? ==> v.mover.wake == Asleep) ==>
          v.queue == v.missed)
    && (v.mover == Waiting(Asleep) ==> !v.handler.ClosePush?)
  }

  function Popped(processed: seq<(Path, bool)>): (s: seq<Path>)
    ensures |s| == |processed|
  {
    seq(|processed|, i requires 0 <= i < |processed| => processed[i].0)
  }

  /** The part of data_queue that is not in the mover's hand. */
  function Unclaimed(v: Server): seq<Path> {
    if v.mover.InHand? && v.queue != [] then v.queue[1..] else v.queue
  }

  /** Nothing pushed is lost, duplicated or reordered; what is recorded as published is published. */
  ghost predicate HistoryOk(v: Server) {
    && v.pushed == Popped(v.processed) + v.local + Unclaimed(v)
    && (forall i :: 0 <= i < |v.processed| && v.processed[i].1 ==> v.processed[i].0 in v.cache)
    && (forall p :: p in v.cache ==>
          (p, true) in v.processed || (v.mover == Popping(true) && v.local != [] && p == v.local[0]))
  }

  ghost predicate ServerOk(cfg: Config, h: nat, v: Server) {
    && PathsOk(cfg, h, v)
    && DiskOk(cfg, v)
    && MoverOk(cfg, v)
    && CacheOk(cfg, v)
    && TableOk(cfg, v)
    && WakeOk(v)
    && HistoryOk(v)
  }

  lemma BootOk(cfg: Config, h: nat)
    ensures ServerOk(cfg, h, BOOT)
  {
  }

  /** A tracked file is read from the data directory, never from the node-local disk. */
  lemma SourceBytes(cfg: Config, v: Server, p: Path)
    requires DiskOk(cfg, v) && Tracked(cfg, p)
    ensures p !in v.disk && Bytes(cfg, v, p) == cfg.files[p]
  {
  }

  /** Whatever stands for `p` has the bytes of `p`. */
  lemma StandInBytes(cfg: Config, v: Server, name: Path, p: Path)
    requires DiskOk(cfg, v) && Tracked(cfg, p) && StandsFor(cfg, v, name, p)
    ensures Exists(cfg, v, name) && Bytes(cfg, v, name) == cfg.files[p]
  {
  }

  lemma HandlerLeavesDisk(cfg: Config, v: Server, a: HandlerAct)
    requires HandlerEnabled(cfg, v, a)
    ensures var v' := HandlerApply(cfg, v, a);
            && v'.disk == v.disk && v'.local == v.local && v'.processed == v.processed && v'.cache == v.cache
            && (v'.mover == v.mover || (v.mover.Waiting? && v'.mover.Waiting?))
  {
  }

  /** Stand-ins survive any step: the mover only ever writes the file in flight. */
  lemma StandsForMoverKept(cfg: Config, v: Server, a: MoverAct, name: Path, p: Path)
    requires DiskOk(cfg, v) && MoverOk(cfg, v) && MoverEnabled(cfg, v, a)
    requires p in cfg.files && StandsFor(cfg, v, name, p)
    ensures StandsFor(cfg, MoverApply(cfg, v, a), name, p)
  {
    if a.MakeDir? {
      CopyNameInjective(a.dir, v.local[0]);
    }
  }

  lemma HandlerPathsKept(cfg: Config, h: nat, v: Server, a: HandlerAct)
    requires PathsOk(cfg, h, v) && TableOk(cfg, v)
    requires HandlerEnabled(cfg, v, a) && InputOk(cfg, h, v, Progress(a))
    ensures PathsOk(cfg, h, HandlerApply(cfg, v, a))
  {
    match a
    case RecvRead(_, _, _, _, _, _) =>
    case CacheFind =>
    case HandlerPush =>
    case HandlerErase =>
    case _ =>
  }

  lemma MoverPathsKept(cfg: Config, h: nat, v: Server, a: MoverAct)
    requires PathsOk(cfg, h, v) && MoverEnabled(cfg, v, a)
    ensures PathsOk(cfg, h, MoverApply(cfg, v, a))
  {
  }

  lemma MoverDiskKept(cfg: Config, v: Server, a: MoverAct)
    requires DiskOk(cfg, v) && MoverOk(cfg, v) && MoverEnabled(cfg, v, a)
    ensures DiskOk(cfg, MoverApply(cfg, v, a))
  {
    match a
    case CopyCreate =>
    case CopyByte =>
    case _ =>
  }

  lemma CopyByteKept(cfg: Config, h: nat, v: Server)
    requires PathsOk(cfg, h, v) && DiskOk(cfg, v) && MoverOk(cfg, v) && MoverEnabled(cfg, v, CopyByte)
    ensures MoverOk(cfg, MoverApply(cfg, v, CopyByte))
  {
    SourceBytes(cfg, v, v.local[0]);
  }

  lemma MakeDirKept(cfg: Config, v: Server, dir: Path)
    requires DiskOk(cfg, v) && MoverEnabled(cfg, v, MakeDir(dir))
    ensures MoverOk(cfg, MoverApply(cfg, v, MakeDir(dir)))
  {
    CopyNameInjective(dir, v.local[0]);
    CopyUnder(cfg.nvme, dir, v.local[0]);
  }

  lemma MoverKept(cfg: Config, h: nat, v: Server, a: MoverAct)
    requires PathsOk(cfg, h, v) && DiskOk(cfg, v) && MoverOk(cfg, v) && MoverEnabled(cfg, v, a)
    ensures MoverOk(cfg, MoverApply(cfg, v, a))
  {
    match a
    case MakeDir(dir) => MakeDirKept(cfg, v, dir);
    case CopyByte => CopyByteKept(cfg, h, v);
    case _ =>
  }

  lemma HandlerLeavesMover(cfg: Config, v: Server, a: HandlerAct)
    requires MoverOk(cfg, v) && HandlerEnabled(cfg, v, a)
    ensures MoverOk(cfg, HandlerApply(cfg, v, a))
  {
  }

  lemma HandlerCacheKept(cfg: Config, h: nat, v: Server, a: HandlerAct)
    requires PathsOk(cfg, h, v) && CacheOk(cfg, v)
    requires HandlerEnabled(cfg, v, a) && InputOk(cfg, h, v, Progress(a))
    ensures CacheOk(cfg, HandlerApply(cfg, v, a))
  {
    var v' := HandlerApply(cfg, v, a);
    assert v'.cache == v.cache && v'.disk == v.disk;
    assert v'.mover == v.mover || (v.mover.Waiting? && v'.mover.Waiting?);
  }

  lemma PublishCacheKept(cfg: Config, h: nat, v: Server)
    requires PathsOk(cfg, h, v) && DiskOk(cfg, v) && MoverOk(cfg, v) && CacheOk(cfg, v)
    requires MoverEnabled(cfg, v, CopyPublish)
    ensures CacheOk(cfg, MoverApply(cfg, v, CopyPublish))
  {
    var v' := MoverApply(cfg, v, CopyPublish);
    PublishedOk(cfg, h, v);
    forall p | p in v'.cache
      ensures Published(cfg, v', p)
    {
      assert p != v.local[0] ==> Published(cfg, v, p);
    }
  }

  lemma PublishedOk(cfg: Config, h: nat, v: Server)
    requires PathsOk(cfg, h, v) && DiskOk(cfg, v) && MoverOk(cfg, v) && MoverEnabled(cfg, v, CopyPublish)
    ensures Published(cfg, MoverApply(cfg, v, CopyPublish), v.local[0])
  {
    SourceBytes(cfg, v, v.local[0]);
  }

  /** Only a publication changes the redirections. */
  lemma MoverLeavesCache(cfg: Config, v: Server, a: MoverAct)
    requires MoverEnabled(cfg, v, a) && !a.CopyPublish?
    ensures var v' := MoverApply(cfg, v, a);
            v'.cache == v.cache && v'.handler == v.handler && v.disk.Keys <= v'.disk.Keys
  {
  }

  lemma MoverCacheKept(cfg: Config, h: nat, v: Server, a: MoverAct)
    requires PathsOk(cfg, h, v) && DiskOk(cfg, v) && MoverOk(cfg, v) && CacheOk(cfg, v)
    requires MoverEnabled(cfg, v, a)
    ensures CacheOk(cfg, MoverApply(cfg, v, a))
  {
    if a.CopyPublish? {
      PublishCacheKept(cfg, h, v);
    } else {
      var v' := MoverApply(cfg, v, a);
      MoverLeavesCache(cfg, v, a);
      forall p | p in v.cache
        ensures StandsFor(cfg, v', v.cache[p], p) && v.cache[p] in v'.disk
      {
        StandsForMoverKept(cfg, v, a, v.cache[p], p);
      }
      if v.handler.OpenAt? {
        StandsForMoverKept(cfg, v, a, v.handler.target, v.handler.path);
      }
    }
  }

  lemma OpenTableKept(cfg: Config, h: nat, v: Server, sfd: int)
    requires PathsOk(cfg, h, v) && DiskOk(cfg, v) && CacheOk(cfg, v) && TableOk(cfg, v)
    requires HandlerEnabled(cfg, v, OpenDo(sfd))
    ensures (sfd == -1 ==> cfg.opensMayFail) && TableOk(cfg, HandlerApply(cfg, v, OpenDo(sfd)))
  {
    StandInBytes(cfg, v, v.handler.target, v.handler.path);
  }

  /** Apart from open, a handler step only moves offsets, drops a descriptor or drops a table entry. */
  lemma HandlerTables(cfg: Config, h: nat, v: Server, a: HandlerAct)
    requires TableOk(cfg, v) && !a.OpenDo?
    requires HandlerEnabled(cfg, v, a) && InputOk(cfg, h, v, Progress(a))
    ensures SameTables(v, HandlerApply(cfg, v, a), a)
  {
  }

  ghost predicate SameTables(v: Server, v': Server, a: HandlerAct) {
    && v'.fds.Keys == (if a.RecvClose? then v.fds.Keys - {a.sfd} else v.fds.Keys)
    && (forall fd :: fd in v'.fds ==> v'.fds[fd].name == v.fds[fd].name)
    && v'.disk == v.disk
    && (v'.mover == v.mover || (v.mover.Waiting? && v'.mover.Waiting?))
    && (if a.HandlerErase? then
          Closing(v.handler) && v'.handler.Idle? && v'.fdToPath == v.fdToPath - {v.handler.fd}
        else
          && v'.fdToPath == v.fdToPath
          && (if a.RecvClose? then
                !Closing(v.handler) && Known(v, a.sfd) && v'.handler ==
                  if a.sfd in v.fds then CloseFind(a.sfd) else Aborted
              else
                && !v'.handler.Aborted?
                && Closing(v'.handler) == Closing(v.handler)
                && (Closing(v'.handler) ==> v'.handler.fd == v.handler.fd)))
  }

  lemma TableFrame(cfg: Config, v: Server, v': Server, a: HandlerAct)
    requires TableOk(cfg, v) && SameTables(v, v', a)
    ensures TableOk(cfg, v')
  {
    forall fd | fd in v'.fds
      ensures fd >= 0 && fd in v'.fdToPath && v'.fdToPath[fd] in cfg.files
      ensures StandsFor(cfg, v', v'.fds[fd].name, v'.fdToPath[fd])
    {
      assert fd in v.fds;
    }
  }

  lemma HandlerTableKept(cfg: Config, h: nat, v: Server, a: HandlerAct)
    requires PathsOk(cfg, h, v) && DiskOk(cfg, v) && CacheOk(cfg, v) && TableOk(cfg, v)
    requires HandlerEnabled(cfg, v, a) && InputOk(cfg, h, v, Progress(a))
    ensures TableOk(cfg, HandlerApply(cfg, v, a))
  {
    if a.OpenDo? {
      OpenTableKept(cfg, h, v, a.sfd);
    } else {
      HandlerTables(cfg, h, v, a);
      TableFrame(cfg, v, HandlerApply(cfg, v, a), a);
    }
  }

  lemma MoverTableKept(cfg: Config, v: Server, a: MoverAct)
    requires DiskOk(cfg, v) && MoverOk(cfg, v) && TableOk(cfg, v)
    requires MoverEnabled(cfg, v, a)
    ensures TableOk(cfg, MoverApply(cfg, v, a))
  {
    forall fd | fd in v.fds
      ensures StandsFor(cfg, MoverApply(cfg, v, a), v.fds[fd].name, v.fdToPath[fd])
    {
      StandsForMoverKept(cfg, v, a, v.fds[fd].name, v.fdToPath[fd]);
    }
  }

  lemma HandlerWakeKept(cfg: Config, v: Server, a: HandlerAct)
    requires WakeOk(v) && HandlerEnabled(cfg, v, a)
    ensures WakeOk(HandlerApply(cfg, v, a))
  {
  }

  lemma MoverWakeKept(cfg: Config, v: Server, a: MoverAct)
    requires WakeOk(v) && MoverEnabled(cfg, v, a)
    ensures WakeOk(MoverApply(cfg, v, a))
  {
  }

  lemma HandlerHistoryKept(cfg: Config, v: Server, a: HandlerAct)
    requires MoverOk(cfg, v) && HistoryOk(v) && HandlerEnabled(cfg, v, a)
    ensures HistoryOk(HandlerApply(cfg, v, a))
  {
  }

  lemma PopHistoryKept(cfg: Config, v: Server)
    requires MoverOk(cfg, v) && HistoryOk(v) && MoverEnabled(cfg, v, LocalPop)
    ensures HistoryOk(MoverApply(cfg, v, LocalPop))
  {
    var v' := MoverApply(cfg, v, LocalPop);
    assert Popped(v'.processed) == Popped(v.processed) + [v.local[0]];
    assert v.local == [v.local[0]] + v'.local;
    forall p | p in v'.cache
      ensures (p, true) in v'.processed
    {
      assert (p, true) in v.processed || (p, true) == v'.processed[|v.processed|];
    }
  }

  lemma MoverHistoryKept(cfg: Config, v: Server, a: MoverAct)
    requires MoverOk(cfg, v) && HistoryOk(v) && MoverEnabled(cfg, v, a)
    ensures HistoryOk(MoverApply(cfg, v, a))
  {
    var v' := MoverApply(cfg, v, a);
    match a
    case LocalPop =>
      PopHistoryKept(cfg, v);
    case DrainPush =>
      assert v.queue == [v.queue[0]] + v.queue[1..];
      assert v'.pushed == Popped(v'.processed) + v'.local + Unclaimed(v');
    case CopyPublish =>
    case _ =>
      assert v'.processed == v.processed && v'.cache == v.cache;
  }

  lemma HandlerStepKeeps(cfg: Config, h: nat, v: Server, a: HandlerAct)
    requires ServerOk(cfg, h, v) && HandlerEnabled(cfg, v, a) && InputOk(cfg, h, v, Progress(a))
    ensures ServerOk(cfg, h, HandlerApply(cfg, v, a))
  {
    HandlerPathsKept(cfg, h, v, a);
    HandlerCacheKept(cfg, h, v, a);
    HandlerWakeKept(cfg, v, a);
    HandlerLeavesMover(cfg, v, a);
    HandlerTableKept(cfg, h, v, a);
    HandlerHistoryKept(cfg, v, a);
    HandlerLeavesDisk(cfg, v, a);
  }

  lemma MoverStepKeeps(cfg: Config, h: nat, v: Server, a: MoverAct)
    requires ServerOk(cfg, h, v) && MoverEnabled(cfg, v, a)
    ensures ServerOk(cfg, h, MoverApply(cfg, v, a))
  {
    MoverPathsKept(cfg, h, v, a);
    MoverDiskKept(cfg, v, a);
    MoverKept(cfg, h, v, a);
    MoverCacheKept(cfg, h, v, a);
    MoverWakeKept(cfg, v, a);
    MoverTableKept(cfg, v, a);
    MoverHistoryKept(cfg, v, a);
  }

  /** Every step of either thread keeps the server consistent. */
  lemma ServerStepKeeps(cfg: Config, h: nat, v: Server, a: Act)
    requires ServerOk(cfg, h, v) && Enabled(cfg, v, a) && InputOk(cfg, h, v, a)
    ensures ServerOk(cfg, h, Apply(cfg, v, a))
  {
    match a
    case Progress(k) => HandlerStepKeeps(cfg, h, v, k);
    case Move(m) => MoverStepKeeps(cfg, h, v, m);
  }

  lemma {:induction false} ServerRunKeeps(cfg: Config, h: nat, v: Server, acts: seq<Act>, v': Server)
    requires ServerOk(cfg, h, v) && Runs(cfg, h, v, acts, v')
    ensures ServerOk(cfg, h, v')
    decreases |acts|
  {
    if acts == [] {
    } else {
      ServerStepKeeps(cfg, h, v, acts[0]);
      ServerRunKeeps(cfg, h, Apply(cfg, v, acts[0]), acts[1..], v');
    }
  }
}
