/** What holds of whole runs of one server: the order of the queue, the wake-up protocol, the publication
    of copies, and the progress of the mover. */
module MoverTheorems {
  import opened Posix
  import opened Paths
  import opened Session
  import opened CacheServer
  import opened ServerInvariant

  // ---------------------------------------------------------------- queue order

  /** The paths the close handler pushes on data_queue along a run, oldest first. */
  ghost function Pushes(cfg: Config, h: nat, v: Server, acts: seq<Act>, v': Server): seq<Path>
    requires Runs(cfg, h, v, acts, v')
    decreases |acts|
  {
    if acts == [] then []
    else
      PushOf(v, acts[0]) + Pushes(cfg, h, Apply(cfg, v, acts[0]), acts[1..], v')
  }

  lemma OnlyPushPushes(cfg: Config, v: Server, a: HandlerAct)
    requires HandlerEnabled(cfg, v, a) && a != HandlerPush
    ensures HandlerApply(cfg, v, a).pushed == v.pushed && HandlerApply(cfg, v, a).missed == v.missed
  {
  }

  lemma MoverPushesNothing(cfg: Config, v: Server, a: MoverAct)
    requires MoverEnabled(cfg, v, a)
    ensures MoverApply(cfg, v, a).pushed == v.pushed
    ensures a != MoverUnlock ==> MoverApply(cfg, v, a).missed == v.missed
  {
  }

  /** What a step pushes. */
  function PushOf(v: Server, a: Act): seq<Path> {
    if a == Progress(HandlerPush) && v.handler.ClosePush? then [PathOf(v, v.handler.fd)] else []
  }

  lemma PushStep(cfg: Config, v: Server, a: Act)
    requires Enabled(cfg, v, a)
    ensures Apply(cfg, v, a).pushed == v.pushed + PushOf(v, a)
    ensures a != Move(MoverUnlock) ==>
              Apply(cfg, v, a).missed == v.missed + (if v.mover.Waiting? then [] else PushOf(v, a))
  {
    match a
    case Progress(k) => if k != HandlerPush { OnlyPushPushes(cfg, v, k); }
    case Move(m) => MoverPushesNothing(cfg, v, m);
  }

  lemma Regroup(a: seq<Path>, b: seq<Path>, c: seq<Path>)
    ensures (a + b) + c == a + (b + c)
  {
  }

  lemma {:induction false} PushedIsPushes(cfg: Config, h: nat, v: Server, acts: seq<Act>, v': Server)
    requires Runs(cfg, h, v, acts, v')
    ensures v'.pushed == v.pushed + Pushes(cfg, h, v, acts, v')
    decreases |acts|
  {
    if acts == [] {
    } else {
      var v1 := Apply(cfg, v, acts[0]);
      PushStep(cfg, v, acts[0]);
      PushedIsPushes(cfg, h, v1, acts[1..], v');
      Regroup(v.pushed, PushOf(v, acts[0]), Pushes(cfg, h, v1, acts[1..], v'));
    }
  }

  lemma ReachableHistory(cfg: Config, h: nat, acts: seq<Act>, v: Server)
    requires Runs(cfg, h, BOOT, acts, v)
    ensures v.pushed == Popped(v.processed) + v.local + Unclaimed(v)
  {
    BootOk(cfg, h);
    ServerRunKeeps(cfg, h, BOOT, acts, v);
  }

  /** At every moment of every run, the paths taken off local_list, then local_list, then the part of
      data_queue the mover has not taken, spell out the sequence of all pushes. */
  lemma QueueConservation(cfg: Config, h: nat, acts: seq<Act>, v: Server)
    requires Runs(cfg, h, BOOT, acts, v)
    ensures Popped(v.processed) + v.local + Unclaimed(v) == Pushes(cfg, h, BOOT, acts, v)
  {
    ReachableHistory(cfg, h, acts, v);
    PushedIsPushes(cfg, h, BOOT, acts, v);
  }

  // ---------------------------------------------------------------- wake-ups

  /** The pushes made along a run while the mover was outside pthread_cond_wait. */
  ghost function PushesOutsideWait(cfg: Config, h: nat, v: Server, acts: seq<Act>, v': Server): seq<Path>
    requires Runs(cfg, h, v, acts, v')
    decreases |acts|
  {
    if acts == [] then []
    else
      (if v.mover.Waiting? then [] else PushOf(v, acts[0]))
      + PushesOutsideWait(cfg, h, Apply(cfg, v, acts[0]), acts[1..], v')
  }

  lemma {:induction false} MissedIsOutsideWait(cfg: Config, h: nat, v: Server, acts: seq<Act>, v': Server)
    requires Runs(cfg, h, v, acts, v') && Move(MoverUnlock) !in acts
    ensures v'.missed == v.missed + PushesOutsideWait(cfg, h, v, acts, v')
    decreases |acts|
  {
    if acts == [] {
    } else {
      var v1 := Apply(cfg, v, acts[0]);
      PushStep(cfg, v, acts[0]);
      MissedIsOutsideWait(cfg, h, v1, acts[1..], v');
      Regroup(v.missed, if v.mover.Waiting? then [] else PushOf(v, acts[0]),
              PushesOutsideWait(cfg, h, v1, acts[1..], v'));
    }
  }

  /** The closer signals before it pushes, yet a pending wake-up always finds something to drain once
      data_mutex can be taken. */
  lemma WakeFindsWork(cfg: Config, h: nat, acts: seq<Act>, v: Server)
    requires Runs(cfg, h, BOOT, acts, v) && v.mover == Waiting(Signalled) && v.mutex == Free
    ensures v.queue != [] && MoverEnabled(cfg, v, MoverWake)
  {
    WakeRunKeeps(cfg, h, BOOT, acts, v);
  }

  /** The wake-up protocol depends on nothing but the protocol. */
  lemma {:induction false} WakeRunKeeps(cfg: Config, h: nat, v: Server, acts: seq<Act>, v': Server)
    requires WakeOk(v) && Runs(cfg, h, v, acts, v')
    ensures WakeOk(v')
    decreases |acts|
  {
    if acts == [] {
    } else {
      match acts[0] {
        case Progress(a) => HandlerWakeKept(cfg, v, a);
        case Move(a) => MoverWakeKept(cfg, v, a);
      }
      WakeRunKeeps(cfg, h, Apply(cfg, v, acts[0]), acts[1..], v');
    }
  }

  /** The server has just started, or the mover has just finished a drain. */
  ghost predicate DrainEnded(cfg: Config, h: nat, v: Server) {
    || v == BOOT
    || exists u :: ServerOk(cfg, h, u) && Enabled(cfg, u, Move(MoverUnlock)) && v == Apply(cfg, u, Move(MoverUnlock))
  }

  lemma DrainEndedOk(cfg: Config, h: nat, v: Server)
    requires DrainEnded(cfg, h, v)
    ensures ServerOk(cfg, h, v) && v.missed == []
  {
    if v == BOOT {
      BootOk(cfg, h);
    } else {
      var u :| ServerOk(cfg, h, u) && Enabled(cfg, u, Move(MoverUnlock)) && v == Apply(cfg, u, Move(MoverUnlock));
      ServerStepKeeps(cfg, h, u, Move(MoverUnlock));
    }
  }

  /** The pushes of a run since the last drain in it (or its start) that came while the mover was outside
      pthread_cond_wait. */
  ghost function MissedPushes(cfg: Config, h: nat, v: Server, acts: seq<Act>, v': Server): seq<Path>
    requires Runs(cfg, h, v, acts, v')
    decreases |acts|
  {
    if Move(MoverUnlock) in acts then MissedPushes(cfg, h, Apply(cfg, v, acts[0]), acts[1..], v')
    else PushesOutsideWait(cfg, h, v, acts, v')
  }

  lemma {:induction false} MissedIsPushes(cfg: Config, h: nat, v: Server, acts: seq<Act>, v': Server)
    requires Runs(cfg, h, v, acts, v') && (v.missed == [] || Move(MoverUnlock) in acts)
    ensures v'.missed == MissedPushes(cfg, h, v, acts, v')
    decreases |acts|
  {
    if Move(MoverUnlock) !in acts {
      MissedIsOutsideWait(cfg, h, v, acts, v');
    } else {
      assert acts[0] == Move(MoverUnlock) || Move(MoverUnlock) in acts[1..];
      MissedIsPushes(cfg, h, Apply(cfg, v, acts[0]), acts[1..], v');
    }
  }

  /** Take any run from the start of the server or the end of a drain.  While the mover sleeps unsignalled, the
      queue holds exactly what was pushed since the last drain while the mover was outside
      pthread_cond_wait: only those signals are lost. */
  lemma OnlyMissedSignalsWait(cfg: Config, h: nat, v: Server, acts: seq<Act>, v': Server)
    requires DrainEnded(cfg, h, v) && Runs(cfg, h, v, acts, v')
    requires v'.mover == Waiting(Asleep)
    ensures v'.queue == MissedPushes(cfg, h, v, acts, v')
  {
    DrainEndedOk(cfg, h, v);
    ServerRunKeeps(cfg, h, v, acts, v');
    MissedIsPushes(cfg, h, v, acts, v');
    assert WakeOk(v');
  }

  /** Both threads at rest: no handler is running and the mover sleeps unsignalled. */
  predicate AtRest(v: Server) {
    v.handler.Idle? && v.mover == Waiting(Asleep)
  }

  lemma RestingQueue(cfg: Config, h: nat, v: Server)
    requires ServerOk(cfg, h, v) && AtRest(v)
    ensures Popped(v.processed) == v.pushed <==> v.queue == []
  {
    assert |v.pushed| == |v.processed| + |v.queue|;
  }

  /** "Every closed file is eventually cached (or its copy fails)" holds of a server at rest exactly when
      no push since the last drain came while the mover was outside pthread_cond_wait. */
  lemma AllProcessedIffNoneMissed(cfg: Config, h: nat, v: Server, acts: seq<Act>, v': Server)
    requires DrainEnded(cfg, h, v) && Runs(cfg, h, v, acts, v') && AtRest(v')
    ensures Popped(v'.processed) == v'.pushed <==> MissedPushes(cfg, h, v, acts, v') == []
  {
    OnlyMissedSignalsWait(cfg, h, v, acts, v');
    DrainEndedOk(cfg, h, v);
    ServerRunKeeps(cfg, h, v, acts, v');
    RestingQueue(cfg, h, v');
  }

  // ---------------------------------------------------------------- publication

  /** Redirection is sound at every moment of every run, also in the middle of a copy. */
  lemma PublicationSound(cfg: Config, h: nat, acts: seq<Act>, v: Server, p: Path)
    requires Runs(cfg, h, BOOT, acts, v) && p in v.cache
    ensures Mine(cfg, h, p) && v.cache[p] in v.disk && v.disk[v.cache[p]] == cfg.files[p]
    ensures !InFlight(v.mover, v.cache[p])
    ensures Under(cfg.nvme, v.cache[p]) && v.cache[p] !in v.cache
    ensures v.cache[p] == DirName(v.cache[p]) + "/" + Filename(p) && TempDir(cfg.nvme, DirName(v.cache[p]))
    ensures cfg.nvme + "/" <= DirName(v.cache[p]) && |DirName(v.cache[p])| == |cfg.nvme| + 7
    ensures forall d, f :: '/' !in f && p == d + "/" + f ==> v.cache[p] == DirName(v.cache[p]) + "/" + f
    ensures (p, true) in v.processed || v.mover == Popping(true)
  {
    BootOk(cfg, h);
    ServerRunKeeps(cfg, h, BOOT, acts, v);
    assert NamedFor(cfg, v.cache[p], p);
    forall d, f | '/' !in f && p == d + "/" + f
      ensures v.cache[p] == DirName(v.cache[p]) + "/" + f
    {
      FilenameLaw(d, f);
    }
  }

  /** One lookup is enough: what a path is redirected to is never redirected itself, queued, or recorded as
      the path of a descriptor; and every open descriptor, redirected or not, reads the bytes of the path
      it is recorded under. */
  lemma OneHopRedirection(cfg: Config, h: nat, acts: seq<Act>, v: Server, p: Path)
    requires Runs(cfg, h, BOOT, acts, v) && p in v.cache
    ensures v.cache[p] !in v.cache && v.cache[p] !in v.queue && v.cache[p] !in v.local
    ensures v.cache[p] !in v.fdToPath.Values
    ensures forall sfd :: sfd in v.fds ==>
              && sfd in v.fdToPath && Mine(cfg, h, v.fdToPath[sfd])
              && Bytes(cfg, v, v.fds[sfd].name) == cfg.files[v.fdToPath[sfd]]
  {
    BootOk(cfg, h);
    ServerRunKeeps(cfg, h, BOOT, acts, v);
    CopiesAreNotRequested(cfg, h, v, v.cache[p]);
    forall sfd | sfd in v.fds
      ensures sfd in v.fdToPath && Mine(cfg, h, v.fdToPath[sfd])
      ensures Bytes(cfg, v, v.fds[sfd].name) == cfg.files[v.fdToPath[sfd]]
    {
      OpenBytes(cfg, h, v, sfd);
    }
  }

  lemma CopiesAreNotRequested(cfg: Config, h: nat, v: Server, q: Path)
    requires PathsOk(cfg, h, v) && DiskOk(cfg, v) && q in v.disk
    ensures q !in v.cache && q !in v.queue && q !in v.local && q !in v.fdToPath.Values
  {
    assert !Tracked(cfg, q);
    assert forall fd :: fd in v.fdToPath ==> Tracked(cfg, v.fdToPath[fd]);
  }

  lemma OpenBytes(cfg: Config, h: nat, v: Server, sfd: int)
    requires PathsOk(cfg, h, v) && DiskOk(cfg, v) && TableOk(cfg, v) && sfd in v.fds
    ensures sfd in v.fdToPath && Mine(cfg, h, v.fdToPath[sfd])
    ensures Bytes(cfg, v, v.fds[sfd].name) == cfg.files[v.fdToPath[sfd]]
  {
    StandInBytes(cfg, v, v.fds[sfd].name, v.fdToPath[sfd]);
  }

  /** The open handler has looked `p` up and found it cached, or found it not cached. */
  predicate LookedUp(cfg: Config, v: Server, p: Path, cached: bool) {
    match v.handler
    case OpenFound(_, _, _, path) => path == p && cached
    case OpenAt(_, _, _, path, target) => path == p && (if cached then Under(cfg.nvme, target) else target == p)
    case _ => false
  }

  lemma {:induction false} LookupStays(cfg: Config, h: nat, v: Server, acts: seq<Act>, v': Server,
                                       p: Path, cached: bool)
    requires ServerOk(cfg, h, v) && Runs(cfg, h, v, acts, v') && LookedUp(cfg, v, p, cached)
    requires forall i :: 0 <= i < |acts| ==> !(acts[i].Progress? && acts[i].h.OpenDo?)
    ensures ServerOk(cfg, h, v') && LookedUp(cfg, v', p, cached)
    decreases |acts|
  {
    if acts == [] {
    } else {
      var v1 := Apply(cfg, v, acts[0]);
      assert !(acts[0].Progress? && acts[0].h.OpenDo?);
      ServerStepKeeps(cfg, h, v, acts[0]);
      LookupStep(cfg, h, v, acts[0], p, cached);
      LookupStays(cfg, h, v1, acts[1..], v', p, cached);
    }
  }

  lemma LookupStep(cfg: Config, h: nat, v: Server, a: Act, p: Path, cached: bool)
    requires DiskOk(cfg, v) && CacheOk(cfg, v) && Enabled(cfg, v, a) && LookedUp(cfg, v, p, cached)
    requires !(a.Progress? && a.h.OpenDo?)
    ensures LookedUp(cfg, Apply(cfg, v, a), p, cached)
  {
    match a
    case Move(m) => assert MoverApply(cfg, v, m).handler == v.handler;
    case Progress(OpenLookup) =>
      var path := v.handler.path;
      assert Published(cfg, v, path) && Under(cfg.nvme, v.cache[path]);
    case Progress(_) =>
  }

  /** An open is redirected exactly when its path is published as the handler looks: then it opens a complete
      copy on the node-local disk, and otherwise the original, whatever the mover does until open(). */
  lemma RedirectedIffCached(cfg: Config, h: nat, v: Server, id: nat, client: nat, lfd: int, p: Path,
                            acts: seq<Act>, u: Server, sfd: int)
    requires ServerOk(cfg, h, v) && Mine(cfg, h, p) && v.handler.Idle?
    requires Runs(cfg, h, Apply(cfg, v, Progress(RecvOpen(id, client, lfd, p))), acts, u)
    requires forall i :: 0 <= i < |acts| ==> !(acts[i].Progress? && acts[i].h.OpenDo?)
    requires Enabled(cfg, u, Progress(OpenDo(sfd))) && sfd != -1
    ensures var w := Apply(cfg, u, Progress(OpenDo(sfd)));
            && sfd in w.fds && w.fds[sfd].off == 0 && w.fdToPath[sfd] == p
            && (p in v.cache ==> w.fds[sfd].name in w.disk && w.disk[w.fds[sfd].name] == cfg.files[p])
            && (p !in v.cache ==> w.fds[sfd].name == p && p !in w.disk)
  {
    var v1 := Apply(cfg, v, Progress(RecvOpen(id, client, lfd, p)));
    ServerStepKeeps(cfg, h, v, Progress(RecvOpen(id, client, lfd, p)));
    LookupStays(cfg, h, v1, acts, u, p, p in v.cache);
    ServerStepKeeps(cfg, h, u, Progress(OpenDo(sfd)));
    OpenedFrom(cfg, h, u, sfd, p, p in v.cache);
  }

  lemma OpenedFrom(cfg: Config, h: nat, u: Server, sfd: int, p: Path, cached: bool)
    requires ServerOk(cfg, h, u) && LookedUp(cfg, u, p, cached) && HandlerEnabled(cfg, u, OpenDo(sfd)) && sfd != -1
    ensures var w := HandlerApply(cfg, u, OpenDo(sfd));
            && sfd in w.fds && w.fds[sfd].off == 0 && w.fdToPath[sfd] == p
            && (cached ==> w.fds[sfd].name in w.disk && w.disk[w.fds[sfd].name] == cfg.files[p])
            && (!cached ==> w.fds[sfd].name == p && p !in w.disk)
  {
    assert CacheOk(cfg, u) && Mine(cfg, h, p);
    SourceBytes(cfg, u, p);
  }

  /** What once stood for `p` stands for it for ever: descriptors open on an older copy stay correct when
      the path is published again. */
  lemma {:induction false} OldCopiesKept(cfg: Config, h: nat, v: Server, acts: seq<Act>, v': Server,
                                         name: Path, p: Path)
    requires ServerOk(cfg, h, v) && Runs(cfg, h, v, acts, v')
    requires p in cfg.files && StandsFor(cfg, v, name, p)
    ensures StandsFor(cfg, v', name, p)
    decreases |acts|
  {
    if acts == [] {
    } else {
      if acts[0].Move? {
        StandsForMoverKept(cfg, v, acts[0].m, name, p);
      } else {
        HandlerLeavesDisk(cfg, v, acts[0].h);
      }
      ServerStepKeeps(cfg, h, v, acts[0]);
      OldCopiesKept(cfg, h, Apply(cfg, v, acts[0]), acts[1..], v', name, p);
    }
  }

  /** The close handler is past its cache check for `p` and has not pushed it yet. */
  predicate AboutToPush(v: Server, p: Path) {
    (v.handler.CloseLock? || v.handler.CloseSignal? || v.handler.ClosePush?) && PathOf(v, v.handler.fd) == p
  }

  function Pending(v: Server, p: Path): nat {
    if AboutToPush(v, p) then 1 else 0
  }

  function PushedNow(v: Server, a: Act, p: Path): nat {
    if a == Progress(HandlerPush) && v.handler.ClosePush? && PathOf(v, v.handler.fd) == p then 1 else 0
  }

  ghost function CountPushes(cfg: Config, h: nat, v: Server, acts: seq<Act>, v': Server, p: Path): nat
    requires Runs(cfg, h, v, acts, v')
    decreases |acts|
  {
    if acts == [] then 0
    else PushedNow(v, acts[0], p) + CountPushes(cfg, h, Apply(cfg, v, acts[0]), acts[1..], v', p)
  }

  lemma WindowHandlerStep(cfg: Config, h: nat, v: Server, a: HandlerAct, p: Path)
    requires TableOk(cfg, v) && p in v.cache
    requires HandlerEnabled(cfg, v, a) && InputOk(cfg, h, v, Progress(a))
    ensures PushedNow(v, Progress(a), p) + Pending(HandlerApply(cfg, v, a), p) <= Pending(v, p)
  {
  }

  lemma WindowMoverStep(cfg: Config, v: Server, a: MoverAct, p: Path)
    requires p in v.cache && MoverEnabled(cfg, v, a)
    ensures p in MoverApply(cfg, v, a).cache
    ensures Pending(MoverApply(cfg, v, a), p) == Pending(v, p)
  {
  }

  lemma WindowStep(cfg: Config, h: nat, v: Server, a: Act, p: Path)
    requires TableOk(cfg, v) && p in v.cache && Enabled(cfg, v, a) && InputOk(cfg, h, v, a)
    ensures p in Apply(cfg, v, a).cache
    ensures PushedNow(v, a, p) + Pending(Apply(cfg, v, a), p) <= Pending(v, p)
  {
    match a
    case Progress(k) =>
      HandlerLeavesDisk(cfg, v, k);
      WindowHandlerStep(cfg, h, v, k, p);
    case Move(m) =>
      WindowMoverStep(cfg, v, m, p);
  }

  /** After `p` is published it stays published, and it is pushed at most once more: by the one handler
      that was already past its cache check. */
  lemma {:induction false} SinglePublicationWindow(cfg: Config, h: nat, v: Server, acts: seq<Act>, v': Server, p: Path)
    requires ServerOk(cfg, h, v) && Runs(cfg, h, v, acts, v') && p in v.cache
    ensures p in v'.cache
    ensures CountPushes(cfg, h, v, acts, v', p) + Pending(v', p) <= Pending(v, p) <= 1
    decreases |acts|
  {
    if acts == [] {
    } else {
      WindowStep(cfg, h, v, acts[0], p);
      ServerStepKeeps(cfg, h, v, acts[0]);
      SinglePublicationWindow(cfg, h, Apply(cfg, v, acts[0]), acts[1..], v', p);
    }
  }

  // ---------------------------------------------------------------- bounded drain

  /** The mover is past the drain, working off local_list. */
  predicate Busy(v: Server) {
    v.mover.Working? || v.mover.Creating? || v.mover.Copying? || v.mover.Popping?
  }

  function FileSize(cfg: Config, p: Path): nat {
    if p in cfg.files then |cfg.files[p]| else 0
  }

  /** Mover steps needed for a list: make the directory, create, one per byte, publish, pop. */
  function Cost(cfg: Config, ps: seq<Path>): nat {
    if ps == [] then 0 else FileSize(cfg, ps[0]) + 4 + Cost(cfg, ps[1..])
  }

  /** A bound on the mover steps that remain until local_list is empty. */
  function Work(cfg: Config, v: Server): nat {
    if v.local == [] then 0
    else
      var rest := Cost(cfg, v.local[1..]);
      match v.mover
      case Working => FileSize(cfg, v.local[0]) + 4 + rest
      case Creating(_) => FileSize(cfg, v.local[0]) + 3 + rest
      case Copying(t) =>
        var copied := if t in v.disk then |v.disk[t]| else 0;
        (if copied <= FileSize(cfg, v.local[0]) then FileSize(cfg, v.local[0]) - copied else 0) + 2 + rest
      case Popping(_) => 1 + rest
      case _ => 0
  }

  function MoverSteps(acts: seq<Act>): nat {
    if acts == [] then 0 else (if acts[0].Move? then 1 else 0) + MoverSteps(acts[1..])
  }

  /** How far a drain got between two states: `n` mover steps, the list worked off from the front. */
  ghost predicate Drained(cfg: Config, v: Server, n: nat, v': Server) {
    && Busy(v')
    && n + Work(cfg, v') <= Work(cfg, v)
    && v.processed <= v'.processed
    && Popped(v'.processed) + v'.local == Popped(v.processed) + v.local
  }

  lemma PopDrains(cfg: Config, v: Server)
    requires MoverEnabled(cfg, v, LocalPop)
    ensures Drained(cfg, v, 1, MoverApply(cfg, v, LocalPop))
  {
    var v' := MoverApply(cfg, v, LocalPop);
    assert Popped(v'.processed) == Popped(v.processed) + [v.local[0]];
    assert v.local == [v.local[0]] + v'.local;
    assert Work(cfg, v') == Cost(cfg, v'.local);
  }

  lemma ByteDrains(cfg: Config, h: nat, v: Server)
    requires PathsOk(cfg, h, v) && DiskOk(cfg, v) && MoverEnabled(cfg, v, CopyByte)
    ensures Drained(cfg, v, 1, MoverApply(cfg, v, CopyByte))
  {
    SourceBytes(cfg, v, v.local[0]);
  }

  lemma MoverDrains(cfg: Config, h: nat, v: Server, a: MoverAct)
    requires PathsOk(cfg, h, v) && DiskOk(cfg, v) && MoverOk(cfg, v) && Busy(v)
    requires MoverEnabled(cfg, v, a) && a != NextRound
    ensures Drained(cfg, v, 1, MoverApply(cfg, v, a))
  {
    match a
    case LocalPop => PopDrains(cfg, v);
    case CopyByte => ByteDrains(cfg, h, v);
    case _ => StageDrains(cfg, h, v, a);
  }

  /** From one stage of a copy to the next. */
  lemma StageDrains(cfg: Config, h: nat, v: Server, a: MoverAct)
    requires PathsOk(cfg, h, v) && DiskOk(cfg, v) && MoverOk(cfg, v) && MoverEnabled(cfg, v, a)
    requires a.MakeDir? || a.CopyCreate? || a.CopyPublish? || a.CopyFail?
    ensures Drained(cfg, v, 1, MoverApply(cfg, v, a))
  {
    if a.CopyCreate? {
      SourceBytes(cfg, v, v.local[0]);
    }
  }

  lemma DrainStep(cfg: Config, h: nat, v: Server, a: Act)
    requires PathsOk(cfg, h, v) && DiskOk(cfg, v) && MoverOk(cfg, v) && Busy(v)
    requires Enabled(cfg, v, a) && a != Move(NextRound)
    ensures Drained(cfg, v, if a.Move? then 1 else 0, Apply(cfg, v, a))
  {
    match a {
      case Progress(k) =>
        HandlerLeavesDisk(cfg, v, k);
      case Move(m) =>
        MoverDrains(cfg, h, v, m);
    }
  }

  lemma {:induction false} DrainRun(cfg: Config, h: nat, v: Server, acts: seq<Act>, v': Server)
    requires ServerOk(cfg, h, v) && Busy(v)
    requires Runs(cfg, h, v, acts, v') && Move(NextRound) !in acts
    ensures Drained(cfg, v, MoverSteps(acts), v')
    decreases |acts|
  {
    if acts == [] {
    } else {
      ServerStepKeeps(cfg, h, v, acts[0]);
      DrainStep(cfg, h, v, acts[0]);
      DrainRun(cfg, h, Apply(cfg, v, acts[0]), acts[1..], v');
    }
  }

  lemma DrainedAll(cfg: Config, v: Server, n: nat, v': Server)
    requires Drained(cfg, v, n, v') && v'.local == []
    ensures Popped(v'.processed[|v.processed|..]) == v.local
  {
    var tail := v'.processed[|v.processed|..];
    assert v'.processed == v.processed + tail;
    var before := Popped(v.processed);
    assert before + Popped(tail) == Popped(v'.processed) == before + v.local;
    assert (before + Popped(tail))[|before|..] == Popped(tail);
    assert (before + v.local)[|before|..] == v.local;
  }

  /** All of `v.local` is processed, in order: each path was published, or is recorded as failed. */
  ghost predicate WorkedOff(v: Server, v': Server) {
    && v'.local == []
    && v.processed <= v'.processed
    && Popped(v'.processed[|v.processed|..]) == v.local
    && forall i :: |v.processed| <= i < |v'.processed| && v'.processed[i].1 ==> v'.processed[i].0 in v'.cache
  }

  /** Once the mover has drained, it takes at most `Work` steps before the next round, however many handler
      steps come in between; new pushes only reach data_queue.  Whenever local_list is empty, be it after
      copies that failed early, all that was in it is processed; after `Work` steps it is empty. */
  lemma BoundedDrain(cfg: Config, h: nat, v: Server, acts: seq<Act>, v': Server)
    requires ServerOk(cfg, h, v) && Busy(v)
    requires Runs(cfg, h, v, acts, v') && Move(NextRound) !in acts
    ensures MoverSteps(acts) <= Work(cfg, v)
    ensures MoverSteps(acts) == Work(cfg, v) ==> v'.local == []
    ensures v'.local == [] ==> WorkedOff(v, v')
  {
    DrainRun(cfg, h, v, acts, v');
    if v'.local == [] {
      DrainedAll(cfg, v, MoverSteps(acts), v');
      ServerRunKeeps(cfg, h, v, acts, v');
    }
  }

  function IndexOf(acts: seq<Act>, a: Act): (k: nat)
    requires a in acts
    ensures k < |acts| && acts[k] == a && a !in acts[..k]
  {
    if acts[0] == a then 0 else 1 + IndexOf(acts[1..], a)
  }

  lemma {:induction false} RunsPrefix(cfg: Config, h: nat, v: Server, acts: seq<Act>, v': Server, k: nat)
    returns (u: Server)
    requires Runs(cfg, h, v, acts, v') && k < |acts|
    ensures Runs(cfg, h, v, acts[..k], u) && Enabled(cfg, u, acts[k])
    decreases k
  {
    if k == 0 {
      u := v;
    } else {
      assert acts[..k][1..] == acts[1..][..k - 1];
      u := RunsPrefix(cfg, h, Apply(cfg, v, acts[0]), acts[1..], v', k - 1);
    }
  }

  /** A run with more than `Work` mover steps finishes the round: it has a first `NextRound`, and by then all
      of local_list is processed. */
  lemma DrainEnds(cfg: Config, h: nat, v: Server, acts: seq<Act>, v': Server) returns (k: nat, u: Server)
    requires ServerOk(cfg, h, v) && Busy(v)
    requires Runs(cfg, h, v, acts, v') && MoverSteps(acts) > Work(cfg, v)
    ensures k < |acts| && acts[k] == Move(NextRound) && Move(NextRound) !in acts[..k]
    ensures MoverSteps(acts[..k]) <= Work(cfg, v)
    ensures Runs(cfg, h, v, acts[..k], u) && WorkedOff(v, u)
  {
    if Move(NextRound) !in acts {
      BoundedDrain(cfg, h, v, acts, v');
      assert false;
    }
    k := IndexOf(acts, Move(NextRound));
    u := RunsPrefix(cfg, h, v, acts, v', k);
    BoundedDrain(cfg, h, v, acts[..k], u);
  }

  /** The step the mover takes next when nothing fails. */
  function NextMove(cfg: Config, v: Server, dir: Path): MoverAct {
    match v.mover
    case Working => if v.local == [] then NextRound else MakeDir(dir)
    case Creating(_) => CopyCreate
    case Copying(t) =>
      if t in v.disk && v.local != [] && |v.disk[t]| < FileSize(cfg, v.local[0]) then CopyByte else CopyPublish
    case _ => LocalPop
  }

  /** A drain can always go on without a failure, whatever the handlers do, as long as mkdtemp() finds a
      fresh name. */
  lemma MoverNeverStuck(cfg: Config, h: nat, acts: seq<Act>, v: Server, dir: Path)
    requires Runs(cfg, h, BOOT, acts, v) && Busy(v)
    requires TempDir(cfg.nvme, dir) && dir !in v.dirs
    ensures MoverEnabled(cfg, v, NextMove(cfg, v, dir))
  {
    BootOk(cfg, h);
    ServerRunKeeps(cfg, h, BOOT, acts, v);
    NextMoveEnabled(cfg, h, v, dir);
  }

  lemma NextMoveEnabled(cfg: Config, h: nat, v: Server, dir: Path)
    requires PathsOk(cfg, h, v) && DiskOk(cfg, v) && MoverOk(cfg, v) && Busy(v)
    requires TempDir(cfg.nvme, dir) && dir !in v.dirs
    ensures MoverEnabled(cfg, v, NextMove(cfg, v, dir))
  {
    if v.local != [] {
      SourceBytes(cfg, v, v.local[0]);
    }
  }

  /** The bound on a drain is reached: as long as nothing fails every step brings it down by exactly one. */
  lemma EachMoveCounts(cfg: Config, h: nat, v: Server, dir: Path)
    requires PathsOk(cfg, h, v) && DiskOk(cfg, v) && MoverOk(cfg, v) && Busy(v) && v.local != []
    requires TempDir(cfg.nvme, dir) && dir !in v.dirs && (v.mover.Popping? ==> v.mover.ok)
    ensures MoverEnabled(cfg, v, NextMove(cfg, v, dir))
    ensures Work(cfg, v) == Work(cfg, MoverApply(cfg, v, NextMove(cfg, v, dir))) + 1
  {
    NextMoveEnabled(cfg, h, v, dir);
    SourceBytes(cfg, v, v.local[0]);
    match v.mover
    case Popping(_) => assert Work(cfg, MoverApply(cfg, v, LocalPop)) == Cost(cfg, v.local[1..]);
    case Copying(t) => CopyingCounts(cfg, h, v, t);
    case _ =>
  }

  lemma CopyingCounts(cfg: Config, h: nat, v: Server, t: Path)
    requires PathsOk(cfg, h, v) && DiskOk(cfg, v) && MoverOk(cfg, v) && v.local != [] && v.mover == Copying(t)
    ensures MoverEnabled(cfg, v, CopyByte) ==> Work(cfg, v) == Work(cfg, MoverApply(cfg, v, CopyByte)) + 1
    ensures MoverEnabled(cfg, v, CopyPublish) ==> Work(cfg, v) == Work(cfg, MoverApply(cfg, v, CopyPublish)) + 1
  {
    SourceBytes(cfg, v, v.local[0]);
  }
}
