/** The server's code as it is written: handlers and mover loops that update shared tables in place.

    Each method is shown to do exactly what a sequence of atomic steps of `CacheServer` does, and to keep the
    server consistent.  A method is one thread's execution, in which the other thread moves only where this
    one waits for data_mutex; what holds under every interleaving is proved of the atomic steps.  A method
    takes what the operating system decided (descriptor numbers, transfer lengths, where a copy fails) as
    parameters. */
module ServerProcess {
  import opened Posix
  import opened Paths
  import opened Session
  import opened CacheServer
  import opened ServerInvariant

  /** `acts` leads from `v` to `v'`. */
  ghost predicate Steps(cfg: Config, v: Server, acts: seq<Act>, v': Server)
    decreases |acts|
  {
    if acts == [] then v == v'
    else Enabled(cfg, v, acts[0]) && Steps(cfg, Apply(cfg, v, acts[0]), acts[1..], v')
  }

  lemma {:induction false} StepsAppend(cfg: Config, v: Server, acts: seq<Act>, v1: Server, more: seq<Act>, v2: Server)
    requires Steps(cfg, v, acts, v1) && Steps(cfg, v1, more, v2)
    ensures Steps(cfg, v, acts + more, v2)
    decreases |acts|
  {
    if acts == [] {
      assert acts + more == more;
    } else {
      assert (acts + more)[1..] == acts[1..] + more;
      StepsAppend(cfg, Apply(cfg, v, acts[0]), acts[1..], v1, more, v2);
    }
  }

  lemma OneStep(cfg: Config, v: Server, a: Act)
    requires Enabled(cfg, v, a)
    ensures Steps(cfg, v, [a], Apply(cfg, v, a))
  {
    assert [a][1..] == [];
  }

  lemma StepsThen(cfg: Config, v: Server, acts: seq<Act>, v1: Server, a: Act)
    requires Steps(cfg, v, acts, v1) && Enabled(cfg, v1, a)
    ensures Steps(cfg, v, acts + [a], Apply(cfg, v1, a))
  {
    OneStep(cfg, v1, a);
    StepsAppend(cfg, v, acts, v1, [a], Apply(cfg, v1, a));
  }

  /** Along `acts` every message is one the server can rely on. */
  ghost predicate InputsOk(cfg: Config, h: nat, v: Server, acts: seq<Act>, v': Server)
    requires Steps(cfg, v, acts, v')
    decreases |acts|
  {
    acts == [] || (InputOk(cfg, h, v, acts[0]) && InputsOk(cfg, h, Apply(cfg, v, acts[0]), acts[1..], v'))
  }

  /** Steps with such messages are a run of the server. */
  lemma {:induction false} StepsAreRuns(cfg: Config, h: nat, v: Server, acts: seq<Act>, v': Server)
    requires Steps(cfg, v, acts, v') && InputsOk(cfg, h, v, acts, v')
    ensures Runs(cfg, h, v, acts, v')
    decreases |acts|
  {
    if acts == [] {
    } else {
      StepsAreRuns(cfg, h, Apply(cfg, v, acts[0]), acts[1..], v');
    }
  }

  predicate TakesInput(a: Act) {
    a.Progress? && (a.h.RecvOpen? || a.h.RecvRead? || a.h.RecvSeek? || a.h.RecvClose?)
  }

  lemma {:induction false} NoInputs(cfg: Config, h: nat, v: Server, acts: seq<Act>, v': Server)
    requires Steps(cfg, v, acts, v') && forall i :: 0 <= i < |acts| ==> !TakesInput(acts[i])
    ensures InputsOk(cfg, h, v, acts, v')
    decreases |acts|
  {
    if acts == [] {
    } else {
      assert !TakesInput(acts[0]);
      NoInputs(cfg, h, Apply(cfg, v, acts[0]), acts[1..], v');
    }
  }

  /** Whatever only its first step has to rely on, keeps the server consistent if that message is sound. */
  lemma StepsKeep(cfg: Config, h: nat, v: Server, acts: seq<Act>, v': Server)
    requires ServerOk(cfg, h, v) && Steps(cfg, v, acts, v')
    requires acts != [] ==> InputOk(cfg, h, v, acts[0])
    requires forall i :: 1 <= i < |acts| ==> !TakesInput(acts[i])
    ensures ServerOk(cfg, h, v')
  {
    if acts != [] {
      NoInputs(cfg, h, Apply(cfg, v, acts[0]), acts[1..], v');
      StepsAreRuns(cfg, h, v, acts, v');
      ServerRunKeeps(cfg, h, v, acts, v');
    }
  }

  // ---------------------------------------------------------------- what the code does, as functions

  /** A whole open handler. */
  function OpenedServer(v: Server, path: Path, sfd: int): Server {
    var target := if path in v.cache then v.cache[path] else path;
    v.(fds := if sfd == -1 then v.fds else v.fds[sfd := Ofd(target, 0)], fdToPath := v.fdToPath[sfd := path])
  }

  function OpenActs(v: Server, id: nat, client: nat, lfd: int, path: Path, sfd: int): seq<Act> {
    [Progress(RecvOpen(id, client, lfd, path))]
    + (if path in v.cache then [Progress(OpenLookup)] else [])
    + [Progress(OpenDo(sfd))]
  }

  /** What open() may return. */
  predicate OpenReturns(cfg: Config, v: Server, path: Path, sfd: int) {
    var target := if path in v.cache then v.cache[path] else path;
    if sfd == -1 then cfg.opensMayFail || !Exists(cfg, v, target)
    else sfd >= 0 && sfd !in v.fds && Exists(cfg, v, target)
  }

  lemma OpenIsSteps(cfg: Config, v: Server, id: nat, client: nat, lfd: int, path: Path, sfd: int)
    requires v.handler.Idle? && OpenReturns(cfg, v, path, sfd)
    ensures Steps(cfg, v, OpenActs(v, id, client, lfd, path, sfd), OpenedServer(v, path, sfd))
  {
    var a := Progress(RecvOpen(id, client, lfd, path));
    var v1 := Apply(cfg, v, a);
    OneStep(cfg, v, a);
    if path in v.cache {
      StepsThen(cfg, v, [a], v1, Progress(OpenLookup));
      var v2 := Apply(cfg, v1, Progress(OpenLookup));
      StepsThen(cfg, v, [a] + [Progress(OpenLookup)], v2, Progress(OpenDo(sfd)));
    } else {
      StepsThen(cfg, v, [a], v1, Progress(OpenDo(sfd)));
      assert OpenActs(v, id, client, lfd, path, sfd) == [a] + [Progress(OpenDo(sfd))];
    }
  }

  /** The close handler's critical section. */
  function QueuedServer(v: Server, sfd: int): Server {
    var p := PathOf(v, sfd);
    var m := if v.mover == Waiting(Asleep) then Waiting(Signalled) else v.mover;
    v.(mover := m, queue := v.queue + [p], pushed := v.pushed + [p],
       missed := if m.Waiting? then v.missed else v.missed + [p])
  }

  /** The drain loop. */
  function DrainedServer(v: Server): Server {
    v.(local := v.local + v.queue, queue := [])
  }

  function DrainActs(n: nat): seq<Act> {
    if n == 0 then [] else [Move(DrainPush), Move(DrainPop)] + DrainActs(n - 1)
  }

  lemma DrainOneIsSteps(cfg: Config, v: Server)
    requires v.mover.Draining? && v.queue != [] && !v.handler.Aborted?
    ensures Steps(cfg, v, [Move(DrainPush), Move(DrainPop)], v.(local := v.local + [v.queue[0]], queue := v.queue[1..]))
  {
    OneStep(cfg, v, Move(DrainPush));
    StepsThen(cfg, v, [Move(DrainPush)], Apply(cfg, v, Move(DrainPush)), Move(DrainPop));
    assert [Move(DrainPush)] + [Move(DrainPop)] == [Move(DrainPush), Move(DrainPop)];
  }

  lemma DrainedRest(v: Server)
    requires v.queue != []
    ensures DrainedServer(v) == DrainedServer(v.(local := v.local + [v.queue[0]], queue := v.queue[1..]))
  {
    assert v.local + v.queue == (v.local + [v.queue[0]]) + v.queue[1..];
  }

  lemma {:induction false} DrainIsSteps(cfg: Config, v: Server)
    requires v.mover.Draining? && !v.handler.Aborted?
    ensures Steps(cfg, v, DrainActs(|v.queue|), DrainedServer(v))
    decreases |v.queue|
  {
    if v.queue == [] {
      assert v.local + v.queue == v.local;
    } else {
      var v2 := v.(local := v.local + [v.queue[0]], queue := v.queue[1..]);
      DrainOneIsSteps(cfg, v);
      DrainedRest(v);
      DrainIsSteps(cfg, v2);
      StepsAppend(cfg, v, [Move(DrainPush), Move(DrainPop)], v2, DrainActs(|v2.queue|), DrainedServer(v2));
    }
  }

  /** The mover at the end of its drain. */
  function DoneDraining(v: Server): Server {
    DrainedServer(v).(mutex := Free, mover := Working, missed := [])
  }

  lemma DrainEndIsSteps(cfg: Config, v: Server)
    requires v.mover.Draining? && !v.handler.Aborted?
    ensures Steps(cfg, v, DrainActs(|v.queue|) + [Move(MoverUnlock)], DoneDraining(v))
  {
    DrainIsSteps(cfg, v);
    StepsThen(cfg, v, DrainActs(|v.queue|), DrainedServer(v), Move(MoverUnlock));
  }

  /** The mover takes the path in its hand off data_queue. */
  function PopHand(v: Server): Server {
    if v.mover.InHand? && v.queue != [] then v.(queue := v.queue[1..], mover := Draining) else v
  }

  /** The mover runs to the end of its critical section, if it is in it: this is what a closer that finds
      data_mutex taken waits for. */
  function ReleasedServer(v: Server): Server {
    if v.mutex != ByMover then v
    else if v.mover.Locked? then v.(mutex := Free, mover := Waiting(Asleep))
    else DoneDraining(PopHand(v))
  }

  function ReleaseActs(v: Server): seq<Act> {
    if v.mutex != ByMover then []
    else if v.mover.Locked? then [Move(MoverWait)]
    else if v.mover.InHand? then [Move(DrainPop)] + (DrainActs(|PopHand(v).queue|) + [Move(MoverUnlock)])
    else DrainActs(|v.queue|) + [Move(MoverUnlock)]
  }

  /** The mover holds data_mutex exactly in its critical section. */
  predicate HoldsRight(v: Server) {
    && (v.mutex == ByMover <==> v.mover.Locked? || v.mover.Draining? || v.mover.InHand?)
    && (v.mover.InHand? ==> v.queue != [])
  }

  lemma ReleaseIsSteps(cfg: Config, v: Server)
    requires HoldsRight(v) && !v.handler.Aborted?
    ensures Steps(cfg, v, ReleaseActs(v), ReleasedServer(v))
    ensures ReleasedServer(v).mutex != ByMover
  {
    if v.mutex == ByMover {
      if v.mover.Locked? {
        OneStep(cfg, v, Move(MoverWait));
      } else {
        DrainEndIsSteps(cfg, PopHand(v));
        if v.mover.InHand? {
          OneStep(cfg, v, Move(DrainPop));
          StepsAppend(cfg, v, [Move(DrainPop)], PopHand(v), DrainActs(|PopHand(v).queue|) + [Move(MoverUnlock)],
                      DoneDraining(PopHand(v)));
        }
      }
    }
  }

  lemma ReleasedMutex(v: Server)
    requires v.mutex != ByHandler
    ensures ReleasedServer(v).mutex == Free
  {
  }

  /** The close handler after close(): the path is queued for the mover unless it is cached, and forgotten. */
  function ForgottenServer(v: Server, sfd: int): Server {
    var v1 := if PathOf(v, sfd) in v.cache then v else QueuedServer(ReleasedServer(v), sfd);
    v1.(fdToPath := v.fdToPath - {sfd})
  }

  /** A whole close handler, for a descriptor that is open. */
  function ClosedServer(v: Server, sfd: int): Server {
    ForgottenServer(v, sfd).(fds := v.fds - {sfd})
  }

  lemma TouchGone(m: map<int, Path>, fd: int)
    ensures Touch(m, fd) - {fd} == m - {fd}
    ensures fd in Touch(m, fd) && Touch(m, fd)[fd] == if fd in m then m[fd] else ""
  {
  }

  const SECTION := [Progress(HandlerLock), Progress(HandlerSignal), Progress(HandlerPush), Progress(HandlerUnlock)]

  function CloseActs(v: Server, id: nat, sfd: int): seq<Act> {
    [Progress(RecvClose(id, sfd)), Progress(CacheFind)]
    + (if PathOf(v, sfd) in v.cache then [] else ReleaseActs(v) + SECTION)
    + [Progress(HandlerErase)]
  }

  lemma SectionIsSteps(cfg: Config, v: Server, sfd: int)
    requires v.handler == CloseLock(sfd) && v.mutex == Free && sfd in v.fdToPath
    ensures Steps(cfg, v, SECTION, QueuedServer(v, sfd).(handler := CloseErase(sfd)))
  {
    var v1 := Apply(cfg, v, SECTION[0]);
    var v2 := Apply(cfg, v1, SECTION[1]);
    var v3 := Apply(cfg, v2, SECTION[2]);
    OneStep(cfg, v, SECTION[0]);
    StepsThen(cfg, v, [SECTION[0]], v1, SECTION[1]);
    StepsThen(cfg, v, [SECTION[0]] + [SECTION[1]], v2, SECTION[2]);
    StepsThen(cfg, v, [SECTION[0]] + [SECTION[1]] + [SECTION[2]], v3, SECTION[3]);
    assert SECTION == [SECTION[0]] + [SECTION[1]] + [SECTION[2]] + [SECTION[3]];
  }

  /** The close handler past its cache check. */
  function CheckedServer(v: Server, sfd: int): Server {
    v.(fds := v.fds - {sfd}, fdToPath := Touch(v.fdToPath, sfd),
       handler := if PathOf(v, sfd) in v.cache then CloseErase(sfd) else CloseLock(sfd))
  }

  lemma CheckIsSteps(cfg: Config, v: Server, id: nat, sfd: int)
    requires v.handler.Idle? && sfd in v.fds
    ensures Steps(cfg, v, [Progress(RecvClose(id, sfd)), Progress(CacheFind)], CheckedServer(v, sfd))
  {
    var a, b := Progress(RecvClose(id, sfd)), Progress(CacheFind);
    OneStep(cfg, v, a);
    StepsThen(cfg, v, [a], Apply(cfg, v, a), b);
    assert [a] + [b] == [a, b];
  }

  /** Waiting for data_mutex, then the critical section. */
  lemma LockedSectionIsSteps(cfg: Config, v: Server, sfd: int)
    requires v.handler == CloseLock(sfd) && sfd in v.fdToPath && HoldsRight(v) && v.mutex != ByHandler
    ensures Steps(cfg, v, ReleaseActs(v) + SECTION, QueuedServer(ReleasedServer(v), sfd).(handler := CloseErase(sfd)))
  {
    ReleaseIsSteps(cfg, v);
    SectionIsSteps(cfg, ReleasedServer(v), sfd);
    StepsAppend(cfg, v, ReleaseActs(v), ReleasedServer(v), SECTION,
                QueuedServer(ReleasedServer(v), sfd).(handler := CloseErase(sfd)));
  }

  lemma EraseIsSteps(cfg: Config, v: Server, sfd: int)
    requires v.handler == CloseErase(sfd)
    ensures Steps(cfg, v, [Progress(HandlerErase)], v.(handler := Idle, fdToPath := v.fdToPath - {sfd}))
  {
    OneStep(cfg, v, Progress(HandlerErase));
  }

  lemma CachedCloseIsSteps(cfg: Config, v: Server, id: nat, sfd: int)
    requires v.handler.Idle? && sfd in v.fds && PathOf(v, sfd) in v.cache
    ensures Steps(cfg, v, CloseActs(v, id, sfd), ClosedServer(v, sfd))
  {
    var a, b, e := Progress(RecvClose(id, sfd)), Progress(CacheFind), Progress(HandlerErase);
    var v2 := CheckedServer(v, sfd);
    CheckIsSteps(cfg, v, id, sfd);
    TouchGone(v.fdToPath, sfd);
    EraseIsSteps(cfg, v2, sfd);
    StepsAppend(cfg, v, [a, b], v2, [e], ClosedServer(v, sfd));
    assert CloseActs(v, id, sfd) == [a, b] + [e];
  }

  lemma CloseIsSteps(cfg: Config, v: Server, id: nat, sfd: int)
    requires v.handler.Idle? && sfd in v.fds && HoldsRight(v) && v.mutex != ByHandler
    ensures Steps(cfg, v, CloseActs(v, id, sfd), ClosedServer(v, sfd))
  {
    if PathOf(v, sfd) in v.cache {
      CachedCloseIsSteps(cfg, v, id, sfd);
    } else {
      var a, b, e := Progress(RecvClose(id, sfd)), Progress(CacheFind), Progress(HandlerErase);
      var v2 := CheckedServer(v, sfd);
      CheckIsSteps(cfg, v, id, sfd);
      TouchGone(v.fdToPath, sfd);
      LockedSectionIsSteps(cfg, v2, sfd);
      var v3 := QueuedServer(ReleasedServer(v2), sfd).(handler := CloseErase(sfd));
      StepsAppend(cfg, v, [a, b], v2, ReleaseActs(v) + SECTION, v3);
      EraseIsSteps(cfg, v3, sfd);
      StepsAppend(cfg, v, [a, b] + (ReleaseActs(v) + SECTION), v3, [e], ClosedServer(v, sfd));
    }
  }

  lemma {:induction false} DrainIsMoves(n: nat)
    ensures forall i :: 0 <= i < |DrainActs(n)| ==> DrainActs(n)[i].Move?
  {
    if n == 0 {
    } else {
      DrainIsMoves(n - 1);
    }
  }

  /** While the closer waits only the mover moves. */
  lemma ReleaseIsMoves(v: Server)
    ensures forall i :: 0 <= i < |ReleaseActs(v)| ==> ReleaseActs(v)[i].Move?
  {
    DrainIsMoves(|PopHand(v).queue|);
    DrainIsMoves(|v.queue|);
  }

  /** Serving the close of an open descriptor keeps the server consistent. */
  lemma ClosedServerOk(cfg: Config, h: nat, v: Server, sfd: int)
    requires ServerOk(cfg, h, v) && v.handler.Idle? && sfd in v.fds
    ensures ServerOk(cfg, h, ClosedServer(v, sfd))
  {
    CloseIsSteps(cfg, v, 0, sfd);
    ReleaseIsMoves(v);
    StepsKeep(cfg, h, v, CloseActs(v, 0, sfd), ClosedServer(v, sfd));
  }

  /** Queueing does not look at the descriptors. */
  lemma QueuedAfterClose(v: Server, sfd: int, fds: map<int, Ofd>)
    ensures ForgottenServer(v.(fds := fds), sfd) == ForgottenServer(v, sfd).(fds := fds)
  {
    ReleasedAfterClose(v, fds);
    QueuedFrame(ReleasedServer(v), fds, sfd);
  }

  lemma QueuedFrame(v: Server, fds: map<int, Ofd>, sfd: int)
    ensures QueuedServer(v.(fds := fds), sfd) == QueuedServer(v, sfd).(fds := fds)
  {
  }

  lemma ReleasedAfterClose(v: Server, fds: map<int, Ofd>)
    ensures ReleasedServer(v.(fds := fds)) == ReleasedServer(v).(fds := fds)
  {
    if v.mutex == ByMover && !v.mover.Locked? {
      assert PopHand(v.(fds := fds)) == PopHand(v).(fds := fds);
    }
  }

  /** What a close leaves behind: the descriptor is forgotten; its path goes to the end of what the mover has
      still to take, and the mover is not left asleep, exactly if the path is not cached. */
  lemma CloseLaw(v: Server, sfd: int)
    requires HoldsRight(v) && v.mutex != ByHandler && sfd in v.fdToPath
    ensures var w, p := ClosedServer(v, sfd), v.fdToPath[sfd];
            && w.fds == v.fds - {sfd} && w.fdToPath == v.fdToPath - {sfd}
            && w.cache == v.cache && w.disk == v.disk
            && (p in v.cache ==> w == v.(fds := w.fds, fdToPath := w.fdToPath))
            && (p !in v.cache ==>
                  && w.pushed == v.pushed + [p] && w.local + w.queue == v.local + Unclaimed(v) + [p]
                  && w.mover != Waiting(Asleep) && w.mutex == Free)
  {
    var u, p := ReleasedServer(v), v.fdToPath[sfd];
    ReleaseLaw(v);
    assert u.local + (u.queue + [p]) == (u.local + u.queue) + [p];
  }

  /** A mover that leaves its critical section has moved whole queues and nothing else. */
  lemma ReleaseLaw(v: Server)
    requires HoldsRight(v) && v.mutex != ByHandler
    ensures var u := ReleasedServer(v);
            && u.mutex == Free && u.local + u.queue == v.local + Unclaimed(v)
            && u.fds == v.fds && u.fdToPath == v.fdToPath && u.cache == v.cache && u.disk == v.disk
            && u.pushed == v.pushed
  {
    if v.mutex == ByMover && !v.mover.Locked? {
      var w := PopHand(v);
      assert w.queue == Unclaimed(v) && w.local == v.local;
      assert DrainedServer(w).local == v.local + Unclaimed(v);
    }
  }

  /** What a close handler finds. */
  lemma CloseFinds(cfg: Config, h: nat, v: Server, sfd: int)
    requires ServerOk(cfg, h, v) && v.handler.Idle? && Known(v, sfd)
    ensures HoldsRight(v) && v.mutex != ByHandler
    ensures sfd in v.fdToPath && (sfd in v.fds <==> sfd != -1)
  {
  }

  /** So does serving an open of one of the server's files. */
  lemma OpenedServerOk(cfg: Config, h: nat, v: Server, path: Path, sfd: int)
    requires ServerOk(cfg, h, v) && v.handler.Idle? && Mine(cfg, h, path) && OpenReturns(cfg, v, path, sfd)
    ensures ServerOk(cfg, h, OpenedServer(v, path, sfd))
  {
    OpenIsSteps(cfg, v, 0, 0, 0, path, sfd);
    StepsKeep(cfg, h, v, OpenActs(v, 0, 0, 0, path, sfd), OpenedServer(v, path, sfd));
  }

  /** What decides the fate of one copy: mkdtemp() fails; or it makes `dir`, and fs::copy throws after
      writing `after` bytes, or succeeds. */
  datatype Fate = NoDir | Throws(dir: Path, after: nat) | Copies(dir: Path)

  predicate FateOk(cfg: Config, v: Server, fate: Fate)
    requires v.local != []
  {
    !fate.NoDir? ==>
      && TempDir(cfg.nvme, fate.dir) && fate.dir !in v.dirs
      && Exists(cfg, v, v.local[0])
      && CopyName(fate.dir, v.local[0]) != v.local[0]
      && (fate.Throws? ==> fate.after <= |Bytes(cfg, v, v.local[0])|)
  }

  /** One turn of the copy loop. */
  function CopiedOne(cfg: Config, v: Server, fate: Fate): Server
    requires v.local != [] && FateOk(cfg, v, fate)
  {
    var p := v.local[0];
    var v1 := v.(local := v.local[1..], processed := v.processed + [(p, fate.Copies?)]);
    if fate.NoDir? then v1
    else
      var target := CopyName(fate.dir, p);
      var content := Bytes(cfg, v, p);
      v1.(dirs := v.dirs + {fate.dir},
          disk := v.disk[target := if fate.Throws? then content[..fate.after] else content],
          cache := if fate.Copies? then v.cache[p := target] else v.cache)
  }

  /** The fates of the paths in local_list, in order. */
  predicate FatesOk(cfg: Config, v: Server, fates: seq<Fate>)
    decreases |fates|
  {
    if v.local == [] then fates == []
    else fates != [] && FateOk(cfg, v, fates[0]) && FatesOk(cfg, CopiedOne(cfg, v, fates[0]), fates[1..])
  }

  /** The copy loop. */
  function CopiedAll(cfg: Config, v: Server, fates: seq<Fate>): Server
    requires FatesOk(cfg, v, fates)
    decreases |fates|
  {
    if v.local == [] then v else CopiedAll(cfg, CopiedOne(cfg, v, fates[0]), fates[1..])
  }

  function Repeat(a: Act, n: nat): (s: seq<Act>)
    ensures |s| == n
  {
    if n == 0 then [] else Repeat(a, n - 1) + [a]
  }

  function CopyActs(cfg: Config, v: Server, fate: Fate): seq<Act>
    requires v.local != [] && FateOk(cfg, v, fate)
  {
    (match fate
     case NoDir => [Move(CopyFail)]
     case Throws(dir, after) =>
       [Move(MakeDir(dir)), Move(CopyCreate)] + Repeat(Move(CopyByte), after) + [Move(CopyFail)]
     case Copies(dir) =>
       [Move(MakeDir(dir)), Move(CopyCreate)]
       + Repeat(Move(CopyByte), |Bytes(cfg, v, v.local[0])|)
       + [Move(CopyPublish)])
    + [Move(LocalPop)]
  }

  /** In the middle of a copy: `k` bytes are written. */
  function MidCopy(cfg: Config, v: Server, dir: Path, k: nat): Server
    requires v.local != [] && k <= |Bytes(cfg, v, v.local[0])|
  {
    var target := CopyName(dir, v.local[0]);
    v.(dirs := v.dirs + {dir}, disk := v.disk[target := Bytes(cfg, v, v.local[0])[..k]], mover := Copying(target))
  }

  lemma {:induction false} BytesAreSteps(cfg: Config, v: Server, dir: Path, k: nat)
    requires v.mover.Working? && v.local != [] && FateOk(cfg, v, Copies(dir)) && !v.handler.Aborted?
    requires k <= |Bytes(cfg, v, v.local[0])|
    ensures Steps(cfg, v, [Move(MakeDir(dir)), Move(CopyCreate)] + Repeat(Move(CopyByte), k), MidCopy(cfg, v, dir, k))
    decreases k
  {
    var a, b := Move(MakeDir(dir)), Move(CopyCreate);
    if k == 0 {
      var v1 := Apply(cfg, v, a);
      OneStep(cfg, v, a);
      StepsThen(cfg, v, [a], v1, b);
      assert [a] + [b] == [a, b] + Repeat(Move(CopyByte), 0);
      assert Bytes(cfg, v, v.local[0])[..0] == [];
    } else {
      BytesAreSteps(cfg, v, dir, k - 1);
      OneByte(cfg, v, dir, k);
      var done := [a, b] + Repeat(Move(CopyByte), k - 1);
      StepsThen(cfg, v, done, MidCopy(cfg, v, dir, k - 1), Move(CopyByte));
      assert done + [Move(CopyByte)] == [a, b] + Repeat(Move(CopyByte), k);
    }
  }

  lemma OneByte(cfg: Config, v: Server, dir: Path, k: nat)
    requires v.local != [] && FateOk(cfg, v, Copies(dir)) && !v.handler.Aborted? && 0 < k <= |Bytes(cfg, v, v.local[0])|
    ensures Enabled(cfg, MidCopy(cfg, v, dir, k - 1), Move(CopyByte))
    ensures Apply(cfg, MidCopy(cfg, v, dir, k - 1), Move(CopyByte)) == MidCopy(cfg, v, dir, k)
  {
    var content := Bytes(cfg, v, v.local[0]);
    assert content[..k - 1] + [content[k - 1]] == content[..k];
  }

  lemma CopyOneIsSteps(cfg: Config, v: Server, fate: Fate)
    requires v.mover.Working? && v.local != [] && FateOk(cfg, v, fate) && !v.handler.Aborted?
    ensures Steps(cfg, v, CopyActs(cfg, v, fate), CopiedOne(cfg, v, fate))
  {
    if fate.NoDir? {
      OneStep(cfg, v, Move(CopyFail));
      StepsThen(cfg, v, [Move(CopyFail)], Apply(cfg, v, Move(CopyFail)), Move(LocalPop));
    } else {
      var content := Bytes(cfg, v, v.local[0]);
      var k := if fate.Throws? then fate.after else |content|;
      BytesAreSteps(cfg, v, fate.dir, k);
      assert content[..|content|] == content;
      var start := [Move(MakeDir(fate.dir)), Move(CopyCreate)] + Repeat(Move(CopyByte), k);
      var mid := MidCopy(cfg, v, fate.dir, k);
      var end := if fate.Throws? then Move(CopyFail) else Move(CopyPublish);
      StepsThen(cfg, v, start, mid, end);
      StepsThen(cfg, v, start + [end], Apply(cfg, mid, end), Move(LocalPop));
    }
  }

  function RoundActs(cfg: Config, v: Server, fates: seq<Fate>): seq<Act>
    requires FatesOk(cfg, v, fates)
    decreases |fates|
  {
    if v.local == [] then []
    else CopyActs(cfg, v, fates[0]) + RoundActs(cfg, CopiedOne(cfg, v, fates[0]), fates[1..])
  }

  lemma {:induction false} CopyAllIsSteps(cfg: Config, v: Server, fates: seq<Fate>)
    requires v.mover.Working? && FatesOk(cfg, v, fates) && !v.handler.Aborted?
    ensures Steps(cfg, v, RoundActs(cfg, v, fates), CopiedAll(cfg, v, fates))
    decreases |fates|
  {
    if v.local == [] {
    } else {
      var v1 := CopiedOne(cfg, v, fates[0]);
      CopyOneIsSteps(cfg, v, fates[0]);
      CopyAllIsSteps(cfg, v1, fates[1..]);
      StepsAppend(cfg, v, CopyActs(cfg, v, fates[0]), v1, RoundActs(cfg, v1, fates[1..]),
                  CopiedAll(cfg, v1, fates[1..]));
    }
  }

  lemma CopyTakesNoInput(cfg: Config, v: Server, fate: Fate)
    requires v.local != [] && FateOk(cfg, v, fate)
    ensures forall i :: 0 <= i < |CopyActs(cfg, v, fate)| ==> !TakesInput(CopyActs(cfg, v, fate)[i])
  {
    RepeatTakesNoInput(if fate.Throws? then fate.after else |Bytes(cfg, v, v.local[0])|);
  }

  lemma {:induction false} RepeatTakesNoInput(n: nat)
    ensures forall i :: 0 <= i < n ==> !TakesInput(Repeat(Move(CopyByte), n)[i])
  {
    if n == 0 {
    } else {
      RepeatTakesNoInput(n - 1);
    }
  }

  lemma CopiedOneOk(cfg: Config, h: nat, v: Server, fate: Fate)
    requires ServerOk(cfg, h, v) && v.mover.Working? && v.local != [] && FateOk(cfg, v, fate) && !v.handler.Aborted?
    ensures ServerOk(cfg, h, CopiedOne(cfg, v, fate))
  {
    CopyOneIsSteps(cfg, v, fate);
    CopyTakesNoInput(cfg, v, fate);
    StepsKeep(cfg, h, v, CopyActs(cfg, v, fate), CopiedOne(cfg, v, fate));
  }

  // ---------------------------------------------------------------- the code

  class HvacServer {
    var fds: map<int, Ofd>
    var disk: map<Path, seq<Byte>>
    var dirs: set<Path>
    var fdToPath: map<int, Path>
    var pathCache: map<Path, Path>
    var dataQueue: seq<Path>
    var mutex: Lock
    var mover: Mover
    ghost var pushed: seq<Path>
    ghost var processed: seq<(Path, bool)>
    ghost var missed: seq<Path>

    constructor ()
      ensures View(Idle, []) == BOOT
    {
      fds, disk, dirs, fdToPath, pathCache := map[], map[], {}, map[], map[];
      dataQueue, mutex, mover := [], Free, Outside;
      pushed, processed, missed := [], [], [];
    }

    /** The state of the server, given where the progress thread is and what is in local_list. */
    ghost function View(handler: Handler, local: seq<Path>): Server
      reads this
    {
      Server(fds, disk, dirs, fdToPath, pathCache, dataQueue, local, mutex, handler, mover, pushed, processed, missed)
    }

    /** hvac_open_rpc_handler; `sfd` is what open() returns. */
    method OpenHandler(cfg: Config, ghost h: nat, path: Path, sfd: int, ghost local: seq<Path>) returns (reply: int)
      requires OpenReturns(cfg, View(Idle, local), path, sfd)
      modifies this
      ensures reply == sfd
      ensures View(Idle, local) == OpenedServer(old(View(Idle, local)), path, sfd)
      ensures sfd != -1 ==>
                && sfd in fds && fds[sfd].off == 0
                && fds[sfd].name == if path in pathCache then pathCache[path] else path
      ensures fdToPath == old(fdToPath)[sfd := path]
      ensures old(ServerOk(cfg, h, View(Idle, local))) && Mine(cfg, h, path) ==> ServerOk(cfg, h, View(Idle, local))
    {
      if ServerOk(cfg, h, View(Idle, local)) && Mine(cfg, h, path) {
        OpenedServerOk(cfg, h, View(Idle, local), path, sfd);
      }
      var redirPath := path;
      if path in pathCache {
        redirPath := pathCache[path];
      }
      if sfd != -1 {
        fds := fds[sfd := Ofd(redirPath, 0)];
      }
      fdToPath := fdToPath[sfd := path];
      reply := sfd;
    }

    /** A read() or pread() that transfers `n` bytes into the front of a buffer. */
    static method Transfer(content: seq<Byte>, at: nat, buffer: array<Byte>, n: nat)
      requires n <= buffer.Length && n <= Available(|content|, at)
      modifies buffer
      ensures buffer[..n] == Slice(content, at, n)
      ensures buffer[n..] == old(buffer[n..])
    {
      var i := 0;
      while i < n
        invariant 0 <= i <= n
        invariant buffer[..i] == Slice(content, at, i)
        invariant buffer[n..] == old(buffer[n..])
      {
        buffer[i] := content[at + i];
        i := i + 1;
      }
    }

    /** hvac_rpc_handler up to the bulk transfer: a zeroed buffer, read() or pread() by the offset, and the
        size reduced to what was read unless the read failed.  `n` is how much the read transfers. */
    method ReadHandler(cfg: Config, id: nat, client: nat, sfd: int, count: nat, offset: int, n: nat,
                       ghost local: seq<Path>)
      returns (buffer: array<Byte>, size: nat)
      requires Enabled(cfg, View(Idle, local), Progress(RecvRead(id, client, sfd, count, offset, n)))
      modifies this
      ensures fresh(buffer) && buffer.Length == count && size <= count
      ensures buffer[..size] == ReadData(cfg, old(View(Idle, local)), sfd, count, offset, n)
      ensures View(Idle, local) ==
              Apply(cfg, old(View(Idle, local)), Progress(RecvRead(id, client, sfd, count, offset, n)))
    {
      buffer := new Byte[count](_ => 0);
      size := count;
      var readbytes: int := -1;
      if sfd in fds && offset >= -1 {
        var name := fds[sfd].name;
        var content := if name in disk then disk[name] else if name in cfg.files then cfg.files[name] else [];
        var at := if offset == -1 then fds[sfd].off else offset;
        Transfer(content, at, buffer, n);
        readbytes := n;
        if offset == -1 {
          fds := fds[sfd := fds[sfd].(off := at + n)];
        }
      }
      fdToPath := Touch(fdToPath, sfd);
      if readbytes != -1 {
        size := readbytes;
      } else {
        assert buffer[..size] == Zeros(count);
      }
    }

    /** hvac_seek_rpc_handler. */
    method SeekHandler(cfg: Config, id: nat, client: nat, sfd: int, offset: int, whence: int, ghost local: seq<Path>)
      returns (reply: int)
      modifies this
      ensures reply == SeekAnswer(cfg, old(View(Idle, local)), sfd, offset, whence)
      ensures View(Idle, local) ==
              Apply(cfg, old(View(Idle, local)), Progress(RecvSeek(id, client, sfd, offset, whence)))
    {
      var ret: int := -1;
      if sfd in fds {
        var name := fds[sfd].name;
        var size := if name in disk then |disk[name]| else if name in cfg.files then |cfg.files[name]| else 0;
        if SeekSucceeds(size, fds[sfd].off, offset, whence) {
          ret := SeekTarget(size, fds[sfd].off, offset, whence);
          fds := fds[sfd := fds[sfd].(off := ret)];
        } else {
          fds := fds[sfd := fds[sfd]];
        }
      }
      reply := ToInt32(ret);
    }

    /** pthread_mutex_lock(&data_mutex) by the closer: while the mover is in its critical section the closer
        waits, and the mover runs to the end of it. */
    method LockMutex(localList: seq<Path>) returns (local: seq<Path>)
      requires HoldsRight(View(Idle, localList)) && mutex != ByHandler
      modifies this
      ensures View(Idle, local) == ReleasedServer(old(View(Idle, localList))).(mutex := ByHandler)
    {
      local := localList;
      if mutex == ByMover {
        if mover == Locked {
          mover := Waiting(Asleep);
        } else {
          if mover == InHand {
            dataQueue := dataQueue[1..];
            mover := Draining;
          }
          local := Drain(local, Idle);
          mover := Working;
          missed := [];
        }
      }
      mutex := ByHandler;
    }

    /** The critical section of the close handler: signal first, then push. */
    method QueueForMover(path: Path, ghost sfd: int, localList: seq<Path>) returns (local: seq<Path>)
      requires HoldsRight(View(Idle, localList)) && mutex != ByHandler
      requires sfd in fdToPath && path == fdToPath[sfd]
      modifies this
      ensures View(Idle, local) == QueuedServer(ReleasedServer(old(View(Idle, localList))), sfd)
    {
      ReleasedMutex(View(Idle, localList));
      local := LockMutex(localList);
      if mover == Waiting(Asleep) {
        mover := Waiting(Signalled);
      }
      dataQueue := dataQueue + [path];
      pushed := pushed + [path];
      missed := if mover.Waiting? then missed else missed + [path];
      mutex := Free;
    }

    /** What the close handler does once close() has succeeded: the path is queued, after the signal, unless
        it is cached already, and forgotten. */
    method CloseSucceeded(sfd: int, localList: seq<Path>) returns (local: seq<Path>)
      requires HoldsRight(View(Idle, localList)) && mutex != ByHandler && sfd in fdToPath
      modifies this
      ensures View(Idle, local) == ForgottenServer(old(View(Idle, localList)), sfd)
    {
      local := localList;
      fdToPath := Touch(fdToPath, sfd);
      if fdToPath[sfd] !in pathCache {
        local := QueueForMover(fdToPath[sfd], sfd, localList);
      }
      fdToPath := fdToPath - {sfd};
    }

    /** hvac_close_rpc_handler: `ok` is whether assert(ret == 0) holds. */
    method CloseHandler(ghost cfg: Config, ghost h: nat, sfd: int, localList: seq<Path>)
      returns (ok: bool, local: seq<Path>)
      requires ServerOk(cfg, h, View(Idle, localList)) && Known(View(Idle, localList), sfd)
      modifies this
      ensures ok <==> sfd != -1
      ensures ok ==> fds == old(fds) - {sfd} && fdToPath == old(fdToPath) - {sfd}
      ensures ok ==> sfd in old(fdToPath) && pathCache == old(pathCache)
      ensures ok && old(fdToPath)[sfd] in pathCache ==>
                pushed == old(pushed) && dataQueue == old(dataQueue) && local == localList
      ensures ok && old(fdToPath)[sfd] !in pathCache ==>
                && pushed == old(pushed) + [old(fdToPath)[sfd]] && mover != Waiting(Asleep)
                && local + dataQueue == localList + old(Unclaimed(View(Idle, localList))) + [old(fdToPath)[sfd]]
      ensures View(Idle, local) ==
              if ok then ClosedServer(old(View(Idle, localList)), sfd) else old(View(Idle, localList))
      ensures ServerOk(cfg, h, View(Idle, local))
    {
      ghost var v := View(Idle, localList);
      CloseFinds(cfg, h, v, sfd);
      CloseLaw(v, sfd);
      if sfd !in fds {
        return false, localList;
      }
      ClosedServerOk(cfg, h, v, sfd);
      fds := fds - {sfd};
      QueuedAfterClose(v, sfd, fds);
      local := CloseSucceeded(sfd, localList);
      ok := true;
    }

    /** The first inner loop of the mover, data_mutex held. */
    method Drain(localList: seq<Path>, ghost handler: Handler) returns (local: seq<Path>)
      requires mover.Draining?
      modifies this
      ensures View(handler, local) == DrainedServer(old(View(handler, localList)))
    {
      local := localList;
      while dataQueue != []
        invariant View(handler, local) == old(View(handler, localList)).(local := local, queue := dataQueue)
        invariant local + dataQueue == localList + old(dataQueue)
        decreases |dataQueue|
      {
        local := local + [dataQueue[0]];
        dataQueue := dataQueue[1..];
      }
      assert local == localList + old(dataQueue);
    }

    /** fs::copy of a file into a fresh directory: byte by byte, stopping after `limit` bytes. */
    method CopyFile(cfg: Config, from: Path, target: Path, limit: nat, ghost handler: Handler, ghost local: seq<Path>)
      requires from != target && limit <= |Bytes(cfg, View(handler, local), from)|
      modifies this
      ensures View(handler, local) ==
              var v := old(View(handler, local));
              v.(disk := v.disk[target := Bytes(cfg, v, from)[..limit]])
    {
      var content := if from in disk then disk[from] else if from in cfg.files then cfg.files[from] else [];
      ghost var v := View(handler, local);
      disk := disk[target := []];
      var k := 0;
      while k < limit
        invariant 0 <= k <= limit
        invariant target in disk && disk[target] == content[..k]
        invariant View(handler, local) == v.(disk := v.disk[target := content[..k]])
      {
        disk := disk[target := disk[target] + [content[k]]];
        k := k + 1;
      }
    }

    /** One turn of the second inner loop of the mover: the front of local_list is copied and published, or
        fails, and is popped. */
    method CopyFront(cfg: Config, ghost h: nat, localList: seq<Path>, fate: Fate, ghost handler: Handler)
      returns (local: seq<Path>)
      requires localList != [] && mover.Working? && !handler.Aborted? && FateOk(cfg, View(handler, localList), fate)
      modifies this
      ensures local == localList[1..]
      ensures View(handler, local) == CopiedOne(cfg, old(View(handler, localList)), fate)
      ensures old(ServerOk(cfg, h, View(handler, localList))) ==> ServerOk(cfg, h, View(handler, local))
    {
      if ServerOk(cfg, h, View(handler, localList)) {
        CopiedOneOk(cfg, h, View(handler, localList), fate);
      }
      var p := localList[0];
      if fate != NoDir {
        dirs := dirs + {fate.dir};
        var filename := CopyName(fate.dir, p);
        ghost var content := Bytes(cfg, View(handler, localList), p);
        assert content[..|content|] == content;
        var size := if p in disk then |disk[p]| else |cfg.files[p]|;
        CopyFile(cfg, p, filename, if fate.Throws? then fate.after else size, handler, localList);
        if fate.Copies? {
          pathCache := pathCache[p := filename];
        }
      }
      processed := processed + [(p, fate.Copies?)];
      local := localList[1..];
    }

    /** The second inner loop of the mover: every path in local_list, front to back. */
    method CopyList(cfg: Config, ghost h: nat, localList: seq<Path>, fates: seq<Fate>, ghost handler: Handler)
      requires mover.Working? && !handler.Aborted? && FatesOk(cfg, View(handler, localList), fates)
      modifies this
      ensures View(handler, []) == CopiedAll(cfg, old(View(handler, localList)), fates)
      ensures old(ServerOk(cfg, h, View(handler, localList))) ==> ServerOk(cfg, h, View(handler, []))
    {
      var local := localList;
      var i := 0;
      while local != []
        invariant 0 <= i <= |fates| && mover.Working?
        invariant old(ServerOk(cfg, h, View(handler, localList))) ==> ServerOk(cfg, h, View(handler, local))
        invariant FatesOk(cfg, View(handler, local), fates[i..])
        invariant CopiedAll(cfg, View(handler, local), fates[i..]) ==
                  CopiedAll(cfg, old(View(handler, localList)), fates)
        decreases |local|
      {
        assert fates[i..][1..] == fates[i + 1..];
        local := CopyFront(cfg, h, local, fates[i], handler);
        i := i + 1;
      }
    }
  }
}
