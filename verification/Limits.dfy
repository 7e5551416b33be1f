/** A run in which a closed file stays in the queue: a lost wake-up. */
module Limits {
  import opened Posix
  import opened Session
  import opened CacheServer
  import opened CacheSystem
  import opened MoverTheorems
  import opened Completion
  import C = CacheClient

  /** One server and one file of one byte. */
  function Tiny(): Config {
    Config(map["/d/a" := [7]], _ => 0, 1, "/n", true, false)
  }

  function Asking(done: nat, redir: map<int, int>): C.Client {
    C.Client(map[3 := "/d/a"], redir, {3}, done, -1, [], C.Opening(0, 3))
  }

  /** One client has opened the file as descriptor 3 and been answered `sfd`. */
  function OpenedOnce(v: Server, sfd: int): State {
    State([C.Client(map[3 := "/d/a"], map[3 := sfd], {3}, 1, -1, [], C.Idle)], [v], map[], 1)
  }

  lemma AskOnce(cfg: Config)
    requires cfg == Tiny()
    ensures Reachable(cfg, State([Asking(0, map[])], [BOOT], map[0 := C.OpenReq(0, 0, 3, "/d/a")], 1))
  {
    var s0 := Init(cfg, 1);
    assert Run(cfg, s0, [], s0);
    assert "/n/"[1] != "/d/a"[1];
    assert cfg.nvme + "/" == "/n/";
    assert CanStep(cfg, s0, AppOpen(0, 3, "/d/a"));
    ReachableStep(cfg, s0, AppOpen(0, 3, "/d/a"));
    var s1 := Do(cfg, s0, AppOpen(0, 3, "/d/a"));
    assert s0.clients == [C.FRESH] && s0.servers == [BOOT];
    assert C.FRESH.fdMap[3 := "/d/a"] == map[3 := "/d/a"] && {} + {3} == {3};
    assert s1.clients[0] == Asking(0, map[]);
    assert s1.clients == [Asking(0, map[])] && s1.servers == [BOOT];
  }

  /** The server after its only open. */
  function Holding(sfd: int): Server {
    BOOT.(fds := map[sfd := Ofd("/d/a", 0)], fdToPath := map[sfd := "/d/a"])
  }

  /** The server about to open the file. */
  function OpeningOnce(): State {
    State([Asking(0, map[])], [BOOT.(handler := OpenAt(0, 0, 3, "/d/a", "/d/a"))], map[], 1)
  }

  lemma ReceiveOnce(cfg: Config)
    requires cfg == Tiny()
    ensures Reachable(cfg, OpeningOnce())
  {
    AskOnce(cfg);
    var s1 := State([Asking(0, map[])], [BOOT], map[0 := C.OpenReq(0, 0, 3, "/d/a")], 1);
    var e := Serve(0, Progress(RecvOpen(0, 0, 3, "/d/a")));
    ReachableStep(cfg, s1, e);
    assert Do(cfg, s1, e) == OpeningOnce();
  }

  lemma ServeOnce(cfg: Config, sfd: int)
    requires cfg == Tiny() && sfd >= 0
    ensures Reachable(cfg, State([Asking(0, map[])], [Holding(sfd)], map[0 := C.OpenResp(0, 0, 3, sfd)], 1))
  {
    ReceiveOnce(cfg);
    var e := Serve(0, Progress(OpenDo(sfd)));
    ReachableStep(cfg, OpeningOnce(), e);
    assert Do(cfg, OpeningOnce(), e)
        == State([Asking(0, map[])], [Holding(sfd)], map[0 := C.OpenResp(0, 0, 3, sfd)], 1);
  }

  lemma DeliverOnce(cfg: Config, sfd: int)
    requires cfg == Tiny() && sfd >= 0
    ensures Reachable(cfg, State([Asking(1, map[3 := sfd])], [Holding(sfd)], map[], 1))
  {
    ServeOnce(cfg, sfd);
    var s3 := State([Asking(0, map[])], [Holding(sfd)], map[0 := C.OpenResp(0, 0, 3, sfd)], 1);
    ReachableStep(cfg, s3, Deliver(0));
    assert Do(cfg, s3, Deliver(0)) == State([Asking(1, map[3 := sfd])], [Holding(sfd)], map[], 1);
  }

  lemma OpenOnce(cfg: Config, sfd: int)
    requires cfg == Tiny() && sfd >= 0
    ensures Reachable(cfg, OpenedOnce(Holding(sfd), sfd))
  {
    DeliverOnce(cfg, sfd);
    var s4 := State([Asking(1, map[3 := sfd])], [Holding(sfd)], map[], 1);
    ReachableStep(cfg, s4, AppReturn(0, Result(0, [])));
    assert Do(cfg, s4, AppReturn(0, Result(0, []))) == OpenedOnce(Holding(sfd), sfd);
  }

  /** The client closes its descriptor; the request is on its way. */
  function ClosedOnce(v: Server, sfd: int): State {
    State([C.Client(map[], map[], {}, 1, -1, [], C.Idle)], [v], map[1 := C.CloseReq(0, sfd)], 2)
  }

  lemma CloseOnce(cfg: Config, sfd: int)
    requires cfg == Tiny() && sfd >= 0
    ensures Reachable(cfg, ClosedOnce(Holding(sfd), sfd))
  {
    OpenOnce(cfg, sfd);
    var s := OpenedOnce(Holding(sfd), sfd);
    ReachableStep(cfg, s, AppClose(0, 3));
    var s1 := Do(cfg, s, AppClose(0, 3));
    assert s1.clients[0].fdMap == map[] && s1.clients[0].redir == map[] && s1.clients[0].local == {};
    assert s1 == ClosedOnce(Holding(sfd), sfd);
  }

  /** The server after the close, with the path queued and the mover still on its way to its first wait. */
  function Queued(mover: Mover, mutex: Lock, handler: Handler): Server {
    BOOT.(queue := ["/d/a"], pushed := ["/d/a"], missed := ["/d/a"],
          fdToPath := if handler.Idle? then map[] else map[5 := "/d/a"],
          mover := mover, mutex := mutex, handler := handler)
  }

  /** Everything closed and delivered. */
  function AllClosed(v: Server): State {
    State([C.Client(map[], map[], {}, 1, -1, [], C.Idle)], [v], map[], 2)
  }

  lemma InnerThen(cfg: Config, v: Server, a: Act)
    requires Reachable(cfg, AllClosed(v)) && Enabled(cfg, v, a)
    requires a.Progress? ==> a.h.CacheFind? || a.h.HandlerLock? || a.h.HandlerSignal? || a.h.HandlerPush?
                             || a.h.HandlerUnlock? || a.h.HandlerErase?
    ensures Reachable(cfg, AllClosed(Apply(cfg, v, a)))
  {
    var s := AllClosed(v);
    ReachableStep(cfg, s, Serve(0, a));
    assert Do(cfg, s, Serve(0, a)) == AllClosed(Apply(cfg, v, a));
  }

  /** The server closing its only descriptor. */
  function ClosingOnce(): Server {
    BOOT.(fdToPath := map[5 := "/d/a"], handler := CloseFind(5))
  }

  lemma CloseStarts(cfg: Config)
    requires cfg == Tiny()
    ensures Reachable(cfg, AllClosed(ClosingOnce()))
  {
    CloseOnce(cfg, 5);
    var s := ClosedOnce(Holding(5), 5);
    ReachableStep(cfg, s, Serve(0, Progress(RecvClose(1, 5))));
    assert Holding(5).fds - {5} == map[];
    assert s.msgs - {1} == map[];
    assert Do(cfg, s, Serve(0, Progress(RecvClose(1, 5)))) == AllClosed(ClosingOnce());
  }

  lemma CloseQueues(cfg: Config)
    requires cfg == Tiny()
    ensures Reachable(cfg, AllClosed(Queued(Outside, ByHandler, CloseUnlock(5))))
  {
    CloseStarts(cfg);
    var v1 := ClosingOnce();
    InnerThen(cfg, v1, Progress(CacheFind));
    InnerThen(cfg, v1.(handler := CloseLock(5)), Progress(HandlerLock));
    InnerThen(cfg, v1.(handler := CloseSignal(5), mutex := ByHandler), Progress(HandlerSignal));
    InnerThen(cfg, v1.(handler := ClosePush(5), mutex := ByHandler), Progress(HandlerPush));
    assert [] + ["/d/a"] == ["/d/a"];
  }

  lemma CloseFinishes(cfg: Config)
    requires cfg == Tiny()
    ensures Reachable(cfg, AllClosed(Queued(Outside, Free, Idle)))
  {
    CloseQueues(cfg);
    InnerThen(cfg, Queued(Outside, ByHandler, CloseUnlock(5)), Progress(HandlerUnlock));
    InnerThen(cfg, Queued(Outside, Free, CloseErase(5)), Progress(HandlerErase));
    assert map[5 := "/d/a"] - {5} == map[];
  }

  lemma MoverSleeps(cfg: Config)
    requires cfg == Tiny()
    ensures Reachable(cfg, AllClosed(Queued(Waiting(Asleep), Free, Idle)))
  {
    CloseFinishes(cfg);
    InnerThen(cfg, Queued(Outside, Free, Idle), Move(MoverLock));
    InnerThen(cfg, Queued(Locked, ByMover, Idle), Move(MoverWait));
  }

  /** A signal sent before the mover first waits is lost: everything is closed and delivered, both threads
      are at rest, and the closed file stays in the queue.  The mover has no step left but a spurious
      wake-up, so "every closed file is eventually cached" does not hold unconditionally. */
  lemma LostWakeup()
    ensures exists s :: Reachable(Tiny(), s) && s.msgs == map[] && |s.servers| == 1
                        && AtRest(s.servers[0]) && s.servers[0].queue == ["/d/a"] && s.servers[0].processed == []
                        && forall m :: MoverEnabled(Tiny(), s.servers[0], m) ==> m.SpuriousWake?
  {
    MoverSleeps(Tiny());
    assert Reachable(Tiny(), AllClosed(Queued(Waiting(Asleep), Free, Idle)));
  }

  /** The mover asleep while the only descriptor is being closed. */
  function SleepingClose(handler: Handler, mutex: Lock, wake: Wake): Server {
    ClosingOnce().(handler := handler, mutex := mutex, mover := Waiting(wake))
  }

  /** The closer signals first and pushes then: there is a reachable moment when the mover is signalled and its
      queue is still empty. */
  lemma SignalBeforePush()
    ensures exists s :: Reachable(Tiny(), s) && |s.servers| == 1
                        && s.servers[0].mover == Waiting(Signalled) && s.servers[0].queue == []
  {
    var cfg := Tiny();
    CloseStarts(cfg);
    var v := ClosingOnce();
    InnerThen(cfg, v, Move(MoverLock));
    InnerThen(cfg, v.(mutex := ByMover, mover := Locked), Move(MoverWait));
    InnerThen(cfg, SleepingClose(CloseFind(5), Free, Asleep), Progress(CacheFind));
    InnerThen(cfg, SleepingClose(CloseLock(5), Free, Asleep), Progress(HandlerLock));
    InnerThen(cfg, SleepingClose(CloseSignal(5), ByHandler, Asleep), Progress(HandlerSignal));
    assert Reachable(cfg, AllClosed(SleepingClose(ClosePush(5), ByHandler, Signalled)));
  }
}
