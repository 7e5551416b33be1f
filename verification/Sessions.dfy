/** One descriptor's share of a run: what happens on it depends on its own calls only, and sequential reads
    put the file together again. */
module Sessions {
  import opened Posix
  import opened Session
  import opened CacheServer
  import opened CacheSystem
  import opened Transparency

  /** What happens on one local descriptor of one client. */
  datatype Happening = Open(path: Path, live: bool) | Call(call: Posix.Call, result: Result) | Close

  /** The share of descriptor `fd` of client `c` in a trace. */
  function Share(trace: seq<Event>, c: nat, fd: int): seq<Happening> {
    if trace == [] then []
    else
      (match trace[0]
       case Opened(d, g, path, live) => if (d, g) == (c, fd) then [Open(path, live)] else []
       case Answered(d, g, call, r) => if (d, g) == (c, fd) then [Call(call, r)] else []
       case Closed(d, g) => if (d, g) == (c, fd) then [Close] else [])
      + Share(trace[1..], c, fd)
  }

  /** The state of one descriptor; `live` as in the events. */
  datatype Status = Shut | At(path: Path, off: nat, live: bool)

  function Look(spec: Spec, c: nat, fd: int): Status {
    if (c, fd) in spec then At(spec[(c, fd)].path, spec[(c, fd)].off, spec[(c, fd)].live) else Shut
  }

  /** A descriptor in status `st` allows `ev`. */
  predicate Permits(cfg: Config, st: Status, ev: Happening) {
    match ev
    case Open(path, live) => st.Shut? && path in cfg.files && (live || cfg.opensMayFail)
    case Call(call, r) =>
      st.At? && st.path in cfg.files && AnswerOk(cfg.fullReads, cfg.files[st.path], st.live, st.off, call, r)
    case Close => st.At?
  }

  function Next(cfg: Config, st: Status, ev: Happening): Status
    requires Permits(cfg, st, ev)
  {
    match ev
    case Open(path, live) => At(path, 0, live)
    case Call(call, r) => st.(off := OffAfter(cfg.files[st.path], st.live, st.off, call, r))
    case Close => Shut
  }

  predicate Lawful(cfg: Config, st: Status, evs: seq<Happening>)
    decreases |evs|
  {
    evs == [] || (Permits(cfg, st, evs[0]) && Lawful(cfg, Next(cfg, st, evs[0]), evs[1..]))
  }

  lemma {:induction false} ShareIsLawful(cfg: Config, spec: Spec, trace: seq<Event>, c: nat, fd: int)
    requires Accepts(cfg, spec, trace)
    ensures Lawful(cfg, Look(spec, c, fd), Share(trace, c, fd))
    decreases |trace|
  {
    if trace == [] {
    } else {
      var rest := Share(trace[1..], c, fd);
      ShareIsLawful(cfg, Advance(cfg, spec, trace[0]), trace[1..], c, fd);
      var all := Share(trace, c, fd);
      assert all == rest || all[1..] == rest;
    }
  }

  /** What a run does on one descriptor. */
  function RunShare(cfg: Config, clients: nat, steps: seq<Step>, s: State, c: nat, fd: int): seq<Happening>
    requires Run(cfg, Init(cfg, clients), steps, s)
  {
    Share(Trace(cfg, Init(cfg, clients), steps, s), c, fd)
  }

  lemma RunShareIsLawful(cfg: Config, clients: nat, steps: seq<Step>, s: State, c: nat, fd: int)
    requires Run(cfg, Init(cfg, clients), steps, s)
    ensures Lawful(cfg, Shut, RunShare(cfg, clients, steps, s, c, fd))
  {
    EveryRunIsServed(cfg, clients, steps, s);
    ShareIsLawful(cfg, map[], Trace(cfg, Init(cfg, clients), steps, s), c, fd);
  }

  // ---------------------------------------------------------------- non-interference

  /** The same asked. */
  predicate SameAsked(a: Happening, b: Happening) {
    match a
    case Open(p, _) => b.Open? && b.path == p
    case Call(call, _) => b.Call? && b.call == call
    case Close => b.Close?
  }

  /** The operating system decided alike: whether an open succeeds, and how much a read transfers. */
  predicate SameChoice(a: Happening, b: Happening) {
    && (a.Open? && b.Open? ==> a.live == b.live)
    && (a.Call? && b.Call? && !a.call.Seek? ==> a.result.ret == b.result.ret)
  }

  /** Then there is one answer. */
  lemma OneAnswer(full: bool, content: seq<Byte>, live: bool, off: nat, call: Posix.Call, r: Result, q: Result)
    requires AnswerOk(full, content, live, off, call, r) && AnswerOk(full, content, live, off, call, q)
    requires !call.Seek? ==> r.ret == q.ret
    ensures r == q
  {
  }

  lemma {:induction false} LawfulAnswersAgree(cfg: Config, st: Status, a: seq<Happening>, b: seq<Happening>)
    requires Lawful(cfg, st, a) && Lawful(cfg, st, b)
    requires |a| <= |b| && forall i :: 0 <= i < |a| ==> SameAsked(a[i], b[i]) && SameChoice(a[i], b[i])
    ensures a <= b
    decreases |a|
  {
    if a == [] {
    } else {
      assert SameAsked(a[0], b[0]) && SameChoice(a[0], b[0]);
      if a[0].Call? {
        OneAnswer(cfg.fullReads, cfg.files[st.path], st.live, st.off, a[0].call, a[0].result, b[0].result);
      }
      assert a[0] == b[0];
      LawfulAnswersAgree(cfg, Next(cfg, st, a[0]), a[1..], b[1..]);
      assert a == [a[0]] + a[1..] && b == [b[0]] + b[1..];
    }
  }

  /** Non-interference: take any two runs over the same files, with any other clients, descriptors,
      deliveries and copies, and in each one descriptor.  As long as the same things are asked of the two
      descriptors and the operating system serves them alike, the same things are answered. */
  lemma NonInterference(cfg: Config,
                        clients1: nat, steps1: seq<Step>, s1: State, c1: nat, fd1: int,
                        clients2: nat, steps2: seq<Step>, s2: State, c2: nat, fd2: int)
    requires Run(cfg, Init(cfg, clients1), steps1, s1) && Run(cfg, Init(cfg, clients2), steps2, s2)
    requires var a := RunShare(cfg, clients1, steps1, s1, c1, fd1);
             var b := RunShare(cfg, clients2, steps2, s2, c2, fd2);
             |a| <= |b| && forall i :: 0 <= i < |a| ==> SameAsked(a[i], b[i]) && SameChoice(a[i], b[i])
    ensures RunShare(cfg, clients1, steps1, s1, c1, fd1) <= RunShare(cfg, clients2, steps2, s2, c2, fd2)
  {
    RunShareIsLawful(cfg, clients1, steps1, s1, c1, fd1);
    RunShareIsLawful(cfg, clients2, steps2, s2, c2, fd2);
    LawfulAnswersAgree(cfg, Shut, RunShare(cfg, clients1, steps1, s1, c1, fd1),
                       RunShare(cfg, clients2, steps2, s2, c2, fd2));
  }

  /** Where opens succeed and reads are full there is nothing to choose. */
  lemma {:induction false} NoChoice(cfg: Config, st: Status, a: seq<Happening>, b: seq<Happening>)
    requires !cfg.opensMayFail && cfg.fullReads && Lawful(cfg, st, a) && Lawful(cfg, st, b)
    requires |a| <= |b| && forall i :: 0 <= i < |a| ==> SameAsked(a[i], b[i])
    ensures forall i :: 0 <= i < |a| ==> SameChoice(a[i], b[i])
    decreases |a|
  {
    if a == [] {
    } else {
      assert SameAsked(a[0], b[0]);
      assert SameChoice(a[0], b[0]);
      if a[0].Call? {
        OneAnswer(true, cfg.files[st.path], st.live, st.off, a[0].call, a[0].result, b[0].result);
      }
      assert a[0] == b[0];
      NoChoice(cfg, Next(cfg, st, a[0]), a[1..], b[1..]);
      forall i | 0 <= i < |a|
        ensures SameChoice(a[i], b[i])
      {
        assert i == 0 || (a[i] == a[1..][i - 1] && b[i] == b[1..][i - 1]);
      }
    }
  }

  /** On such systems the answers on a descriptor are a function of what is asked on it. */
  lemma AskedDecides(cfg: Config,
                     clients1: nat, steps1: seq<Step>, s1: State, c1: nat, fd1: int,
                     clients2: nat, steps2: seq<Step>, s2: State, c2: nat, fd2: int)
    requires !cfg.opensMayFail && cfg.fullReads
    requires Run(cfg, Init(cfg, clients1), steps1, s1) && Run(cfg, Init(cfg, clients2), steps2, s2)
    requires var a := RunShare(cfg, clients1, steps1, s1, c1, fd1);
             var b := RunShare(cfg, clients2, steps2, s2, c2, fd2);
             |a| <= |b| && forall i :: 0 <= i < |a| ==> SameAsked(a[i], b[i])
    ensures RunShare(cfg, clients1, steps1, s1, c1, fd1) <= RunShare(cfg, clients2, steps2, s2, c2, fd2)
  {
    RunShareIsLawful(cfg, clients1, steps1, s1, c1, fd1);
    RunShareIsLawful(cfg, clients2, steps2, s2, c2, fd2);
    NoChoice(cfg, Shut, RunShare(cfg, clients1, steps1, s1, c1, fd1), RunShare(cfg, clients2, steps2, s2, c2, fd2));
    NonInterference(cfg, clients1, steps1, s1, c1, fd1, clients2, steps2, s2, c2, fd2);
  }

  // ---------------------------------------------------------------- reassembly

  /** Reads and preads only. */
  predicate OnlyReads(evs: seq<Happening>) {
    forall i :: 0 <= i < |evs| ==> evs[i].Call? && !evs[i].call.Seek?
  }

  /** The bytes one answer delivers, if its call reads sequentially. */
  function Delivered(ev: Happening): seq<Byte> {
    if ev.Call? && SequentialCall(ev.call) && 0 <= ev.result.ret <= |ev.result.buf|
    then ev.result.buf[..ev.result.ret] else []
  }

  /** What a reader has after putting its sequential reads one behind the other. */
  function Assembled(evs: seq<Happening>): seq<Byte> {
    if evs == [] then [] else Delivered(evs[0]) + Assembled(evs[1..])
  }

  /** The sequential reads that delivered something. */
  function Productive(evs: seq<Happening>): nat {
    if evs == [] then 0 else (if Delivered(evs[0]) != [] then 1 else 0) + Productive(evs[1..])
  }

  function Final(cfg: Config, st: Status, evs: seq<Happening>): Status
    requires Lawful(cfg, st, evs)
    decreases |evs|
  {
    if evs == [] then st else Final(cfg, Next(cfg, st, evs[0]), evs[1..])
  }

  lemma OneRead(cfg: Config, st: Status, ev: Happening)
    requires Permits(cfg, st, ev) && ev.Call? && !ev.call.Seek? && st.live
    ensures var content := cfg.files[st.path];
            && Piece(content, st.off, Delivered(ev))
            && Next(cfg, st, ev) == At(st.path, st.off + |Delivered(ev)|, true)
  {
  }

  /** `data` is a piece of the file. */
  predicate Piece(content: seq<Byte>, off: nat, data: seq<Byte>) {
    |data| <= Available(|content|, off) && data == Slice(content, off, |data|)
  }

  /** Two pieces that meet. */
  lemma PiecesMeet(content: seq<Byte>, off: nat, a: seq<Byte>, b: seq<Byte>)
    requires Piece(content, off, a) && Piece(content, off + |a|, b)
    ensures Piece(content, off, a + b)
  {
  }

  lemma {:induction false} ProductiveBound(evs: seq<Happening>)
    ensures Productive(evs) <= |Assembled(evs)|
  {
    if evs == [] {
    } else {
      ProductiveBound(evs[1..]);
    }
  }

  /** Without seeks, the sequential reads of a descriptor deliver consecutive pieces of the file, whatever
      their counts, whatever short reads they meet, and whatever preads come in between. */
  lemma {:induction false} ReadsAssemble(cfg: Config, st: Status, evs: seq<Happening>)
    requires st.At? && st.live && st.path in cfg.files && Lawful(cfg, st, evs) && OnlyReads(evs)
    ensures Piece(cfg.files[st.path], st.off, Assembled(evs))
    ensures Final(cfg, st, evs) == At(st.path, st.off + |Assembled(evs)|, true)
    decreases |evs|
  {
    if evs == [] {
    } else {
      OneRead(cfg, st, evs[0]);
      ReadsAssemble(cfg, Next(cfg, st, evs[0]), evs[1..]);
      PiecesMeet(cfg.files[st.path], st.off, Delivered(evs[0]), Assembled(evs[1..]));
    }
  }

  /** A loop that reads until it is told 0 has the whole rest of the file. */
  lemma ReadUntilZero(cfg: Config, st: Status, evs: seq<Happening>, last: Happening)
    requires st.At? && st.live && st.path in cfg.files && OnlyReads(evs)
    requires last.Call? && last.call.Read? && last.call.buf != [] && last.result.ret == 0
    requires Lawful(cfg, st, evs) && Permits(cfg, Final(cfg, st, evs), last)
    ensures var content := cfg.files[st.path];
            Assembled(evs) == content[if st.off <= |content| then st.off else |content|..]
  {
    ReadsAssemble(cfg, st, evs);
  }

  /** In any run, what is assembled on a descriptor that the server could open and that was then only read is
      a prefix of the file, and it takes at most one productive read per byte. */
  lemma RunReadsAssemble(cfg: Config, clients: nat, steps: seq<Step>, s: State, c: nat, fd: int, path: Path,
                         evs: seq<Happening>)
    requires Run(cfg, Init(cfg, clients), steps, s)
    requires RunShare(cfg, clients, steps, s, c, fd) == [Open(path, true)] + evs && OnlyReads(evs)
    ensures path in cfg.files && Assembled(evs) <= cfg.files[path] && Productive(evs) <= |cfg.files[path]|
  {
    RunShareIsLawful(cfg, clients, steps, s, c, fd);
    assert ([Open(path, true)] + evs)[1..] == evs;
    ReadsAssemble(cfg, At(path, 0, true), evs);
    ProductiveBound(evs);
  }
}
