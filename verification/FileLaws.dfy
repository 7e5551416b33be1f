/** What descriptors do, said of the answers alone: where a seek goes, where the next read starts, and how much
    it gives.  The laws are about the events of runs; positions are read off the answers, not off the model. */
module FileLaws {
  import opened Posix
  import opened Session
  import opened CacheServer
  import opened CacheSystem
  import opened Sessions

  function Max(a: int, b: int): int {
    if a >= b then a else b
  }

  function Min(a: int, b: int): int {
    if a <= b then a else b
  }

  // ---------------------------------------------------------------- one answer

  /** `r` answers a read of `content` from position `at` into `buf`, byte by byte. */
  predicate ReadsFrom(full: bool, content: seq<Byte>, at: nat, buf: seq<Byte>, r: Result) {
    && 0 <= r.ret <= Min(|buf|, Max(0, |content| - at))
    && |r.buf| == |buf|
    && (forall i :: 0 <= i < r.ret ==> r.buf[i] == content[at + i])
    && (forall i :: r.ret <= i < |buf| ==> r.buf[i] == buf[i])
    && (r.ret == 0 ==> buf == [] || at >= |content|)
    && (full ==> r.ret == Min(|buf|, Max(0, |content| - at)))
  }

  /** The answers a read may give are these and no others. */
  lemma ReadAtIff(full: bool, content: seq<Byte>, at: nat, buf: seq<Byte>, r: Result)
    ensures ReadAt(full, content, at, buf, r) <==> ReadsFrom(full, content, at, buf, r)
  {
    if ReadAt(full, content, at, buf, r) {
      ReadAtReads(full, content, at, buf, r);
    }
    if ReadsFrom(full, content, at, buf, r) {
      assert r.buf == Fill(buf, Slice(content, at, r.ret));
    }
  }

  lemma ReadAtReads(full: bool, content: seq<Byte>, at: nat, buf: seq<Byte>, r: Result)
    requires ReadAt(full, content, at, buf, r)
    ensures ReadsFrom(full, content, at, buf, r)
  {
    var data := Slice(content, at, r.ret);
    assert r.buf[..r.ret] == data && r.buf[r.ret..] == buf[r.ret..];
    forall i | 0 <= i < r.ret
      ensures r.buf[i] == content[at + i]
    {
      assert r.buf[i] == r.buf[..r.ret][i];
    }
    forall i | r.ret <= i < |buf|
      ensures r.buf[i] == buf[i]
    {
      assert r.buf[i] == r.buf[r.ret..][i - r.ret];
    }
  }

  /** A sequential read gives the bytes at the descriptor's position and moves past them; a pread gives the
      bytes at its offset, or zeros if that is below -1, and moves nothing. */
  lemma ReadLaw(cfg: Config, st: Status, ev: Happening)
    requires Permits(cfg, st, ev) && ev.Call? && st.live && !ev.call.Seek?
    ensures var content := cfg.files[st.path];
            if SequentialCall(ev.call) then
              && ReadsFrom(cfg.fullReads, content, st.off, ev.call.buf, ev.result)
              && Next(cfg, st, ev) == At(st.path, st.off + ev.result.ret, true)
            else
              && (ev.call.offset >= 0 ==> ReadsFrom(cfg.fullReads, content, ev.call.offset, ev.call.buf, ev.result))
              && (ev.call.offset < 0 ==>
                    && ev.result.ret == |ev.call.buf| == |ev.result.buf|
                    && forall i :: 0 <= i < |ev.call.buf| ==> ev.result.buf[i] == 0)
              && Next(cfg, st, ev) == st
  {
    var content := cfg.files[st.path];
    if SequentialCall(ev.call) {
      ReadAtReads(cfg.fullReads, content, st.off, ev.call.buf, ev.result);
    } else if ev.call.offset >= 0 {
      ReadAtReads(cfg.fullReads, content, ev.call.offset, ev.call.buf, ev.result);
    }
  }

  /** What a seek counts from: the start, the position, or the end. */
  function Origin(whence: int, at: nat, size: nat): nat {
    match whence
    case 0 => 0
    case 1 => at
    case _ => size
  }

  /** A seek goes the distance its 32-bit offset says from its origin, and answers where that is, in 32 bits; it
      answers -1 and stays if that would be before the start, or if there is no such origin. */
  lemma AnySeekLaw(cfg: Config, st: Status, offset: int, whence: int, r: Result)
    requires Permits(cfg, st, Call(Seek(offset, whence), r)) && st.live
    ensures var target := Origin(whence, st.off, |cfg.files[st.path]|) + ToInt32(offset);
            if 0 <= whence <= 2 && target >= 0 then
              && r == Result(ToInt32(target), [])
              && Next(cfg, st, Call(Seek(offset, whence), r)) == At(st.path, target, true)
            else r == Result(-1, []) && Next(cfg, st, Call(Seek(offset, whence), r)) == st
  {
  }

  /** When offset and target fit in 32 bits nothing is lost. */
  lemma SeekLaw(cfg: Config, st: Status, offset: int, whence: int, r: Result)
    requires Permits(cfg, st, Call(Seek(offset, whence), r)) && st.live && 0 <= whence <= 2
    requires var target := Origin(whence, st.off, |cfg.files[st.path]|) + offset; Fits(offset) && Fits(target)
    ensures var target := Origin(whence, st.off, |cfg.files[st.path]|) + offset;
            && r == Result(if target >= 0 then target else -1, [])
            && Next(cfg, st, Call(Seek(offset, whence), r)) == At(st.path, if target >= 0 then target else st.off, true)
  {
    AnySeekLaw(cfg, st, offset, whence, r);
  }

  /** Going to the end of a file answers its size. */
  lemma EndIsSize(cfg: Config, st: Status, r: Result)
    requires Permits(cfg, st, Call(Seek(0, SEEK_END), r)) && st.live && Fits(|cfg.files[st.path]|)
    ensures r.ret == |cfg.files[st.path]|
    ensures Next(cfg, st, Call(Seek(0, SEEK_END), r)) == At(st.path, |cfg.files[st.path]|, true)
  {
    SeekLaw(cfg, st, 0, SEEK_END, r);
  }

  /** Two relative seeks go where one by their sum goes, and answer the same. */
  lemma RelativeSeeksAdd(cfg: Config, st: Status, a: int, b: int, r: Result, q: Result, both: Result)
    requires st.At? && st.live && Fits(a) && Fits(b) && Fits(a + b)
    requires 0 <= st.off + a <= INT32_MAX && 0 <= st.off + a + b <= INT32_MAX
    requires Permits(cfg, st, Call(Seek(a, SEEK_CUR), r))
    requires Permits(cfg, Next(cfg, st, Call(Seek(a, SEEK_CUR), r)), Call(Seek(b, SEEK_CUR), q))
    requires Permits(cfg, st, Call(Seek(a + b, SEEK_CUR), both))
    ensures q == both
    ensures Next(cfg, Next(cfg, st, Call(Seek(a, SEEK_CUR), r)), Call(Seek(b, SEEK_CUR), q)) ==
            Next(cfg, st, Call(Seek(a + b, SEEK_CUR), both))
  {
    SeekLaw(cfg, st, a, SEEK_CUR, r);
    SeekLaw(cfg, Next(cfg, st, Call(Seek(a, SEEK_CUR), r)), b, SEEK_CUR, q);
    SeekLaw(cfg, st, a + b, SEEK_CUR, both);
  }

  // ---------------------------------------------------------------- positions, read off the answers

  /** Where a descriptor is after one call, going by the answer: a seek that is answered with a position went
      there, a sequential read went past what it delivered. */
  function After(at: nat, ev: Happening): nat {
    if !ev.Call? || ev.result.ret < 0 then at
    else if ev.call.Seek? then ev.result.ret
    else if SequentialCall(ev.call) then at + ev.result.ret
    else at
  }

  function Position(at: nat, evs: seq<Happening>): nat
    decreases |evs|
  {
    if evs == [] then at else Position(After(at, evs[0]), evs[1..])
  }

  /** Every seek is in range where it is made. */
  predicate SeeksInRange(size: nat, at: nat, evs: seq<Happening>)
    decreases |evs|
  {
    evs == [] ||
    (&& (evs[0].Call? && evs[0].call.Seek? ==> InRange(size, at, evs[0].call))
     && SeeksInRange(size, After(at, evs[0]), evs[1..]))
  }

  predicate OnlyCalls(evs: seq<Happening>) {
    forall i :: 0 <= i < |evs| ==> evs[i].Call?
  }

  lemma SeekTells(cfg: Config, st: Status, ev: Happening)
    requires Permits(cfg, st, ev) && ev.Call? && st.live && ev.call.Seek?
    requires InRange(|cfg.files[st.path]|, st.off, ev.call)
    ensures Next(cfg, st, ev) == At(st.path, After(st.off, ev), true)
  {
  }

  lemma {:induction false} AnswersTellPosition(cfg: Config, st: Status, evs: seq<Happening>)
    requires st.At? && st.live && st.path in cfg.files && Lawful(cfg, st, evs) && OnlyCalls(evs)
    requires SeeksInRange(|cfg.files[st.path]|, st.off, evs)
    ensures Final(cfg, st, evs) == At(st.path, Position(st.off, evs), true)
    decreases |evs|
  {
    if evs == [] {
    } else {
      if evs[0].call.Seek? {
        SeekTells(cfg, st, evs[0]);
      } else {
        ReadLaw(cfg, st, evs[0]);
      }
      AnswersTellPosition(cfg, Next(cfg, st, evs[0]), evs[1..]);
    }
  }

  lemma {:induction false} LawfulParts(cfg: Config, st: Status, a: seq<Happening>, b: seq<Happening>)
    requires Lawful(cfg, st, a + b)
    ensures Lawful(cfg, st, a) && Lawful(cfg, Final(cfg, st, a), b)
    decreases |a|
  {
    if a == [] {
      assert a + b == b;
    } else {
      assert (a + b)[0] == a[0] && (a + b)[1..] == a[1..] + b;
      LawfulParts(cfg, Next(cfg, st, a[0]), a[1..], b);
    }
  }

  // ---------------------------------------------------------------- runs

  /** In a run, descriptor `fd` of client `c` is opened on `path`, the server could open it, and then the calls
      `evs` are made on it, with seeks in range; `rest` is what happens on it later. */
  ghost predicate Uses(cfg: Config, clients: nat, steps: seq<Step>, s: State, c: nat, fd: int,
                       path: Path, evs: seq<Happening>, rest: seq<Happening>)
  {
    && Run(cfg, Init(cfg, clients), steps, s)
    && RunShare(cfg, clients, steps, s, c, fd) == [Open(path, true)] + (evs + rest)
    && OnlyCalls(evs) && path in cfg.files && SeeksInRange(|cfg.files[path]|, 0, evs)
  }

  /** After such calls the descriptor is where the answers say. */
  lemma SessionAt(cfg: Config, clients: nat, steps: seq<Step>, s: State, c: nat, fd: int,
                  path: Path, evs: seq<Happening>, rest: seq<Happening>)
    requires Uses(cfg, clients, steps, s, c, fd, path, evs, rest)
    ensures Lawful(cfg, At(path, Position(0, evs), true), rest)
  {
    RunShareIsLawful(cfg, clients, steps, s, c, fd);
    assert ([Open(path, true)] + (evs + rest))[1..] == evs + rest;
    LawfulParts(cfg, At(path, 0, true), evs, rest);
    AnswersTellPosition(cfg, At(path, 0, true), evs);
  }

  /** In every run, a sequential read gives the bytes where the answers before it say the descriptor is, as many
      as there are and fit when the operating system does not read short; a pread gives those at its offset. */
  lemma RunRead(cfg: Config, clients: nat, steps: seq<Step>, s: State, c: nat, fd: int,
                path: Path, evs: seq<Happening>, call: Posix.Call, r: Result, rest: seq<Happening>)
    requires Uses(cfg, clients, steps, s, c, fd, path, evs, [Call(call, r)] + rest)
    requires !call.Seek? && (SequentialCall(call) || call.offset >= 0)
    ensures ReadsFrom(cfg.fullReads, cfg.files[path], if SequentialCall(call) then Position(0, evs) else call.offset,
                      call.buf, r)
  {
    SessionAt(cfg, clients, steps, s, c, fd, path, evs, [Call(call, r)] + rest);
    assert ([Call(call, r)] + rest)[0] == Call(call, r);
    ReadLaw(cfg, At(path, Position(0, evs), true), Call(call, r));
  }

  /** In every run, a seek answers the distance of its target from the start of the file, wherever the answers
      before it say the descriptor is. */
  lemma RunSeek(cfg: Config, clients: nat, steps: seq<Step>, s: State, c: nat, fd: int,
                path: Path, evs: seq<Happening>, offset: int, whence: int, r: Result, rest: seq<Happening>)
    requires Uses(cfg, clients, steps, s, c, fd, path, evs, [Call(Seek(offset, whence), r)] + rest)
    requires 0 <= whence <= 2
    requires var target := Origin(whence, Position(0, evs), |cfg.files[path]|) + offset; Fits(offset) && Fits(target)
    ensures var target := Origin(whence, Position(0, evs), |cfg.files[path]|) + offset;
            r == Result(if target >= 0 then target else -1, [])
  {
    SessionAt(cfg, clients, steps, s, c, fd, path, evs, [Call(Seek(offset, whence), r)] + rest);
    assert ([Call(Seek(offset, whence), r)] + rest)[0] == Call(Seek(offset, whence), r);
    SeekLaw(cfg, At(path, Position(0, evs), true), offset, whence, r);
  }

  /** In every run, going to the end answers the size of the file. */
  lemma RunEndIsSize(cfg: Config, clients: nat, steps: seq<Step>, s: State, c: nat, fd: int,
                     path: Path, evs: seq<Happening>, r: Result, rest: seq<Happening>)
    requires Uses(cfg, clients, steps, s, c, fd, path, evs, [Call(Seek(0, SEEK_END), r)] + rest)
    requires Fits(|cfg.files[path]|)
    ensures r.ret == |cfg.files[path]|
  {
    RunSeek(cfg, clients, steps, s, c, fd, path, evs, 0, SEEK_END, r, rest);
  }

  /** The file from a position on. */
  function Tail(content: seq<Byte>, at: nat): seq<Byte> {
    if at <= |content| then content[at..] else []
  }

  predicate SaysEnd(ev: Happening) {
    ev.Call? && ev.call.Read? && ev.call.buf != [] && ev.result.ret == 0
  }

  lemma PieceOfTail(content: seq<Byte>, at: nat, data: seq<Byte>)
    requires Piece(content, at, data)
    ensures data <= Tail(content, at)
  {
  }

  /** Reads and preads on a descriptor at `st` assemble a prefix of what follows, and all of it once a read says
      that there is no more. */
  lemma ReadsFollow(cfg: Config, st: Status, evs: seq<Happening>)
    requires st.At? && st.live && st.path in cfg.files && Lawful(cfg, st, evs) && OnlyReads(evs)
    ensures Assembled(evs) <= Tail(cfg.files[st.path], st.off)
    ensures (exists i :: 0 <= i < |evs| && SaysEnd(evs[i])) ==> Assembled(evs) == Tail(cfg.files[st.path], st.off)
  {
    ReadsAssemble(cfg, st, evs);
    PieceOfTail(cfg.files[st.path], st.off, Assembled(evs));
    if i :| 0 <= i < |evs| && SaysEnd(evs[i]) {
      EndReached(cfg, st, evs, i);
    }
  }

  lemma EndReached(cfg: Config, st: Status, evs: seq<Happening>, i: nat)
    requires st.At? && st.live && st.path in cfg.files && Lawful(cfg, st, evs) && OnlyReads(evs)
    requires i < |evs| && SaysEnd(evs[i])
    ensures |Assembled(evs)| >= |Tail(cfg.files[st.path], st.off)|
  {
    var before, after := evs[..i], evs[i..];
    assert evs == before + after;
    LawfulParts(cfg, st, before, after);
    ReadUntilZero(cfg, st, before, evs[i]);
    AssembledParts(before, after);
  }

  lemma {:induction false} AssembledParts(a: seq<Happening>, b: seq<Happening>)
    ensures Assembled(a + b) == Assembled(a) + Assembled(b)
  {
    if a == [] {
      assert a + b == b;
    } else {
      assert (a + b)[0] == a[0] && (a + b)[1..] == a[1..] + b;
      AssembledParts(a[1..], b);
    }
  }

  /** In every run: after calls whose answers put the descriptor at a position (a seek answered `p` puts it at
      `p`), reads and preads assemble a prefix of the file from there, and all of it once a read gives 0. */
  lemma RunReadsFollow(cfg: Config, clients: nat, steps: seq<Step>, s: State, c: nat, fd: int,
                       path: Path, evs: seq<Happening>, later: seq<Happening>, rest: seq<Happening>)
    requires Uses(cfg, clients, steps, s, c, fd, path, evs, later + rest) && OnlyReads(later)
    ensures Assembled(later) <= Tail(cfg.files[path], Position(0, evs))
    ensures (exists i :: 0 <= i < |later| && SaysEnd(later[i])) ==>
              Assembled(later) == Tail(cfg.files[path], Position(0, evs))
  {
    SessionAt(cfg, clients, steps, s, c, fd, path, evs, later + rest);
    LawfulParts(cfg, At(path, Position(0, evs), true), later, rest);
    ReadsFollow(cfg, At(path, Position(0, evs), true), later);
  }

  lemma {:induction false} PositionParts(at: nat, a: seq<Happening>, b: seq<Happening>)
    ensures Position(at, a + b) == Position(Position(at, a), b)
    decreases |a|
  {
    if a == [] {
      assert a + b == b;
    } else {
      assert (a + b)[0] == a[0] && (a + b)[1..] == a[1..] + b;
      PositionParts(After(at, a[0]), a[1..], b);
    }
  }

  /** In every run: a seek that is answered `p`, and then reads: they assemble the file from `p`. */
  lemma SeekThenReads(cfg: Config, clients: nat, steps: seq<Step>, s: State, c: nat, fd: int, path: Path,
                      evs: seq<Happening>, seek: Happening, later: seq<Happening>, rest: seq<Happening>)
    requires Uses(cfg, clients, steps, s, c, fd, path, evs + [seek], later + rest) && OnlyReads(later)
    requires seek.Call? && seek.call.Seek? && seek.result.ret >= 0
    ensures Assembled(later) <= Tail(cfg.files[path], seek.result.ret)
    ensures (exists i :: 0 <= i < |later| && SaysEnd(later[i])) ==>
              Assembled(later) == Tail(cfg.files[path], seek.result.ret)
  {
    PositionParts(0, evs, [seek]);
    assert Position(Position(0, evs), [seek]) == seek.result.ret by {
      assert [seek][1..] == [];
    }
    RunReadsFollow(cfg, clients, steps, s, c, fd, path, evs + [seek], later, rest);
  }

  lemma {:induction false} RangeParts(size: nat, at: nat, a: seq<Happening>, b: seq<Happening>)
    requires SeeksInRange(size, at, a) && SeeksInRange(size, Position(at, a), b)
    ensures SeeksInRange(size, at, a + b)
    decreases |a|
  {
    if a == [] {
      assert a + b == b;
    } else {
      assert (a + b)[0] == a[0] && (a + b)[1..] == a[1..] + b;
      RangeParts(size, After(at, a[0]), a[1..], b);
    }
  }

  /** In every run: after a seek to `k` bytes before the end, reading until 0 assembles the last `k` bytes. */
  lemma LastBytes(cfg: Config, clients: nat, steps: seq<Step>, s: State, c: nat, fd: int, path: Path,
                  evs: seq<Happening>, k: int, r: Result, later: seq<Happening>, rest: seq<Happening>)
    requires Uses(cfg, clients, steps, s, c, fd, path, evs, [Call(Seek(-k, SEEK_END), r)] + (later + rest))
    requires OnlyReads(later) && exists i :: 0 <= i < |later| && SaysEnd(later[i])
    requires 0 <= k <= |cfg.files[path]| && Fits(|cfg.files[path]|)
    ensures Assembled(later) == cfg.files[path][|cfg.files[path]| - k..]
  {
    var seek, content := Call(Seek(-k, SEEK_END), r), cfg.files[path];
    BackFromEnd(cfg, clients, steps, s, c, fd, path, evs, k, r, later + rest);
    UsesOneMore(cfg, clients, steps, s, c, fd, path, evs, seek, later + rest);
    SeekThenReads(cfg, clients, steps, s, c, fd, path, evs, seek, later, rest);
    assert Tail(content, seek.result.ret) == content[|content| - k..];
  }

  lemma BackFromEnd(cfg: Config, clients: nat, steps: seq<Step>, s: State, c: nat, fd: int, path: Path,
                    evs: seq<Happening>, k: int, r: Result, rest: seq<Happening>)
    requires Uses(cfg, clients, steps, s, c, fd, path, evs, [Call(Seek(-k, SEEK_END), r)] + rest)
    requires 0 <= k <= |cfg.files[path]| && Fits(|cfg.files[path]|)
    ensures r.ret == |cfg.files[path]| - k
    ensures InRange(|cfg.files[path]|, Position(0, evs), Seek(-k, SEEK_END))
  {
    var offset: int := -k;
    RunSeek(cfg, clients, steps, s, c, fd, path, evs, offset, SEEK_END, r, rest);
  }

  lemma UsesOneMore(cfg: Config, clients: nat, steps: seq<Step>, s: State, c: nat, fd: int, path: Path,
                    evs: seq<Happening>, ev: Happening, rest: seq<Happening>)
    requires Uses(cfg, clients, steps, s, c, fd, path, evs, [ev] + rest) && ev.Call?
    requires ev.call.Seek? ==> InRange(|cfg.files[path]|, Position(0, evs), ev.call)
    ensures Uses(cfg, clients, steps, s, c, fd, path, evs + [ev], rest)
  {
    assert [ev][1..] == [];
    RangeParts(|cfg.files[path]|, 0, evs, [ev]);
    assert evs + ([ev] + rest) == (evs + [ev]) + rest;
  }

  /** In every run without short reads, one read into a large enough buffer right after the open gives the whole
      file. */
  lemma WholeFileInOneRead(cfg: Config, clients: nat, steps: seq<Step>, s: State, c: nat, fd: int, path: Path,
                           buf: seq<Byte>, r: Result, rest: seq<Happening>)
    requires cfg.fullReads && Run(cfg, Init(cfg, clients), steps, s) && path in cfg.files
    requires RunShare(cfg, clients, steps, s, c, fd) == [Open(path, true), Call(Read(buf), r)] + rest
    requires |buf| >= |cfg.files[path]|
    ensures r.ret == |cfg.files[path]| && |r.buf| == |buf| && r.buf[..|cfg.files[path]|] == cfg.files[path]
  {
    assert [Open(path, true), Call(Read(buf), r)] + rest == [Open(path, true)] + ([] + ([Call(Read(buf), r)] + rest));
    RunRead(cfg, clients, steps, s, c, fd, path, [], Read(buf), r, rest);
  }
}
