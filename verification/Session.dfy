/** What one tracked descriptor gives its owner, described without servers, caches or messages.

    This is the plain file system with three marks of the wire format left in it: seek offsets and seek
    answers travel as 32-bit integers, the pread offset -1 means "sequential read", and a server-side
    read that fails is answered with a whole buffer of zeros. */
module Session {
  import opened Posix

  const INT32_MIN := -0x8000_0000
  const INT32_MAX := 0x7fff_ffff

  /** Conversion to a 32-bit two's-complement integer. */
  function ToInt32(x: int): (r: int)
    ensures INT32_MIN <= r <= INT32_MAX
    ensures (r - x) % 0x1_0000_0000 == 0
    ensures Fits(x) <==> r == x
  {
    (x + 0x8000_0000) % 0x1_0000_0000 - 0x8000_0000
  }

  predicate Fits(x: int) {
    INT32_MIN <= x <= INT32_MAX
  }

  function Zeros(n: nat): (z: seq<Byte>)
    ensures |z| == n && forall i :: 0 <= i < n ==> z[i] == 0
  {
    seq(n, _ => 0)
  }

  predicate SequentialCall(call: Call) {
    call.Read? || (call.Pread? && call.offset == -1)
  }

  const SEEK_DATA := 3
  const SEEK_HOLE := 4

  /** The calls that are modelled: `calloc` needs a positive size and the count travels as an int32; where a
      file has holes is not modelled. */
  predicate ValidCall(call: Call) {
    if call.Seek? then call.whence != SEEK_DATA && call.whence != SEEK_HOLE else 1 <= |call.buf| <= INT32_MAX
  }

  /** `r` is an answer a tracked descriptor at offset `off` may give. */
  predicate ServedOk(full: bool, content: seq<Byte>, off: nat, call: Call, r: Result) {
    match call
    case Read(buf) => ReadAt(full, content, off, buf, r)
    case Pread(buf, offset) =>
      if offset == -1 then ReadAt(full, content, off, buf, r)
      else if offset < 0 then r == Result(|buf|, Zeros(|buf|))
      else ReadAt(full, content, offset, buf, r)
    case Seek(offset, whence) =>
      r == Result(ToInt32(Lseek(|content|, off, ToInt32(offset), whence)), [])
  }

  function ServedOff(content: seq<Byte>, off: nat, call: Call, r: Result): nat {
    if call.Seek? then LseekOff(|content|, off, ToInt32(call.offset), call.whence)
    else if SequentialCall(call) && r.ret >= 0 then off + r.ret
    else off
  }

  /** The answer on a descriptor that the server could not open. */
  function Unserved(call: Call): Result {
    if call.Seek? then Result(-1, []) else Result(|call.buf|, Zeros(|call.buf|))
  }

  /** `r` is an answer a tracked descriptor may give; `live` says whether the server could open the file. */
  predicate AnswerOk(full: bool, content: seq<Byte>, live: bool, off: nat, call: Call, r: Result) {
    if live then ServedOk(full, content, off, call, r) else r == Unserved(call)
  }

  function OffAfter(content: seq<Byte>, live: bool, off: nat, call: Call, r: Result): nat {
    if live then ServedOff(content, off, call, r) else off
  }

  /** The zeros and the -1 that answer a call on a descriptor the server could not open are what the plain
      file system would answer exactly when that many zeros are there to read, or the seek is rejected. */
  lemma UnservedAgreesIff(full: bool, content: seq<Byte>, off: nat, call: Call)
    ensures PosixOk(full, content, off, call, Unserved(call)) <==>
            match call
            case Read(buf) => ZerosAt(content, off, |buf|)
            case Pread(buf, offset) => offset >= 0 && ZerosAt(content, offset, |buf|)
            case Seek(offset, whence) => !SeekSucceeds(|content|, off, offset, whence)
  {
    match call
    case Read(buf) => ZeroReadIff(full, content, off, buf);
    case Pread(buf, offset) =>
      if offset >= 0 {
        ZeroReadIff(full, content, offset, buf);
      }
    case Seek(_, _) =>
  }

  predicate ZerosAt(content: seq<Byte>, off: nat, n: nat) {
    n <= Available(|content|, off) && forall i :: off <= i < off + n ==> content[i] == 0
  }

  lemma ZeroReadIff(full: bool, content: seq<Byte>, off: nat, buf: seq<Byte>)
    ensures ReadAt(full, content, off, buf, Result(|buf|, Zeros(|buf|))) <==> ZerosAt(content, off, |buf|)
  {
    if |buf| <= Available(|content|, off) {
      var data := Slice(content, off, |buf|);
      assert Fill(buf, data) == data;
      if data == Zeros(|buf|) {
        forall i | off <= i < off + |buf|
          ensures content[i] == 0
        {
          assert content[i] == data[i - off];
        }
      }
    }
  }

  /** Every answer to `call` is one the plain file system may give, and the offset moves alike. */
  ghost predicate Faithful(full: bool, content: seq<Byte>, off: nat, call: Call) {
    forall r: Result :: ServedOk(full, content, off, call, r) ==>
      PosixOk(full, content, off, call, r) && ServedOff(content, off, call, r) == PosixOff(content, off, call, r)
  }

  /** The condition on a call, computable before it is made, under which it is served faithfully. */
  predicate InRange(size: nat, off: nat, call: Call) {
    match call
    case Read(_) => true
    case Pread(_, offset) => offset >= 0
    case Seek(offset, whence) =>
      || !ValidWhence(whence)
      || (if SeekTarget(size, off, offset, whence) >= 0 then
            Fits(offset) && Fits(SeekTarget(size, off, offset, whence))
          else
            // rejected by the plain file system: the truncated offset must be rejected too, or land
            // on the current offset when that reads as -1 in 32 bits
            || SeekTarget(size, off, ToInt32(offset), whence) < 0
            || (SeekTarget(size, off, ToInt32(offset), whence) == off && ToInt32(off) == -1))
  }

  /** A read always has an answer: the longest one allowed. */
  lemma ReadAnswer(full: bool, content: seq<Byte>, off: nat, buf: seq<Byte>) returns (r: Result)
    ensures ReadAt(full, content, off, buf, r)
  {
    var n := if |buf| <= Available(|content|, off) then |buf| else Available(|content|, off);
    r := Result(n, Fill(buf, Slice(content, off, n)));
  }

  /** An answer agrees with the plain file system, and so does the offset after it, exactly when the call
      is in range: one such answer already tells. */
  lemma AnswerFaithfulIffInRange(full: bool, content: seq<Byte>, off: nat, call: Call, r: Result)
    requires ServedOk(full, content, off, call, r)
    ensures PosixOk(full, content, off, call, r) && ServedOff(content, off, call, r) == PosixOff(content, off, call, r)
            <==> InRange(|content|, off, call)
  {
  }

  /** A call is served as the plain file system serves it exactly when it is in range. */
  lemma FaithfulIffInRange(full: bool, content: seq<Byte>, off: nat, call: Call)
    ensures Faithful(full, content, off, call) <==> InRange(|content|, off, call)
  {
    forall r | ServedOk(full, content, off, call, r)
      ensures PosixOk(full, content, off, call, r)
              && ServedOff(content, off, call, r) == PosixOff(content, off, call, r)
              <==> InRange(|content|, off, call)
    {
      AnswerFaithfulIffInRange(full, content, off, call, r);
    }
    var r := SomeAnswer(full, content, off, call);
    assert ServedOk(full, content, off, call, r);
  }

  /** Every call has an answer. */
  lemma SomeAnswer(full: bool, content: seq<Byte>, off: nat, call: Call) returns (r: Result)
    ensures ServedOk(full, content, off, call, r)
  {
    match call
    case Read(buf) => r := ReadAnswer(full, content, off, buf);
    case Pread(buf, offset) =>
      if offset == -1 {
        r := ReadAnswer(full, content, off, buf);
      } else if offset < 0 {
        r := Result(|buf|, Zeros(|buf|));
      } else {
        r := ReadAnswer(full, content, offset, buf);
      }
    case Seek(offset, whence) =>
      r := Result(ToInt32(Lseek(|content|, off, ToInt32(offset), whence)), []);
  }

  /** The sentinel is observable: a pread at -1 is answered as a read and moves the offset. */
  lemma PreadSentinelShows()
    ensures !Faithful(true, [7, 8], 0, Pread([0], -1))
    ensures ServedOk(true, [7, 8], 0, Pread([0], -1), Result(1, [7]))
    ensures ServedOff([7, 8], 0, Pread([0], -1), Result(1, [7])) == 1
  {
    FaithfulIffInRange(true, [7, 8], 0, Pread([0], -1));
    assert Slice([7, 8], 0, 1) == [7];
    assert Fill([0], [7]) == [7];
  }

  /** A seek past 2^31 is answered with a negative position although it succeeds. */
  lemma SeekWrapShows()
    ensures !Faithful(true, [], INT32_MAX, Seek(1, SEEK_CUR))
    ensures ServedOk(true, [], INT32_MAX, Seek(1, SEEK_CUR), Result(INT32_MIN, []))
  {
    FaithfulIffInRange(true, [], INT32_MAX, Seek(1, SEEK_CUR));
  }
}
