/** The plain file system, as one open file description sees it.

    A descriptor is an offset over an immutable sequence of bytes.  The operations are those of
    POSIX.1-2017 (System Interfaces): read(), pread() and lseek(). */
module Posix {
  type Byte = b: int | 0 <= b < 256

  type Path = string

  const SEEK_SET := 0
  const SEEK_CUR := 1
  const SEEK_END := 2

  /** A call on a descriptor.  The caller's buffer is part of the call; its length is the count. */
  datatype Call =
    | Read(buf: seq<Byte>)
    | Pread(buf: seq<Byte>, offset: int)
    | Seek(offset: int, whence: int)

  /** What the caller sees: the return value and the buffer afterwards. */
  datatype Result = Result(ret: int, buf: seq<Byte>)

  /** The bytes between an offset and the end of a file. */
  function Available(size: nat, off: nat): nat {
    if off < size then size - off else 0
  }

  /** The lengths read() may transfer: never more than asked or available, zero only at the end of the
      file, and everything that is available when the file system never reads short (`full`). */
  predicate ReadLen(full: bool, size: nat, off: nat, count: nat, n: nat) {
    && n <= count
    && n <= Available(size, off)
    && (n == 0 ==> count == 0 || Available(size, off) == 0)
    && (full ==> n == count || n == Available(size, off))
  }

  function Slice(content: seq<Byte>, off: nat, n: nat): (s: seq<Byte>)
    requires n <= Available(|content|, off)
    ensures |s| == n
  {
    if n == 0 then [] else content[off..off + n]
  }

  /** A transfer into the front of a buffer leaves the rest of the buffer alone. */
  function Fill(buf: seq<Byte>, data: seq<Byte>): (s: seq<Byte>)
    requires |data| <= |buf|
    ensures |s| == |buf| && s[..|data|] == data && s[|data|..] == buf[|data|..]
  {
    data + buf[|data|..]
  }

  predicate ValidWhence(whence: int) {
    whence == SEEK_SET || whence == SEEK_CUR || whence == SEEK_END
  }

  function SeekTarget(size: nat, off: nat, offset: int, whence: int): int {
    if whence == SEEK_SET then offset else if whence == SEEK_CUR then off + offset else size + offset
  }

  predicate SeekSucceeds(size: nat, off: nat, offset: int, whence: int) {
    ValidWhence(whence) && SeekTarget(size, off, offset, whence) >= 0
  }

  function Lseek(size: nat, off: nat, offset: int, whence: int): int {
    if SeekSucceeds(size, off, offset, whence) then SeekTarget(size, off, offset, whence) else -1
  }

  function LseekOff(size: nat, off: nat, offset: int, whence: int): nat {
    if SeekSucceeds(size, off, offset, whence) then SeekTarget(size, off, offset, whence) else off
  }

  predicate ReadAt(full: bool, content: seq<Byte>, off: nat, buf: seq<Byte>, r: Result) {
    && r.ret >= 0
    && ReadLen(full, |content|, off, |buf|, r.ret)
    && r.buf == Fill(buf, Slice(content, off, r.ret))
  }

  /** `r` is an answer the plain file system may give to `call` at offset `off`. */
  predicate PosixOk(full: bool, content: seq<Byte>, off: nat, call: Call, r: Result) {
    match call
    case Read(buf) => ReadAt(full, content, off, buf, r)
    case Pread(buf, offset) =>
      if offset < 0 then r == Result(-1, buf) else ReadAt(full, content, offset, buf, r)
    case Seek(offset, whence) => r == Result(Lseek(|content|, off, offset, whence), [])
  }

  /** The offset after `call` answered `r`. */
  function PosixOff(content: seq<Byte>, off: nat, call: Call, r: Result): nat {
    match call
    case Read(_) => if r.ret >= 0 then off + r.ret else off
    case Pread(_, _) => off
    case Seek(offset, whence) => LseekOff(|content|, off, offset, whence)
  }
}
