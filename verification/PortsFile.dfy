/** The ports file: every server appends the line "%d %s\n" with its rank and address; a client finds a
    server by scanning the file with fscanf("%d %s\n") and remembers the address it found. */
module PortsFile {
  import opened Session

  datatype Entry = Entry(rank: int, addr: string)

  datatype Option<+T> = None | Some(value: T)

  // ---------------------------------------------------------------- printing

  function Digit(d: int): (c: char)
    requires 0 <= d < 10
    ensures IsDigit(c) && c as int - '0' as int == d
  {
    ('0' as int + d) as char
  }

  function Digits(n: nat): (s: string)
    ensures s != [] && forall i :: 0 <= i < |s| ==> IsDigit(s[i])
  {
    if n < 10 then [Digit(n)] else Digits(n / 10) + [Digit(n % 10)]
  }

  /** "%d" */
  function Decimal(n: int): string {
    if n < 0 then "-" + Digits(-n) else Digits(n)
  }

  function Line(e: Entry): string {
    Decimal(e.rank) + " " + e.addr + "\n"
  }

  function Text(es: seq<Entry>): string {
    if es == [] then [] else Line(es[0]) + Text(es[1..])
  }

  // ---------------------------------------------------------------- scanning

  predicate IsDigit(c: char) {
    '0' <= c <= '9'
  }

  /** isspace() in the C locale. */
  predicate IsSpace(c: char) {
    c == ' ' || 9 as char <= c <= 13 as char
  }

  predicate IsWord(c: char) {
    !IsSpace(c)
  }

  /** The length of the longest prefix of characters satisfying `p`. */
  function Span(p: char -> bool, s: string): (n: nat)
    ensures n <= |s|
  {
    if s == [] || !p(s[0]) then 0 else 1 + Span(p, s[1..])
  }

  function SkipSpace(s: string): string {
    s[Span(IsSpace, s)..]
  }

  function Value(ds: string): int {
    if ds == [] then 0 else 10 * Value(ds[..|ds| - 1]) + (ds[|ds| - 1] as int - '0' as int)
  }

  datatype Scanned<T> = Stop | Got(value: T, rest: string)

  predicate Signed(t: string) {
    t != [] && (t[0] == '-' || t[0] == '+')
  }

  /** The digits of a "%d" conversion; the value is stored in an int. */
  function ScanDigits(u: string, negative: bool): Scanned<int> {
    var n := Span(IsDigit, u);
    if n == 0 then Stop
    else Got(ToInt32(if negative then -Value(u[..n]) else Value(u[..n])), u[n..])
  }

  /** The "%d" conversion: white space, an optional sign, digits. */
  function ScanInt(s: string): Scanned<int> {
    var t := SkipSpace(s);
    ScanDigits(if Signed(t) then t[1..] else t, Signed(t) && t[0] == '-')
  }

  /** The "%s" conversion: white space, then a non-empty word. */
  function ScanWord(s: string): Scanned<string> {
    var t := SkipSpace(s);
    var n := Span(IsWord, t);
    if n == 0 then Stop else Got(t[..n], t[n..])
  }

  /** fscanf("%d %s\n") when it converts both items. */
  function ScanLine(s: string): (r: Scanned<Entry>)
    ensures r.Got? ==> |r.rest| < |s|
  {
    match ScanInt(s)
    case Stop => Stop
    case Got(rank, t) =>
      match ScanWord(SkipSpace(t))
      case Stop => Stop
      case Got(addr, u) => Got(Entry(rank, addr), SkipSpace(u))
  }

  /** Every entry the scan loop sees. */
  function Parse(s: string): seq<Entry>
    decreases |s|
  {
    match ScanLine(s)
    case Stop => []
    case Got(e, rest) => [e] + Parse(rest)
  }

  /** The address of the first entry with a rank. */
  function FirstMatch(es: seq<Entry>, rank: int): Option<string> {
    if es == [] then None
    else if es[0].rank == rank then Some(es[0].addr)
    else FirstMatch(es[1..], rank)
  }

  // ---------------------------------------------------------------- round trip

  /** An address a server may write: not empty and without white space. */
  predicate Plain(addr: string) {
    addr != [] && forall i :: 0 <= i < |addr| ==> IsWord(addr[i])
  }

  ghost predicate AllPlain(es: seq<Entry>) {
    forall i :: 0 <= i < |es| ==> Plain(es[i].addr)
  }

  lemma {:induction false} SpanExact(p: char -> bool, a: string, b: string)
    requires forall i :: 0 <= i < |a| ==> p(a[i])
    requires b == [] || !p(b[0])
    ensures Span(p, a + b) == |a|
  {
    if a == [] {
      assert a + b == b;
    } else {
      assert (a + b)[1..] == a[1..] + b;
      SpanExact(p, a[1..], b);
    }
  }

  /** Reading back a printed number. */
  lemma {:induction false} ValueOfDigits(n: nat)
    ensures Value(Digits(n)) == n
  {
    if n >= 10 {
      ValueOfDigits(n / 10);
      var ds := Digits(n);
      assert ds[..|ds| - 1] == Digits(n / 10);
    } else {
      assert Digits(n)[..0] == [];
    }
  }

  lemma SkipNone(s: string)
    requires s == [] || !IsSpace(s[0])
    ensures SkipSpace(s) == s
  {
  }

  lemma ScanPrinted(n: nat, v: int, rest: string)
    requires rest == [] || !IsDigit(rest[0])
    requires v == n || v == -(n as int)
    ensures ScanDigits(Digits(n) + rest, v != n) == Got(ToInt32(v), rest)
  {
    var ds := Digits(n);
    ValueOfDigits(n);
    SpanExact(IsDigit, ds, rest);
    assert (ds + rest)[..|ds|] == ds && (ds + rest)[|ds|..] == rest;
  }

  lemma ScanUnsigned(t: string)
    requires t != [] && IsDigit(t[0])
    ensures ScanInt(t) == ScanDigits(t, false)
  {
    SkipNone(t);
  }

  lemma ScanMinus(u: string)
    ensures ScanInt("-" + u) == ScanDigits(u, true)
  {
    var t := "-" + u;
    SkipNone(t);
    assert t[1..] == u;
  }

  lemma ScanDecimal(n: int, rest: string)
    requires rest == [] || !IsDigit(rest[0])
    ensures ScanInt(Decimal(n) + rest) == Got(ToInt32(n), rest)
  {
    if n < 0 {
      var u := Digits(-n) + rest;
      assert Decimal(n) + rest == "-" + u;
      ScanMinus(u);
      ScanPrinted(-n, n, rest);
    } else {
      ScanUnsigned(Digits(n) + rest);
      ScanPrinted(n, n, rest);
    }
  }

  lemma ScanPlain(addr: string, rest: string)
    requires Plain(addr)
    ensures ScanWord(addr + "\n" + rest) == Got(addr, "\n" + rest)
  {
    var s := addr + "\n" + rest;
    assert s == addr + ("\n" + rest);
    SkipNone(s);
    SpanExact(IsWord, addr, "\n" + rest);
  }

  /** What a line must be followed by for the scan to stop at its end: the scan eats white space. */
  predicate LineStart(s: string) {
    s == [] || !IsSpace(s[0])
  }

  lemma ScanOneLine(e: Entry, rest: string)
    requires Plain(e.addr) && LineStart(rest)
    ensures ScanLine(Line(e) + rest) == Got(Entry(ToInt32(e.rank), e.addr), rest)
  {
    var t := " " + (e.addr + "\n" + rest);
    assert Line(e) + rest == Decimal(e.rank) + t;
    ScanDecimal(e.rank, t);
    SpanExact(IsSpace, " ", e.addr + "\n" + rest);
    assert SkipSpace(t) == e.addr + "\n" + rest;
    ScanPlain(e.addr, rest);
    SpanExact(IsSpace, "\n", rest);
    assert SkipSpace("\n" + rest) == rest;
  }

  predicate Blank(s: string) {
    forall i :: 0 <= i < |s| ==> IsSpace(s[i])
  }

  /** Any white space will do, before the rank, behind it, and behind the address. */
  lemma AnySpacing(rank: int, addr: string, a: string, b: string, c: string, rest: string)
    requires Plain(addr) && Blank(a) && Blank(b) && b != [] && Blank(c) && c != [] && LineStart(rest)
    ensures ScanLine(a + (Decimal(rank) + (b + (addr + (c + rest))))) == Got(Entry(ToInt32(rank), addr), rest)
  {
    var u := addr + (c + rest);
    var t := b + u;
    SpanExact(IsSpace, a, Decimal(rank) + t);
    assert SkipSpace(a + (Decimal(rank) + t)) == Decimal(rank) + t;
    SkipNone(Decimal(rank) + t);
    ScanDecimal(rank, t);
    SpanExact(IsSpace, b, u);
    assert SkipSpace(t) == u;
    SkipNone(u);
    SpanExact(IsWord, addr, c + rest);
    assert u[..|addr|] == addr && u[|addr|..] == c + rest;
    SpanExact(IsSpace, c, rest);
    assert SkipSpace(c + rest) == rest;
  }

  /** What is white space, and that a plus sign changes nothing. */
  lemma SpacesAndSigns(n: nat, rest: string)
    requires rest == [] || !IsDigit(rest[0])
    ensures Blank(" \t\n\r") && IsSpace(11 as char) && IsSpace(12 as char)
    ensures ScanInt("+" + (Digits(n) + rest)) == Got(ToInt32(n), rest)
  {
    var t := "+" + (Digits(n) + rest);
    SkipNone(t);
    assert t[1..] == Digits(n) + rest;
    ScanPrinted(n, n, rest);
  }

  lemma TextStarts(es: seq<Entry>)
    ensures LineStart(Text(es))
  {
    if es != [] {
      assert Text(es)[0] == Decimal(es[0].rank)[0];
    }
  }

  // ---------------------------------------------------------------- the text itself

  /** The digits of a number, written one behind the other. */
  lemma DigitsLaw(n: nat, d: int)
    requires 0 <= d < 10
    ensures Digits(d) == [('0' as int + d) as char]
    ensures n > 0 ==> Digits(10 * n + d) == Digits(n) + Digits(d)
  {
    assert (10 * n + d) / 10 == n && (10 * n + d) % 10 == d;
  }

  function Newlines(s: string): nat {
    if s == [] then 0 else (if s[0] == '\n' then 1 else 0) + Newlines(s[1..])
  }

  lemma {:induction false} NewlinesAppend(a: string, b: string)
    ensures Newlines(a + b) == Newlines(a) + Newlines(b)
  {
    if a == [] {
      assert a + b == b;
    } else {
      assert (a + b)[0] == a[0] && (a + b)[1..] == a[1..] + b;
      NewlinesAppend(a[1..], b);
    }
  }

  lemma {:induction false} NoNewlines(s: string)
    requires forall i :: 0 <= i < |s| ==> s[i] != '\n'
    ensures Newlines(s) == 0
  {
    if s == [] {
    } else {
      NoNewlines(s[1..]);
    }
  }

  /** Every entry is one line. */
  lemma LineIsOneLine(e: Entry)
    requires Plain(e.addr)
    ensures Newlines(Line(e)) == 1 && Line(e)[|Line(e)| - 1] == '\n'
  {
    var front := Decimal(e.rank) + " " + e.addr;
    assert Line(e) == front + "\n";
    forall i | 0 <= i < |front|
      ensures front[i] != '\n'
    {
      if i > |Decimal(e.rank)| {
        assert front[i] == e.addr[i - |Decimal(e.rank)| - 1];
        assert IsWord(front[i]);
      }
    }
    NoNewlines(front);
    NewlinesAppend(front, "\n");
    assert Newlines("\n") == 1;
  }

  /** The file has as many lines as entries. */
  lemma {:induction false} OneLineEach(es: seq<Entry>)
    requires AllPlain(es)
    ensures Newlines(Text(es)) == |es|
  {
    if es == [] {
    } else {
      LineIsOneLine(es[0]);
      OneLineEach(es[1..]);
      NewlinesAppend(Line(es[0]), Text(es[1..]));
    }
  }

  /** Text that does not start with a number ends the scan: what was written before it is all that is seen. */
  predicate Garbage(s: string) {
    s == [] || (!IsSpace(s[0]) && !IsDigit(s[0]) && s[0] != '-' && s[0] != '+')
  }

  lemma {:induction false} GarbageEndsScan(es: seq<Entry>, junk: string)
    requires AllPlain(es) && Garbage(junk)
    ensures Parse(Text(es) + junk) == Stored(es)
  {
    if es == [] {
      assert Text(es) + junk == junk;
      GarbageStops(junk);
    } else {
      var rest := Text(es[1..]) + junk;
      StillLineStart(es[1..], junk);
      assert Text(es) + junk == Line(es[0]) + rest;
      ParseOne(es[0], rest);
      GarbageEndsScan(es[1..], junk);
    }
  }

  lemma GarbageStops(junk: string)
    requires Garbage(junk)
    ensures Parse(junk) == []
  {
    SkipNone(junk);
    assert ScanInt(junk).Stop?;
    assert ScanLine(junk).Stop?;
  }

  lemma StillLineStart(es: seq<Entry>, junk: string)
    requires Garbage(junk)
    ensures LineStart(Text(es) + junk)
  {
    TextStarts(es);
    if Text(es) == [] {
      assert Text(es) + junk == junk;
    } else {
      assert (Text(es) + junk)[0] == Text(es)[0];
    }
  }

  /** The entries as an int can hold them. */
  function Stored(es: seq<Entry>): (r: seq<Entry>)
    ensures |r| == |es|
    ensures forall i :: 0 <= i < |es| ==> r[i] == Entry(ToInt32(es[i].rank), es[i].addr)
  {
    if es == [] then [] else [Entry(ToInt32(es[0].rank), es[0].addr)] + Stored(es[1..])
  }

  lemma ParseStep(s: string, e: Entry, rest: string)
    requires ScanLine(s) == Got(e, rest)
    ensures Parse(s) == [e] + Parse(rest)
  {
  }

  lemma ParseOne(e: Entry, rest: string)
    requires Plain(e.addr) && LineStart(rest)
    ensures Parse(Line(e) + rest) == [Entry(ToInt32(e.rank), e.addr)] + Parse(rest)
  {
    ScanOneLine(e, rest);
    ParseStep(Line(e) + rest, Entry(ToInt32(e.rank), e.addr), rest);
  }

  lemma ParseEmpty()
    ensures Parse("") == []
  {
  }

  lemma {:induction false} ParseText(es: seq<Entry>)
    requires AllPlain(es)
    ensures Parse(Text(es)) == Stored(es)
  {
    if es == [] {
      ParseEmpty();
    } else {
      TextStarts(es[1..]);
      ParseOne(es[0], Text(es[1..]));
      ParseText(es[1..]);
    }
  }

  /** Round trip: the scan gives back what the servers wrote exactly when all ranks fit in an int. */
  lemma RoundTrip(es: seq<Entry>)
    requires AllPlain(es)
    ensures Parse(Text(es)) == es <==> forall i :: 0 <= i < |es| ==> Fits(es[i].rank)
  {
    ParseText(es);
    var r := Stored(es);
    if r == es {
      forall i | 0 <= i < |es|
        ensures Fits(es[i].rank)
      {
        assert r[i] == es[i];
      }
    }
  }

  // ---------------------------------------------------------------- the address cache

  lemma {:induction false} FirstMatchAppend(es: seq<Entry>, more: seq<Entry>, rank: int)
    ensures FirstMatch(es + more, rank) ==
            if FirstMatch(es, rank).Some? then FirstMatch(es, rank) else FirstMatch(more, rank)
  {
    if es == [] {
      assert es + more == more;
    } else {
      assert (es + more)[1..] == es[1..] + more;
      FirstMatchAppend(es[1..], more, rank);
    }
  }

  /** Every remembered address is the one a scan of the entries finds first. */
  ghost predicate Agrees(cache: map<int, string>, es: seq<Entry>) {
    forall rank :: rank in cache ==> FirstMatch(es, rank) == Some(cache[rank])
  }

  /** What a lookup returns, given what is remembered and what the file says. */
  function Found(cache: map<int, string>, es: seq<Entry>, rank: int): Option<string> {
    if rank in cache then Some(cache[rank]) else FirstMatch(es, rank)
  }

  /** What is remembered afterwards: only an address that was found. */
  function Remembered(cache: map<int, string>, es: seq<Entry>, rank: int): map<int, string> {
    match Found(cache, es, rank)
    case None => cache
    case Some(addr) => cache[rank := addr]
  }

  /** Servers start and clients look ranks up, in any order. */
  datatype Occurrence = Started(e: Entry) | Wanted(rank: int)

  /** The answers of a client that remembers, from a state where it remembers `cache` and the file holds
      `es`. */
  function Answers(cache: map<int, string>, es: seq<Entry>, os: seq<Occurrence>): seq<Option<string>>
    decreases |os|
  {
    if os == [] then []
    else
      match os[0]
      case Started(e) => Answers(cache, es + [e], os[1..])
      case Wanted(rank) =>
        [Found(cache, Parse(Text(es)), rank)] + Answers(Remembered(cache, Parse(Text(es)), rank), es, os[1..])
  }

  /** The answers of a client that scans the file afresh every time. */
  function FreshAnswers(es: seq<Entry>, os: seq<Occurrence>): seq<Option<string>>
    decreases |os|
  {
    if os == [] then []
    else
      match os[0]
      case Started(e) => FreshAnswers(es + [e], os[1..])
      case Wanted(rank) => [FirstMatch(es, rank)] + FreshAnswers(es, os[1..])
  }

  ghost predicate Writable(e: Entry) {
    Plain(e.addr) && Fits(e.rank)
  }

  /** Remembering addresses does not show: since the file is only appended to, a client that remembers
      answers every lookup as one that scans the file each time. */
  lemma {:induction false} MemoryDoesNotShow(cache: map<int, string>, es: seq<Entry>, os: seq<Occurrence>)
    requires Agrees(cache, es)
    requires forall i :: 0 <= i < |es| ==> Writable(es[i])
    requires forall i :: 0 <= i < |os| && os[i].Started? ==> Writable(os[i].e)
    ensures Answers(cache, es, os) == FreshAnswers(es, os)
    decreases |os|
  {
    if os == [] {
    } else {
      match os[0] {
        case Started(e) =>
          forall r | r in cache
            ensures FirstMatch(es + [e], r) == Some(cache[r])
          {
            FirstMatchAppend(es, [e], r);
          }
          MemoryDoesNotShow(cache, es + [e], os[1..]);
        case Wanted(rank) =>
          RoundTrip(es);
          MemoryDoesNotShow(Remembered(cache, es, rank), es, os[1..]);
      }
    }
  }

  /** One turn of the scan loop. */
  lemma ScanNext(s: string, rank: int)
    ensures var line := ScanLine(s);
            FirstMatch(Parse(s), rank) ==
            if line.Stop? then None
            else if line.value.rank == rank then Some(line.value.addr)
            else FirstMatch(Parse(line.rest), rank)
  {
    if ScanLine(s).Got? {
      ParseStep(s, ScanLine(s).value, ScanLine(s).rest);
    }
  }

  lemma FoundInMemory(cache: map<int, string>, es: seq<Entry>, rank: int)
    requires rank in cache
    ensures Found(cache, es, rank) == Some(cache[rank]) && Remembered(cache, es, rank) == cache
  {
    assert cache == cache[rank := cache[rank]];
  }

  lemma FoundInFile(cache: map<int, string>, es: seq<Entry>, rank: int)
    requires rank !in cache
    ensures Found(cache, es, rank) == FirstMatch(es, rank)
    ensures Remembered(cache, es, rank) ==
            match FirstMatch(es, rank) case Some(addr) => cache[rank := addr] case None => cache
  {
  }

  ghost predicate AllWritable(es: seq<Entry>) {
    forall i :: 0 <= i < |es| ==> Writable(es[i])
  }

  predicate Known(es: seq<Entry>, rank: int) {
    exists i :: 0 <= i < |es| && es[i].rank == rank
  }

  /** The first entry with a rank. */
  function FirstOf(es: seq<Entry>, rank: int): (i: nat)
    requires Known(es, rank)
    ensures i < |es| && es[i].rank == rank && forall j :: 0 <= j < i ==> es[j].rank != rank
  {
    if es[0].rank == rank then 0
    else
      assert Known(es[1..], rank) by {
        var i :| 0 <= i < |es| && es[i].rank == rank;
        assert es[1..][i - 1].rank == rank;
      }
      1 + FirstOf(es[1..], rank)
  }

  lemma {:induction false} FirstMatchIsFirst(es: seq<Entry>, rank: int)
    ensures FirstMatch(es, rank).Some? <==> Known(es, rank)
    ensures Known(es, rank) ==> FirstMatch(es, rank).value == es[FirstOf(es, rank)].addr
  {
    if es == [] {
    } else if es[0].rank == rank {
    } else {
      FirstMatchIsFirst(es[1..], rank);
      if i :| 0 <= i < |es| && es[i].rank == rank {
        assert es[1..][i - 1].rank == rank;
      }
      if Known(es[1..], rank) {
        var i := FirstOf(es[1..], rank);
        assert es[i + 1].rank == rank;
      }
    }
  }

  /** From memory or from the file, the first entry that was written. */
  lemma FoundIsFirst(cache: map<int, string>, es: seq<Entry>, rank: int)
    requires AllWritable(es) && Agrees(cache, es) && Known(es, rank)
    ensures Parse(Text(es)) == es
    ensures Found(cache, es, rank) == Some(es[FirstOf(es, rank)].addr)
  {
    RoundTrip(es);
    FirstMatchIsFirst(es, rank);
  }

  /** The client's memory of addresses. */
  class AddressBook {
    var cache: map<int, string>

    constructor ()
      ensures cache == map[]
    {
      cache := map[];
    }

    /** The scan loop: reads the file from its start up to the first match. */
    static method Scan(rank: int, file: string) returns (addr: Option<string>)
      ensures addr == FirstMatch(Parse(file), rank)
    {
      var rest := file;
      var line := ScanLine(rest);
      while line.Got?
        invariant line == ScanLine(rest)
        invariant FirstMatch(Parse(file), rank) == FirstMatch(Parse(rest), rank)
        decreases |rest|
      {
        ScanNext(rest, rank);
        if line.value.rank == rank {
          return Some(line.value.addr);
        }
        rest := line.rest;
        line := ScanLine(rest);
      }
      ScanNext(rest, rank);
      addr := None;
    }

    /** Finds the address of a rank, from memory or else by scanning the file.  `leftover` is what the result
        variable happens to hold on entry: the source returns it uninitialised when the rank is not found. */
    method Lookup(rank: int, file: string, leftover: string, ghost es: seq<Entry>) returns (target: string)
      modifies this
      ensures rank in old(cache) ==> target == old(cache)[rank] && cache == old(cache)
      ensures rank !in old(cache) && FirstMatch(Parse(file), rank).Some? ==>
                var addr := FirstMatch(Parse(file), rank).value;
                target == addr && cache == old(cache)[rank := addr]
      ensures rank !in old(cache) && FirstMatch(Parse(file), rank).None? ==>
                target == leftover && cache == old(cache)
      ensures cache == Remembered(old(cache), Parse(file), rank)
      ensures file == Text(es) && AllWritable(es) && Agrees(old(cache), es) && Known(es, rank) ==>
                target == es[FirstOf(es, rank)].addr
    {
      if file == Text(es) && AllWritable(es) && Agrees(cache, es) && Known(es, rank) {
        FoundIsFirst(cache, es, rank);
      }
      target := leftover;
      if rank in cache {
        FoundInMemory(cache, Parse(file), rank);
        target := cache[rank];
      } else {
        var addr := Scan(rank, file);
        FoundInFile(cache, Parse(file), rank);
        if addr.Some? {
          cache := cache[rank := addr.value];
          target := addr.value;
        }
      }
    }
  }
}
