/** What `UnmarshalTree` makes of any bytes: a preorder parser, and that it reads what was written. */
module TreeParse {
  import opened Basics
  import opened Names
  import opened Varints
  import opened TreeEncoding

  /** How reading ends: with a node, with malformed bytes, or with a panic of the program. */
  datatype Status = Read | Malformed | Panics

  datatype Head = Head(status: Status, name: Name, value: nat, count: nat, next: nat)

  function Failed(status: Status): Head {
    Head(status, [], 0, 0, 0)
  }

  /**
   Name, value and number of children. A varint that is cut off at the end of the bytes reads as zero and uses
   none; the slice of the name and the list of children panic where they do not fit. Reading a number of
   children above zero uses bytes.
   */
  function ReadHead(b: seq<Byte>, at: nat, cap: nat): (h: Head)
    requires at <= |b|
    ensures h.status.Read? ==> at <= h.next <= |b| && h.count <= cap && (h.count > 0 ==> h.next > at)
  {
    var (len, n) := Uvarint(b, at);
    if n < 0 then Failed(Malformed)
    else if len >= MAX_UINT64 / 2 || at + n + len > |b| then Failed(Panics)
    else ReadNumbersOf(b, at, b[at + n..at + n + len], at + n + len, cap)
  }

  function ReadNumbersOf(b: seq<Byte>, at: nat, name: Name, from: nat, cap: nat): (h: Head)
    requires at <= from <= |b|
    ensures h.status.Read? ==> at <= h.next <= |b| && h.count <= cap && (h.count > 0 ==> h.next > at)
  {
    var (value, n) := Uvarint(b, from);
    if n < 0 then Failed(Malformed)
    else
      var (count, m) := Uvarint(b, from + n);
      if m < 0 then Failed(Malformed)
      else if count > cap then Failed(Panics)
      else Head(Read, name, value, count, from + n + m)
  }

  /** Reads a node anywhere; `Heads(b, cap)` does so in `b`. */
  type Reader = nat -> Head

  ghost function Heads(b: seq<Byte>, cap: nat): Reader {
    (at: nat) => if at <= |b| then ReadHead(b, at, cap) else Failed(Panics)
  }

  /** A node without bytes of its own has no children. */
  ghost predicate Proper(read: Reader, len: nat) {
    forall at: nat {:trigger read(at)} | at <= len && read(at).status.Read? ::
      at <= read(at).next <= len && (read(at).count > 0 ==> read(at).next > at)
  }

  lemma HeadsAreProper(b: seq<Byte>, cap: nat)
    ensures Proper(Heads(b, cap), |b|)
  {
  }

  /** The trees that were read, or what stopped the reading. */
  datatype Parsed = Parsed(status: Status, xs: seq<Enc>, next: nat)

  ghost function Stopped(status: Status): Parsed {
    Parsed(status, [], 0)
  }

  /** `count` trees one after the other. */
  ghost function Parse(read: Reader, len: nat, at: nat, count: nat): (r: Parsed)
    requires Proper(read, len) && at <= len
    ensures r.status.Read? ==> at <= r.next <= len && |r.xs| == count
    ensures !r.status.Read? ==> r == Stopped(r.status)
    decreases len - at, count
  {
    if count == 0 then Parsed(Read, [], at)
    else
      var h := read(at);
      if !h.status.Read? then Stopped(h.status)
      else
        var kids := if h.count == 0 then Parsed(Read, [], h.next) else Parse(read, len, h.next, h.count);
        if !kids.status.Read? then kids
        else Joined(Parsed(Read, [Enc(h.name, h.value, kids.xs)], kids.next), Parse(read, len, kids.next, count - 1))
  }

  /** What was read, and then what was read after it. */
  ghost function Joined(p: Parsed, q: Parsed): Parsed {
    if !p.status.Read? then p
    else if !q.status.Read? then q
    else Parsed(Read, p.xs + q.xs, q.next)
  }

  lemma JoinedTwice(p: Parsed, q: Parsed, r: Parsed)
    ensures Joined(p, Joined(q, r)) == Joined(Joined(p, q), r)
  {
    Associative(p.xs, q.xs, r.xs);
  }

  /** `m` trees, and then `n` more. */
  ghost function Twice(read: Reader, len: nat, at: nat, m: nat, n: nat): Parsed
    requires Proper(read, len) && at <= len
  {
    var p := Parse(read, len, at, m);
    if p.status.Read? then Joined(p, Parse(read, len, p.next, n)) else p
  }

  lemma {:induction false} ParseSplits(read: Reader, len: nat, at: nat, m: nat, n: nat)
    requires Proper(read, len) && at <= len
    ensures Parse(read, len, at, m + n) == Twice(read, len, at, m, n)
    decreases len - at, m
  {
    if m > 0 && read(at).status.Read? {
      var h := read(at);
      var kids := if h.count == 0 then Parsed(Read, [], h.next) else Parse(read, len, h.next, h.count);
      if kids.status.Read? {
        var one := Parsed(Read, [Enc(h.name, h.value, kids.xs)], kids.next);
        ParseSplits(read, len, kids.next, m - 1, n);
        var p := Parse(read, len, kids.next, m - 1);
        if p.status.Read? { JoinedTwice(one, p, Parse(read, len, p.next, n)); }
      }
    }
  }

  /** What is to come after the node at `at`: its children, and then the others. */
  lemma {:induction false} ParseNode(read: Reader, len: nat, at: nat, count: nat)
    requires Proper(read, len) && at <= len && count > 0 && read(at).status.Read?
    ensures var h := read(at); var r := Parse(read, len, at, count); var s := Parse(read, len, h.next, h.count + count - 1);
      && s.status == r.status
      && (r.status.Read? ==>
            && r.xs[0].name == h.name && r.xs[0].value == h.value && |r.xs[0].kids| == h.count
            && s.xs == r.xs[0].kids + r.xs[1..])
  {
    var h := read(at);
    ParseSplits(read, len, h.next, h.count, count - 1);
  }

  // ---- Reading what was written ----

  ghost function Header(x: Enc): seq<Byte> {
    Varint(|x.name|) + x.name + Varint(x.value) + Varint(|x.kids|)
  }

  lemma {:induction false} NumbersReadBack(b: seq<Byte>, at: nat, from: nat, cap: nat, x: Enc, rest: seq<Byte>)
    requires at <= from <= |b| && Fits(x, cap) && b[from..] == Varint(x.value) + (Varint(|x.kids|) + rest)
    ensures var next := from + |Varint(x.value)| + |Varint(|x.kids|)|;
      next <= |b| && ReadNumbersOf(b, at, x.name, from, cap) == Head(Read, x.name, x.value, |x.kids|, next) && b[next..] == rest
  {
    UvarintReadsBack(b, from, x.value, Varint(|x.kids|) + rest);
    UvarintReadsBack(b, from + |Varint(x.value)|, |x.kids|, rest);
  }

  lemma {:induction false} NameReadsBack(b: seq<Byte>, at: nat, x: Enc, rest: seq<Byte>) returns (n: nat)
    requires at <= |b| && |x.name| < MAX_UINT64 && b[at..] == Header(x) + rest
    ensures Uvarint(b, at) == (|x.name|, n) && at + n + |x.name| <= |b| && b[at + n..at + n + |x.name|] == x.name
    ensures b[at + n + |x.name|..] == Varint(x.value) + (Varint(|x.kids|) + rest)
  {
    var numbers := Varint(x.value) + (Varint(|x.kids|) + rest);
    HeaderParts(x, rest);
    UvarintReadsBack(b, at, |x.name|, x.name + numbers);
    n := |Varint(|x.name|)|;
    NameThere(b, at + n, x.name, numbers);
  }

  lemma {:induction false} HeaderThere(b: seq<Byte>, at: nat, cap: nat, x: Enc, rest: seq<Byte>) returns (n: nat, next: nat)
    requires at <= |b| && Fits(x, cap) && b[at..] == Header(x) + rest
    ensures Uvarint(b, at) == (|x.name|, n) && at + n + |x.name| <= |b| && b[at + n..at + n + |x.name|] == x.name
    ensures ReadNumbersOf(b, at, x.name, at + n + |x.name|, cap) == Head(Read, x.name, x.value, |x.kids|, next)
    ensures at <= next <= |b| && b[next..] == rest
  {
    n := NameReadsBack(b, at, x, rest);
    NumbersReadBack(b, at, at + n + |x.name|, cap, x, rest);
    next := at + n + |x.name| + |Varint(x.value)| + |Varint(|x.kids|)|;
  }

  lemma {:induction false} HeaderReadsBack(b: seq<Byte>, at: nat, cap: nat, x: Enc, rest: seq<Byte>) returns (next: nat)
    requires at <= |b| && Fits(x, cap) && b[at..] == Header(x) + rest
    ensures ReadHead(b, at, cap) == Head(Read, x.name, x.value, |x.kids|, next)
    ensures at <= next <= |b| && b[next..] == rest
  {
    var n;
    n, next := HeaderThere(b, at, cap, x, rest);
    HeadStarts(b, at, cap, x.name, n);
  }

  /** A name that is there is read. */
  lemma HeadStarts(b: seq<Byte>, at: nat, cap: nat, name: Name, n: nat)
    requires at <= |b| && Uvarint(b, at) == (|name|, n) && |name| < MAX_UINT64 / 2 && at + n + |name| <= |b|
    requires b[at + n..at + n + |name|] == name
    ensures ReadHead(b, at, cap) == ReadNumbersOf(b, at, name, at + n + |name|, cap)
  {
  }

  lemma HeaderParts(x: Enc, rest: seq<Byte>)
    ensures Header(x) + rest == Varint(|x.name|) + (x.name + (Varint(x.value) + (Varint(|x.kids|) + rest)))
  {
  }

  lemma NameThere(b: seq<Byte>, at: nat, name: Name, rest: seq<Byte>)
    requires at <= |b| && b[at..] == name + rest
    ensures at + |name| <= |b| && b[at..at + |name|] == name && b[at + |name|..] == rest
  {
    assert b[at..at + |name|] == b[at..][..|name|];
    assert b[at + |name|..] == b[at..][|name|..];
  }

  /** Trees that were written are read back, and what follows them is left. */
  lemma {:induction false} WrittenIsRead(b: seq<Byte>, at: nat, cap: nat, xs: seq<Enc>, rest: seq<Byte>) returns (next: nat)
    requires at <= |b| && AllFit(xs, cap) && b[at..] == EncodeAll(xs) + rest && Proper(Heads(b, cap), |b|)
    ensures Parse(Heads(b, cap), |b|, at, |xs|) == Parsed(Read, xs, next) && at <= next <= |b| && b[next..] == rest
    decreases xs
  {
    if xs == [] {
      next := at;
    } else {
      var others := EncodeAll(xs[1..]) + rest;
      var from := FirstHeader(b, at, cap, xs, rest, others);
      next := WrittenIsRead(b, from, cap, xs[0].kids, others);
      next := WrittenIsRead(b, next, cap, xs[1..], rest);
      FirstIsRead(Heads(b, cap), |b|, at, xs);
    }
  }

  lemma {:induction false} FirstHeader(b: seq<Byte>, at: nat, cap: nat, xs: seq<Enc>, rest: seq<Byte>, others: seq<Byte>) returns (next: nat)
    requires at <= |b| && AllFit(xs, cap) && xs != [] && b[at..] == EncodeAll(xs) + rest && others == EncodeAll(xs[1..]) + rest
    ensures Heads(b, cap)(at) == Head(Read, xs[0].name, xs[0].value, |xs[0].kids|, next)
    ensures at <= next <= |b| && b[next..] == EncodeAll(xs[0].kids) + others
    ensures AllFit(xs[0].kids, cap) && AllFit(xs[1..], cap)
  {
    assert Fits(xs[0], cap);
    assert [xs[0]] + xs[1..] == xs;
    EncodingParts(xs[0], xs[1..], rest);
    next := HeaderReadsBack(b, at, cap, xs[0], EncodeAll(xs[0].kids) + others);
  }

  lemma {:induction false} FirstIsRead(read: Reader, len: nat, at: nat, xs: seq<Enc>)
    requires Proper(read, len) && at <= len && xs != []
    requires read(at) == Head(Read, xs[0].name, xs[0].value, |xs[0].kids|, read(at).next)
    requires var kids := Parse(read, len, read(at).next, |xs[0].kids|);
      && kids.status.Read? && kids.xs == xs[0].kids
      && Parse(read, len, kids.next, |xs| - 1).status.Read? && Parse(read, len, kids.next, |xs| - 1).xs == xs[1..]
    ensures var kids := Parse(read, len, read(at).next, |xs[0].kids|); var r := Parse(read, len, at, |xs|);
      r.status.Read? && r.xs == xs && r.next == Parse(read, len, kids.next, |xs| - 1).next
  {
    assert Enc(xs[0].name, xs[0].value, xs[0].kids) == xs[0] && [xs[0]] + xs[1..] == xs;
  }

  lemma EncodingParts(x: Enc, xs: seq<Enc>, rest: seq<Byte>)
    ensures EncodeAll([x] + xs) + rest == Header(x) + (EncodeAll(x.kids) + (EncodeAll(xs) + rest))
  {
    assert ([x] + xs)[1..] == xs;
    assert Encode(x) == Header(x) + EncodeAll(x.kids);
  }

  /** The bytes of a tree are read as that tree. */
  lemma {:induction false} EncodingParses(x: Enc, cap: nat)
    requires Fits(x, cap)
    ensures Proper(Heads(Encode(x), cap), |Encode(x)|) && |Encode(x)| >= 3
    ensures Parse(Heads(Encode(x), cap), |Encode(x)|, 0, 1) == Parsed(Read, [x], |Encode(x)|)
  {
    var b := Encode(x);
    HeadsAreProper(b, cap);
    assert [x][1..] == [] && EncodeAll([x]) == Encode(x) + [];
    assert b[0..] == EncodeAll([x]) + [];
    assert AllFit([x], cap);
    var next := WrittenIsRead(b, 0, cap, [x], []);
    assert next == |b|;
    assert |Varint(|x.name|)| >= 1 && |Varint(x.value)| >= 1 && |Varint(|x.kids|)| >= 1;
  }
}
