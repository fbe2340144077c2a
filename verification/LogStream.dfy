/**
 Reading a log back: records are decoded from a byte stream until it ends. The record format is a
 parameter, given by its encoder and decoder and by the laws the two obey.
 */
module LogStream {

  import opened Basics

  type Byte = n: int | 0 <= n < 256

  /** What decoding at the head of a stream yields: a record and its size, or why there is none. */
  datatype Decoded<+R> =
    | Record(value: R, used: nat)
    | UnexpectedEnd
    | IoUnexpectedEof
    | Corrupt(message: string)
  {
    /** The stream stops here or inside a record. */
    predicate AtEnd() { UnexpectedEnd? || IoUnexpectedEof? }
  }

  datatype LogEnd = Eof | Error(message: string)

  type Decoder<!R> = seq<Byte> -> Decoded<R>

  /** Every record takes some bytes, and no more than there are. */
  ghost predicate Consumes<R>(decode: Decoder<R>) {
    forall bs :: decode(bs).Record? ==> 0 < decode(bs).used <= |bs|
  }

  /** All the records of a stream, and how it ended. */
  function ReadAll<R>(decode: Decoder<R>, bytes: seq<Byte>): (seq<R>, LogEnd)
    requires Consumes(decode)
    decreases |bytes|
  {
    match decode(bytes)
    case Record(value, used) =>
      var (records, end) := ReadAll(decode, bytes[used..]);
      ([value] + records, end)
    case UnexpectedEnd => ([], Eof)
    case IoUnexpectedEof => ([], Eof)
    case Corrupt(message) => ([], Error(message))
  }

  /** The decode loop. It ends because every record takes some of the bytes that remain. */
  method ReadCopperlists<R>(decode: Decoder<R>, bytes: seq<Byte>) returns (copperlists: seq<R>, end: LogEnd)
    requires Consumes(decode)
    ensures copperlists == ReadAll(decode, bytes).0 && end == ReadAll(decode, bytes).1
  {
    copperlists := [];
    var at := 0;
    while true
      invariant 0 <= at <= |bytes|
      invariant ReadAll(decode, bytes).0 == copperlists + ReadAll(decode, bytes[at..]).0
      invariant ReadAll(decode, bytes).1 == ReadAll(decode, bytes[at..]).1
      decreases |bytes| - at
    {
      match decode(bytes[at..]) {
        case Record(cl, used) =>
          assert bytes[at..][used..] == bytes[at + used..];
          copperlists := copperlists + [cl];
          at := at + used;
        case UnexpectedEnd =>
          return copperlists, Eof;
        case IoUnexpectedEof =>
          return copperlists, Eof;
        case Corrupt(message) =>
          return copperlists, Error(message);
      }
    }
  }

  datatype Codec<!R> = Codec(encode: R -> seq<Byte>, decode: Decoder<R>)

  /**
   The laws of a record format: a record takes at least one byte, decodes to itself whatever follows
   it, and cut short anywhere it reads as the end of the stream. So does an empty stream.
   */
  ghost predicate Lawful<R(!new)>(c: Codec<R>) {
    && Consumes(c.decode)
    && c.decode([]).AtEnd()
    && (forall x :: |c.encode(x)| > 0)
    && (forall x, rest :: c.decode(c.encode(x) + rest) == Record(x, |c.encode(x)|))
    && (forall x, k | 0 <= k < |c.encode(x)| :: c.decode(c.encode(x)[..k]).AtEnd())
  }

  /** The stream a logger writes. */
  function WriteAll<R>(c: Codec<R>, xs: seq<R>): seq<Byte> {
    if |xs| == 0 then [] else c.encode(xs[0]) + WriteAll(c, xs[1..])
  }

  lemma ReadOne<R(!new)>(c: Codec<R>, x: R, rest: seq<Byte>)
    requires Lawful(c)
    ensures ReadAll(c.decode, c.encode(x) + rest).0 == [x] + ReadAll(c.decode, rest).0
    ensures ReadAll(c.decode, c.encode(x) + rest).1 == ReadAll(c.decode, rest).1
  {
    AppendBeyond(c.encode(x), rest, 0);
    assert c.decode(c.encode(x) + rest) == Record(x, |c.encode(x)|);
  }

  /** Complete records are read as they are, whatever follows them, be it damaged or not. */
  lemma {:induction false} ReadWritten<R(!new)>(c: Codec<R>, xs: seq<R>, tail: seq<Byte>)
    requires Lawful(c)
    ensures ReadAll(c.decode, WriteAll(c, xs) + tail).0 == xs + ReadAll(c.decode, tail).0
    ensures ReadAll(c.decode, WriteAll(c, xs) + tail).1 == ReadAll(c.decode, tail).1
    decreases |xs|
  {
    if |xs| == 0 {
      assert WriteAll(c, xs) + tail == tail;
    } else {
      var later := xs[1..];
      ReadWritten(c, later, tail);
      ReadOne(c, xs[0], WriteAll(c, later) + tail);
      AppendAssoc(c.encode(xs[0]), WriteAll(c, later), tail);
      AppendAssoc([xs[0]], later, ReadAll(c.decode, tail).0);
      assert xs == [xs[0]] + later;
    }
  }

  /** Round trip. */
  lemma ReadBack<R(!new)>(c: Codec<R>, xs: seq<R>)
    requires Lawful(c)
    ensures ReadAll(c.decode, WriteAll(c, xs)).0 == xs
    ensures ReadAll(c.decode, WriteAll(c, xs)).1 == Eof
  {
    ReadWritten(c, xs, []);
    assert WriteAll(c, xs) + [] == WriteAll(c, xs);
  }

  lemma {:induction false} WriteAppend<R>(c: Codec<R>, xs: seq<R>, ys: seq<R>)
    ensures WriteAll(c, xs + ys) == WriteAll(c, xs) + WriteAll(c, ys)
    decreases |xs|
  {
    if |xs| == 0 {
      assert xs + ys == ys;
    } else {
      assert (xs + ys)[1..] == xs[1..] + ys;
      WriteAppend(c, xs[1..], ys);
    }
  }

  /** How many records lie completely within the first `cut` bytes. */
  function CompleteWithin<R>(c: Codec<R>, xs: seq<R>, cut: nat): (n: nat)
    ensures n <= |xs|
    decreases |xs|
  {
    if |xs| == 0 || cut < |c.encode(xs[0])| then 0
    else 1 + CompleteWithin(c, xs[1..], cut - |c.encode(xs[0])|)
  }

  /** It is the largest number of leading records that fit. */
  lemma {:induction false} CompleteWithinExact<R(!new)>(c: Codec<R>, xs: seq<R>, cut: nat)
    requires Lawful(c)
    ensures var n := CompleteWithin(c, xs, cut);
      |WriteAll(c, xs[..n])| <= cut && (n < |xs| ==> cut < |WriteAll(c, xs[..n + 1])|)
    decreases |xs|
  {
    if |xs| > 0 && cut >= |c.encode(xs[0])| {
      var n := CompleteWithin(c, xs[1..], cut - |c.encode(xs[0])|);
      CompleteWithinExact(c, xs[1..], cut - |c.encode(xs[0])|);
      assert xs[..n + 1][1..] == xs[1..][..n];
      if n + 1 < |xs| { assert xs[..n + 2][1..] == xs[1..][..n + 1]; }
    } else if |xs| > 0 {
      assert xs[..1][1..] == [];
    }
  }

  lemma WriteHead<R>(c: Codec<R>, xs: seq<R>, n: nat)
    requires n < |xs|
    ensures WriteAll(c, xs[..n + 1]) == c.encode(xs[0]) + WriteAll(c, xs[1..][..n])
  {
    assert xs[..n + 1][1..] == xs[1..][..n];
  }

  lemma CutAppend(head: seq<Byte>, rest: seq<Byte>, cut: nat, kept: seq<Byte>, tail: seq<Byte>)
    requires |head| <= cut <= |head| + |rest|
    requires rest[..cut - |head|] == kept + tail
    ensures (head + rest)[..cut] == (head + kept) + tail
  {
    AppendBeyond(head, rest, cut - |head|);
  }

  /** A cut stream is some complete records and a piece that reads as the end. */
  lemma {:induction false} SplitAtCut<R(!new)>(c: Codec<R>, xs: seq<R>, cut: nat) returns (tail: seq<Byte>)
    requires Lawful(c) && cut <= |WriteAll(c, xs)|
    ensures WriteAll(c, xs)[..cut] == WriteAll(c, xs[..CompleteWithin(c, xs, cut)]) + tail
    ensures c.decode(tail).AtEnd()
    decreases |xs|
  {
    if |xs| == 0 {
      tail := [];
    } else if cut < |c.encode(xs[0])| {
      tail := c.encode(xs[0])[..cut];
      assert WriteAll(c, xs)[..cut] == tail == [] + tail;
    } else {
      var head, rest := c.encode(xs[0]), WriteAll(c, xs[1..]);
      var n := CompleteWithin(c, xs[1..], cut - |head|);
      tail := SplitAtCut(c, xs[1..], cut - |head|);
      CutAppend(head, rest, cut, WriteAll(c, xs[1..][..n]), tail);
      WriteHead(c, xs, n);
    }
  }

  /**
   Truncation. Cut anywhere, the stream yields the records that lie completely before the cut, and
   still reports a clean end.
   */
  lemma ReadTruncated<R(!new)>(c: Codec<R>, xs: seq<R>, cut: nat)
    requires Lawful(c) && cut <= |WriteAll(c, xs)|
    ensures ReadAll(c.decode, WriteAll(c, xs)[..cut]).0 == xs[..CompleteWithin(c, xs, cut)]
    ensures ReadAll(c.decode, WriteAll(c, xs)[..cut]).1 == Eof
  {
    var tail := SplitAtCut(c, xs, cut);
    ReadWritten(c, xs[..CompleteWithin(c, xs, cut)], tail);
  }

  /** So a clean end proves nothing; but the number of records betrays every cut. */
  lemma CountBetraysCut<R(!new)>(c: Codec<R>, xs: seq<R>, cut: nat)
    requires Lawful(c) && cut <= |WriteAll(c, xs)|
    ensures |ReadAll(c.decode, WriteAll(c, xs)[..cut]).0| == |xs| <==> cut == |WriteAll(c, xs)|
  {
    ReadTruncated(c, xs, cut);
    CompleteWithinExact(c, xs, cut);
    var n := CompleteWithin(c, xs, cut);
    if n == |xs| {
      assert xs[..n] == xs;
    } else {
      WriteAppend(c, xs[..n + 1], xs[n + 1..]);
      assert xs == xs[..n + 1] + xs[n + 1..];
    }
  }

  /** Damage after complete records is reported, and the records before it are kept. */
  lemma ReadDamaged<R(!new)>(c: Codec<R>, xs: seq<R>, tail: seq<Byte>)
    requires Lawful(c) && c.decode(tail).Corrupt?
    ensures ReadAll(c.decode, WriteAll(c, xs) + tail).0 == xs
    ensures ReadAll(c.decode, WriteAll(c, xs) + tail).1 == Error(c.decode(tail).message)
  {
    ReadWritten(c, xs, tail);
  }

  /** The laws can be met: records of up to 255 bytes behind a length byte meet them. */
  type Blob = x: seq<Byte> | |x| < 256

  function EncodeBlob(x: Blob): seq<Byte> {
    [|x|] + x
  }

  function DecodeBlob(bs: seq<Byte>): Decoded<Blob> {
    if |bs| == 0 then UnexpectedEnd
    else
      var size: nat := bs[0];
      if |bs| < 1 + size then UnexpectedEnd else Record(bs[1..1 + size], 1 + size)
  }

  const PREFIXED: Codec<Blob> := Codec(EncodeBlob, DecodeBlob)

  lemma PrefixedIsLawful()
    ensures Lawful(PREFIXED)
  {
    forall x: Blob, rest: seq<Byte>
      ensures PREFIXED.decode(PREFIXED.encode(x) + rest) == Record(x, |PREFIXED.encode(x)|)
    {
      var bs := EncodeBlob(x) + rest;
      assert bs[0] == |x|;
      assert bs[1..1 + |x|] == x;
    }
  }
}
