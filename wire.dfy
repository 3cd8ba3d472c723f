/** The transport stream, one abstract item per primitive write.
    A StreamOutput only ever grows at its end; a StreamInput is a fixed item
    sequence with a read position. The byte layout of each primitive belongs
    to the transport library and is not modelled: an item stands for one
    primitive call (writeVInt, writeString, writeOptionalString,
    writeBoolean, writeStringArray, and the superclass envelope). */
module Wire {

  datatype Option<+T> = None | Some(value: T)

  /** One primitive on the wire. */
  datatype Item =
    | Envelope(index: Option<string>)   // what the shard-request superclass writes
    | VInt(n: int)
    | Str(s: string)
    | OptStr(o: Option<string>)
    | Bool(b: bool)
    | StrArray(a: seq<string>)

  /** Why a read stopped. EndOfStream and Malformed stand for the stream's
      IOException; NegativeArraySize for the runtime exception thrown when an
      array is allocated with a negative length. */
  datatype ReadError = EndOfStream | Malformed | NegativeArraySize

  /** The outcome of one primitive read at a position. */
  datatype Read<+T> = Got(value: T, next: nat) | Fail(error: ReadError)

  function EnvelopeAt(s: seq<Item>, p: nat): Read<Option<string>>
  {
    if p >= |s| then Fail(EndOfStream)
    else if s[p].Envelope? then Got(s[p].index, p + 1) else Fail(Malformed)
  }

  function VIntAt(s: seq<Item>, p: nat): Read<int>
  {
    if p >= |s| then Fail(EndOfStream)
    else if s[p].VInt? then Got(s[p].n, p + 1) else Fail(Malformed)
  }

  function StrAt(s: seq<Item>, p: nat): Read<string>
  {
    if p >= |s| then Fail(EndOfStream)
    else if s[p].Str? then Got(s[p].s, p + 1) else Fail(Malformed)
  }

  function OptStrAt(s: seq<Item>, p: nat): Read<Option<string>>
  {
    if p >= |s| then Fail(EndOfStream)
    else if s[p].OptStr? then Got(s[p].o, p + 1) else Fail(Malformed)
  }

  function BoolAt(s: seq<Item>, p: nat): Read<bool>
  {
    if p >= |s| then Fail(EndOfStream)
    else if s[p].Bool? then Got(s[p].b, p + 1) else Fail(Malformed)
  }

  function StrArrayAt(s: seq<Item>, p: nat): Read<seq<string>>
  {
    if p >= |s| then Fail(EndOfStream)
    else if s[p].StrArray? then Got(s[p].a, p + 1) else Fail(Malformed)
  }

  /** The items `writeString` puts down for the strings of `a`, in order. */
  function Strs(a: seq<string>): (r: seq<Item>)
    ensures |r| == |a|
    ensures forall k :: 0 <= k < |a| ==> r[k] == Str(a[k])
  {
    seq(|a|, k requires 0 <= k < |a| => Str(a[k]))
  }

  /** The result of reading up to `n` single strings: the strings read, the
      position after them and, if a read failed, why. */
  datatype StringsRead = StringsRead(got: seq<string>, next: nat, err: Option<ReadError>)

  /** Reading `n` strings one after the other from position `p`, stopping at
      the first failing read. */
  function StringsAt(s: seq<Item>, p: nat, n: nat): (r: StringsRead)
    ensures |r.got| <= n
    ensures r.next == p + |r.got|
    ensures r.err.None? <==> |r.got| == n
    ensures |r.got| > 0 ==> p + |r.got| <= |s|
    ensures forall k {:trigger r.got[k]} :: 0 <= k < |r.got| ==> s[p + k] == Str(r.got[k])
    ensures r.err.Some? ==> r.next >= |s| || !s[r.next].Str?
    ensures r.err == Some(EndOfStream) <==> r.err.Some? && r.next >= |s|
    ensures r.err.Some? ==> r.err.value == EndOfStream || r.err.value == Malformed
    decreases n
  {
    if n == 0 then StringsRead([], p, None)
    else
      var prev := StringsAt(s, p, n - 1);
      if prev.err.Some? then prev
      else match StrAt(s, prev.next)
        case Fail(e) => StringsRead(prev.got, prev.next, Some(e))
        case Got(x, q) => StringsRead(prev.got + [x], q, None)
  }

  /** An array of length `n` whose first slots hold `got` and whose other
      slots were never filled (null in the source, "" here). */
  function Padded(got: seq<string>, n: nat): (r: seq<string>)
    requires |got| <= n
    ensures |r| == n && r[..|got|] == got
    ensures forall k :: |got| <= k < n ==> r[k] == ""
  {
    got + seq(n - |got|, _ => "")
  }

  /** The output side of the transport: every write appends one item. */
  class StreamOutput {
    var items: seq<Item>

    constructor ()
      ensures items == []
    {
      items := [];
    }

    method WriteEnvelope(index: Option<string>)
      modifies this
      ensures items == old(items) + [Envelope(index)]
    {
      items := items + [Envelope(index)];
    }

    method WriteVInt(n: int)
      modifies this
      ensures items == old(items) + [VInt(n)]
    {
      items := items + [VInt(n)];
    }

    method WriteString(s: string)
      modifies this
      ensures items == old(items) + [Str(s)]
    {
      items := items + [Str(s)];
    }

    method WriteOptionalString(o: Option<string>)
      modifies this
      ensures items == old(items) + [OptStr(o)]
    {
      items := items + [OptStr(o)];
    }

    method WriteBoolean(b: bool)
      modifies this
      ensures items == old(items) + [Bool(b)]
    {
      items := items + [Bool(b)];
    }

    /** A null array makes the library throw before anything is written. */
    method WriteStringArray(a: Option<seq<string>>) returns (ok: bool)
      modifies this
      ensures ok <==> a.Some?
      ensures items == if ok then old(items) + [StrArray(a.value)] else old(items)
    {
      ok := a.Some?;
      if ok {
        items := items + [StrArray(a.value)];
      }
    }
  }

  /** The input side of the transport: a fixed item sequence and a read
      position that each successful read moves past the item it consumed. */
  class StreamInput {
    const items: seq<Item>
    var pos: nat

    constructor (items: seq<Item>)
      ensures this.items == items && pos == 0
    {
      this.items := items;
      pos := 0;
    }

    method ReadEnvelope() returns (r: Read<Option<string>>)
      modifies this
      ensures r == EnvelopeAt(items, old(pos))
      ensures pos == if r.Got? then r.next else old(pos)
    {
      r := EnvelopeAt(items, pos);
      if r.Got? { pos := r.next; }
    }

    method ReadVInt() returns (r: Read<int>)
      modifies this
      ensures r == VIntAt(items, old(pos))
      ensures pos == if r.Got? then r.next else old(pos)
    {
      r := VIntAt(items, pos);
      if r.Got? { pos := r.next; }
    }

    method ReadString() returns (r: Read<string>)
      modifies this
      ensures r == StrAt(items, old(pos))
      ensures pos == if r.Got? then r.next else old(pos)
    {
      r := StrAt(items, pos);
      if r.Got? { pos := r.next; }
    }

    method ReadOptionalString() returns (r: Read<Option<string>>)
      modifies this
      ensures r == OptStrAt(items, old(pos))
      ensures pos == if r.Got? then r.next else old(pos)
    {
      r := OptStrAt(items, pos);
      if r.Got? { pos := r.next; }
    }

    method ReadBoolean() returns (r: Read<bool>)
      modifies this
      ensures r == BoolAt(items, old(pos))
      ensures pos == if r.Got? then r.next else old(pos)
    {
      r := BoolAt(items, pos);
      if r.Got? { pos := r.next; }
    }

    method ReadStringArray() returns (r: Read<seq<string>>)
      modifies this
      ensures r == StrArrayAt(items, old(pos))
      ensures pos == if r.Got? then r.next else old(pos)
    {
      r := StrArrayAt(items, pos);
      if r.Got? { pos := r.next; }
    }
  }
}
