/** The extended-analyze request: its fields, the validation rule, and the
    hand-written wire format written by writeTo and read back by readFrom.
    The pure functions Encode, Decode and Validation are the specification;
    the class ExtendedAnalyzeRequest is the mutable object, whose methods are
    proved to agree with them. */
module ExtendedAnalyze {
  import opened Wire

  /** The state of one request. A Java null is None; `index` is the index
      name held by the shard-request superclass. */
  datatype Fields = Fields(
    index: Option<string>,
    text: Option<seq<string>>,
    analyzer: Option<string>,
    tokenizer: Option<string>,
    tokenFilters: Option<seq<string>>,
    charFilters: Option<seq<string>>,
    field: Option<string>,
    attributes: Option<seq<string>>,
    shortAttributeName: bool)

  /** A newly constructed request: every reference null, the flag false. */
  const Blank := Fields(None, None, None, None, None, None, None, None, false)

  const TextMissing := "text is missing"

  /** The elements of a possibly-null array, none for null. */
  function OrEmpty(a: Option<seq<string>>): seq<string>
  {
    match a
    case None => []
    case Some(xs) => xs
  }

  /** The count writeTo puts in front of a possibly-null array. */
  function Count(a: Option<seq<string>>): nat
  {
    |OrEmpty(a)|
  }

  /** addValidationError: append a message, creating the error if there was none. */
  function AddValidationError(message: string, errors: Option<seq<string>>): (r: Option<seq<string>>)
    ensures r.Some? && |r.value| > 0 && r.value[|r.value| - 1] == message
    ensures errors.None? ==> r.value == [message]
    ensures errors.Some? ==> r.value[..|r.value| - 1] == errors.value
  {
    match errors
    case None => Some([message])
    case Some(ms) => Some(ms + [message])
  }

  /** validate(): an error exactly when `text` is null; any array, even an
      empty one, is accepted. */
  function Validation(f: Fields): (errors: Option<seq<string>>)
    ensures errors.Some? <==> f.text.None?
    ensures errors.Some? ==> errors.value == [TextMissing]
  {
    var errors := None;
    if f.text.None? then AddValidationError(TextMissing, errors) else errors
  }

  // ---------------------------------------------------------------------
  // writeTo

  /** A string array written as a count and then one string per element.
      A null array is written as a count of 0, exactly like an empty one. */
  function Counted(a: Option<seq<string>>): (r: seq<Item>)
    ensures |r| == 1 + Count(a) && r[0] == VInt(Count(a))
    ensures forall k :: 0 <= k < Count(a) ==> r[1 + k] == Str(OrEmpty(a)[k])
    ensures a.None? ==> r == [VInt(0)]
  {
    match a
    case None => [VInt(0)]
    case Some(xs) => [VInt(|xs|)] + Strs(xs)
  }

  /** Everything writeTo puts on the stream, or None when it throws because
      `text` is null (after the envelope has been written). `charFilters`
      is not part of the encoding. */
  function Encode(f: Fields): (r: Option<seq<Item>>)
    ensures r.Some? <==> f.text.Some?
    ensures r.Some? ==> |r.value| == 8 + Count(f.tokenFilters) + Count(f.attributes)
    ensures r.Some? ==> r.value[0] == Envelope(f.index) && r.value[1] == StrArray(f.text.value)
  {
    match f.text
    case None => None
    case Some(text) =>
      Some([Envelope(f.index), StrArray(text), OptStr(f.analyzer), OptStr(f.tokenizer)]
           + Counted(f.tokenFilters)
           + [OptStr(f.field), Bool(f.shortAttributeName)]
           + Counted(f.attributes))
  }

  // ---------------------------------------------------------------------
  // readFrom

  /** The result of readFrom: the request's fields afterwards, the stream
      position afterwards, and the exception, if one was thrown. Fields
      assigned before the exception keep their new values. */
  datatype Decoded = Decoded(fields: Fields, pos: nat, error: Option<ReadError>)

  /** The result of the guarded array read: the field afterwards, the
      position afterwards, and the exception, if any. */
  datatype ArrayRead = ArrayRead(field: Option<seq<string>>, next: nat, err: Option<ReadError>)

  /** One guarded array read of readFrom. Only when the guard holds is the
      field replaced: by a new array of `count` slots, filled in order by
      single string reads; a read that fails leaves the remaining slots
      unfilled. A negative count throws before the field is touched. */
  function GuardedArray(current: Option<seq<string>>, s: seq<Item>, p: nat, guard: bool, count: int): (r: ArrayRead)
    ensures p <= r.next
    ensures !guard ==> r == ArrayRead(current, p, None)
  {
    if !guard then ArrayRead(current, p, None)
    else if count < 0 then ArrayRead(current, p, Some(NegativeArraySize))
    else
      var strings := StringsAt(s, p, count);
      ArrayRead(Some(Padded(strings.got, count)), strings.next, strings.err)
  }

  /** readFrom from position `p`, up to and including the token filters,
      on a request whose fields were `f`. */
  function Decode(f: Fields, s: seq<Item>, p: nat): (d: Decoded)
    ensures d.fields.charFilters == f.charFilters
    ensures d.error.None? ==> d.fields.text.Some?
    ensures p <= d.pos
  {
    match EnvelopeAt(s, p)
    case Fail(e) => Decoded(f, p, Some(e))
    case Got(index, p1) =>
      var f1 := f.(index := index);
      match StrArrayAt(s, p1)
      case Fail(e) => Decoded(f1, p1, Some(e))
      case Got(text, p2) =>
        var f2 := f1.(text := Some(text));
        match OptStrAt(s, p2)
        case Fail(e) => Decoded(f2, p2, Some(e))
        case Got(analyzer, p3) =>
          var f3 := f2.(analyzer := analyzer);
          match OptStrAt(s, p3)
          case Fail(e) => Decoded(f3, p3, Some(e))
          case Got(tokenizer, p4) =>
            var f4 := f3.(tokenizer := tokenizer);
            match VIntAt(s, p4)
            case Fail(e) => Decoded(f4, p4, Some(e))
            case Got(size, p5) =>
              var filters := GuardedArray(f4.tokenFilters, s, p5, size > 0, size);
              var f5 := f4.(tokenFilters := filters.field);
              if filters.err.Some? then Decoded(f5, filters.next, filters.err)
              else DecodeTail(f5, s, filters.next, size)
  }

  /** The rest of readFrom: field, flag, attribute count and attributes. The
      attributes are guarded by the token-filter count `size`, not by their
      own count. */
  function DecodeTail(f: Fields, s: seq<Item>, p: nat, size: int): (d: Decoded)
    ensures d.fields.charFilters == f.charFilters && d.fields.text == f.text
    ensures p <= d.pos
  {
    match OptStrAt(s, p)
    case Fail(e) => Decoded(f, p, Some(e))
    case Got(field, p1) =>
      var f1 := f.(field := field);
      match BoolAt(s, p1)
      case Fail(e) => Decoded(f1, p1, Some(e))
      case Got(flag, p2) =>
        var f2 := f1.(shortAttributeName := flag);
        match VIntAt(s, p2)
        case Fail(e) => Decoded(f2, p2, Some(e))
        case Got(attSize, p3) =>
          var atts := GuardedArray(f2.attributes, s, p3, size > 0, attSize);
          Decoded(f2.(attributes := atts.field), atts.next, atts.err)
  }

  // ---------------------------------------------------------------------
  // Stream loops

  /** writeVInt of the count (0 for null), then writeString per element. */
  method WriteCounted(out: StreamOutput, a: Option<seq<string>>)
    modifies out
    ensures out.items == old(out.items) + Counted(a)
  {
    if a.None? {
      out.WriteVInt(0);
    } else {
      ghost var start := out.items;
      out.WriteVInt(|a.value|);
      WriteStrings(out, a.value);
      assert out.items == start + ([VInt(|a.value|)] + Strs(a.value));
    }
  }

  /** The loop of writeString calls over the elements of an array. */
  method WriteStrings(out: StreamOutput, xs: seq<string>)
    modifies out
    ensures out.items == old(out.items) + Strs(xs)
  {
    ghost var start := out.items;
    for i := 0 to |xs|
      invariant out.items == start + Strs(xs[..i])
    {
      assert Strs(xs[..i + 1]) == Strs(xs[..i]) + [Str(xs[i])];
      out.WriteString(xs[i]);
    }
    assert xs[..|xs|] == xs;
  }

  lemma AppendFour<T>(start: seq<T>, a: seq<T>, b: seq<T>, c: seq<T>, d: seq<T>)
    ensures start + a + b + c + d == start + (a + b + c + d)
  {
  }

  /** `new String[n]` filled by readString, slot by slot, until a read fails. */
  method FillArray(inp: StreamInput, n: nat) returns (a: array<string>, err: Option<ReadError>)
    modifies inp
    ensures fresh(a)
    ensures a[..] == Padded(StringsAt(inp.items, old(inp.pos), n).got, n)
    ensures err == StringsAt(inp.items, old(inp.pos), n).err
    ensures inp.pos == StringsAt(inp.items, old(inp.pos), n).next
  {
    ghost var p := inp.pos;
    a := new string[n](_ => "");
    err := None;
    for i := 0 to n
      invariant StringsAt(inp.items, p, i) == StringsRead(a[..i], inp.pos, None)
      invariant forall k :: i <= k < n ==> a[k] == ""
    {
      ghost var before := a[..i];
      var x := inp.ReadString();
      if x.Fail? {
        err := Some(x.error);
        assert StringsAt(inp.items, p, i + 1) == StringsRead(before, inp.pos, Some(x.error));
        StringsAtStops(inp.items, p, i + 1, n);
        PaddedPrefix(a[..], i);
        return;
      }
      a[i] := x.value;
      assert a[..i + 1] == before + [x.value];
      assert StringsAt(inp.items, p, i + 1) == StringsRead(before + [x.value], inp.pos, None);
    }
    PaddedPrefix(a[..], n);
  }

  /** A sequence whose slots from `m` on were never filled is its first `m`
      slots, padded. */
  lemma PaddedPrefix(xs: seq<string>, m: nat)
    requires m <= |xs|
    requires forall k :: m <= k < |xs| ==> xs[k] == ""
    ensures Padded(xs[..m], |xs|) == xs
  {
  }

  /** Once a read has failed, reading more strings changes nothing. */
  lemma {:induction false} StringsAtStops(s: seq<Item>, p: nat, i: nat, n: nat)
    requires i <= n
    requires StringsAt(s, p, i).err.Some?
    ensures StringsAt(s, p, n) == StringsAt(s, p, i)
    decreases n
  {
    if n > i {
      StringsAtStops(s, p, i, n - 1);
    }
  }

  // ---------------------------------------------------------------------
  // The request object

  class ExtendedAnalyzeRequest {
    var index: Option<string>
    var text: Option<seq<string>>
    var analyzer: Option<string>
    var tokenizer: Option<string>
    var tokenFilters: Option<seq<string>>
    var charFilters: Option<seq<string>>
    var field: Option<string>
    /** the attribute names to report */
    var attributes: Option<seq<string>>
    /** whether attribute types are reported by their simple name */
    var shortAttributeName: bool

    /** All fields, as a value. */
    function Snapshot(): Fields
      reads this
    {
      Fields(index, text, analyzer, tokenizer, tokenFilters, charFilters, field, attributes, shortAttributeName)
    }

    /** The package-private constructor used before readFrom. */
    constructor ()
      ensures Snapshot() == Blank
    {
      index, text, analyzer, tokenizer := None, None, None, None;
      tokenFilters, charFilters, field, attributes := None, None, None, None;
      shortAttributeName := false;
    }

    /** A request for the given index, which may be null. */
    constructor ForIndex(index: Option<string>)
      ensures Snapshot() == Blank.(index := index)
    {
      this.index := index;
      text, analyzer, tokenizer := None, None, None;
      tokenFilters, charFilters, field, attributes := None, None, None, None;
      shortAttributeName := false;
    }

    // Getters

    function Text(): (r: Option<seq<string>>)
      reads this
      ensures r == Snapshot().text
    {
      text
    }

    function Analyzer(): (r: Option<string>)
      reads this
      ensures r == Snapshot().analyzer
    {
      analyzer
    }

    function Tokenizer(): (r: Option<string>)
      reads this
      ensures r == Snapshot().tokenizer
    {
      tokenizer
    }

    function TokenFilters(): (r: Option<seq<string>>)
      reads this
      ensures r == Snapshot().tokenFilters
    {
      tokenFilters
    }

    function CharFilters(): (r: Option<seq<string>>)
      reads this
      ensures r == Snapshot().charFilters
    {
      charFilters
    }

    function Attributes(): (r: Option<seq<string>>)
      reads this
      ensures r == Snapshot().attributes
    {
      attributes
    }

    function Field(): (r: Option<string>)
      reads this
      ensures r == Snapshot().field
    {
      field
    }

    function ShortAttributeName(): (r: bool)
      reads this
      ensures r == Snapshot().shortAttributeName
    {
      shortAttributeName
    }

    // Fluent setters: each stores its argument, touches no other field,
    // and returns the request itself.

    method SetText(text: Option<seq<string>>) returns (self: ExtendedAnalyzeRequest)
      modifies this
      ensures self == this && Text() == text
      ensures Snapshot() == old(Snapshot()).(text := text)
    {
      this.text := text;
      self := this;
    }

    method SetAnalyzer(analyzer: Option<string>) returns (self: ExtendedAnalyzeRequest)
      modifies this
      ensures self == this && Analyzer() == analyzer
      ensures Snapshot() == old(Snapshot()).(analyzer := analyzer)
    {
      this.analyzer := analyzer;
      self := this;
    }

    method SetTokenizer(tokenizer: Option<string>) returns (self: ExtendedAnalyzeRequest)
      modifies this
      ensures self == this && Tokenizer() == tokenizer
      ensures Snapshot() == old(Snapshot()).(tokenizer := tokenizer)
    {
      this.tokenizer := tokenizer;
      self := this;
    }

    method SetTokenFilters(tokenFilters: Option<seq<string>>) returns (self: ExtendedAnalyzeRequest)
      modifies this
      ensures self == this && TokenFilters() == tokenFilters
      ensures Snapshot() == old(Snapshot()).(tokenFilters := tokenFilters)
    {
      this.tokenFilters := tokenFilters;
      self := this;
    }

    method SetCharFilters(charFilters: Option<seq<string>>) returns (self: ExtendedAnalyzeRequest)
      modifies this
      ensures self == this && CharFilters() == charFilters
      ensures Snapshot() == old(Snapshot()).(charFilters := charFilters)
    {
      this.charFilters := charFilters;
      self := this;
    }

    method SetAttributes(attributes: Option<seq<string>>) returns (self: ExtendedAnalyzeRequest)
      modifies this
      ensures self == this && Attributes() == attributes
      ensures Snapshot() == old(Snapshot()).(attributes := attributes)
    {
      this.attributes := attributes;
      self := this;
    }

    method SetField(field: Option<string>) returns (self: ExtendedAnalyzeRequest)
      modifies this
      ensures self == this && Field() == field
      ensures Snapshot() == old(Snapshot()).(field := field)
    {
      this.field := field;
      self := this;
    }

    method SetShortAttributeName(shortAttributeName: bool) returns (self: ExtendedAnalyzeRequest)
      modifies this
      ensures self == this && ShortAttributeName() == shortAttributeName
      ensures Snapshot() == old(Snapshot()).(shortAttributeName := shortAttributeName)
    {
      this.shortAttributeName := shortAttributeName;
      self := this;
    }

    /** validate(): the list of error messages, or None when valid. */
    method Validate() returns (errors: Option<seq<string>>)
      ensures errors == Validation(Snapshot())
    {
      errors := None;
      if text == None {
        errors := AddValidationError(TextMissing, errors);
      }
    }

    /** writeTo: `ok` is false when the stream library throws on a null
        `text`, in which case only the envelope has been written. */
    method WriteTo(out: StreamOutput) returns (ok: bool)
      modifies out
      ensures ok <==> Encode(Snapshot()).Some?
      ensures ok ==> out.items == old(out.items) + Encode(Snapshot()).value
      ensures !ok ==> out.items == old(out.items) + [Envelope(index)]
    {
      ghost var start := out.items;
      out.WriteEnvelope(index);
      ok := out.WriteStringArray(text);
      if !ok {
        return;
      }
      out.WriteOptionalString(analyzer);
      out.WriteOptionalString(tokenizer);
      ghost var head := [Envelope(index), StrArray(text.value), OptStr(analyzer), OptStr(tokenizer)];
      assert out.items == start + head;
      WriteCounted(out, tokenFilters);
      ghost var withFilters := out.items;
      out.WriteOptionalString(field);
      out.WriteBoolean(shortAttributeName);
      ghost var mid := [OptStr(field), Bool(shortAttributeName)];
      assert out.items == withFilters + mid;
      WriteCounted(out, attributes);
      AppendFour(start, head, Counted(tokenFilters), mid, Counted(attributes));
    }

    /** readFrom: consumes items from `inp`, assigning fields as it goes;
        `error` is the exception that stopped it, if any. */
    method ReadFrom(inp: StreamInput) returns (error: Option<ReadError>)
      modifies this, inp
      ensures Decoded(Snapshot(), inp.pos, error) == Decode(old(Snapshot()), inp.items, old(inp.pos))
    {
      var envelope := inp.ReadEnvelope();
      if envelope.Fail? { return Some(envelope.error); }
      index := envelope.value;
      var t := inp.ReadStringArray();
      if t.Fail? { return Some(t.error); }
      text := Some(t.value);
      var an := inp.ReadOptionalString();
      if an.Fail? { return Some(an.error); }
      analyzer := an.value;
      var tk := inp.ReadOptionalString();
      if tk.Fail? { return Some(tk.error); }
      tokenizer := tk.value;
      var size := inp.ReadVInt();
      if size.Fail? { return Some(size.error); }
      if size.value > 0 {
        var filters, e := FillArray(inp, size.value);
        tokenFilters := Some(filters[..]);
        if e.Some? { return e; }
      }
      error := ReadTail(inp, size.value);
    }

    /** The second half of readFrom, from `field` on; `size` is the
        token-filter count read before, which guards the attributes. */
    method ReadTail(inp: StreamInput, size: int) returns (error: Option<ReadError>)
      modifies this, inp
      ensures Decoded(Snapshot(), inp.pos, error) == DecodeTail(old(Snapshot()), inp.items, old(inp.pos), size)
    {
      var fl := inp.ReadOptionalString();
      if fl.Fail? { return Some(fl.error); }
      field := fl.value;
      var flag := inp.ReadBoolean();
      if flag.Fail? { return Some(flag.error); }
      shortAttributeName := flag.value;
      var attSize := inp.ReadVInt();
      if attSize.Fail? { return Some(attSize.error); }
      if size > 0 {
        if attSize.value < 0 { return Some(NegativeArraySize); }
        var atts, e := FillArray(inp, attSize.value);
        attributes := Some(atts[..]);
        if e.Some? { return e; }
      }
      return None;
    }
  }
}
