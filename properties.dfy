/** What the wire format of ExtendedAnalyzeRequest does and does not
    guarantee: the item order writeTo emits, when readFrom restores what was
    written, and the ways in which it does not (null and empty arrays
    conflated, charFilters dropped, attributes left unread when there are
    no token filters). */
module ExtendedAnalyzeProperties {
  import opened Wire
  import opened ExtendedAnalyze

  // ---------------------------------------------------------------------
  // Validation and encodability

  /** A request passes validation exactly when writeTo can encode it: the
      only way writeTo throws is the null `text` that validate() rejects. */
  lemma ValidIffEncodable(f: Fields)
    ensures Validation(f).None? <==> Encode(f).Some?
  {
  }

  /** text() is mandatory on the wire: whatever readFrom decodes without an
      exception passes validation. */
  lemma DecodedRequestValidates(g: Fields, s: seq<Item>, p: nat)
    ensures Decode(g, s, p).error.None? ==> Validation(Decode(g, s, p).fields).None?
  {
  }

  // ---------------------------------------------------------------------
  // The shape of the encoding

  lemma CountedShape(a: Option<seq<string>>)
    ensures Counted(a) == [VInt(Count(a))] + Strs(OrEmpty(a))
  {
  }

  /** The items of a writeTo encoding of `f`, position by position: envelope,
      text, analyzer, tokenizer, filter count and filters, field, flag,
      attribute count and attributes. */
  ghost predicate Layout(f: Fields, e: seq<Item>)
  {
    var n := Count(f.tokenFilters);
    var m := Count(f.attributes);
    && f.text.Some?
    && |e| == 8 + n + m
    && e[0] == Envelope(f.index)
    && e[1] == StrArray(f.text.value)
    && e[2] == OptStr(f.analyzer)
    && e[3] == OptStr(f.tokenizer)
    && e[4] == VInt(n)
    && (forall k :: 0 <= k < n ==> e[5 + k] == Str(OrEmpty(f.tokenFilters)[k]))
    && e[5 + n] == OptStr(f.field)
    && e[6 + n] == Bool(f.shortAttributeName)
    && e[7 + n] == VInt(m)
    && (forall k :: 0 <= k < m ==> e[8 + n + k] == Str(OrEmpty(f.attributes)[k]))
  }

  /** writeTo's fixed order. */
  lemma EncodeLayout(f: Fields)
    requires f.text.Some?
    ensures Layout(f, Encode(f).value)
  {
  }

  /** A null array and an empty array are written identically, a single
      count of 0, for the token filters and for the attributes. */
  lemma NullAndEmptyEncodeAlike(f: Fields)
    ensures Encode(f.(tokenFilters := None)) == Encode(f.(tokenFilters := Some([])))
    ensures Encode(f.(attributes := None)) == Encode(f.(attributes := Some([])))
  {
    CountedShape(None);
    CountedShape(Some([]));
  }

  /** charFilters never reaches the wire: it does not influence what writeTo
      emits, and readFrom leaves the receiver's own value in place (null on
      a freshly constructed request). */
  lemma CharFiltersNeverOnWire(f: Fields, c: Option<seq<string>>, g: Fields, s: seq<Item>, p: nat)
    ensures Encode(f.(charFilters := c)) == Encode(f)
    ensures Decode(g, s, p).fields.charFilters == g.charFilters
    ensures Decode(Blank, s, p).fields.charFilters == None
  {
  }

  // ---------------------------------------------------------------------
  // Reading an encoding back

  /** Reading `|a|` strings where writeString put down the strings of `a`. */
  lemma {:induction false} StringsAtEncoded(s: seq<Item>, p: nat, a: seq<string>)
    requires p + |a| <= |s|
    requires forall k :: 0 <= k < |a| ==> s[p + k] == Str(a[k])
    ensures StringsAt(s, p, |a|) == StringsRead(a, p + |a|, None)
    decreases |a|
  {
    if |a| > 0 {
      var i := |a| - 1;
      var init := a[..i];
      assert forall k :: 0 <= k < |init| ==> init[k] == a[k];
      StringsAtEncoded(s, p, init);
      assert s[p + i] == Str(a[i]);
      assert init + [a[i]] == a;
    }
  }

  /** Every primitive read of readFrom up to the token filters, from
      position `q` of `s`, finds the item writeTo put down for `f` there. */
  ghost predicate HeadPositioned(f: Fields, s: seq<Item>, q: nat)
  {
    var tf := OrEmpty(f.tokenFilters);
    && f.text.Some?
    && EnvelopeAt(s, q) == Got(f.index, q + 1)
    && StrArrayAt(s, q + 1) == Got(f.text.value, q + 2)
    && OptStrAt(s, q + 2) == Got(f.analyzer, q + 3)
    && OptStrAt(s, q + 3) == Got(f.tokenizer, q + 4)
    && VIntAt(s, q + 4) == Got(|tf|, q + 5)
    && StringsAt(s, q + 5, |tf|) == StringsRead(tf, q + 5 + |tf|, None)
  }

  /** The same for the reads from the field onwards, which start at `p`. */
  ghost predicate TailPositioned(f: Fields, s: seq<Item>, p: nat)
  {
    var atts := OrEmpty(f.attributes);
    && OptStrAt(s, p) == Got(f.field, p + 1)
    && BoolAt(s, p + 1) == Got(f.shortAttributeName, p + 2)
    && VIntAt(s, p + 2) == Got(|atts|, p + 3)
    && StringsAt(s, p + 3, |atts|) == StringsRead(atts, p + 3 + |atts|, None)
  }

  /** An encoding found at position `q` of a stream reads back item by
      item, up to the token filters ... */
  lemma LaidHeadAt(f: Fields, e: seq<Item>, s: seq<Item>, q: nat)
    requires Layout(f, e)
    requires q + |e| <= |s| && s[q..q + |e|] == e
    ensures HeadPositioned(f, s, q)
  {
    var tf := OrEmpty(f.tokenFilters);
    assert s[q] == s[q..q + |e|][0] && s[q + 1] == s[q..q + |e|][1] && s[q + 2] == s[q..q + |e|][2];
    assert s[q + 3] == s[q..q + |e|][3] && s[q + 4] == s[q..q + |e|][4];
    forall k | 0 <= k < |tf|
      ensures s[q + 5 + k] == Str(tf[k])
    {
      assert s[q + 5 + k] == s[q..q + |e|][5 + k];
    }
    StringsAtEncoded(s, q + 5, tf);
  }

  /** ... and from the field onwards. */
  lemma LaidTailAt(f: Fields, e: seq<Item>, s: seq<Item>, q: nat)
    requires Layout(f, e)
    requires q + |e| <= |s| && s[q..q + |e|] == e
    ensures TailPositioned(f, s, q + 5 + Count(f.tokenFilters))
  {
    var n := Count(f.tokenFilters);
    var atts := OrEmpty(f.attributes);
    assert s[q + 5 + n] == s[q..q + |e|][5 + n] && s[q + 6 + n] == s[q..q + |e|][6 + n];
    assert s[q + 7 + n] == s[q..q + |e|][7 + n];
    forall k | 0 <= k < |atts|
      ensures s[q + 8 + n + k] == Str(atts[k])
    {
      assert s[q + 8 + n + k] == s[q..q + |e|][8 + n + k];
    }
    StringsAtEncoded(s, q + 8 + n, atts);
  }

  /** The receiver after readFrom has read the envelope, text, analyzer,
      tokenizer and token filters of `f` over the fields `g`. */
  function AfterFilters(g: Fields, f: Fields): Fields
  {
    g.(index := f.index, text := f.text, analyzer := f.analyzer, tokenizer := f.tokenizer,
       tokenFilters := if Count(f.tokenFilters) > 0 then f.tokenFilters else g.tokenFilters)
  }

  /** The guarded array read where `|a|` strings read back as `a`: all of
      them come back when the guard holds. */
  lemma GuardedEncoded(current: Option<seq<string>>, s: seq<Item>, p: nat, guard: bool, a: seq<string>)
    requires StringsAt(s, p, |a|) == StringsRead(a, p + |a|, None)
    ensures GuardedArray(current, s, p, guard, |a|)
            == if guard then ArrayRead(Some(a), p + |a|, None) else ArrayRead(current, p, None)
  {
    if guard {
      assert Padded(a, |a|) == a by { assert Padded(a, |a|)[..|a|] == Padded(a, |a|); }
    }
  }

  /** readFrom over an encoding, up to the token filters. */
  lemma DecodeHeadPositioned(g: Fields, f: Fields, s: seq<Item>, q: nat)
    requires HeadPositioned(f, s, q)
    ensures Decode(g, s, q)
            == DecodeTail(AfterFilters(g, f), s, q + 5 + Count(f.tokenFilters), Count(f.tokenFilters))
  {
    var tf := OrEmpty(f.tokenFilters);
    var n := |tf|;
    var f4 := g.(index := f.index, text := f.text, analyzer := f.analyzer, tokenizer := f.tokenizer);
    GuardedEncoded(f4.tokenFilters, s, q + 5, n > 0, tf);
    if n > 0 {
      assert f.tokenFilters == Some(tf);
    }
  }

  /** readFrom over an encoding, from the field onwards, with the guard `size`. */
  lemma DecodeTailPositioned(h: Fields, f: Fields, s: seq<Item>, p: nat, size: int)
    requires TailPositioned(f, s, p)
    ensures var m := Count(f.attributes);
            var h' := h.(field := f.field, shortAttributeName := f.shortAttributeName);
            DecodeTail(h, s, p, size)
              == if size > 0 then Decoded(h'.(attributes := Some(OrEmpty(f.attributes))), p + 3 + m, None)
                 else Decoded(h', p + 3, None)
  {
    GuardedEncoded(h.attributes, s, p + 3, size > 0, OrEmpty(f.attributes));
  }

  /** readFrom over an encoding of `f` at position `q`, on a receiver `g`:
      with token filters every encoded field comes back; without them the
      two arrays keep the receiver's values and the attribute strings are
      not consumed. */
  lemma DecodePositioned(g: Fields, f: Fields, s: seq<Item>, q: nat)
    requires HeadPositioned(f, s, q) && TailPositioned(f, s, q + 5 + Count(f.tokenFilters))
    ensures var n := Count(f.tokenFilters);
            var m := Count(f.attributes);
            Decode(g, s, q)
              == if n > 0
                 then Decoded(f.(charFilters := g.charFilters, attributes := Some(OrEmpty(f.attributes))),
                              q + 8 + n + m, None)
                 else Decoded(f.(charFilters := g.charFilters, tokenFilters := g.tokenFilters,
                                 attributes := g.attributes),
                              q + 8 + n, None)
  {
    var n := Count(f.tokenFilters);
    var h := AfterFilters(g, f);
    var h' := h.(field := f.field, shortAttributeName := f.shortAttributeName);
    DecodeHeadPositioned(g, f, s, q);
    DecodeTailPositioned(h, f, s, q + 5 + n, n);
    if n > 0 {
      assert h'.(attributes := Some(OrEmpty(f.attributes)))
          == f.(charFilters := g.charFilters, attributes := Some(OrEmpty(f.attributes)));
    } else {
      assert h' == f.(charFilters := g.charFilters, tokenFilters := g.tokenFilters, attributes := g.attributes);
    }
  }

  /** readFrom over an encoding laid out as `e`, found at position `q` of `s`. */
  lemma LaidDecodeAt(g: Fields, f: Fields, e: seq<Item>, s: seq<Item>, q: nat)
    requires Layout(f, e)
    requires q + |e| <= |s| && s[q..q + |e|] == e
    ensures var n := Count(f.tokenFilters);
            var m := Count(f.attributes);
            Decode(g, s, q)
              == if n > 0
                 then Decoded(f.(charFilters := g.charFilters, attributes := Some(OrEmpty(f.attributes))),
                              q + 8 + n + m, None)
                 else Decoded(f.(charFilters := g.charFilters, tokenFilters := g.tokenFilters,
                                 attributes := g.attributes),
                              q + 8 + n, None)
  {
    LaidHeadAt(f, e, s, q);
    LaidTailAt(f, e, s, q);
    DecodePositioned(g, f, s, q);
  }

  /** The same, for an encoding between other items of a stream. */
  lemma LaidDecode(g: Fields, f: Fields, e: seq<Item>, pre: seq<Item>, rest: seq<Item>)
    requires Layout(f, e)
    ensures var n := Count(f.tokenFilters);
            var m := Count(f.attributes);
            Decode(g, pre + e + rest, |pre|)
              == if n > 0
                 then Decoded(f.(charFilters := g.charFilters, attributes := Some(OrEmpty(f.attributes))),
                              |pre| + 8 + n + m, None)
                 else Decoded(f.(charFilters := g.charFilters, tokenFilters := g.tokenFilters,
                                 attributes := g.attributes),
                              |pre| + 8 + n, None)
  {
    assert (pre + e + rest)[|pre|..|pre| + |e|] == e;
    LaidDecodeAt(g, f, e, pre + e + rest, |pre|);
  }

  /** An encoding on its own reads back as `LaidDecodeAt` says, from 0. */
  lemma LaidDecodeAlone(g: Fields, f: Fields, e: seq<Item>)
    requires Layout(f, e)
    ensures var n := Count(f.tokenFilters);
            var m := Count(f.attributes);
            Decode(g, e, 0)
              == if n > 0
                 then Decoded(f.(charFilters := g.charFilters, attributes := Some(OrEmpty(f.attributes))),
                              8 + n + m, None)
                 else Decoded(f.(charFilters := g.charFilters, tokenFilters := g.tokenFilters,
                                 attributes := g.attributes),
                              8 + n, None)
  {
    assert e[0..|e|] == e;
    LaidDecodeAt(g, f, e, e, 0);
  }

  /** The attribute strings are the last items of an encoding. */
  lemma LaidAttributesLast(f: Fields, e: seq<Item>, pre: seq<Item>, rest: seq<Item>)
    requires Layout(f, e)
    ensures var s := pre + e + rest;
            var m := Count(f.attributes);
            && e[|e| - m..] == Strs(OrEmpty(f.attributes))
            && s[|pre| + |e| - m .. |pre| + |e|] == Strs(OrEmpty(f.attributes))
  {
  }

  /** Round trip when there is at least one token filter: readFrom restores
      every field writeTo encodes, in order, and consumes exactly the items
      written. A null `attributes` comes back as an empty array; charFilters
      keeps the receiver's value. */
  lemma DecodeWithFilters(g: Fields, f: Fields, pre: seq<Item>, rest: seq<Item>)
    requires f.text.Some? && Count(f.tokenFilters) > 0
    ensures var e := Encode(f).value;
            Decode(g, pre + e + rest, |pre|)
              == Decoded(f.(charFilters := g.charFilters, attributes := Some(OrEmpty(f.attributes))),
                         |pre| + |e|, None)
  {
    EncodeLayout(f);
    LaidDecode(g, f, Encode(f).value, pre, rest);
  }

  /** Decoding when there are no token filters (null or empty): the
      attribute count is read but the attributes are not, so `tokenFilters`
      and `attributes` keep the receiver's values, and the attribute strings
      are left on the stream, unconsumed. */
  lemma DecodeWithoutFilters(g: Fields, f: Fields, pre: seq<Item>, rest: seq<Item>)
    requires f.text.Some? && Count(f.tokenFilters) == 0
    ensures var e := Encode(f).value;
            var s := pre + e + rest;
            var m := Count(f.attributes);
            && Decode(g, s, |pre|)
                 == Decoded(f.(charFilters := g.charFilters, tokenFilters := g.tokenFilters,
                               attributes := g.attributes),
                            |pre| + |e| - m, None)
            && s[|pre| + |e| - m .. |pre| + |e|] == Strs(OrEmpty(f.attributes))
  {
    EncodeLayout(f);
    LaidDecode(g, f, Encode(f).value, pre, rest);
    LaidAttributesLast(f, Encode(f).value, pre, rest);
  }

  // ---------------------------------------------------------------------
  // Consequences for a freshly constructed receiver

  /** The alignment defect: with no token filters but some attributes,
      readFrom succeeds yet leaves `attributes` null and stops before the
      attribute strings, so decoding is not the inverse of encoding. */
  lemma AttributesLostWithoutFilters(f: Fields)
    requires f.text.Some? && Count(f.tokenFilters) == 0 && Count(f.attributes) > 0
    ensures var e := Encode(f).value;
            var d := Decode(Blank, e, 0);
            && d.error.None?
            && d.fields.attributes.None?
            && d.fields != f
            && d.pos == |e| - Count(f.attributes) < |e|
            && e[d.pos..] == Strs(OrEmpty(f.attributes))
  {
    EncodeLayout(f);
    LaidDecodeAlone(Blank, f, Encode(f).value);
    LaidAttributesLast(f, Encode(f).value, [], []);
  }

  /** A count of 0 leaves `tokenFilters` unassigned: an empty array sent
      comes back null. */
  lemma EmptyFiltersComeBackNull(f: Fields)
    requires f.text.Some? && f.tokenFilters == Some([])
    ensures Decode(Blank, Encode(f).value, 0).fields.tokenFilters.None?
  {
    EncodeLayout(f);
    LaidDecodeAlone(Blank, f, Encode(f).value);
  }

  /** Exactly which requests survive writeTo then readFrom into a fresh
      request unchanged, with every written item consumed: those with token
      filters and a non-null attribute array, and those with both arrays
      null. */
  lemma RoundTripExactlyWhen(f: Fields)
    requires f.text.Some? && f.charFilters.None?
    ensures var e := Encode(f).value;
            Decode(Blank, e, 0) == Decoded(f, |e|, None)
            <==> ((Count(f.tokenFilters) > 0 && f.attributes.Some?)
                  || (f.tokenFilters.None? && f.attributes.None?))
  {
    EncodeLayout(f);
    LaidDecodeAlone(Blank, f, Encode(f).value);
    if Count(f.tokenFilters) > 0 {
      if f.attributes.None? {
        assert f.attributes != Some(OrEmpty(f.attributes));
      }
    } else {
      if Count(f.attributes) > 0 {
        assert Decode(Blank, Encode(f).value, 0).pos != |Encode(f).value|;
      }
    }
  }
}
