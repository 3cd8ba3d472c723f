# ExtendedAnalyzeRequest: a verified model of its fields and wire format

`ExtendedAnalyzeRequest` is the request object of the extended-analyze call of
the extended-analyze search-engine plugin. It asks a node to run text through
an analyzer, or through a tokenizer plus token filters, and to report
per-token attributes. The object has two parts:

- a mutable record with fluent setters and getters (`text`, `analyzer`,
  `tokenizer`, `tokenFilters`, `charFilters`, `field`, `attributes`,
  `shortAttributeName`) and one validation rule (`validate()`);
- a hand-written, order-sensitive wire serialiser (`writeTo`) and
  deserialiser (`readFrom`).

The model has three modules:

- `Wire` (wire.dfy) models the transport stream as a sequence of abstract
  items, one per primitive call: `Envelope(index)`, `VInt(n)`, `Str(s)`,
  `OptStr(o)`, `Bool(b)`, `StrArray(a)`. `StreamOutput` appends items.
  `StreamInput` reads them from a fixed sequence and keeps a position. The
  pure readers (`VIntAt`, `StrAt`, …) give what one read returns.
  `StringsAt` gives the result of reading `n` strings in a row.
- `ExtendedAnalyze` (request.dfy) holds three specification functions.
  `Encode` gives everything `writeTo` emits. `Decode`/`DecodeTail` give the
  fields, the stream position and the exception after `readFrom`.
  `Validation` gives what `validate()` returns. The module also holds the
  class `ExtendedAnalyzeRequest`, whose methods are proved to agree with
  these functions. `WriteTo` appends to the stream with `for` loops over
  the arrays. `ReadFrom` consumes from the stream and fills fresh arrays
  slot by slot.
- `ExtendedAnalyzeProperties` (properties.dfy) proves what the wire format
  guarantees and where it falls short.

Java `null` is `None`. The getters (`Text()`, `Analyzer()`, …) are
read-only functions on the class; each setter's contract states that the
matching getter afterwards returns the value it set.

The source has defects, and the model reproduces them exactly, as lemmas:

- A null array and an empty array encode identically: a single count of 0.
- `charFilters` is never written or read.
- A count of 0 leaves `tokenFilters` unassigned, so an empty array sent comes
  back null.
- The attribute array is guarded by the token-filter count `size`, not by its
  own count `attSize`. With no token filters the attribute count is read,
  but the attribute strings are left on the stream and `attributes` stays
  unset. With token filters present, a null `attributes` comes back as an
  empty array.

The last of these looks unintended from the code alone: `attSize` is read
at line 155 of `ExtendedAnalyzeRequest.java` and used as the array length
at lines 157-158, while the guard at line 156 tests `size`. The model
follows the code as written.

## Model

| member | source | states |
|---|---|---|
| `ExtendedAnalyze.Validation` | src/main/java/info/johtani/elasticsearch/action/admin/indices/extended/analyze/ExtendedAnalyzeRequest.java:132-138 | an error exactly when `text` is null, and then the single message "text is missing"; an empty array is valid |
| `ExtendedAnalyze.AddValidationError` | src/main/java/info/johtani/elasticsearch/action/admin/indices/extended/analyze/ExtendedAnalyzeRequest.java:135 | the result is always an error whose last message is the one added; with no earlier error it is exactly that one message, and otherwise it is the earlier messages followed by the new one |
| `ExtendedAnalyze.ExtendedAnalyzeRequest.Validate` | src/main/java/info/johtani/elasticsearch/action/admin/indices/extended/analyze/ExtendedAnalyzeRequest.java:131-138 | the method returns what `Validation` gives for the current fields and changes nothing |
| `ExtendedAnalyze.ExtendedAnalyzeRequest.constructor` | src/main/java/info/johtani/elasticsearch/action/admin/indices/extended/analyze/ExtendedAnalyzeRequest.java:43-48 | a new request has every reference null and `shortAttributeName` false |
| `ExtendedAnalyze.ExtendedAnalyzeRequest.ForIndex` | src/main/java/info/johtani/elasticsearch/action/admin/indices/extended/analyze/ExtendedAnalyzeRequest.java:55-57 | a new request for an index holds that index name, or null, and is otherwise blank |
| `ExtendedAnalyze.ExtendedAnalyzeRequest.Text` | src/main/java/info/johtani/elasticsearch/action/admin/indices/extended/analyze/ExtendedAnalyzeRequest.java:60-62 | `text()` returns the stored `text` field of the current state and reads only the request itself |
| `ExtendedAnalyze.ExtendedAnalyzeRequest.Analyzer` | src/main/java/info/johtani/elasticsearch/action/admin/indices/extended/analyze/ExtendedAnalyzeRequest.java:74-76 | `analyzer()` returns the stored `analyzer` field of the current state and reads only the request itself |
| `ExtendedAnalyze.ExtendedAnalyzeRequest.Tokenizer` | src/main/java/info/johtani/elasticsearch/action/admin/indices/extended/analyze/ExtendedAnalyzeRequest.java:83-85 | `tokenizer()` returns the stored `tokenizer` field of the current state and reads only the request itself |
| `ExtendedAnalyze.ExtendedAnalyzeRequest.TokenFilters` | src/main/java/info/johtani/elasticsearch/action/admin/indices/extended/analyze/ExtendedAnalyzeRequest.java:92-94 | `tokenFilters()` returns the stored `tokenFilters` field of the current state and reads only the request itself |
| `ExtendedAnalyze.ExtendedAnalyzeRequest.CharFilters` | src/main/java/info/johtani/elasticsearch/action/admin/indices/extended/analyze/ExtendedAnalyzeRequest.java:100-102 | `charFilters()` returns the stored `charFilters` field of the current state and reads only the request itself |
| `ExtendedAnalyze.ExtendedAnalyzeRequest.Attributes` | src/main/java/info/johtani/elasticsearch/action/admin/indices/extended/analyze/ExtendedAnalyzeRequest.java:109-111 | `attributes()` returns the stored `attributes` field of the current state and reads only the request itself |
| `ExtendedAnalyze.ExtendedAnalyzeRequest.Field` | src/main/java/info/johtani/elasticsearch/action/admin/indices/extended/analyze/ExtendedAnalyzeRequest.java:118-120 | `field()` returns the stored `field` field of the current state and reads only the request itself |
| `ExtendedAnalyze.ExtendedAnalyzeRequest.ShortAttributeName` | src/main/java/info/johtani/elasticsearch/action/admin/indices/extended/analyze/ExtendedAnalyzeRequest.java:122-124 | `shortAttributeName()` returns the stored `shortAttributeName` field of the current state and reads only the request itself |
| `ExtendedAnalyze.ExtendedAnalyzeRequest.SetText` | src/main/java/info/johtani/elasticsearch/action/admin/indices/extended/analyze/ExtendedAnalyzeRequest.java:60-67 | `text()` returns the value set, no other field changes, and the request itself is returned |
| `ExtendedAnalyze.ExtendedAnalyzeRequest.SetAnalyzer` | src/main/java/info/johtani/elasticsearch/action/admin/indices/extended/analyze/ExtendedAnalyzeRequest.java:69-76 | `analyzer()` returns the value set, no other field changes, and the request itself is returned |
| `ExtendedAnalyze.ExtendedAnalyzeRequest.SetTokenizer` | src/main/java/info/johtani/elasticsearch/action/admin/indices/extended/analyze/ExtendedAnalyzeRequest.java:78-85 | `tokenizer()` returns the value set, no other field changes, and the request itself is returned |
| `ExtendedAnalyze.ExtendedAnalyzeRequest.SetTokenFilters` | src/main/java/info/johtani/elasticsearch/action/admin/indices/extended/analyze/ExtendedAnalyzeRequest.java:87-94 | `tokenFilters()` returns the value set, no other field changes, and the request itself is returned |
| `ExtendedAnalyze.ExtendedAnalyzeRequest.SetCharFilters` | src/main/java/info/johtani/elasticsearch/action/admin/indices/extended/analyze/ExtendedAnalyzeRequest.java:96-102 | `charFilters()` returns the value set, no other field changes, and the request itself is returned |
| `ExtendedAnalyze.ExtendedAnalyzeRequest.SetAttributes` | src/main/java/info/johtani/elasticsearch/action/admin/indices/extended/analyze/ExtendedAnalyzeRequest.java:104-111 | `attributes()` returns the value set, no other field changes, and the request itself is returned |
| `ExtendedAnalyze.ExtendedAnalyzeRequest.SetField` | src/main/java/info/johtani/elasticsearch/action/admin/indices/extended/analyze/ExtendedAnalyzeRequest.java:113-120 | `field()` returns the value set, no other field changes, and the request itself is returned |
| `ExtendedAnalyze.ExtendedAnalyzeRequest.SetShortAttributeName` | src/main/java/info/johtani/elasticsearch/action/admin/indices/extended/analyze/ExtendedAnalyzeRequest.java:122-129 | `shortAttributeName()` returns the value set, no other field changes, and the request itself is returned |
| `ExtendedAnalyze.ExtendedAnalyzeRequest.WriteTo` | src/main/java/info/johtani/elasticsearch/action/admin/indices/extended/analyze/ExtendedAnalyzeRequest.java:164-188 | with a non-null `text`, exactly `Encode` of the fields is appended to the stream; with a null `text` only the envelope is appended and the write fails |
| `ExtendedAnalyze.Encode` | src/main/java/info/johtani/elasticsearch/action/admin/indices/extended/analyze/ExtendedAnalyzeRequest.java:165-188 | no encoding exactly when `text` is null; otherwise 8 items plus one per token filter and one per attribute, starting with the envelope and the text array |
| `ExtendedAnalyze.Counted` | src/main/java/info/johtani/elasticsearch/action/admin/indices/extended/analyze/ExtendedAnalyzeRequest.java:170-177 | the count (0 for null) comes first and is followed by one string item per element, in order; a null array is the single count 0 |
| `ExtendedAnalyze.WriteCounted` | src/main/java/info/johtani/elasticsearch/action/admin/indices/extended/analyze/ExtendedAnalyzeRequest.java:170-177 | appends the count (0 for null) and then each element, in order |
| `ExtendedAnalyze.WriteStrings` | src/main/java/info/johtani/elasticsearch/action/admin/indices/extended/analyze/ExtendedAnalyzeRequest.java:174-176 | one string item per element is appended, in order, and nothing else changes |
| `ExtendedAnalyze.ExtendedAnalyzeRequest.ReadFrom` | src/main/java/info/johtani/elasticsearch/action/admin/indices/extended/analyze/ExtendedAnalyzeRequest.java:141-162 | the new fields, the new stream position and the exception are exactly those that `Decode` gives for the old fields and the old position |
| `ExtendedAnalyze.ExtendedAnalyzeRequest.ReadTail` | src/main/java/info/johtani/elasticsearch/action/admin/indices/extended/analyze/ExtendedAnalyzeRequest.java:153-161 | the rest of `readFrom` agrees with `DecodeTail`, with the attribute loop guarded by the token-filter count |
| `ExtendedAnalyze.FillArray` | src/main/java/info/johtani/elasticsearch/action/admin/indices/extended/analyze/ExtendedAnalyzeRequest.java:148-151 | a fresh array of `n` slots, filled in order with the strings `StringsAt` reads and empty after a failed read; the position and error agree with `StringsAt` |
| `ExtendedAnalyze.StringsAtStops` | src/main/java/info/johtani/elasticsearch/action/admin/indices/extended/analyze/ExtendedAnalyzeRequest.java:149-151 | after a failed read in the loop, reading further strings changes neither the result nor the position |
| `ExtendedAnalyze.GuardedArray` | src/main/java/info/johtani/elasticsearch/action/admin/indices/extended/analyze/ExtendedAnalyzeRequest.java:156-161 | when the guard is false, the field is untouched and nothing is consumed; the position never moves backwards |
| `ExtendedAnalyze.Decode` | src/main/java/info/johtani/elasticsearch/action/admin/indices/extended/analyze/ExtendedAnalyzeRequest.java:141-162 | `charFilters` is never changed by a read; a read without an exception always sets `text`; the position never moves backwards |
| `ExtendedAnalyze.DecodeTail` | src/main/java/info/johtani/elasticsearch/action/admin/indices/extended/analyze/ExtendedAnalyzeRequest.java:153-161 | the second half of the read leaves `text` and `charFilters` alone and never moves the position backwards |
| `Wire.StringsAt` | src/main/java/info/johtani/elasticsearch/action/admin/indices/extended/analyze/ExtendedAnalyzeRequest.java:149-150 | at most `n` strings are read, one item each; every string read came from a `Str` item at its position inside the stream; no error exactly when all `n` were read; a read stops only at an item that is missing (`EndOfStream`) or is not a string (`Malformed`) |
| `Wire.StreamOutput.WriteStringArray` | src/main/java/info/johtani/elasticsearch/action/admin/indices/extended/analyze/ExtendedAnalyzeRequest.java:167 | a null array fails and writes nothing; otherwise one array item is appended |
| `ExtendedAnalyzeProperties.ValidIffEncodable` | src/main/java/info/johtani/elasticsearch/action/admin/indices/extended/analyze/ExtendedAnalyzeRequest.java:132-138 | a request passes `validate()` exactly when `writeTo` can encode it |
| `ExtendedAnalyzeProperties.DecodedRequestValidates` | src/main/java/info/johtani/elasticsearch/action/admin/indices/extended/analyze/ExtendedAnalyzeRequest.java:143 | every request that `readFrom` completes without an exception passes validation |
| `ExtendedAnalyzeProperties.CountedShape` | src/main/java/info/johtani/elasticsearch/action/admin/indices/extended/analyze/ExtendedAnalyzeRequest.java:170-177 | an array is written as its count (0 for null) followed by its elements |
| `ExtendedAnalyzeProperties.EncodeLayout` | src/main/java/info/johtani/elasticsearch/action/admin/indices/extended/analyze/ExtendedAnalyzeRequest.java:165-188 | fixed order: envelope, text, analyzer, tokenizer, filter count, filters, field, flag, attribute count, attributes; length 8 + filters + attributes |
| `ExtendedAnalyzeProperties.NullAndEmptyEncodeAlike` | src/main/java/info/johtani/elasticsearch/action/admin/indices/extended/analyze/ExtendedAnalyzeRequest.java:170-187 | a null and an empty `tokenFilters` encode identically, and so do a null and an empty `attributes` |
| `ExtendedAnalyzeProperties.CharFiltersNeverOnWire` | src/main/java/info/johtani/elasticsearch/action/admin/indices/extended/analyze/ExtendedAnalyzeRequest.java:96-102 | `charFilters` does not affect the encoding, and `readFrom` leaves the receiver's value (null on a fresh request) |
| `ExtendedAnalyzeProperties.StringsAtEncoded` | src/main/java/info/johtani/elasticsearch/action/admin/indices/extended/analyze/ExtendedAnalyzeRequest.java:149-151 | reading `|a|` strings where the strings of `a` were written returns `a` and stops right after them |
| `ExtendedAnalyzeProperties.LaidHeadAt` | src/main/java/info/johtani/elasticsearch/action/admin/indices/extended/analyze/ExtendedAnalyzeRequest.java:165-177 | wherever an encoding sits in a stream, each read `readFrom` makes up to the token filters finds the item `writeTo` put down for it |
| `ExtendedAnalyzeProperties.LaidTailAt` | src/main/java/info/johtani/elasticsearch/action/admin/indices/extended/analyze/ExtendedAnalyzeRequest.java:178-187 | the same for the field, the flag, the attribute count and the attribute strings |
| `ExtendedAnalyzeProperties.GuardedEncoded` | src/main/java/info/johtani/elasticsearch/action/admin/indices/extended/analyze/ExtendedAnalyzeRequest.java:147-152 | when the strings of `a` were written, the guarded array read returns exactly `a` and stops after them if the guard holds, and leaves the field and the position alone if it does not |
| `ExtendedAnalyzeProperties.DecodeHeadPositioned` | src/main/java/info/johtani/elasticsearch/action/admin/indices/extended/analyze/ExtendedAnalyzeRequest.java:142-152 | reading an encoding restores envelope, text, analyzer and tokenizer; it restores the filters only when their count is positive |
| `ExtendedAnalyzeProperties.DecodeTailPositioned` | src/main/java/info/johtani/elasticsearch/action/admin/indices/extended/analyze/ExtendedAnalyzeRequest.java:153-161 | field and flag are restored; the attribute strings are read back only when the guard `size` (the token-filter count in `readFrom`) is positive, and otherwise the receiver's `attributes` stays and the position stops before them |
| `ExtendedAnalyzeProperties.DecodePositioned` | src/main/java/info/johtani/elasticsearch/action/admin/indices/extended/analyze/ExtendedAnalyzeRequest.java:141-162 | when every read finds the encoded item, readFrom restores all encoded fields and ends after the last item if there are token filters, and otherwise keeps the receiver's arrays and ends before the attribute strings |
| `ExtendedAnalyzeProperties.LaidDecodeAt` | src/main/java/info/johtani/elasticsearch/action/admin/indices/extended/analyze/ExtendedAnalyzeRequest.java:141-188 | the same for an encoding found at any position of a stream |
| `ExtendedAnalyzeProperties.LaidDecode` | src/main/java/info/johtani/elasticsearch/action/admin/indices/extended/analyze/ExtendedAnalyzeRequest.java:141-188 | the same for an encoding between any items written before and after it |
| `ExtendedAnalyzeProperties.LaidDecodeAlone` | src/main/java/info/johtani/elasticsearch/action/admin/indices/extended/analyze/ExtendedAnalyzeRequest.java:141-188 | the same for an encoding read on its own from position 0 |
| `ExtendedAnalyzeProperties.LaidAttributesLast` | src/main/java/info/johtani/elasticsearch/action/admin/indices/extended/analyze/ExtendedAnalyzeRequest.java:180-187 | the attribute strings are the last items of an encoding, also when it sits inside a larger stream |
| `ExtendedAnalyzeProperties.DecodeWithFilters` | src/main/java/info/johtani/elasticsearch/action/admin/indices/extended/analyze/ExtendedAnalyzeRequest.java:141-188 | with at least one token filter, decoding an encoding restores every encoded field in order, consumes exactly the items written, and raises no error; a null `attributes` comes back empty |
| `ExtendedAnalyzeProperties.DecodeWithoutFilters` | src/main/java/info/johtani/elasticsearch/action/admin/indices/extended/analyze/ExtendedAnalyzeRequest.java:146-161 | with no token filters, `tokenFilters` and `attributes` keep the receiver's values, and the attribute strings are the items left unconsumed |
| `ExtendedAnalyzeProperties.AttributesLostWithoutFilters` | src/main/java/info/johtani/elasticsearch/action/admin/indices/extended/analyze/ExtendedAnalyzeRequest.java:155-161 | with no filters and some attributes, the read raises no error, but `attributes` stays null, the result differs from what was sent, and the attribute strings remain on the stream |
| `ExtendedAnalyzeProperties.EmptyFiltersComeBackNull` | src/main/java/info/johtani/elasticsearch/action/admin/indices/extended/analyze/ExtendedAnalyzeRequest.java:146-152 | an empty `tokenFilters` array comes back null on a fresh request |
| `ExtendedAnalyzeProperties.RoundTripExactlyWhen` | src/main/java/info/johtani/elasticsearch/action/admin/indices/extended/analyze/ExtendedAnalyzeRequest.java:141-188 | a request without char filters round-trips exactly, every item consumed, if and only if it has token filters and non-null attributes, or both arrays are null |

## Left out

- The superclass envelope is modelled as one item that carries the index
  name and that both sides write and read identically. The rest of the
  shard-request superclass (routing and its other state) is not part of
  this model.
- The byte-level encoding of each primitive (VInt, UTF-8 strings, the
  optional-string flag) belongs to the transport library, so each primitive
  is one abstract item. A count is an unbounded integer, so 32-bit VInt
  overflow is not modelled. A wrongly typed item is reported as a malformed
  stream (`Malformed`). Real bytes could instead be misread, or fail differently.
- An `IOException` thrown by a read is modelled as a `ReadError` result
  (`EndOfStream`, `Malformed`), not as thrown control flow. The
  `NegativeArraySizeException` for a negative attribute count is modelled
  the same way (`NegativeArraySize`). The validation exception is an
  optional list of messages.
- The `StreamOutput` writes never fail, so an `IOException` thrown by the
  output stream part-way through `writeTo`, and the partial encoding it
  leaves behind, are not modelled. The only failing write is
  `writeStringArray` of a null `text`.
- A null element inside a string array is not modelled, since elements are
  plain strings. On a failed read mid-array, the slots never filled are null
  in the source and the empty string in the model.
- The Java setters store the caller's array reference. The model stores the
  array's contents, so a caller mutating the array after the set, and
  aliasing between requests, are not captured.
- The `NullPointerException` that the stream library throws on a null
  `text` is modelled as a `false` result from `WriteTo`, returned after the
  envelope is written.
- The analysis pipeline, the registry of analyzers, tokenizers and filters,
  response encoding, shard routing and transport have no code here. They
  are not part of this model.
