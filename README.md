# ghostToHugo import core, modelled in Dafny

This project models the part of ghostToHugo that reads a Ghost blog export
(one JSON document) and turns it into a sequence of enriched posts. The Go
source is `lib/ghostToHugo.go`. The importer works in two passes over the
same seekable input:

1. **Reference index** (`decodeGhostInfo`). It walks the document token by
   token. Each string token equal to `meta`, `users`, `tags` or `posts_tags`
   counts as a match, and the value after it is decoded into the matching
   field of the index. The walk stops after four matches. EOF before that is
   a normal end.
2. **Post stream** (`importGhost`). The importer rewinds the input and looks
   for the string `posts` (`seekTo`). It drops the token after it, then
   decodes one array element at a time. Each decoded post is enriched by
   `populate`.

`populate` derives these fields:
- the two timestamps, through `parseTime`: epoch milliseconds, or a string in
  the configured layout and location;
- the page flag, through `parseBool`: a boolean, or an integer compared with
  zero;
- the draft flag;
- the author name, from the first user with the post's author id;
- the tag names, one per link of the post whose tag id is known, in link
  order.

## Layout

| file | module | models |
|---|---|---|
| wrappers.dfy | `Wrappers` | `Option`, `Result` |
| json_stream.dfy | `JsonStream` | the `json.Decoder` the importer drives: tokens, a cursor, `Token`, `Decode`, `More` |
| coerce.dfy | `Coerce` | `json.RawMessage` shapes, `time.Time`, `parseBool`, `parseTime` |
| records.dfy | `Records` | `user`, `tag`, `posttag`, `meta`, `ghostInfo`, the `Post` record, the per-type decoders |
| enrich.dfy | `Enrich` | `Post.populate`: the lookups as functions, and class `Post` with in-place `Populate` |
| index.dfy | `Index` | `decodeGhostInfo` and `seekTo`, as specification functions and as loops over a `Decoder` object |
| pipeline.dfy | `Pipeline` | `NewGhostToHugo` and its options, `importGhost` and its producer loop |

### How the model is built
- **Input.** The document is a `seq<Token>` of lexed tokens. Colons and
  commas are not shown. Each token records where it stands: key, object
  member value, array element or top level. A `Malformed` token marks the
  point where the input stops being valid JSON.
- **Decode.** A decode takes the next complete value, matching nested
  brackets, and hands its tokens to a per-type conversion in `Decoders`.
  Those conversions stand for `encoding/json` reflection.
- **Decoder state.** The cursor also records whether Go's decoder would
  allow a `Decode` at that point. After a string that is an object member's
  value, Go refuses with a syntax error. The model keeps this refusal, so a
  post titled "users" met before the index is complete makes the whole
  import fail. `Index.KeyAsMemberValueFails` shows this.
- **Layout parsing.** `time.ParseInLocation` is the function parameter
  `parseIn`.
- **Rewinding.** `Seek` is a `Reader` flag that says whether rewinding
  fails. After a successful rewind, reading starts again from token 0.
- **Timestamp arithmetic.** `pt*int64(time.Millisecond)` wraps as Go's
  `int64` does (`Coerce.Wrap64`). A time is its Unix nanoseconds plus a
  location. Go's zero time is year 1, UTC.
- **Stateful pieces.** Go updates these in place, so they are classes with
  `modifies` clauses:
  - the decoder (`JsonStream.Decoder`);
  - the post being populated (`Enrich.Post`);
  - the importer's settings, set by the options loop in the
    `Pipeline.GhostToHugo` constructor.

  Each class method is proved against a pure specification function:
  `TokenStep`, `DecodeStep`, `Populated`, `ScanIndex`, `Seek`, `ApplyAll`,
  `StreamPosts` / `Import`. The lemmas are stated about those functions.
- **Split loops.** `populate`'s author loop and its nested tag loops are the
  helper methods `ResolveAuthor` and `AppendLinkedTags`. The producer
  goroutine is `Produce`, and one iteration's populate-and-copy is
  `PopulatePost`.
- **Settings.** `Populate` takes the importer's `Settings` value, not a
  pointer to the importer.

### Behaviour worth knowing
- **Unknown author.** When no user carries the post's author id, the decoded
  `Author` is kept (`lib/ghostToHugo.go:44-49`). The field has no JSON tag,
  so the export itself can set it.
- **Token after `posts`.** Whatever token follows the `posts` string is
  dropped without being checked (`lib/ghostToHugo.go:197`).
- **Null timestamp.** `json.Unmarshal` of `null` into an `int64` succeeds and
  leaves 0, so a `null` timestamp gives the Unix epoch, not the zero time
  (`Coerce.NullIsEpoch`).
- **Which tokens match.** The index scan matches any string token at any
  depth, values included, and a repeated key counts again
  (`lib/ghostToHugo.go:158`, `Index.RepeatedKeysCount`).

## Model

| member | source | states |
|---|---|---|
| Coerce.UnmarshalBool | lib/ghostToHugo.go:65 | no contract of its own; `json.Unmarshal` into a `bool`: `true`/`false` succeed, `null` succeeds and leaves false, and anything else fails; `Coerce.ParseBoolShapes` describes its use |
| Coerce.UnmarshalInt | lib/ghostToHugo.go:70 | no contract of its own; `json.Unmarshal` into a 64-bit integer: an in-range integer succeeds, `null` succeeds and leaves 0, and anything else fails; `Coerce.ParseBoolShapes` and `Coerce.ParseTimeShapes` describe its use (it also models line 221) |
| Coerce.UnmarshalString | lib/ghostToHugo.go:226 | no contract of its own; `json.Unmarshal` into a `string`: a string succeeds, `null` succeeds and leaves "", and anything else fails; `Coerce.ParseTimeShapes` describes its use |
| Coerce.ParseBool | lib/ghostToHugo.go:63-75 | no contract of its own; `Coerce.ParseBoolShapes` and `Coerce.ParseBoolExamples` describe it |
| Coerce.ParseTime | lib/ghostToHugo.go:219-235 | no contract of its own; `Coerce.ParseTimeShapes`, `Coerce.EpochMillisExact`, `Coerce.IntegerZeroTimeIffOutOfRange` and `Coerce.NullIsEpoch` describe it |
| Coerce.Wrap64 | lib/ghostToHugo.go:222 | the product wraps into the int64 range; it is unchanged when it already fits, and it is congruent to the true product modulo 2^64 |
| Coerce.ParseBoolShapes | lib/ghostToHugo.go:63-75 | a flag is true exactly for JSON `true` and for a nonzero integer that fits 64 bits; `null`, strings and all other shapes give false |
| Coerce.ParseBoolExamples | lib/ghostToHugo.go:63-75 | `true` and `1` give true; `false`, `0`, `null`, an absent field and the string "true" give false |
| Coerce.ParseTimeShapes | lib/ghostToHugo.go:219-235 | an int64 is epoch milliseconds in the configured location; `null` is the epoch; a string is the layout parse, or the zero time when that fails; anything else, an absent field included, is the zero time |
| Coerce.EpochMillisExact | lib/ghostToHugo.go:220-223 | for millisecond values whose nanoseconds fit int64, the instant is exactly `n * 1_000_000` ns after the epoch |
| Coerce.IntegerZeroTimeIffOutOfRange | lib/ghostToHugo.go:220-234 | an integer timestamp gives the zero time if and only if it does not fit int64 |
| Coerce.NullIsEpoch | lib/ghostToHugo.go:220-223 | `null` gives the Unix epoch in the configured location, which differs from the zero time |
| JsonStream.TokenStep | lib/ghostToHugo.go:139 | reading a token advances by one and returns that token; at the end it is EOF, at malformed input a syntax error, and on an error the cursor does not move |
| JsonStream.ValueSpan | lib/ghostToHugo.go:160 | a complete value ends after its start and within the input; it is EOF exactly when the input is exhausted |
| JsonStream.Nested | lib/ghostToHugo.go:160 | the close that matches the open containers lies within the input; running out of input inside them is not plain EOF |
| JsonStream.NestedExtends | lib/ghostToHugo.go:160 | the extent of a complete nested value does not depend on the tokens after it |
| JsonStream.ValueSpanExtends | lib/ghostToHugo.go:160 | the extent of a complete value does not depend on the tokens after it |
| JsonStream.DecodeStep | lib/ghostToHugo.go:206 | a decode never moves backwards, and a successful one consumes at least one token |
| JsonStream.DecodeStepExtends | lib/ghostToHugo.go:160 | a successful decode gives the same value and position whatever follows the value |
| JsonStream.Decoder.constructor | lib/ghostToHugo.go:146 | a new decoder starts at the first token, where a value may start |
| JsonStream.Decoder.ReadToken | lib/ghostToHugo.go:150 | the decoder's new state and result are those of `TokenStep` |
| JsonStream.Decoder.Decode | lib/ghostToHugo.go:206 | the decoder's new state and result are those of `DecodeStep` |
| JsonStream.NoMoreNoValue | lib/ghostToHugo.go:204-206 | where `More()` says no, no value can be decoded: the input is exhausted (EOF) or the next token closes a container (a syntax error), and the decoder does not move |
| Enrich.Lookup | lib/ghostToHugo.go:44-49 | no contract of its own; `Enrich.LookupFirst`, `Enrich.LookupMissing` and `Enrich.LookupPresent` describe it |
| Enrich.LookupFirst | lib/ghostToHugo.go:44-49 | the first-match search returns the name at the first index that carries the id |
| Enrich.LookupMissing | lib/ghostToHugo.go:44-49 | the search finds nothing if and only if no entry carries the id |
| Enrich.LookupPresent | lib/ghostToHugo.go:53-57 | the tag search always succeeds for an id that is present |
| Enrich.LinkedTags | lib/ghostToHugo.go:51-60 | no contract of its own; `Enrich.LinkedTagsAppend`, `Enrich.LinkedTagsCount`, `Enrich.LinkedTagsComplete` and `Enrich.LinkedTagsSound` describe it |
| Enrich.LinkedTagsAppend | lib/ghostToHugo.go:51-60 | the names of a concatenation of links are the concatenated names, so names come in link order |
| Enrich.LinkedTagsCount | lib/ghostToHugo.go:51-60 | there is at most one name per link of the post, and exactly one per link when every linked tag is known |
| Enrich.LinkedTagsComplete | lib/ghostToHugo.go:51-60 | every link of the post to a tag in the index adds that tag's name |
| Enrich.LinkedTagsSound | lib/ghostToHugo.go:51-60 | every added name comes from a link of the post, through the lookup of its tag id |
| Enrich.Populated | lib/ghostToHugo.go:38-61 | no contract of its own; `Enrich.PopulatedFlags`, `Enrich.PopulatedAuthor`, `Enrich.PopulatedAuthorUnknown`, `Enrich.PopulatedTags` and `Enrich.ResolutionExample` describe it |
| Enrich.PopulatedFlags | lib/ghostToHugo.go:38-42 | a post is a draft if and only if its status is exactly "draft"; the page flag is the coerced `page`; the timestamps are the coerced raw fields; every decoded field is kept |
| Enrich.PopulatedAuthor | lib/ghostToHugo.go:44-49 | the author is the name of the first user whose id is the post's author id |
| Enrich.PopulatedAuthorUnknown | lib/ghostToHugo.go:44-49 | with no such user, the author keeps its decoded value |
| Enrich.PopulatedTags | lib/ghostToHugo.go:51-60 | the tags are the decoded tags followed by at most one name per link of the post, each from such a link |
| Enrich.ResolutionExample | lib/ghostToHugo.go:44-60 | users [1 Ada], tags [10 go, 11 infra], and links of post 5 to tags 10 and 99 give author "Ada" and tags ["go"] |
| Enrich.Post.Decoded | lib/ghostToHugo.go:205-206 | the new post holds exactly the decoded record |
| Enrich.Post.Populate | lib/ghostToHugo.go:38-61 | the post afterwards is `Populated` of the post before |
| Enrich.Post.ResolveAuthor | lib/ghostToHugo.go:44-49 | the author becomes the first match's name, or stays as it was |
| Enrich.Post.AppendLinkedTags | lib/ghostToHugo.go:51-60 | the tags become the old tags followed by the linked names |
| Index.DecodeField | lib/ghostToHugo.go:158-171 | decoding a field never moves backwards; a successful one happens where a value may start, consumes exactly the next complete value, sets the key's field to the value's conversion, and leaves the other three fields as they were |
| Index.DecodeFieldExtends | lib/ghostToHugo.go:158-171 | a successful field decode does not depend on the tokens after the value |
| Index.ScanIndex | lib/ghostToHugo.go:144-179 | at most four matches are counted, and a successful scan has either four matches or has reached EOF |
| Index.BuildIndex | lib/ghostToHugo.go:144-179 | no contract of its own; it is `Index.ScanIndex` from the start of the document, and `Index.DecodeGhostInfo` is proved equal to it |
| Index.ScanIgnoresRest | lib/ghostToHugo.go:149-176 | no token after the fourth match is read: the index is the same whatever follows |
| Index.ScanWithoutKeys | lib/ghostToHugo.go:149-153 | with no key and no malformed token ahead, the scan ends at EOF with success and keeps the fields it found |
| Index.RepeatedKeysCount | lib/ghostToHugo.go:158-171 | in the document of four `users` keys followed by malformed input, every repeat counts, the last value replaces the earlier ones, and the malformed tail is never read |
| Index.ScanHitsMalformed | lib/ghostToHugo.go:150-156 | malformed input reached before the fourth match, with no key string before it, ends the scan there with a syntax error |
| Index.ScanDecodeFails | lib/ghostToHugo.go:158-175 | a key reached before the fourth match whose value fails to decode ends the scan with that decode's error, and the match is counted |
| Index.KeyAsMemberValueFails | lib/ghostToHugo.go:158-175 | a key string that is an object member's value, reached before the fourth match, counts as a match, but the decode after it is refused, so the scan fails with a syntax error |
| Index.PostTitledUsersFails | lib/ghostToHugo.go:158-175 | in the document `{"title": "users", "users": []}` the index cannot be built |
| Index.DecodeGhostInfo | lib/ghostToHugo.go:144-179 | the loop returns what the `ScanIndex` specification gives from the start of the document |
| Index.Seek | lib/ghostToHugo.go:135-142 | seeking never moves backwards and stays within the input |
| Index.SeekFindsFirst | lib/ghostToHugo.go:135-142 | seeking stops just past the first target token and reports no error |
| Index.SeekReachesEOF | lib/ghostToHugo.go:135-142 | with no target before the end, seeking returns EOF |
| Index.SeekHitsMalformed | lib/ghostToHugo.go:135-142 | a malformed token before any target stops the seek there with a syntax error |
| Index.SeekTo | lib/ghostToHugo.go:135-142 | the loop leaves the decoder, and returns the error, that `Seek` specifies |
| Pipeline.Apply | lib/ghostToHugo.go:107-118 | no contract of its own; the body of the `WithLocation` and `WithDateFormat` closures, each setting its one field; `Pipeline.LastOptionWins` describes it |
| Pipeline.ApplyAll | lib/ghostToHugo.go:128-130 | no contract of its own; `Pipeline.ApplyAllSnoc` and `Pipeline.LastOptionWins` describe it |
| Pipeline.ApplyAllSnoc | lib/ghostToHugo.go:128-130 | applying one more option comes after all the earlier ones |
| Pipeline.LastOptionWins | lib/ghostToHugo.go:106-133 | the location and the layout are those of the last option of each kind, or the defaults (local zone, RFC 3339) when none is given |
| Pipeline.GhostToHugo.constructor | lib/ghostToHugo.go:121-133 | the settings are the defaults with every option applied in order |
| Pipeline.DecodeAttempts | lib/ghostToHugo.go:204-209 | no contract of its own; `Pipeline.AttemptsStopAtFailure` and `JsonStream.NoMoreNoValue` describe it |
| Pipeline.AttemptsStopAtFailure | lib/ghostToHugo.go:204-209 | only the last decode attempt can fail |
| Pipeline.StreamPosts | lib/ghostToHugo.go:203-214 | no contract of its own; `Pipeline.StreamPostsCons`, `Pipeline.StreamIsPopulatedPrefix` and `Pipeline.AllDecodedAllStreamed` describe it |
| Pipeline.StreamPostsCons | lib/ghostToHugo.go:205-211 | a decoded post at the front becomes its populated copy at the front of the stream |
| Pipeline.StreamIsPopulatedPrefix | lib/ghostToHugo.go:203-214 | the stream is `populate` of the longest prefix of successful decodes, in order, and it ends at the first failure |
| Pipeline.AllDecodedAllStreamed | lib/ghostToHugo.go:203-214 | when every element decodes, there are exactly as many posts as elements |
| Pipeline.Import | lib/ghostToHugo.go:181-217 | no contract of its own; `Pipeline.ImportWithoutPostsKey` and `Pipeline.ImportStreamsArray` describe it, and `Pipeline.GhostToHugo.ImportGhost` is proved equal to it |
| Pipeline.ImportWithoutPostsKey | lib/ghostToHugo.go:192-196 | when the index builds, the rewind succeeds and the document holds neither the string "posts" nor malformed input, the import fails with EOF and produces no posts |
| Pipeline.ImportStreamsArray | lib/ghostToHugo.go:181-217 | when the first "posts" is a key opening an array whose elements all decode, the import succeeds with one populated post per element, in order |
| Pipeline.PopulatePost | lib/ghostToHugo.go:205-211 | the post sent is `Populated` of the decoded post |
| Pipeline.GhostToHugo.Produce | lib/ghostToHugo.go:203-214 | the posts produced are `StreamPosts` of the decode attempts from the decoder's position, and the decoder never moves backwards |
| Pipeline.GhostToHugo.ImportGhost | lib/ghostToHugo.go:181-217 | the method returns `Import`: an error, with no posts, if the index build, the rewind, `seekTo("posts")` or the strip read fails, and the stream otherwise |

## Left out
- `ghosttohugo/site.go`: creating directories, writing shortcode templates and writing the Hugo configuration. This is file I/O through the Hugo libraries, which are not part of this model.
- The goroutine and the unbuffered channel of `importGhost`. The produced sequence is modelled instead. Not modelled: the interleaving with the consumer, and the producer that blocks forever when the consumer stops reading.
- `encoding/json` itself:
  - The tokenizer is not modelled. The input arrives already lexed, and a syntax error is a `Malformed` token at the point where it is detected. A `]` that closes a `{` is not checked separately from other syntax errors.
  - Unmarshalling into Go types is an abstract per-type conversion (`Decoders`). This includes struct-tag and case-insensitive key matching, the type checks, and decoding the untagged `Post` fields when the object has such keys.
  - A repeated `meta` key replaces the whole value in the model. Go merges a decoded object into the existing struct field by field, but `meta` is never used afterwards.
- Index.DecodeField: for a repeated `users`, `tags` or `posts_tags` key, the model replaces the field with the conversion of the new array alone. Go decodes into the slice that is already there: element i of the new array updates the old element i, so fields the new object leaves out keep their earlier values. For example, `"users": [{"id":1,"name":"Ada"}]` and then `"users": [{"id":2}]` give `[{2, "Ada"}]`. The conversions do not see the old field, so this merge and `Index.RepeatedKeysCount`'s "the last value wins" hold only for documents whose repeated values set every field.
- The decoder's sticky error after a syntax error is not modelled, and neither are read errors of the underlying reader other than failing to rewind. Every caller stops at the first error anyway.
- `Index.DecodeGhostInfo`: on an error it returns only the error, not the partly filled `ghostInfo` that `decodeGhostInfo` returns beside it. Its only caller discards that value.
- `JsonStream.MoreAt`: at a malformed point `More()` depends on the offending byte, which the model does not know. The model answers true, and the decode that follows fails.
- `time.ParseInLocation`, time zones and `time.Location` are foreign calls. The parse is the `parseIn` parameter and a location is only a name. A nil location, for which Go's `Time.In` panics, cannot be expressed.
- Go's `int` is taken to be 64 bits wide, as on the usual 64-bit platforms. So `parseBool`'s integer path uses the same range as `parseTime`'s `int64`. Record ids are unbounded integers, because the conversions are abstract.
- The contents of `meta` are decoded but never used, so nothing is stated about them.
