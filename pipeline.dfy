/**
 * The importer (`GhostToHugo`): its settings, built from defaults and
 * options applied in order, and `importGhost`, which builds the reference
 * index, rewinds, finds the posts array and streams its posts, populating
 * each. The stream is modelled as the sequence of posts it produces.
 */
module Pipeline {
  import opened Wrappers
  import opened JsonStream
  import opened Coerce
  import opened Records
  import opened Enrich
  import opened Index

  /** An option of `NewGhostToHugo`: `WithLocation` or `WithDateFormat`. */
  datatype Setting = WithLocation(location: Location) | WithDateFormat(format: string)

  /** Go's `time.RFC3339` layout. */
  const RFC3339: string := "2006-01-02T15:04:05Z07:00"

  /** The defaults `NewGhostToHugo` starts from: the local zone and RFC 3339. */
  const Defaults := Settings(Local, RFC3339)

  /** What one option closure does to the settings. */
  function Apply(s: Settings, o: Setting): Settings {
    match o
    case WithLocation(l) => s.(location := l)
    case WithDateFormat(f) => s.(dateFormat := f)
  }

  /** The options applied in order, first to last. */
  function ApplyAll(s: Settings, options: seq<Setting>): Settings
    decreases |options|
  {
    if options == [] then s else ApplyAll(Apply(s, options[0]), options[1..])
  }

  /** Applying one more option after the others. */
  lemma {:induction false} ApplyAllSnoc(s: Settings, options: seq<Setting>, o: Setting)
    ensures ApplyAll(s, options + [o]) == Apply(ApplyAll(s, options), o)
    decreases |options|
  {
    if options == [] {
      assert options + [o] == [o];
    } else {
      assert (options + [o])[1..] == options[1..] + [o];
      ApplyAllSnoc(Apply(s, options[0]), options[1..], o);
    }
  }

  /** The location of the last `WithLocation` option, or `fallback` when there is none. */
  function LastLocation(options: seq<Setting>, fallback: Location): Location {
    if options == [] then fallback
    else if options[|options| - 1].WithLocation? then options[|options| - 1].location
    else LastLocation(options[..|options| - 1], fallback)
  }

  /** The layout of the last `WithDateFormat` option, or `fallback` when there is none. */
  function LastDateFormat(options: seq<Setting>, fallback: string): string {
    if options == [] then fallback
    else if options[|options| - 1].WithDateFormat? then options[|options| - 1].format
    else LastDateFormat(options[..|options| - 1], fallback)
  }

  /** The last option of each kind wins, and a kind never given keeps its default. */
  lemma {:induction false} LastOptionWins(s: Settings, options: seq<Setting>)
    ensures ApplyAll(s, options).location == LastLocation(options, s.location)
    ensures ApplyAll(s, options).dateFormat == LastDateFormat(options, s.dateFormat)
    decreases |options|
  {
    if options != [] {
      var init := options[..|options| - 1];
      assert options == init + [options[|options| - 1]];
      ApplyAllSnoc(s, init, options[|options| - 1]);
      LastOptionWins(s, init);
    }
  }

  /**
   * The successive `More`/`Decode` attempts on an array from cursor `c`:
   * a decoded element, or `None` for the failure that ends the loop.
   */
  function DecodeAttempts<T>(ts: seq<Token>, c: Cursor, convert: seq<Token> -> Option<T>): seq<Option<T>>
    requires c.pos <= |ts|
    decreases |ts| - c.pos
  {
    if !MoreAt(ts, c) then []
    else
      var d := DecodeStep(ts, c, convert);
      if d.result.Err? then [None] else [Some(d.result.value)] + DecodeAttempts(ts, d.after, convert)
  }

  /** Only the last attempt can fail: decoding stops at the first failure. */
  lemma {:induction false} AttemptsStopAtFailure<T>(ts: seq<Token>, c: Cursor, convert: seq<Token> -> Option<T>)
    requires c.pos <= |ts|
    ensures forall k :: 0 <= k < |DecodeAttempts(ts, c, convert)| - 1 ==> DecodeAttempts(ts, c, convert)[k].Some?
    decreases |ts| - c.pos
  {
    if MoreAt(ts, c) {
      var d := DecodeStep(ts, c, convert);
      if d.result.Ok? {
        AttemptsStopAtFailure(ts, d.after, convert);
        var rest := DecodeAttempts(ts, d.after, convert);
        assert DecodeAttempts(ts, c, convert) == [Some(d.result.value)] + rest;
      }
    }
  }

  /** The posts sent on the channel: each decoded post populated, up to the first failed decode. */
  function StreamPosts(attempts: seq<Option<PostRecord>>, gi: GhostInfo, s: Settings, parseIn: LayoutParser): seq<PostRecord> {
    if attempts == [] || attempts[0].None? then []
    else [Populated(attempts[0].value, gi, s, parseIn)] + StreamPosts(attempts[1..], gi, s, parseIn)
  }

  /** One decoded post at the front of the attempts is one populated post at the front of the stream. */
  lemma StreamPostsCons(v: PostRecord, rest: seq<Option<PostRecord>>, gi: GhostInfo, s: Settings, parseIn: LayoutParser)
    ensures StreamPosts([Some(v)] + rest, gi, s, parseIn) == [Populated(v, gi, s, parseIn)] + StreamPosts(rest, gi, s, parseIn)
  {
    assert ([Some(v)] + rest)[1..] == rest;
  }

  /**
   * The stream is, in order, `populate` applied to the longest prefix of
   * successful decodes: as long as that prefix, and ended by the first
   * failure or by the end of the array.
   */
  lemma {:induction false} StreamIsPopulatedPrefix(attempts: seq<Option<PostRecord>>, gi: GhostInfo, s: Settings, parseIn: LayoutParser)
    ensures var out := StreamPosts(attempts, gi, s, parseIn);
      && |out| <= |attempts|
      && (forall k :: 0 <= k < |out| ==> attempts[k].Some? && out[k] == Populated(attempts[k].value, gi, s, parseIn))
      && (|out| < |attempts| ==> attempts[|out|].None?)
  {
    if attempts != [] && attempts[0].Some? {
      StreamIsPopulatedPrefix(attempts[1..], gi, s, parseIn);
      var out := StreamPosts(attempts, gi, s, parseIn);
      forall k | 1 <= k < |out|
        ensures attempts[k] == attempts[1..][k - 1]
      {
      }
    }
  }

  /** With no failed decode there is one post per element. */
  lemma AllDecodedAllStreamed(attempts: seq<Option<PostRecord>>, gi: GhostInfo, s: Settings, parseIn: LayoutParser)
    requires forall k :: 0 <= k < |attempts| ==> attempts[k].Some?
    ensures |StreamPosts(attempts, gi, s, parseIn)| == |attempts|
  {
    StreamIsPopulatedPrefix(attempts, gi, s, parseIn);
  }

  /** The seekable input: its tokens, and whether rewinding it fails. */
  datatype Reader = Reader(tokens: seq<Token>, seekFails: bool)

  /**
   * `importGhost`: fatal in order when building the index fails, rewinding
   * fails, `seekTo("posts")` fails, or reading the token after the key fails;
   * otherwise the posts of the array after it.
   */
  function Import(r: Reader, dec: Decoders, s: Settings, parseIn: LayoutParser): Result<seq<PostRecord>, Error> {
    var index := BuildIndex(r.tokens, dec).info;
    if index.Err? then Err(index.error)
    else if r.seekFails then Err(SeekError)
    else
      var found := Seek(r.tokens, Start, "posts");
      if found.err.Some? then Err(found.err.value)
      else
        var strip := TokenStep(r.tokens, found.after);
        if strip.result.Err? then Err(strip.result.error)
        else Ok(StreamPosts(DecodeAttempts(r.tokens, strip.after, dec.post), index.value, s, parseIn))
  }

  /** A document without the string "posts" and without malformed input fails with EOF and yields no posts. */
  lemma ImportWithoutPostsKey(r: Reader, dec: Decoders, s: Settings, parseIn: LayoutParser)
    requires BuildIndex(r.tokens, dec).info.Ok? && !r.seekFails
    requires forall k :: 0 <= k < |r.tokens| ==> !r.tokens[k].Malformed? && !IsTarget(r.tokens[k], "posts")
    ensures Import(r, dec, s, parseIn) == Err(EOF)
  {
    SeekReachesEOF(r.tokens, Start, "posts");
  }

  /**
   * A well-formed posts array: when the first "posts" string is a key that
   * opens an array, every element before the close decodes, the stream has
   * one post per element, each populated against the index.
   */
  lemma ImportStreamsArray(r: Reader, dec: Decoders, s: Settings, parseIn: LayoutParser, k: nat)
    requires BuildIndex(r.tokens, dec).info.Ok? && !r.seekFails
    requires k + 1 < |r.tokens| && r.tokens[k] == Str("posts", ObjectKey) && r.tokens[k + 1].BeginArray?
    requires Clear(r.tokens, 0, k, "posts")
    requires forall a :: a in DecodeAttempts(r.tokens, Cursor(k + 2, true), dec.post) ==> a.Some?
    ensures Import(r, dec, s, parseIn).Ok?
    ensures var attempts := DecodeAttempts(r.tokens, Cursor(k + 2, true), dec.post);
      var posts := Import(r, dec, s, parseIn).value;
      && |posts| == |attempts|
      && forall j :: 0 <= j < |posts| ==>
           posts[j] == Populated(attempts[j].value, BuildIndex(r.tokens, dec).info.value, s, parseIn)
  {
    SeekFindsFirst(r.tokens, Start, "posts", k);
    var attempts := DecodeAttempts(r.tokens, Cursor(k + 2, true), dec.post);
    StreamIsPopulatedPrefix(attempts, BuildIndex(r.tokens, dec).info.value, s, parseIn);
  }

  /** One iteration's `var p Post` (already decoded into), `p.populate(…)`, and the copy sent on the channel. */
  method PopulatePost(raw: PostRecord, gi: GhostInfo, s: Settings, parseIn: LayoutParser) returns (sent: PostRecord)
    ensures sent == Populated(raw, gi, s, parseIn)
  {
    var p := new Post.Decoded(raw);
    p.Populate(gi, s, parseIn);
    sent := p.Value();
  }

  /** The importer (Go's `GhostToHugo`). */
  class GhostToHugo {
    var location: Location
    var dateFormat: string

    /** The settings the importer parses timestamps with. */
    function Config(): Settings
      reads this
    {
      Settings(location, dateFormat)
    }

    /** `NewGhostToHugo(options...)`: the defaults, then each option in order. */
    constructor (options: seq<Setting>)
      ensures Config() == ApplyAll(Defaults, options)
    {
      location := Local;
      dateFormat := RFC3339;
      new;
      var i := 0;
      while i < |options|
        invariant 0 <= i <= |options|
        invariant Config() == ApplyAll(Defaults, options[..i])
      {
        match options[i] {
          case WithLocation(l) => location := l;
          case WithDateFormat(f) => dateFormat := f;
        }
        ApplyAllSnoc(Defaults, options[..i], options[i]);
        assert options[..i + 1] == options[..i] + [options[i]];
        i := i + 1;
      }
      assert options[..i] == options;
    }

    /**
     * The producer goroutine of `importGhost`: while the array has more
     * elements, decode one, stop at the first failure, populate it and send it.
     */
    method Produce(decoder: Decoder, dec: Decoders, gi: GhostInfo, parseIn: LayoutParser) returns (posts: seq<PostRecord>)
      requires decoder.Valid()
      modifies decoder
      ensures decoder.Valid() && old(decoder.cursor).pos <= decoder.cursor.pos
      ensures posts == StreamPosts(DecodeAttempts(decoder.tokens, old(decoder.cursor), dec.post), gi, Config(), parseIn)
    {
      var s := Config();
      posts := [];
      var more := decoder.More();
      while more
        invariant decoder.Valid() && old(decoder.cursor).pos <= decoder.cursor.pos
        invariant more == MoreAt(decoder.tokens, decoder.cursor)
        invariant posts + StreamPosts(DecodeAttempts(decoder.tokens, decoder.cursor, dec.post), gi, s, parseIn)
               == StreamPosts(DecodeAttempts(decoder.tokens, old(decoder.cursor), dec.post), gi, s, parseIn)
        decreases |decoder.tokens| - decoder.cursor.pos
      {
        ghost var at := decoder.cursor;
        var raw := decoder.Decode(dec.post);
        if raw.Err? {
          assert DecodeAttempts(decoder.tokens, at, dec.post) == [None];
          break;
        }
        var sent := PopulatePost(raw.value, gi, s, parseIn);
        ghost var rest := DecodeAttempts(decoder.tokens, decoder.cursor, dec.post);
        assert DecodeAttempts(decoder.tokens, at, dec.post) == [Some(raw.value)] + rest;
        StreamPostsCons(raw.value, rest, gi, s, parseIn);
        posts := posts + [sent];
        more := decoder.More();
      }
    }

    /** `gth.importGhost(r)`, with the channel replaced by the sequence of posts sent on it. */
    method ImportGhost(r: Reader, dec: Decoders, parseIn: LayoutParser) returns (result: Result<seq<PostRecord>, Error>)
      ensures result == Import(r, dec, Config(), parseIn)
    {
      var gi := DecodeGhostInfo(r.tokens, dec);
      if gi.Err? {
        return Err(gi.error);
      }
      if r.seekFails {
        return Err(SeekError);
      }
      var decoder := new Decoder(r.tokens);
      var err := SeekTo(decoder, "posts");
      if err.Some? {
        return Err(err.value);
      }
      var strip := decoder.ReadToken();
      if strip.Err? {
        return Err(strip.error);
      }
      assert decoder.cursor == TokenStep(r.tokens, Seek(r.tokens, Start, "posts").after).after;
      assert gi.value == BuildIndex(r.tokens, dec).info.value;
      var posts := Produce(decoder, dec, gi.value, parseIn);
      return Ok(posts);
    }
  }
}
