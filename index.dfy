/**
 * Building the reference index (`decodeGhostInfo`) and locating a key
 * (`seekTo`), both by reading the export token by token.
 */
module Index {
  import opened Wrappers
  import opened JsonStream
  import opened Records

  /** The four keys whose values make up the reference index. */
  predicate IsIndexKey(s: string) {
    s == "meta" || s == "users" || s == "tags" || s == "posts_tags"
  }

  /** Decode the value after `key` into the matching field of `gi`, replacing what was there. */
  function DecodeField(ts: seq<Token>, dec: Decoders, key: string, c: Cursor, gi: GhostInfo): (st: Step<GhostInfo>)
    requires c.pos <= |ts| && IsIndexKey(key)
    ensures c.pos <= st.after.pos <= |ts|
    ensures st.result.Ok? ==> c.pos < st.after.pos
    ensures st.result.Ok? ==> c.valueAllowed && ValueSpan(ts, c.pos) == Span(st.after.pos)
    ensures st.result.Ok? && key == "meta" ==>
      st.result.value == gi.(m := st.result.value.m) && dec.meta(ts[c.pos..st.after.pos]) == Some(st.result.value.m)
    ensures st.result.Ok? && key == "users" ==>
      st.result.value == gi.(users := st.result.value.users) && dec.users(ts[c.pos..st.after.pos]) == Some(st.result.value.users)
    ensures st.result.Ok? && key == "tags" ==>
      st.result.value == gi.(tags := st.result.value.tags) && dec.tags(ts[c.pos..st.after.pos]) == Some(st.result.value.tags)
    ensures st.result.Ok? && key == "posts_tags" ==>
      st.result.value == gi.(postTags := st.result.value.postTags) && dec.postTags(ts[c.pos..st.after.pos]) == Some(st.result.value.postTags)
  {
    if key == "meta" then
      var d := DecodeStep(ts, c, dec.meta);
      Step(if d.result.Ok? then Ok(gi.(m := d.result.value)) else Err(d.result.error), d.after)
    else if key == "users" then
      var d := DecodeStep(ts, c, dec.users);
      Step(if d.result.Ok? then Ok(gi.(users := d.result.value)) else Err(d.result.error), d.after)
    else if key == "tags" then
      var d := DecodeStep(ts, c, dec.tags);
      Step(if d.result.Ok? then Ok(gi.(tags := d.result.value)) else Err(d.result.error), d.after)
    else
      var d := DecodeStep(ts, c, dec.postTags);
      Step(if d.result.Ok? then Ok(gi.(postTags := d.result.value)) else Err(d.result.error), d.after)
  }

  /** A field decode that succeeds inside `ts` gives the same result when more tokens follow. */
  lemma DecodeFieldExtends(ts: seq<Token>, rest: seq<Token>, dec: Decoders, key: string, c: Cursor, gi: GhostInfo)
    requires c.pos <= |ts| && IsIndexKey(key)
    requires DecodeField(ts, dec, key, c, gi).result.Ok?
    ensures DecodeField(ts + rest, dec, key, c, gi) == DecodeField(ts, dec, key, c, gi)
  {
    if key == "meta" {
      DecodeStepExtends(ts, rest, c, dec.meta);
    } else if key == "users" {
      DecodeStepExtends(ts, rest, c, dec.users);
    } else if key == "tags" {
      DecodeStepExtends(ts, rest, c, dec.tags);
    } else {
      DecodeStepExtends(ts, rest, c, dec.postTags);
    }
  }

  /**
   * The outcome of the index scan: the index or the error that ended it, how
   * many key matches were counted, and where the decoder stopped.
   */
  datatype IndexScan = IndexScan(info: Result<GhostInfo, Error>, matches: nat, stop: Cursor)

  /**
   * The loop of `decodeGhostInfo` from cursor `c`, with `done` matches so
   * far and index `gi`. Every string token equal to one of the four keys
   * counts, wherever it stands; the value after it is decoded into its field.
   * EOF from reading a token ends the scan normally; any other error ends it
   * with that error.
   */
  function ScanIndex(ts: seq<Token>, dec: Decoders, c: Cursor, done: nat, gi: GhostInfo): (r: IndexScan)
    requires c.pos <= |ts|
    ensures c.pos <= r.stop.pos <= |ts|
    ensures done <= 4 ==> r.matches <= 4
    ensures done <= r.matches
    ensures r.info.Ok? ==> r.matches >= 4 || r.stop.pos == |ts|
    decreases |ts| - c.pos
  {
    if done >= 4 then IndexScan(Ok(gi), done, c)
    else
      var st := TokenStep(ts, c);
      if st.result.Err? then
        IndexScan(if st.result.error == EOF then Ok(gi) else Err(st.result.error), done, c)
      else if st.result.value.Str? && IsIndexKey(st.result.value.s) then
        var f := DecodeField(ts, dec, st.result.value.s, st.after, gi);
        if f.result.Err? then IndexScan(Err(f.result.error), done + 1, f.after)
        else ScanIndex(ts, dec, f.after, done + 1, f.result.value)
      else ScanIndex(ts, dec, st.after, done, gi)
  }

  /** The index as `decodeGhostInfo` builds it from the start of a document. */
  function BuildIndex(ts: seq<Token>, dec: Decoders): IndexScan {
    ScanIndex(ts, dec, Start, 0, EmptyInfo)
  }

  /**
   * Once the fourth key has been matched nothing after it is read: a document
   * whose scan completes inside `ts` gives the same index whatever follows,
   * in particular however large the posts array after it is.
   */
  lemma {:induction false} ScanIgnoresRest(ts: seq<Token>, rest: seq<Token>, dec: Decoders, c: Cursor, done: nat, gi: GhostInfo)
    requires c.pos <= |ts|
    requires ScanIndex(ts, dec, c, done, gi).info.Ok? && ScanIndex(ts, dec, c, done, gi).matches >= 4
    ensures ScanIndex(ts + rest, dec, c, done, gi) == ScanIndex(ts, dec, c, done, gi)
    decreases |ts| - c.pos
  {
    if done < 4 {
      assert c.pos < |ts|;
      assert (ts + rest)[c.pos] == ts[c.pos];
      var st := TokenStep(ts, c);
      assert TokenStep(ts + rest, c) == st;
      if st.result.value.Str? && IsIndexKey(st.result.value.s) {
        var f := DecodeField(ts, dec, st.result.value.s, st.after, gi);
        DecodeFieldExtends(ts, rest, dec, st.result.value.s, st.after, gi);
        ScanIgnoresRest(ts, rest, dec, f.after, done + 1, f.result.value);
      } else {
        ScanIgnoresRest(ts, rest, dec, st.after, done, gi);
      }
    }
  }

  /** No key string and no malformed token ahead: the scan reaches EOF and keeps the index it has. */
  lemma {:induction false} ScanWithoutKeys(ts: seq<Token>, dec: Decoders, c: Cursor, done: nat, gi: GhostInfo)
    requires c.pos <= |ts| && done < 4
    requires Uneventful(ts, c.pos, |ts|)
    ensures ScanIndex(ts, dec, c, done, gi).info == Ok(gi)
    ensures ScanIndex(ts, dec, c, done, gi).matches == done
    decreases |ts| - c.pos
  {
    if c.pos < |ts| {
      ScanWithoutKeys(ts, dec, TokenStep(ts, c).after, done, gi);
    }
  }

  /**
   * Repeated keys count again and the later value replaces the earlier one:
   * four `users` keys complete the scan, the last value wins, and the
   * malformed token after them is never read.
   */
  lemma RepeatedKeysCount(dec: Decoders, a: seq<User>, b: seq<User>)
    requires dec.users([Literal(ObjectMember)]) == Some(a)
    requires dec.users([BeginArray(ObjectMember), EndArray(ObjectMember)]) == Some(b)
    ensures var ts := [Str("users", ObjectKey), Literal(ObjectMember),
                       Str("users", ObjectKey), Literal(ObjectMember),
                       Str("users", ObjectKey), Literal(ObjectMember),
                       Str("users", ObjectKey), BeginArray(ObjectMember), EndArray(ObjectMember),
                       Malformed];
      BuildIndex(ts, dec) == IndexScan(Ok(EmptyInfo.(users := b)), 4, Cursor(9, false))
  {
    var ts := [Str("users", ObjectKey), Literal(ObjectMember),
               Str("users", ObjectKey), Literal(ObjectMember),
               Str("users", ObjectKey), Literal(ObjectMember),
               Str("users", ObjectKey), BeginArray(ObjectMember), EndArray(ObjectMember),
               Malformed];
    assert ts[1..2] == [Literal(ObjectMember)];
    assert ts[3..4] == [Literal(ObjectMember)];
    assert ts[5..6] == [Literal(ObjectMember)];
    assert ts[7..9] == [BeginArray(ObjectMember), EndArray(ObjectMember)];
    assert Nested(ts, 8, 1) == Span(9);
    assert ValueSpan(ts, 7) == Span(9);
    assert DecodeStep(ts, Cursor(7, true), dec.users) == Step(Ok(b), Cursor(9, false));
    var c1 := DecodeField(ts, dec, "users", Cursor(1, true), EmptyInfo).after;
    assert c1 == Cursor(2, false);
    var c2 := DecodeField(ts, dec, "users", Cursor(3, true), EmptyInfo.(users := a)).after;
    assert c2 == Cursor(4, false);
    var c3 := DecodeField(ts, dec, "users", Cursor(5, true), EmptyInfo.(users := a)).after;
    assert c3 == Cursor(6, false);
    assert DecodeField(ts, dec, "users", Cursor(7, true), EmptyInfo.(users := a))
      == Step(Ok(EmptyInfo.(users := b)), Cursor(9, false));
  }

  /** Neither a key string nor a malformed token at the positions `[from, to)`. */
  predicate Uneventful(ts: seq<Token>, from: nat, to: nat)
    requires from <= to <= |ts|
  {
    forall j :: from <= j < to ==> !ts[j].Malformed? && !(ts[j].Str? && IsIndexKey(ts[j].s))
  }

  /**
   * Malformed input met before the fourth match ends the scan with a syntax
   * error, whatever the index holds so far.
   */
  lemma {:induction false} ScanHitsMalformed(ts: seq<Token>, dec: Decoders, c: Cursor, done: nat, gi: GhostInfo, k: nat)
    requires c.pos <= k < |ts| && done < 4
    requires ts[k].Malformed? && Uneventful(ts, c.pos, k)
    ensures ScanIndex(ts, dec, c, done, gi) == IndexScan(Err(SyntaxError), done, ScanIndex(ts, dec, c, done, gi).stop)
    ensures ScanIndex(ts, dec, c, done, gi).stop.pos == k
    decreases k - c.pos
  {
    if c.pos < k {
      ScanHitsMalformed(ts, dec, TokenStep(ts, c).after, done, gi, k);
    }
  }

  /**
   * A key matched before the fourth whose value fails to decode ends the scan
   * with the decoder's error; the match is counted.
   */
  lemma {:induction false} ScanDecodeFails(ts: seq<Token>, dec: Decoders, c: Cursor, done: nat, gi: GhostInfo, k: nat)
    requires c.pos <= k < |ts| && done < 4
    requires ts[k].Str? && IsIndexKey(ts[k].s) && Uneventful(ts, c.pos, k)
    requires DecodeField(ts, dec, ts[k].s, Cursor(k + 1, ValueAllowedAfter(ts[k])), gi).result.Err?
    ensures ScanIndex(ts, dec, c, done, gi).info
         == Err(DecodeField(ts, dec, ts[k].s, Cursor(k + 1, ValueAllowedAfter(ts[k])), gi).result.error)
    ensures ScanIndex(ts, dec, c, done, gi).matches == done + 1
    decreases k - c.pos
  {
    if c.pos < k {
      ScanDecodeFails(ts, dec, TokenStep(ts, c).after, done, gi, k);
    }
  }

  /**
   * A key string that is an object member's value (a post titled "users",
   * say), met before the fourth match, still counts, but decoding after it
   * is refused, so the whole scan fails with a syntax error.
   */
  lemma KeyAsMemberValueFails(ts: seq<Token>, dec: Decoders, c: Cursor, done: nat, gi: GhostInfo, k: nat)
    requires c.pos <= k < |ts| && done < 4
    requires ts[k].Str? && ts[k].place == ObjectMember && IsIndexKey(ts[k].s) && Uneventful(ts, c.pos, k)
    ensures ScanIndex(ts, dec, c, done, gi).info == Err(SyntaxError)
  {
    ScanDecodeFails(ts, dec, c, done, gi, k);
  }

  /** The document `{"title": "users", "users": []}` cannot be indexed. */
  lemma PostTitledUsersFails(dec: Decoders)
    ensures var ts := [BeginObject(TopLevel), Str("title", ObjectKey), Str("users", ObjectMember),
                       Str("users", ObjectKey), BeginArray(ObjectMember), EndArray(ObjectMember),
                       EndObject(TopLevel)];
      BuildIndex(ts, dec).info == Err(SyntaxError)
  {
    var ts := [BeginObject(TopLevel), Str("title", ObjectKey), Str("users", ObjectMember),
               Str("users", ObjectKey), BeginArray(ObjectMember), EndArray(ObjectMember),
               EndObject(TopLevel)];
    KeyAsMemberValueFails(ts, dec, Start, 0, EmptyInfo, 2);
  }

  /** `decodeGhostInfo(r)`. */
  method DecodeGhostInfo(tokens: seq<Token>, dec: Decoders) returns (r: Result<GhostInfo, Error>)
    ensures r == BuildIndex(tokens, dec).info
  {
    var gi := EmptyInfo;
    var decoder := new Decoder(tokens);
    var doneCount := 0;
    while doneCount < 4
      invariant decoder.Valid() && decoder.tokens == tokens
      invariant ScanIndex(tokens, dec, decoder.cursor, doneCount, gi) == BuildIndex(tokens, dec)
      decreases |tokens| - decoder.cursor.pos
    {
      var tok := decoder.ReadToken();
      if tok == Err(EOF) {
        break;
      }
      if tok.Err? {
        return Err(tok.error);
      }
      var err: Option<Error> := None;
      var t := tok.value;
      if t.Str? && t.s == "meta" {
        var v := decoder.Decode(dec.meta);
        if v.Ok? { gi := gi.(m := v.value); } else { err := Some(v.error); }
        doneCount := doneCount + 1;
      } else if t.Str? && t.s == "users" {
        var v := decoder.Decode(dec.users);
        if v.Ok? { gi := gi.(users := v.value); } else { err := Some(v.error); }
        doneCount := doneCount + 1;
      } else if t.Str? && t.s == "tags" {
        var v := decoder.Decode(dec.tags);
        if v.Ok? { gi := gi.(tags := v.value); } else { err := Some(v.error); }
        doneCount := doneCount + 1;
      } else if t.Str? && t.s == "posts_tags" {
        var v := decoder.Decode(dec.postTags);
        if v.Ok? { gi := gi.(postTags := v.value); } else { err := Some(v.error); }
        doneCount := doneCount + 1;
      }
      if err.Some? {
        return Err(err.value);
      }
    }
    return Ok(gi);
  }

  /** The outcome of `seekTo`: no error once the target was read, else the error that stopped it. */
  datatype SeekOutcome = SeekOutcome(err: Option<Error>, after: Cursor)

  /** Whether `t` is the string token `target` (keys and values alike). */
  predicate IsTarget(t: Token, target: string) {
    t.Str? && t.s == target
  }

  /** `seekTo(d, target)` from cursor `c`: read tokens until one is `target` or reading fails. */
  function Seek(ts: seq<Token>, c: Cursor, target: string): (r: SeekOutcome)
    requires c.pos <= |ts|
    ensures c.pos <= r.after.pos <= |ts|
    decreases |ts| - c.pos
  {
    var st := TokenStep(ts, c);
    match st.result
    case Err(e) => SeekOutcome(Some(e), st.after)
    case Ok(t) => if IsTarget(t, target) then SeekOutcome(None, st.after) else Seek(ts, st.after, target)
  }

  /** Neither the target nor a malformed token occurs in `ts[from..to]`. */
  ghost predicate Clear(ts: seq<Token>, from: nat, to: nat, target: string)
    requires from <= to <= |ts|
  {
    forall k :: from <= k < to ==> !ts[k].Malformed? && !IsTarget(ts[k], target)
  }

  /** `seekTo` stops just past the first occurrence of the target and reports no error. */
  lemma {:induction false} SeekFindsFirst(ts: seq<Token>, c: Cursor, target: string, k: nat)
    requires c.pos <= k < |ts| && IsTarget(ts[k], target) && Clear(ts, c.pos, k, target)
    ensures Seek(ts, c, target) == SeekOutcome(None, Cursor(k + 1, ValueAllowedAfter(ts[k])))
    decreases k - c.pos
  {
    if c.pos < k {
      SeekFindsFirst(ts, TokenStep(ts, c).after, target, k);
    }
  }

  /** With no target before the end, `seekTo` returns EOF, which its caller treats as fatal. */
  lemma {:induction false} SeekReachesEOF(ts: seq<Token>, c: Cursor, target: string)
    requires c.pos <= |ts| && Clear(ts, c.pos, |ts|, target)
    ensures Seek(ts, c, target).err == Some(EOF)
    decreases |ts| - c.pos
  {
    if c.pos < |ts| {
      SeekReachesEOF(ts, TokenStep(ts, c).after, target);
    }
  }

  /** A malformed token before any target stops `seekTo` there with a syntax error. */
  lemma {:induction false} SeekHitsMalformed(ts: seq<Token>, c: Cursor, target: string, k: nat)
    requires c.pos <= k < |ts| && ts[k].Malformed? && Clear(ts, c.pos, k, target)
    ensures Seek(ts, c, target).err == Some(SyntaxError)
    ensures Seek(ts, c, target).after.pos == k
    decreases k - c.pos
  {
    if c.pos < k {
      SeekHitsMalformed(ts, TokenStep(ts, c).after, target, k);
    }
  }

  /** `seekTo(d, token)`. */
  method SeekTo(d: Decoder, target: string) returns (err: Option<Error>)
    requires d.Valid()
    modifies d
    ensures d.Valid()
    ensures SeekOutcome(err, d.cursor) == Seek(d.tokens, old(d.cursor), target)
  {
    var tok: Option<Token> := None;
    err := None;
    while err == None && !(tok.Some? && IsTarget(tok.value, target))
      invariant d.Valid()
      invariant err.Some? ==> SeekOutcome(err, d.cursor) == Seek(d.tokens, old(d.cursor), target)
      invariant tok.Some? && IsTarget(tok.value, target) && err == None ==>
        SeekOutcome(None, d.cursor) == Seek(d.tokens, old(d.cursor), target)
      invariant err == None && !(tok.Some? && IsTarget(tok.value, target)) ==>
        Seek(d.tokens, d.cursor, target) == Seek(d.tokens, old(d.cursor), target)
      decreases |d.tokens| - d.cursor.pos, if err == None then 1 else 0
    {
      var r := d.ReadToken();
      if r.Ok? {
        tok, err := Some(r.value), None;
      } else {
        tok, err := None, Some(r.error);
      }
    }
  }
}
