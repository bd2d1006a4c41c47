/**
 * `FileChatMessageHistory`: one JSON file per session, holding the whole record list.
 * The directory tree is a map from path to file content; every write replaces a file whole.
 */
module FileChat {
  import opened Wrappers
  import opened Records

  /** A session file: a JSON array of objects, or text that is not one. */
  datatype FileContent = Json(records: seq<Dict>) | Malformed

  /** What escapes a read: bad JSON, or a record `messages_from_dict` cannot decode. */
  datatype ReadError = JsonError | RecordError(cause: DecodeError)

  /** `os.path.join(a, b)`: an absolute `b` replaces `a`; a separator is added only when missing. */
  function JoinPath(a: string, b: string): (r: string) {
    if |b| > 0 && b[0] == '/' then b
    else if a == [] || a[|a| - 1] == '/' then a + b
    else a + "/" + b
  }

  /** The file a session lives in. */
  function SessionPath(storagePath: string, sessionId: string): (r: string) {
    JoinPath(storagePath, sessionId + ".json")
  }

  /** The record written for message `m` at 1-based position `i`. */
  function FileRecord(m: Message, i: int): (r: Dict) {
    map["key" := Int(i), "index" := Int(i), "role" := Str(RoleName(m.kind)), "content" := Str(m.content)]
  }

  /** The list `messages_to_dict` produces. */
  function FileRecords(ms: seq<Message>): (rs: seq<Dict>)
    ensures |rs| == |ms|
  {
    seq(|ms|, i requires 0 <= i < |ms| => FileRecord(ms[i], i + 1))
  }

  /** The `messages` property: a missing file is an empty history; any other failure escapes. */
  function ReadSession(files: map<string, FileContent>, path: string): (r: Result<seq<Message>, ReadError>)
    ensures path !in files ==> r == Ok([])
    ensures r.Ok? <==> path !in files || (files[path].Json? && DecodeAll(files[path].records, false).Ok?)
    ensures r.Ok? && path in files ==> |r.value| == |files[path].records|
  {
    if path !in files then Ok([])
    else
      match files[path]
      case Malformed => Err(JsonError)
      case Json(rs) =>
        match DecodeAll(rs, false)
        case Err(e) => Err(RecordError(e))
        case Ok(ms) => Ok(ms)
  }

  /** `add_messages`: read, append, renumber, rewrite the file whole. */
  function AddSpec(files: map<string, FileContent>, path: string, ms: seq<Message>)
    : (r: Result<map<string, FileContent>, ReadError>)
    ensures r.Ok? <==> ReadSession(files, path).Ok?
    ensures r.Err? ==> r.error == ReadSession(files, path).error
    ensures r.Ok? ==> (r.value.Keys == files.Keys + {path} && r.value[path].Json? &&
                       |r.value[path].records| == |ReadSession(files, path).value| + |ms|)
    ensures r.Ok? ==> forall q :: q in files && q != path ==> r.value[q] == files[q]
  {
    match ReadSession(files, path)
    case Err(e) => Err(e)
    case Ok(stored) => Ok(files[path := Json(FileRecords(stored + ms))])
  }

  /** `clear`: the file now holds `[]`. */
  function ClearSpec(files: map<string, FileContent>, path: string): (r: map<string, FileContent>)
    ensures r.Keys == files.Keys + {path}
    ensures path in r && r[path] == Json([])
    ensures forall q :: q in files && q != path ==> r[q] == files[q]
  {
    files[path := Json([])]
  }

  // ---------------------------------------------------------------------------
  // Properties of the store

  /** A record written by `messages_to_dict` decodes to the message as the store reloads it. */
  lemma FileRecordDecodes(m: Message, i: int)
    ensures DecodeRecord(FileRecord(m, i), false) == Ok(Reloaded(m, false))
  {
    var rec := FileRecord(m, i);
    assert "role" in rec && "content" in rec;
    assert rec["role"] == Str(RoleName(m.kind));
    assert rec["content"] == Str(m.content);
  }

  /** Role round trip: writing then decoding keeps content and order; humans stay human, all else is AI. */
  lemma FileRoundTrip(ms: seq<Message>)
    ensures DecodeAll(FileRecords(ms), false) == Ok(ReloadedAll(ms, false))
  {
    var rs := FileRecords(ms);
    forall i | 0 <= i < |rs|
      ensures DecodeRecord(rs[i], false) == Ok(Reloaded(ms[i], false))
    {
      FileRecordDecodes(ms[i], i + 1);
    }
    var r := DecodeAll(rs, false);
    assert r.Ok?;
    forall i | 0 <= i < |ms|
      ensures r.value[i] == ReloadedAll(ms, false)[i]
    {
    }
    assert r.value == ReloadedAll(ms, false);
  }

  /** Entry `i` (1-based) carries `key == index == i`, its message's role and its content. */
  lemma FileRecordsNumbered(ms: seq<Message>)
    ensures forall i :: 1 <= i <= |ms| ==>
      FileRecords(ms)[i - 1]["key"] == Int(i) && FileRecords(ms)[i - 1]["index"] == Int(i) &&
      FileRecords(ms)[i - 1]["role"] == Str(if ms[i - 1].kind == Human then UserRole else BotRole) &&
      FileRecords(ms)[i - 1]["content"] == Str(ms[i - 1].content)
  {
  }

  /** The records depend only on whether each message is human and on its content. */
  lemma FileRecordsSameShape(xs: seq<Message>, ys: seq<Message>)
    requires |xs| == |ys|
    requires forall i :: 0 <= i < |xs| ==> (xs[i].kind == Human <==> ys[i].kind == Human)
    requires forall i :: 0 <= i < |xs| ==> xs[i].content == ys[i].content
    ensures FileRecords(xs) == FileRecords(ys)
  {
    forall i | 0 <= i < |xs|
      ensures FileRecord(xs[i], i + 1) == FileRecord(ys[i], i + 1)
    {
      assert RoleName(xs[i].kind) == RoleName(ys[i].kind);
    }
  }

  /** A missing file reads as empty; bad JSON and undecodable records escape as errors. */
  lemma ReadSessionCases(files: map<string, FileContent>, path: string)
    ensures path !in files ==> ReadSession(files, path) == Ok([])
    ensures path in files && files[path].Malformed? ==> ReadSession(files, path) == Err(JsonError)
    ensures path in files && files[path].Json? && DecodeAll(files[path].records, false).Err? ==>
      ReadSession(files, path) == Err(RecordError(DecodeAll(files[path].records, false).error))
    ensures path in files && files[path].Json? && DecodeAll(files[path].records, false).Ok? ==>
      ReadSession(files, path) == Ok(DecodeAll(files[path].records, false).value)
  {
  }

  /**
   * `add_messages` succeeds exactly when the read does. The file then holds the stored messages
   * followed by `ms`, numbered 1..n, reading back as the old history followed by `ms`; no other
   * file changes.
   */
  lemma AddThenRead(files: map<string, FileContent>, path: string, ms: seq<Message>)
    ensures AddSpec(files, path, ms).Ok? <==> ReadSession(files, path).Ok?
    ensures ReadSession(files, path).Ok? ==>
      var stored := ReadSession(files, path).value;
      var after := AddSpec(files, path, ms).value;
      path in after && after[path] == Json(FileRecords(stored + ms)) &&
      |after[path].records| == |stored| + |ms| &&
      ReadSession(after, path) == Ok(stored + ReloadedAll(ms, false))
    ensures AddSpec(files, path, ms).Ok? ==>
      forall q :: q != path ==> ((q in AddSpec(files, path, ms).value <==> q in files) &&
                                 (q in files ==> AddSpec(files, path, ms).value[q] == files[q]))
  {
    if ReadSession(files, path).Ok? {
      var stored := ReadSession(files, path).value;
      var after := AddSpec(files, path, ms).value;
      FileRoundTrip(stored + ms);
      ReloadedConcat(stored, ms, false);
      StoredAreReloaded(files, path);
      assert ReadSession(after, path) == Ok(ReloadedAll(stored + ms, false));
    }
  }

  /** What a read returns is already in reloaded form (no timestamps; only human and AI). */
  lemma StoredAreReloaded(files: map<string, FileContent>, path: string)
    requires ReadSession(files, path).Ok?
    ensures ReloadedAll(ReadSession(files, path).value, false) == ReadSession(files, path).value
  {
    if path in files {
      var rs := files[path].records;
      var ms := ReadSession(files, path).value;
      forall i | 0 <= i < |ms|
        ensures Reloaded(ms[i], false) == ms[i]
      {
        assert ms[i] == DecodeRecord(rs[i], false).value;
      }
    }
  }

  /** A list this store wrote itself is kept as the prefix of the list written after it. */
  lemma AddKeepsWrittenPrefix(files: map<string, FileContent>, path: string, prev: seq<Message>, ms: seq<Message>)
    requires path in files && files[path] == Json(FileRecords(prev))
    ensures AddSpec(files, path, ms).Ok?
    ensures |FileRecords(prev)| <= |AddSpec(files, path, ms).value[path].records|
    ensures AddSpec(files, path, ms).value[path].records[..|prev|] == FileRecords(prev)
  {
    FileRoundTrip(prev);
    var stored := ReloadedAll(prev, false);
    FileRecordsSameShape(stored + ms, prev + ms);
    var after := FileRecords(prev + ms);
    assert AddSpec(files, path, ms).value[path].records == after;
    forall i | 0 <= i < |prev|
      ensures after[i] == FileRecords(prev)[i]
    {
    }
  }

  /** Adding `xs` then `ys` leaves the same files as adding `xs + ys` at once (or fails the same way). */
  lemma SequentialAdd(files: map<string, FileContent>, path: string, xs: seq<Message>, ys: seq<Message>)
    ensures AddSpec(files, path, xs).Err? ==> AddSpec(files, path, xs + ys) == AddSpec(files, path, xs)
    ensures AddSpec(files, path, xs).Ok? ==>
      AddSpec(AddSpec(files, path, xs).value, path, ys) == AddSpec(files, path, xs + ys)
  {
    if AddSpec(files, path, xs).Ok? {
      var stored := ReadSession(files, path).value;
      AddThenRead(files, path, xs);
      var f1 := AddSpec(files, path, xs).value;
      assert ReadSession(f1, path) == Ok(stored + ReloadedAll(xs, false));
      ReloadShape(stored, xs, ys);
      assert stored + (xs + ys) == stored + xs + ys;
      assert f1[path := Json(FileRecords(stored + ReloadedAll(xs, false) + ys))]
          == files[path := Json(FileRecords(stored + (xs + ys)))];
    }
  }

  /** Reloading messages in the middle of a list does not change the records written for it. */
  lemma ReloadShape(stored: seq<Message>, xs: seq<Message>, ys: seq<Message>)
    ensures FileRecords(stored + ReloadedAll(xs, false) + ys) == FileRecords(stored + xs + ys)
  {
    var a := stored + ReloadedAll(xs, false) + ys;
    var b := stored + xs + ys;
    forall i | 0 <= i < |a|
      ensures (a[i].kind == Human <==> b[i].kind == Human) && a[i].content == b[i].content
    {
      if |stored| <= i < |stored| + |xs| {
        assert a[i] == Reloaded(xs[i - |stored|], false);
        assert b[i] == xs[i - |stored|];
      }
    }
    FileRecordsSameShape(a, b);
  }

  /** After `clear` the session reads as empty, clearing twice is clearing once, and no other file changes. */
  lemma ClearEmpties(files: map<string, FileContent>, path: string)
    ensures ReadSession(ClearSpec(files, path), path) == Ok([])
    ensures ClearSpec(ClearSpec(files, path), path) == ClearSpec(files, path)
    ensures forall q :: q != path && q in files ==> q in ClearSpec(files, path) && ClearSpec(files, path)[q] == files[q]
  {
  }

  /**
   * The priming rule of the old conversation chain: an empty history is seeded with the system
   * prompt as a human message and an empty AI reply, and then reads back as exactly that pair.
   */
  lemma PrimingPair(files: map<string, FileContent>, path: string, prompt: string)
    requires ReadSession(files, path) == Ok([])
    ensures AddSpec(files, path, [Message(Human, prompt, None)]).Ok?
    ensures var f1 := AddSpec(files, path, [Message(Human, prompt, None)]).value;
      AddSpec(f1, path, [Message(Ai, "", None)]).Ok? &&
      ReadSession(AddSpec(f1, path, [Message(Ai, "", None)]).value, path) ==
        Ok([Message(Human, prompt, None), Message(Ai, "", None)])
    ensures var f1 := AddSpec(files, path, [Message(Human, prompt, None)]).value;
      AddSpec(f1, path, [Message(Ai, "", None)]).value[path] ==
        Json(FileRecords([Message(Human, prompt, None), Message(Ai, "", None)]))
  {
    var first := [Message(Human, prompt, None)];
    var second := [Message(Ai, "", None)];
    assert ReloadedAll(first, false) == first;
    assert ReloadedAll(second, false) == second;
    AddThenRead(files, path, first);
    var f1 := AddSpec(files, path, first).value;
    assert ReadSession(f1, path) == Ok([] + first);
    assert [] + first == first;
    AddThenRead(f1, path, second);
    assert ReadSession(AddSpec(f1, path, second).value, path) == Ok(first + second);
    assert first + second == [Message(Human, prompt, None), Message(Ai, "", None)];
  }

  /** Within one storage directory, distinct relative session ids use distinct files. */
  lemma {:induction false} SessionPathInjective(storagePath: string, s1: string, s2: string)
    requires s1 == [] || s1[0] != '/'
    requires s2 == [] || s2[0] != '/'
    ensures SessionPath(storagePath, s1) == SessionPath(storagePath, s2) ==> s1 == s2
  {
    var sep := if storagePath == [] || storagePath[|storagePath| - 1] == '/' then "" else "/";
    var p1 := storagePath + sep + (s1 + ".json");
    var p2 := storagePath + sep + (s2 + ".json");
    assert SessionPath(storagePath, s1) == p1;
    assert SessionPath(storagePath, s2) == p2;
    var pre := |storagePath + sep|;
    if p1 == p2 {
      assert |s1| == |s2|;
      forall k | 0 <= k < |s1|
        ensures s1[k] == s2[k]
      {
        assert p1[pre + k] == s1[k];
        assert p2[pre + k] == s2[k];
      }
    }
  }

  /** An absolute session id ignores the storage directory altogether. */
  lemma AbsoluteSessionId(storagePath: string, sessionId: string)
    requires |sessionId| > 0 && sessionId[0] == '/'
    ensures SessionPath(storagePath, sessionId) == sessionId + ".json"
  {
  }

  /** The file system the history writes to. */
  class FileStore {
    var files: map<string, FileContent>

    constructor(initial: map<string, FileContent>)
      ensures files == initial
    {
      files := initial;
    }
  }

  class FileChatMessageHistory {
    const storagePath: string
    const sessionId: string
    const store: FileStore

    constructor(storagePath: string, sessionId: string, store: FileStore)
      ensures this.storagePath == storagePath && this.sessionId == sessionId && this.store == store
    {
      this.storagePath := storagePath;
      this.sessionId := sessionId;
      this.store := store;
    }

    function Path(): string {
      SessionPath(storagePath, sessionId)
    }

    /** The stored history of this session, as typed messages. */
    method Messages() returns (r: Result<seq<Message>, ReadError>)
      ensures r == ReadSession(store.files, Path())
    {
      var path := Path();
      if path !in store.files {
        return Ok([]);
      }
      match store.files[path] {
        case Malformed =>
          return Err(JsonError);
        case Json(rs) =>
          var decoded := MessagesFromDict(rs);
          match decoded {
            case Err(e) => return Err(RecordError(e));
            case Ok(ms) => return Ok(ms);
          }
      }
    }

    method AddMessage(m: Message) returns (failure: Option<ReadError>)
      modifies store
      ensures match AddSpec(old(store.files), Path(), [m])
        case Err(e) => failure == Some(e) && store.files == old(store.files)
        case Ok(f) => failure == None && store.files == f
    {
      failure := AddMessages([m]);
    }

    method AddMessages(ms: seq<Message>) returns (failure: Option<ReadError>)
      modifies store
      ensures match AddSpec(old(store.files), Path(), ms)
        case Err(e) => failure == Some(e) && store.files == old(store.files)
        case Ok(f) => failure == None && store.files == f
    {
      var existing := Messages();
      match existing {
        case Err(e) =>
          return Some(e);
        case Ok(stored) =>
          var all := stored + ms;
          var serialized := MessagesToDict(all);
          store.files := store.files[Path() := Json(serialized)];
          return None;
      }
    }

    method Clear()
      modifies store
      ensures store.files == ClearSpec(old(store.files), Path())
    {
      store.files := store.files[Path() := Json([])];
    }

    /** Decode the records in order; the first record that fails stops the loop. */
    method MessagesFromDict(rs: seq<Dict>) returns (r: Result<seq<Message>, DecodeError>)
      ensures r == DecodeAll(rs, false)
    {
      var final: seq<Message> := [];
      var i := 0;
      while i < |rs|
        invariant 0 <= i <= |rs|
        invariant DecodeAll(rs[..i], false) == Ok(final)
      {
        assert rs[..i + 1][..i] == rs[..i];
        match DecodeRecord(rs[i], false) {
          case Err(e) =>
            DecodePrefixError(rs, i + 1, false);
            return Err(e);
          case Ok(m) =>
            final := final + [m];
        }
        i := i + 1;
      }
      assert rs[..i] == rs;
      return Ok(final);
    }

    /** Number the messages from 1 and record each one's role and content. */
    method MessagesToDict(ms: seq<Message>) returns (r: seq<Dict>)
      ensures r == FileRecords(ms)
    {
      var dctList: seq<Dict> := [];
      for i := 1 to |ms| + 1
        invariant |dctList| == i - 1
        invariant forall j :: 0 <= j < i - 1 ==> dctList[j] == FileRecord(ms[j], j + 1)
      {
        var message := ms[i - 1];
        var key := if message.kind == Human then UserRole else BotRole;
        dctList := dctList + [map["key" := Int(i), "index" := Int(i), "role" := Str(key), "content" := Str(message.content)]];
      }
      return dctList;
    }
  }
}
