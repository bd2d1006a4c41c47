/**
 * `FirebaseMessageHistory`: the history of user `uid` lives under field `key` of the document
 * `history/<uid>`. The object caches the document reference (`doc_ref`) and the last document
 * it read (`db_data`) between calls; every failure except one is printed and swallowed.
 */
module Firebase {
  import opened Wrappers
  import opened Records

  /** A document reference: collection path and document id. */
  datatype DocRef = DocRef(collection: string, docId: string)

  /** A top-level field of a document: a record list, or some other stored value. */
  datatype DocValue = RecordList(records: seq<Dict>) | Text(s: string) | Number(n: int)

  type Document = map<string, DocValue>

  type Docs = map<DocRef, Document>

  /** The exceptions `add_messages` can let escape. */
  datatype HistoryError = TypeError | AttributeError

  /** What a Firestore call on a document can fail with. */
  datatype StoreError = Unavailable | NotFound

  /** The object's cached `doc_ref` and `db_data`, together with the documents in the store. */
  datatype World = World(docRef: Option<DocRef>, dbData: Option<Document>, docs: Docs)

  /** A read's result and the world it leaves behind. */
  datatype ReadResult = ReadResult(messages: seq<Message>, world: World)

  /** An add's escaping exception, if any, and the world it leaves behind. */
  datatype AddResult = AddResult(failure: Option<HistoryError>, world: World)

  const HistoryCollection := "history"

  /** `FirestoreUtil.fetch_data(doc_id, collection, send_ref=True)`: a reference, no network access. */
  function FetchRef(docId: string, collection: string): (r: DocRef) {
    DocRef(collection, docId)
  }

  /** The reference a read uses: the cached one, else a freshly fetched one. */
  function RefOf(collection: string, uid: string, w: World): (r: DocRef) {
    if w.docRef.Some? then w.docRef.value else FetchRef(uid, collection)
  }

  /** `doc_ref.update(data)`: a field merge into an existing document; any failure changes nothing. */
  function UpdateSpec(docs: Docs, ref: Option<DocRef>, data: Document, reachable: bool): (r: Docs)
    ensures r.Keys == docs.Keys
    ensures !(ref.Some? && reachable && ref.value in docs) ==> r == docs
    ensures ref.Some? && reachable && ref.value in docs ==>
      (r == docs[ref.value := r[ref.value]] &&
       r[ref.value].Keys == docs[ref.value].Keys + data.Keys &&
       forall f :: f in data ==> r[ref.value][f] == data[f])
  {
    if ref.Some? && reachable && ref.value in docs then docs[ref.value := docs[ref.value] + data]
    else docs
  }

  /** The messages stored in one field, or `[]` when iterating or decoding it raises. */
  function FieldMessages(v: DocValue): (r: seq<Message>) {
    match v
    case RecordList(rs) =>
      (match DecodeAll(rs, true)
       case Ok(ms) => ms
       case Err(_) => [])
    case _ => []
  }

  /**
   * The `messages` property. A missing document is created as `{key: []}`; an unreachable
   * store, a missing field and an undecodable field all read as `[]`.
   */
  function ReadSpec(collection: string, uid: string, key: string, w: World, reachable: bool): (r: ReadResult)
    ensures r.world.docRef == Some(RefOf(collection, uid, w))
    ensures !reachable ==> r.messages == [] && r.world.docs == w.docs && r.world.dbData == w.dbData
    ensures reachable ==> (RefOf(collection, uid, w) in r.world.docs &&
                           r.world.dbData == Some(r.world.docs[RefOf(collection, uid, w)]))
    ensures RefOf(collection, uid, w) in w.docs ==> r.world.docs == w.docs
    ensures r.world.docs.Keys == w.docs.Keys + (if reachable then {RefOf(collection, uid, w)} else {})
  {
    var ref := RefOf(collection, uid, w);
    var w1 := w.(docRef := Some(ref));
    if !reachable then ReadResult([], w1)
    else if ref in w.docs then
      var data := w.docs[ref];
      ReadResult(if key in data then FieldMessages(data[key]) else [], w1.(dbData := Some(data)))
    else
      var data := map[key := RecordList([])];
      ReadResult([], World(Some(ref), Some(data), w.docs[ref := data]))
  }

  /** Each new message stamped with its clock reading. */
  function Stamped(ms: seq<Message>, stamps: seq<int>): (r: seq<Message>)
    requires |stamps| == |ms|
    ensures |r| == |ms|
  {
    seq(|ms|, i requires 0 <= i < |ms| => ms[i].(timestamp := Some(Stamp(stamps[i]))))
  }

  /** The record written for message `m` at 1-based position `i`. */
  function FirebaseRecord(m: Message, i: int): (r: Dict)
    requires m.timestamp.Some?
  {
    map["index" := Int(i), "role" := Str(RoleName(m.kind)), "content" := Str(m.content),
        "timestamp" := m.timestamp.value]
  }

  /** `messages_to_dict`: numbered records; a message without a timestamp raises. */
  function FirebaseRecords(ms: seq<Message>): (r: Result<seq<Dict>, HistoryError>)
    ensures r.Ok? <==> forall i :: 0 <= i < |ms| ==> ms[i].timestamp.Some?
    ensures r.Err? ==> r.error == AttributeError
    ensures r.Ok? ==> |r.value| == |ms|
  {
    if forall i :: 0 <= i < |ms| ==> ms[i].timestamp.Some? then
      Ok(seq(|ms|, i requires 0 <= i < |ms| => FirebaseRecord(ms[i], i + 1)))
    else Err(AttributeError)
  }

  /**
   * `add_messages`: stamp, read, append, renumber, store into the cached `db_data`, push the
   * document with a swallowed `update`. Only a missing `db_data` escapes, as a `TypeError`.
   */
  function AddSpec(collection: string, uid: string, key: string, w: World, reachable: bool,
                   ms: seq<Message>, stamps: seq<int>): (r: AddResult)
    requires |stamps| == |ms|
    ensures r.world.docRef == Some(RefOf(collection, uid, w))
    ensures r.failure.None? ==>
      (r.world.dbData.Some? && key in r.world.dbData.value && r.world.dbData.value[key].RecordList? &&
       |r.world.dbData.value[key].records| == |ReadSpec(collection, uid, key, w, reachable).messages| + |ms|)
    ensures r.world.docs.Keys == ReadSpec(collection, uid, key, w, reachable).world.docs.Keys
  {
    var read := ReadSpec(collection, uid, key, w, reachable);
    match FirebaseRecords(read.messages + Stamped(ms, stamps))
    case Err(e) => AddResult(Some(e), read.world)
    case Ok(serialized) =>
      if read.world.dbData.None? then AddResult(Some(TypeError), read.world)
      else
        var data := read.world.dbData.value[key := RecordList(serialized)];
        AddResult(None, World(read.world.docRef, Some(data),
                              UpdateSpec(read.world.docs, read.world.docRef, data, reachable)))
  }

  /** The first `min(2, n)` elements of a list or characters of a string. */
  function Truncated(v: DocValue): (r: DocValue)
    requires !v.Number?
  {
    match v
    case RecordList(rs) => RecordList(if |rs| <= 2 then rs else rs[..2])
    case Text(s) => Text(if |s| <= 2 then s else s[..2])
  }

  /**
   * `clear`: keep the first two entries of the cached field and push the document. With no
   * cached document, no such field or a field that cannot be sliced, nothing changes.
   */
  function ClearSpec(key: string, w: World, reachable: bool): (r: World)
    ensures r.docRef == w.docRef
    ensures w.dbData.None? ==> r == w
    ensures r.docs.Keys == w.docs.Keys
    ensures r.dbData.Some? && key in r.dbData.value && r.dbData.value[key].RecordList? ==>
      |r.dbData.value[key].records| <= 2
  {
    if w.dbData.None? || key !in w.dbData.value || w.dbData.value[key].Number? then w
    else
      var data := w.dbData.value[key := Truncated(w.dbData.value[key])];
      World(w.docRef, Some(data), UpdateSpec(w.docs, w.docRef, data, reachable))
  }

  // ---------------------------------------------------------------------------
  // Reading

  /** A record missing `"timestamp"` fails to decode in this store, whatever else it holds. */
  lemma MissingTimestampFails(rec: Dict)
    requires "role" in rec && "content" in rec && "timestamp" !in rec
    ensures DecodeRecord(rec, true) == Err(KeyError("timestamp"))
  {
  }

  /**
   * One stored record without `"timestamp"` (a list written by the file store, say) makes the
   * whole read return `[]`, although every other record may decode.
   */
  lemma UnstampedRecordEmptiesRead(collection: string, uid: string, key: string, w: World, rs: seq<Dict>, j: nat)
    requires RefOf(collection, uid, w) in w.docs
    requires key in w.docs[RefOf(collection, uid, w)]
    requires w.docs[RefOf(collection, uid, w)][key] == RecordList(rs)
    requires j < |rs| && "timestamp" !in rs[j]
    ensures ReadSpec(collection, uid, key, w, true).messages == []
  {
    assert DecodeRecord(rs[j], true).Err?;
    ReadFailuresEmpty(collection, uid, key, w, true);
  }

  /**
   * Every way a read can fail returns `[]` instead of raising: an unreachable store, a document
   * without the field, a field that is not a record list, or a record that does not decode.
   * A read never alters an existing document.
   */
  lemma ReadFailuresEmpty(collection: string, uid: string, key: string, w: World, reachable: bool)
    ensures var r := ReadSpec(collection, uid, key, w, reachable);
      !reachable ==> r.messages == [] && r.world.docs == w.docs && r.world.dbData == w.dbData
    ensures var ref := RefOf(collection, uid, w); var r := ReadSpec(collection, uid, key, w, reachable);
      reachable && ref in w.docs ==>
        r.world.docs == w.docs && r.world.dbData == Some(w.docs[ref]) &&
        (key !in w.docs[ref] || !w.docs[ref][key].RecordList? ==> r.messages == [])
    ensures var ref := RefOf(collection, uid, w); var r := ReadSpec(collection, uid, key, w, reachable);
      reachable && ref in w.docs && key in w.docs[ref] && w.docs[ref][key].RecordList? &&
      (exists i :: 0 <= i < |w.docs[ref][key].records| && DecodeRecord(w.docs[ref][key].records[i], true).Err?) ==>
        r.messages == []
  {
  }

  /** A stored list that decodes is returned in full, timestamps included. */
  lemma ReadDecodes(collection: string, uid: string, key: string, w: World, rs: seq<Dict>)
    requires RefOf(collection, uid, w) in w.docs
    requires key in w.docs[RefOf(collection, uid, w)]
    requires w.docs[RefOf(collection, uid, w)][key] == RecordList(rs)
    requires forall i :: 0 <= i < |rs| ==> DecodeRecord(rs[i], true).Ok?
    ensures var ms := ReadSpec(collection, uid, key, w, true).messages;
      |ms| == |rs| &&
      forall i :: 0 <= i < |rs| ==> ms[i] == DecodeRecord(rs[i], true).value && ms[i].timestamp == Some(rs[i]["timestamp"])
    ensures var r := ReadSpec(collection, uid, key, w, true);
      r.world.dbData == Some(w.docs[RefOf(collection, uid, w)]) && r.world.docs == w.docs
  {
  }

  /**
   * Reading a user with no document creates the document `{key: []}` as part of the read,
   * returns `[]`, and caches that document; reading again then returns `[]` and changes nothing.
   */
  lemma ReadCreatesDocument(collection: string, uid: string, key: string, w: World)
    requires RefOf(collection, uid, w) !in w.docs
    ensures var ref := RefOf(collection, uid, w); var r := ReadSpec(collection, uid, key, w, true);
      r.messages == [] &&
      r.world.docs == w.docs[ref := map[key := RecordList([])]] &&
      r.world.dbData == Some(map[key := RecordList([])]) && r.world.docRef == Some(ref)
    ensures var r := ReadSpec(collection, uid, key, w, true);
      ReadSpec(collection, uid, key, r.world, true) == r
  {
  }

  /** Every message a read returns carries a timestamp. */
  lemma ReadTimestamped(collection: string, uid: string, key: string, w: World, reachable: bool)
    ensures var ms := ReadSpec(collection, uid, key, w, reachable).messages;
      forall i :: 0 <= i < |ms| ==> ms[i].timestamp.Some?
  {
    var ref := RefOf(collection, uid, w);
    if reachable && ref in w.docs && key in w.docs[ref] && w.docs[ref][key].RecordList? {
      var rs := w.docs[ref][key].records;
      if DecodeAll(rs, true).Ok? {
        assert forall i :: 0 <= i < |rs| ==> DecodeAll(rs, true).value[i] == DecodeRecord(rs[i], true).value;
      }
    }
  }

  // ---------------------------------------------------------------------------
  // Writing records

  /** Entry `i` (1-based) carries `index == i` and its message's role, content and timestamp. */
  lemma FirebaseRecordsNumbered(ms: seq<Message>)
    requires forall i :: 0 <= i < |ms| ==> ms[i].timestamp.Some?
    ensures FirebaseRecords(ms).Ok? && |FirebaseRecords(ms).value| == |ms|
    ensures forall i :: 1 <= i <= |ms| ==>
      FirebaseRecords(ms).value[i - 1]["index"] == Int(i) &&
      FirebaseRecords(ms).value[i - 1]["role"] == Str(if ms[i - 1].kind == Human then UserRole else BotRole) &&
      FirebaseRecords(ms).value[i - 1]["content"] == Str(ms[i - 1].content) &&
      Some(FirebaseRecords(ms).value[i - 1]["timestamp"]) == ms[i - 1].timestamp
  {
  }

  /** A record written here decodes to the message as the store reloads it. */
  lemma FirebaseRecordDecodes(m: Message, i: int)
    requires m.timestamp.Some?
    ensures DecodeRecord(FirebaseRecord(m, i), true) == Ok(Reloaded(m, true))
  {
    var rec := FirebaseRecord(m, i);
    assert "role" in rec && "content" in rec && "timestamp" in rec;
    assert rec["role"] == Str(RoleName(m.kind));
    assert rec["content"] == Str(m.content);
    assert rec["timestamp"] == m.timestamp.value;
  }

  /** Round trip: timestamped messages come back in order with content and timestamp; roles as stored. */
  lemma FirebaseRoundTrip(ms: seq<Message>)
    requires forall i :: 0 <= i < |ms| ==> ms[i].timestamp.Some?
    ensures FirebaseRecords(ms).Ok?
    ensures DecodeAll(FirebaseRecords(ms).value, true) == Ok(ReloadedAll(ms, true))
  {
    var rs := FirebaseRecords(ms).value;
    forall i | 0 <= i < |rs|
      ensures DecodeRecord(rs[i], true) == Ok(Reloaded(ms[i], true))
    {
      FirebaseRecordDecodes(ms[i], i + 1);
    }
    var r := DecodeAll(rs, true);
    assert r.Ok?;
    forall i | 0 <= i < |ms|
      ensures r.value[i] == ReloadedAll(ms, true)[i]
    {
    }
    assert r.value == ReloadedAll(ms, true);
  }

  /** The records depend only on each message being human or not, its content and its timestamp. */
  lemma FirebaseRecordsSameShape(xs: seq<Message>, ys: seq<Message>)
    requires |xs| == |ys|
    requires forall i :: 0 <= i < |xs| ==> (xs[i].kind == Human <==> ys[i].kind == Human)
    requires forall i :: 0 <= i < |xs| ==> xs[i].content == ys[i].content && xs[i].timestamp == ys[i].timestamp
    ensures FirebaseRecords(xs) == FirebaseRecords(ys)
  {
    if forall i :: 0 <= i < |xs| ==> xs[i].timestamp.Some? {
      forall i | 0 <= i < |xs|
        ensures FirebaseRecord(xs[i], i + 1) == FirebaseRecord(ys[i], i + 1)
      {
        assert RoleName(xs[i].kind) == RoleName(ys[i].kind);
      }
      assert forall i :: 0 <= i < |ys| ==> ys[i].timestamp.Some?;
      assert seq(|xs|, i requires 0 <= i < |xs| => FirebaseRecord(xs[i], i + 1))
          == seq(|ys|, i requires 0 <= i < |ys| => FirebaseRecord(ys[i], i + 1));
    }
  }

  lemma StampedConcat(xs: seq<Message>, sx: seq<int>, ys: seq<Message>, sy: seq<int>)
    requires |sx| == |xs| && |sy| == |ys|
    ensures Stamped(xs + ys, sx + sy) == Stamped(xs, sx) + Stamped(ys, sy)
  {
  }

  // ---------------------------------------------------------------------------
  // Adding

  /** Merging a document into one whose fields it covers yields the covering document. */
  lemma MergeCovering(d0: Document, d1: Document)
    requires d0.Keys <= d1.Keys
    ensures d0 + d1 == d1
  {
  }

  /**
   * With the store reachable, `add_messages` raises nothing: the document read (or created)
   * gets `key` set to the read history followed by the stamped new messages, renumbered, and
   * the cache holds exactly the stored document.
   */
  lemma AddReachable(collection: string, uid: string, key: string, w: World, ms: seq<Message>, stamps: seq<int>)
    requires |stamps| == |ms|
    ensures var read := ReadSpec(collection, uid, key, w, true);
      var ref := RefOf(collection, uid, w);
      var all := read.messages + Stamped(ms, stamps);
      FirebaseRecords(all).Ok? &&
      read.world.dbData.Some? && ref in read.world.docs && read.world.docs[ref] == read.world.dbData.value &&
      AddSpec(collection, uid, key, w, true, ms, stamps) ==
        AddResult(None, World(Some(ref), Some(read.world.dbData.value[key := RecordList(FirebaseRecords(all).value)]),
                              read.world.docs[ref := read.world.dbData.value[key := RecordList(FirebaseRecords(all).value)]]))
  {
    var read := ReadSpec(collection, uid, key, w, true);
    var all := read.messages + Stamped(ms, stamps);
    ReadTimestamped(collection, uid, key, w, true);
    assert forall i :: 0 <= i < |all| ==> all[i].timestamp.Some?;
    var data := read.world.dbData.value[key := RecordList(FirebaseRecords(all).value)];
    MergeCovering(read.world.dbData.value, data);
  }

  /** What a read returns is already in reloaded form. */
  lemma ReadIsReloaded(collection: string, uid: string, key: string, w: World, reachable: bool)
    ensures var ms := ReadSpec(collection, uid, key, w, reachable).messages;
      ReloadedAll(ms, true) == ms
  {
    var ref := RefOf(collection, uid, w);
    var ms := ReadSpec(collection, uid, key, w, reachable).messages;
    if reachable && ref in w.docs && key in w.docs[ref] && w.docs[ref][key].RecordList? {
      var rs := w.docs[ref][key].records;
      if DecodeAll(rs, true).Ok? {
        forall i | 0 <= i < |ms|
          ensures Reloaded(ms[i], true) == ms[i]
        {
          assert ms[i] == DecodeRecord(rs[i], true).value;
        }
      }
    }
  }

  /** Reloading the front of a list does not change the records written for it. */
  lemma ReloadShape(front: seq<Message>, back: seq<Message>)
    ensures FirebaseRecords(ReloadedAll(front, true) + back) == FirebaseRecords(front + back)
  {
    var a := ReloadedAll(front, true) + back;
    var b := front + back;
    forall i | 0 <= i < |a|
      ensures (a[i].kind == Human <==> b[i].kind == Human) && a[i].content == b[i].content &&
              a[i].timestamp == b[i].timestamp
    {
      if i < |front| {
        assert a[i] == Reloaded(front[i], true);
      }
    }
    FirebaseRecordsSameShape(a, b);
  }

  /** The record list stored under `key` of document `ref`, or `[]` when there is none. */
  function StoredRecords(w: World, ref: DocRef, key: string): seq<Dict> {
    if ref in w.docs && key in w.docs[ref] && w.docs[ref][key].RecordList? then w.docs[ref][key].records else []
  }

  /** Reading right after a reachable add returns what was written, reloaded, and changes nothing. */
  lemma ReadAfterAdd(collection: string, uid: string, key: string, w: World, ms: seq<Message>, stamps: seq<int>)
    requires |stamps| == |ms|
    ensures var read := ReadSpec(collection, uid, key, w, true);
      var w1 := AddSpec(collection, uid, key, w, true, ms, stamps).world;
      ReadSpec(collection, uid, key, w1, true) == ReadResult(ReloadedAll(read.messages + Stamped(ms, stamps), true), w1)
  {
    var read := ReadSpec(collection, uid, key, w, true);
    AddReachable(collection, uid, key, w, ms, stamps);
    ReadTimestamped(collection, uid, key, w, true);
    FirebaseRoundTrip(read.messages + Stamped(ms, stamps));
  }

  /** A new message as it reads back: AI unless human, its content, and its clock reading. */
  lemma StampedAsRead(ms: seq<Message>, stamps: seq<int>)
    requires |stamps| == |ms|
    ensures var r := ReloadedAll(Stamped(ms, stamps), true);
      forall j :: 0 <= j < |ms| ==> r[j] == Reloaded(ms[j], false).(timestamp := Some(Stamp(stamps[j])))
  {
  }

  /**
   * After `add_messages` on a reachable store, reading returns the earlier history unchanged
   * (stored timestamps included) followed by the new messages as they read back (see
   * `StampedAsRead`).
   */
  lemma AddThenRead(collection: string, uid: string, key: string, w: World, ms: seq<Message>, stamps: seq<int>)
    requires |stamps| == |ms|
    ensures ReadSpec(collection, uid, key, AddSpec(collection, uid, key, w, true, ms, stamps).world, true).messages
         == ReadSpec(collection, uid, key, w, true).messages + ReloadedAll(Stamped(ms, stamps), true)
  {
    var before := ReadSpec(collection, uid, key, w, true).messages;
    ReadAfterAdd(collection, uid, key, w, ms, stamps);
    ReadIsReloaded(collection, uid, key, w, true);
    ReloadedConcat(before, Stamped(ms, stamps), true);
  }

  /** `add_messages` touches only field `key` of this user's document. */
  lemma AddKeepsOtherFields(collection: string, uid: string, key: string, w: World, reachable: bool,
                            ms: seq<Message>, stamps: seq<int>)
    requires |stamps| == |ms|
    ensures var ref := RefOf(collection, uid, w); var after := AddSpec(collection, uid, key, w, reachable, ms, stamps).world;
      forall q :: q != ref ==> ((q in after.docs <==> q in w.docs) && (q in w.docs ==> after.docs[q] == w.docs[q]))
    ensures var ref := RefOf(collection, uid, w); var after := AddSpec(collection, uid, key, w, reachable, ms, stamps).world;
      ref in w.docs ==> (ref in after.docs &&
                         forall k :: k != key && k in w.docs[ref] ==> k in after.docs[ref] && after.docs[ref][k] == w.docs[ref][k])
  {
    if reachable {
      AddReachable(collection, uid, key, w, ms, stamps);
    }
  }

  /** A new record carries its position, its message's role and content, and the clock reading. */
  lemma NewRecordFields(m: Message, stamp: int, i: int)
    ensures Get(FirebaseRecord(m.(timestamp := Some(Stamp(stamp))), i), "index") == Some(Int(i))
    ensures Get(FirebaseRecord(m.(timestamp := Some(Stamp(stamp))), i), "content") == Some(Str(m.content))
    ensures Get(FirebaseRecord(m.(timestamp := Some(Stamp(stamp))), i), "timestamp") == Some(Stamp(stamp))
    ensures Get(FirebaseRecord(m.(timestamp := Some(Stamp(stamp))), i), "role") == Some(Str(RoleName(m.kind)))
  {
  }

  /** The records written for a timestamped history followed by stamped new messages. */
  lemma RecordsOfAppend(before: seq<Message>, ms: seq<Message>, stamps: seq<int>)
    requires |stamps| == |ms|
    requires forall i :: 0 <= i < |before| ==> before[i].timestamp.Some?
    ensures FirebaseRecords(before + Stamped(ms, stamps)).Ok?
    ensures var rs2 := FirebaseRecords(before + Stamped(ms, stamps)).value;
      |rs2| == |before| + |ms| &&
      (forall i :: 0 <= i < |before| ==> rs2[i] == FirebaseRecord(before[i], i + 1)) &&
      (forall j :: 0 <= j < |ms| ==>
        Get(rs2[|before| + j], "index") == Some(Int(|before| + j + 1)) &&
        Get(rs2[|before| + j], "content") == Some(Str(ms[j].content)) &&
        Get(rs2[|before| + j], "timestamp") == Some(Stamp(stamps[j])) &&
        Get(rs2[|before| + j], "role") == Some(Str(RoleName(ms[j].kind))))
  {
    var added := Stamped(ms, stamps);
    var all := before + added;
    assert forall i :: 0 <= i < |all| ==> all[i].timestamp.Some?;
    var rs2 := FirebaseRecords(all).value;
    forall j | 0 <= j < |ms|
      ensures rs2[|before| + j] == FirebaseRecord(ms[j].(timestamp := Some(Stamp(stamps[j]))), |before| + j + 1)
    {
      assert all[|before| + j] == added[j];
    }
    forall j | 0 <= j < |ms|
      ensures Get(rs2[|before| + j], "index") == Some(Int(|before| + j + 1))
      ensures Get(rs2[|before| + j], "content") == Some(Str(ms[j].content))
      ensures Get(rs2[|before| + j], "timestamp") == Some(Stamp(stamps[j]))
      ensures Get(rs2[|before| + j], "role") == Some(Str(RoleName(ms[j].kind)))
    {
      NewRecordFields(ms[j], stamps[j], |before| + j + 1);
    }
  }

  /** Rewriting a decoded record keeps its content and timestamp and normalises its role. */
  lemma RecordRewritten(rec: Dict, m: Message, i: int)
    requires DecodeRecord(rec, true) == Ok(m)
    ensures m.timestamp.Some?
    ensures Get(FirebaseRecord(m, i), "index") == Some(Int(i))
    ensures Get(FirebaseRecord(m, i), "content") == Get(rec, "content")
    ensures Get(FirebaseRecord(m, i), "timestamp") == Get(rec, "timestamp")
    ensures Get(FirebaseRecord(m, i), "role") ==
      Some(Str(if Get(rec, "role") == Some(Str(UserRole)) then UserRole else BotRole))
  {
  }

  /** The same, stated against the stored records the history was decoded from. */
  lemma DecodedRecordsRewritten(rs: seq<Dict>, before: seq<Message>, ms: seq<Message>, stamps: seq<int>)
    requires |stamps| == |ms| && |before| == |rs|
    requires forall i :: 0 <= i < |rs| ==> DecodeRecord(rs[i], true) == Ok(before[i])
    ensures FirebaseRecords(before + Stamped(ms, stamps)).Ok?
    ensures var rs2 := FirebaseRecords(before + Stamped(ms, stamps)).value;
      |rs2| == |rs| + |ms| &&
      (forall i :: 0 <= i < |rs| ==>
        Get(rs2[i], "index") == Some(Int(i + 1)) && Get(rs2[i], "content") == Get(rs[i], "content") &&
        Get(rs2[i], "timestamp") == Get(rs[i], "timestamp") &&
        Get(rs2[i], "role") == Some(Str(if Get(rs[i], "role") == Some(Str(UserRole)) then UserRole else BotRole))) &&
      (forall j :: 0 <= j < |ms| ==>
        Get(rs2[|rs| + j], "index") == Some(Int(|rs| + j + 1)) &&
        Get(rs2[|rs| + j], "content") == Some(Str(ms[j].content)) &&
        Get(rs2[|rs| + j], "timestamp") == Some(Stamp(stamps[j])) &&
        Get(rs2[|rs| + j], "role") == Some(Str(RoleName(ms[j].kind))))
  {
    forall i | 0 <= i < |rs|
      ensures before[i].timestamp.Some?
    {
      RecordRewritten(rs[i], before[i], i + 1);
    }
    RecordsOfAppend(before, ms, stamps);
    var rs2 := FirebaseRecords(before + Stamped(ms, stamps)).value;
    forall i | 0 <= i < |rs|
      ensures Get(rs2[i], "index") == Some(Int(i + 1)) && Get(rs2[i], "content") == Get(rs[i], "content")
      ensures Get(rs2[i], "timestamp") == Get(rs[i], "timestamp")
      ensures Get(rs2[i], "role") == Some(Str(if Get(rs[i], "role") == Some(Str(UserRole)) then UserRole else BotRole))
    {
      RecordRewritten(rs[i], before[i], i + 1);
    }
  }

  /**
   * On a stored list that decodes, the records written back keep every earlier record's content
   * and timestamp (roles as `"user"`/`"chatbot"`), number all entries 1..n, and give each new
   * record its message's role, content and clock reading.
   */
  lemma AddKeepsStoredRecords(collection: string, uid: string, key: string, w: World, rs: seq<Dict>,
                              ms: seq<Message>, stamps: seq<int>)
    requires |stamps| == |ms|
    requires RefOf(collection, uid, w) in w.docs
    requires key in w.docs[RefOf(collection, uid, w)]
    requires w.docs[RefOf(collection, uid, w)][key] == RecordList(rs)
    requires forall i :: 0 <= i < |rs| ==> DecodeRecord(rs[i], true).Ok?
    ensures var rs2 := StoredRecords(AddSpec(collection, uid, key, w, true, ms, stamps).world, RefOf(collection, uid, w), key);
      |rs2| == |rs| + |ms| &&
      (forall i :: 0 <= i < |rs| ==>
        Get(rs2[i], "index") == Some(Int(i + 1)) && Get(rs2[i], "content") == Get(rs[i], "content") &&
        Get(rs2[i], "timestamp") == Get(rs[i], "timestamp") &&
        Get(rs2[i], "role") == Some(Str(if Get(rs[i], "role") == Some(Str(UserRole)) then UserRole else BotRole))) &&
      (forall j :: 0 <= j < |ms| ==>
        Get(rs2[|rs| + j], "index") == Some(Int(|rs| + j + 1)) &&
        Get(rs2[|rs| + j], "content") == Some(Str(ms[j].content)) &&
        Get(rs2[|rs| + j], "timestamp") == Some(Stamp(stamps[j])) &&
        Get(rs2[|rs| + j], "role") == Some(Str(RoleName(ms[j].kind))))
  {
    var before := ReadSpec(collection, uid, key, w, true).messages;
    ReadDecodes(collection, uid, key, w, rs);
    AddReachable(collection, uid, key, w, ms, stamps);
    DecodedRecordsRewritten(rs, before, ms, stamps);
    assert StoredRecords(AddSpec(collection, uid, key, w, true, ms, stamps).world, RefOf(collection, uid, w), key)
        == FirebaseRecords(before + Stamped(ms, stamps)).value;
  }

  /** Writing a field twice in a row, through the cache and the store, leaves only the second write. */
  lemma CommitTwice(docs: Docs, ref: DocRef, data: Document, key: string, v1: DocValue, v2: DocValue)
    ensures data[key := v1][key := v2] == data[key := v2]
    ensures docs[ref := data[key := v1]][ref := data[key := v1][key := v2]] == docs[ref := data[key := v2]]
  {
    assert data[key := v1][key := v2] == data[key := v2];
  }

  /** The state after adding `xs` and then `ys` to a reachable store. */
  lemma AddTwiceState(collection: string, uid: string, key: string, w: World,
                      xs: seq<Message>, sx: seq<int>, ys: seq<Message>, sy: seq<int>)
    requires |sx| == |xs| && |sy| == |ys|
    ensures var read := ReadSpec(collection, uid, key, w, true);
      var all := read.messages + Stamped(xs, sx) + Stamped(ys, sy);
      read.world.dbData.Some? && FirebaseRecords(all).Ok? &&
      AddSpec(collection, uid, key, AddSpec(collection, uid, key, w, true, xs, sx).world, true, ys, sy) ==
        AddResult(None, World(Some(RefOf(collection, uid, w)),
                              Some(read.world.dbData.value[key := RecordList(FirebaseRecords(all).value)]),
                              read.world.docs[RefOf(collection, uid, w) :=
                                read.world.dbData.value[key := RecordList(FirebaseRecords(all).value)]]))
  {
    var read := ReadSpec(collection, uid, key, w, true);
    var ref := RefOf(collection, uid, w);
    var r := read.messages;
    var stampedX := Stamped(xs, sx);
    var stampedY := Stamped(ys, sy);
    AddReachable(collection, uid, key, w, xs, sx);
    var data0 := read.world.dbData.value;
    var docs0 := read.world.docs;
    var w1 := AddSpec(collection, uid, key, w, true, xs, sx).world;
    var v1 := RecordList(FirebaseRecords(r + stampedX).value);
    assert w1 == World(Some(ref), Some(data0[key := v1]), docs0[ref := data0[key := v1]]);
    ReadAfterAdd(collection, uid, key, w, xs, sx);
    assert RefOf(collection, uid, w1) == ref;
    AddReachable(collection, uid, key, w1, ys, sy);
    ReloadShape(r + stampedX, stampedY);
    var v2 := RecordList(FirebaseRecords(ReloadedAll(r + stampedX, true) + stampedY).value);
    assert AddSpec(collection, uid, key, w1, true, ys, sy)
        == AddResult(None, World(Some(ref), Some(data0[key := v1][key := v2]),
                                 docs0[ref := data0[key := v1]][ref := data0[key := v1][key := v2]]));
    CommitTwice(docs0, ref, data0, key, v1, v2);
  }

  /** The state after adding `xs + ys` at once to a reachable store. */
  lemma AddOnceState(collection: string, uid: string, key: string, w: World,
                     xs: seq<Message>, sx: seq<int>, ys: seq<Message>, sy: seq<int>)
    requires |sx| == |xs| && |sy| == |ys|
    ensures var read := ReadSpec(collection, uid, key, w, true);
      var all := read.messages + Stamped(xs, sx) + Stamped(ys, sy);
      read.world.dbData.Some? && FirebaseRecords(all).Ok? &&
      AddSpec(collection, uid, key, w, true, xs + ys, sx + sy) ==
        AddResult(None, World(Some(RefOf(collection, uid, w)),
                              Some(read.world.dbData.value[key := RecordList(FirebaseRecords(all).value)]),
                              read.world.docs[RefOf(collection, uid, w) :=
                                read.world.dbData.value[key := RecordList(FirebaseRecords(all).value)]]))
  {
    var r := ReadSpec(collection, uid, key, w, true).messages;
    AddReachable(collection, uid, key, w, xs + ys, sx + sy);
    StampedConcat(xs, sx, ys, sy);
    assert r + (Stamped(xs, sx) + Stamped(ys, sy)) == r + Stamped(xs, sx) + Stamped(ys, sy);
  }

  /** Adding `xs` then `ys` to a reachable store leaves the same state as adding `xs + ys` at once. */
  lemma SequentialAdd(collection: string, uid: string, key: string, w: World,
                      xs: seq<Message>, sx: seq<int>, ys: seq<Message>, sy: seq<int>)
    requires |sx| == |xs| && |sy| == |ys|
    ensures AddSpec(collection, uid, key, AddSpec(collection, uid, key, w, true, xs, sx).world, true, ys, sy)
         == AddSpec(collection, uid, key, w, true, xs + ys, sx + sy)
  {
    AddTwiceState(collection, uid, key, w, xs, sx, ys, sy);
    AddOnceState(collection, uid, key, w, xs, sx, ys, sy);
  }

  /**
   * Failures: only a `TypeError` escapes, exactly when the store cannot be reached and nothing was
   * cached; an unreachable store with a cached document swallows the failed update, leaving the
   * documents untouched and the cache holding only the new messages.
   */
  lemma AddFailures(collection: string, uid: string, key: string, w: World, reachable: bool,
                    ms: seq<Message>, stamps: seq<int>)
    requires |stamps| == |ms|
    ensures var a := AddSpec(collection, uid, key, w, reachable, ms, stamps);
      a.failure != Some(AttributeError) &&
      (a.failure.Some? <==> !reachable && w.dbData.None?)
    ensures var a := AddSpec(collection, uid, key, w, reachable, ms, stamps);
      a.failure.Some? ==> a.failure == Some(TypeError) && a.world.docs == w.docs
    ensures var a := AddSpec(collection, uid, key, w, reachable, ms, stamps);
      !reachable && w.dbData.Some? ==>
        a.failure == None && a.world.docs == w.docs &&
        FirebaseRecords(Stamped(ms, stamps)).Ok? &&
        a.world.dbData == Some(w.dbData.value[key := RecordList(FirebaseRecords(Stamped(ms, stamps)).value)])
  {
    ReadTimestamped(collection, uid, key, w, reachable);
    var all := ReadSpec(collection, uid, key, w, reachable).messages + Stamped(ms, stamps);
    assert forall i :: 0 <= i < |all| ==> all[i].timestamp.Some?;
    if !reachable {
      assert all == Stamped(ms, stamps);
    }
  }

  /**
   * As written, a stored list that fails to decode reads as `[]`, so the next `add_messages`
   * overwrites it with the new messages alone.
   */
  lemma AddAfterFailedReadDropsStored(collection: string, uid: string, key: string, w: World, rs: seq<Dict>,
                                      ms: seq<Message>, stamps: seq<int>)
    requires |stamps| == |ms|
    requires RefOf(collection, uid, w) in w.docs
    requires key in w.docs[RefOf(collection, uid, w)]
    requires w.docs[RefOf(collection, uid, w)][key] == RecordList(rs)
    requires exists i :: 0 <= i < |rs| && DecodeRecord(rs[i], true).Err?
    ensures FirebaseRecords(Stamped(ms, stamps)).Ok?
    ensures var ref := RefOf(collection, uid, w); var after := AddSpec(collection, uid, key, w, true, ms, stamps).world;
      ref in after.docs && key in after.docs[ref] &&
      after.docs[ref][key] == RecordList(FirebaseRecords(Stamped(ms, stamps)).value)
  {
    AddReachable(collection, uid, key, w, ms, stamps);
    assert ReadSpec(collection, uid, key, w, true).messages == [];
    assert [] + Stamped(ms, stamps) == Stamped(ms, stamps);
  }

  // ---------------------------------------------------------------------------
  // Clearing

  /**
   * `clear` keeps the first `min(2, n)` records of the cached list and leaves the cached
   * document's other fields alone; the store gets the same document when the update goes
   * through, and is otherwise left as it was.
   */
  lemma ClearKeepsFirstTwo(key: string, w: World, reachable: bool, rs: seq<Dict>)
    requires w.dbData.Some? && key in w.dbData.value && w.dbData.value[key] == RecordList(rs)
    ensures var c := ClearSpec(key, w, reachable); var n := if |rs| < 2 then |rs| else 2;
      c.dbData.Some? && key in c.dbData.value && c.dbData.value[key] == RecordList(rs[..n]) &&
      c.dbData.value.Keys == w.dbData.value.Keys &&
      (forall k :: k != key && k in w.dbData.value ==> c.dbData.value[k] == w.dbData.value[k]) &&
      c.docRef == w.docRef
    ensures var c := ClearSpec(key, w, reachable); var n := if |rs| < 2 then |rs| else 2;
      reachable && w.docRef.Some? && w.docRef.value in w.docs ==>
        w.docRef.value in c.docs && key in c.docs[w.docRef.value] &&
        c.docs[w.docRef.value][key] == RecordList(rs[..n]) &&
        forall q :: q != w.docRef.value && q in w.docs ==> q in c.docs && c.docs[q] == w.docs[q]
    ensures !(reachable && w.docRef.Some? && w.docRef.value in w.docs) ==> ClearSpec(key, w, reachable).docs == w.docs
  {
    if |rs| <= 2 {
      assert rs[..|rs|] == rs;
    }
  }

  /** Clearing twice is clearing once. */
  lemma ClearIdempotent(key: string, w: World, reachable: bool)
    ensures ClearSpec(key, ClearSpec(key, w, reachable), reachable) == ClearSpec(key, w, reachable)
  {
    var c := ClearSpec(key, w, reachable);
    if !(w.dbData.None? || key !in w.dbData.value || w.dbData.value[key].Number?) {
      var v := w.dbData.value[key];
      assert Truncated(Truncated(v)) == Truncated(v);
      var data := c.dbData.value;
      assert data[key := Truncated(data[key])] == data;
      if reachable && w.docRef.Some? && w.docRef.value in w.docs {
        var ref := w.docRef.value;
        assert (w.docs[ref] + data) + data == w.docs[ref] + data;
      }
    }
  }

  /** Before any read nothing is cached: `clear` raises internally, swallows it and writes nothing. */
  lemma ClearBeforeRead(key: string, w: World, reachable: bool)
    requires w.dbData.None?
    ensures ClearSpec(key, w, reachable) == w
  {
  }

  /**
   * Read, clear, read: on a stored list that decodes, the second read returns the first
   * `min(2, n)` messages of the first.
   */
  lemma ReadClearRead(collection: string, uid: string, key: string, w: World, rs: seq<Dict>)
    requires RefOf(collection, uid, w) in w.docs
    requires key in w.docs[RefOf(collection, uid, w)]
    requires w.docs[RefOf(collection, uid, w)][key] == RecordList(rs)
    requires forall i :: 0 <= i < |rs| ==> DecodeRecord(rs[i], true).Ok?
    ensures var r := ReadSpec(collection, uid, key, w, true); var n := if |r.messages| < 2 then |r.messages| else 2;
      ReadSpec(collection, uid, key, ClearSpec(key, r.world, true), true).messages == r.messages[..n]
  {
    var r := ReadSpec(collection, uid, key, w, true);
    var n := if |rs| < 2 then |rs| else 2;
    ReadDecodes(collection, uid, key, w, rs);
    ClearKeepsFirstTwo(key, r.world, true, rs);
    var kept := rs[..n];
    assert forall i :: 0 <= i < |kept| ==> kept[i] == rs[i];
    var r2 := ReadSpec(collection, uid, key, ClearSpec(key, r.world, true), true);
    assert RefOf(collection, uid, ClearSpec(key, r.world, true)) == RefOf(collection, uid, w);
    assert r2.messages == DecodeAll(kept, true).value;
  }

  /** The Firestore client: the documents, and whether the service answers at all. */
  class Firestore {
    var docs: Docs
    const reachable: bool

    constructor(docs: Docs, reachable: bool)
      ensures this.docs == docs && this.reachable == reachable
    {
      this.docs := docs;
      this.reachable := reachable;
    }

    /** `doc_ref.get()`: the snapshot, `None` when the document does not exist. */
    method Get(ref: DocRef) returns (r: Result<Option<Document>, StoreError>)
      ensures !reachable ==> r == Err(Unavailable)
      ensures reachable ==> r == Ok(if ref in docs then Some(docs[ref]) else None)
    {
      if !reachable {
        return Err(Unavailable);
      }
      if ref in docs {
        return Ok(Some(docs[ref]));
      }
      return Ok(None);
    }

    /** `doc_ref.set(data)`: create or overwrite the document. */
    method Set(ref: DocRef, data: Document) returns (failure: Option<StoreError>)
      modifies this
      ensures !reachable ==> failure == Some(Unavailable) && docs == old(docs)
      ensures reachable ==> failure == None && docs == old(docs)[ref := data]
    {
      if !reachable {
        return Some(Unavailable);
      }
      docs := docs[ref := data];
      return None;
    }

    /** `doc_ref.update(data)`: merge the fields into an existing document. */
    method Update(ref: DocRef, data: Document) returns (failure: Option<StoreError>)
      modifies this
      ensures docs == UpdateSpec(old(docs), Some(ref), data, reachable)
      ensures failure.None? <==> reachable && ref in old(docs)
    {
      if !reachable {
        return Some(Unavailable);
      }
      if ref !in docs {
        return Some(NotFound);
      }
      docs := docs[ref := docs[ref] + data];
      return None;
    }
  }

  class FirebaseMessageHistory {
    const storagePath: string
    const uid: string
    const key: string
    const db: Firestore
    var docRef: Option<DocRef>
    var dbData: Option<Document>

    /** The cached fields together with the store's documents. */
    function State(): World
      reads this, db
    {
      World(docRef, dbData, db.docs)
    }

    constructor(key: string, uid: string, db: Firestore)
      ensures storagePath == HistoryCollection && this.uid == uid && this.key == key && this.db == db
      ensures docRef == None && dbData == None
    {
      storagePath := HistoryCollection;
      this.uid := uid;
      this.key := key;
      this.db := db;
      docRef := None;
      dbData := None;
    }

    method Messages() returns (r: seq<Message>)
      modifies this, db
      ensures ReadResult(r, State()) == ReadSpec(storagePath, uid, key, old(State()), db.reachable)
    {
      if docRef.None? {
        docRef := Some(FetchRef(uid, storagePath));
      }
      var ref := docRef.value;
      var snapshot := db.Get(ref);
      match snapshot {
        case Err(_) =>
          return [];
        case Ok(None) =>
          dbData := Some(map[key := RecordList([])]);
          var _ := db.Set(ref, dbData.value);
          return [];
        case Ok(Some(data)) =>
          dbData := Some(data);
          if key !in data {
            return [];
          }
          match data[key] {
            case RecordList(rs) =>
              var decoded := MessagesFromDict(rs);
              if decoded.Err? {
                return [];
              }
              return decoded.value;
            case _ =>
              return [];
          }
      }
    }

    /** `add_message`: the message is stamped (once more) inside `add_messages`. */
    method AddMessage(m: Message, now: int) returns (failure: Option<HistoryError>)
      modifies this, db
      ensures AddResult(failure, State()) ==
        AddSpec(storagePath, uid, key, old(State()), db.reachable, [m], [now])
    {
      failure := AddMessages([m], [now]);
    }

    method AddMessages(ms: seq<Message>, stamps: seq<int>) returns (failure: Option<HistoryError>)
      requires |stamps| == |ms|
      modifies this, db
      ensures AddResult(failure, State()) ==
        AddSpec(storagePath, uid, key, old(State()), db.reachable, ms, stamps)
    {
      var stamped: seq<Message> := [];
      for i := 0 to |ms|
        invariant |stamped| == i
        invariant forall j :: 0 <= j < i ==> stamped[j] == ms[j].(timestamp := Some(Stamp(stamps[j])))
      {
        stamped := stamped + [ms[i].(timestamp := Some(Stamp(stamps[i])))];
      }
      assert stamped == Stamped(ms, stamps);
      var existing := Messages();
      var all := existing + stamped;
      var serialized := MessagesToDict(all);
      match serialized {
        case Err(e) =>
          return Some(e);
        case Ok(rs) =>
          if dbData.None? {
            return Some(TypeError);
          }
          dbData := Some(dbData.value[key := RecordList(rs)]);
          var _ := db.Update(docRef.value, dbData.value);
          return None;
      }
    }

    method Clear()
      modifies this, db
      ensures State() == ClearSpec(key, old(State()), db.reachable)
    {
      if dbData.None? || key !in dbData.value || dbData.value[key].Number? {
        return;
      }
      var prompts := Truncated(dbData.value[key]);
      dbData := Some(dbData.value[key := prompts]);
      if docRef.None? {
        return;
      }
      var _ := db.Update(docRef.value, dbData.value);
    }

    /** Decode the records in order, timestamps included; the first record that fails stops the loop. */
    method MessagesFromDict(rs: seq<Dict>) returns (r: Result<seq<Message>, DecodeError>)
      ensures r == DecodeAll(rs, true)
    {
      var final: seq<Message> := [];
      var i := 0;
      while i < |rs|
        invariant 0 <= i <= |rs|
        invariant DecodeAll(rs[..i], true) == Ok(final)
      {
        assert rs[..i + 1][..i] == rs[..i];
        match DecodeRecord(rs[i], true) {
          case Err(e) =>
            DecodePrefixError(rs, i + 1, true);
            return Err(e);
          case Ok(m) =>
            final := final + [m];
        }
        i := i + 1;
      }
      assert rs[..i] == rs;
      return Ok(final);
    }

    /** Number the messages from 1, recording role, content and timestamp. */
    method MessagesToDict(ms: seq<Message>) returns (r: Result<seq<Dict>, HistoryError>)
      ensures r == FirebaseRecords(ms)
    {
      var dctList: seq<Dict> := [];
      for i := 1 to |ms| + 1
        invariant |dctList| == i - 1
        invariant forall j :: 0 <= j < i - 1 ==> ms[j].timestamp.Some? && dctList[j] == FirebaseRecord(ms[j], j + 1)
      {
        var message := ms[i - 1];
        if message.timestamp.None? {
          return Err(AttributeError);
        }
        var role := if message.kind == Human then UserRole else BotRole;
        dctList := dctList + [map["index" := Int(i), "role" := Str(role), "content" := Str(message.content),
                                  "timestamp" := message.timestamp.value]];
      }
      assert forall j :: 0 <= j < |ms| ==> ms[j].timestamp.Some?;
      assert dctList == seq(|ms|, j requires 0 <= j < |ms| => FirebaseRecord(ms[j], j + 1));
      return Ok(dctList);
    }
  }
}
