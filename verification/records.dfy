/**
 * Chat messages and the dictionary records both history stores keep them in.
 * A record is a JSON object / Firestore map, so a missing key is representable.
 */
module Records {
  import opened Wrappers

  /** The message class: `HumanMessage`, `AIMessage`, or any other `BaseMessage` subclass. */
  datatype Kind = Human | Ai | OtherKind(typeName: string)

  /** A value stored under one key of a record; `Stamp` is a stored date-time. */
  datatype Field = Str(s: string) | Int(i: int) | Stamp(t: int)

  /** One stored record. */
  type Dict = map<string, Field>

  /** A chat message: its class, its text and the `timestamp` attribute, when it has one. */
  datatype Message = Message(kind: Kind, content: string, timestamp: Option<Field>)

  /** What decoding a record raises: a missing key, or content the message class rejects. */
  datatype DecodeError = KeyError(name: string) | ValidationError

  /** `dict.get`: the value under `name`, if any. */
  function Get(rec: Dict, name: string): (r: Option<Field>)
    ensures r.Some? <==> name in rec
    ensures r.Some? ==> rec[name] == r.value
  {
    if name in rec then Some(rec[name]) else None
  }

  const UserRole := "user"
  const BotRole := "chatbot"

  /** The role written for a message: only `HumanMessage` is a user. */
  function RoleName(k: Kind): (r: string)
    ensures r == UserRole <==> k == Human
    ensures r == UserRole || r == BotRole
  {
    if k == Human then UserRole else BotRole
  }

  /** The message class rebuilt from a stored role: `"user"` is human, everything else is AI. */
  function KindOf(role: Field): (k: Kind)
    ensures k == Human <==> role == Str(UserRole)
    ensures k == Human || k == Ai
  {
    if role == Str(UserRole) then Human else Ai
  }

  /**
   * One step of `messages_from_dict`: look up `role`, `content` and (for a timestamped
   * store) `timestamp`, in that order, then build the message; non-text content is refused.
   */
  function DecodeRecord(rec: Dict, stamped: bool): (r: Result<Message, DecodeError>)
    ensures r.Ok? <==>
      "role" in rec && "content" in rec && (stamped ==> "timestamp" in rec) && rec["content"].Str?
    ensures r.Ok? ==> ("role" in rec && "content" in rec && rec["content"].Str? &&
                       r.value.kind == KindOf(rec["role"]) && r.value.content == rec["content"].s &&
                       (r.value.timestamp.Some? <==> stamped))
    ensures r.Err? ==> (r.error == ValidationError || r.error == KeyError("role") ||
                        r.error == KeyError("content") || r.error == KeyError("timestamp"))
  {
    if "role" !in rec then Err(KeyError("role"))
    else if "content" !in rec then Err(KeyError("content"))
    else if stamped && "timestamp" !in rec then Err(KeyError("timestamp"))
    else if !rec["content"].Str? then Err(ValidationError)
    else Ok(Message(KindOf(rec["role"]), rec["content"].s,
                    if stamped then Some(rec["timestamp"]) else None))
  }

  /** `messages_from_dict`: decode every record in order; the first failing record's error escapes. */
  function DecodeAll(rs: seq<Dict>, stamped: bool): (r: Result<seq<Message>, DecodeError>)
    ensures r.Ok? <==> forall i :: 0 <= i < |rs| ==> DecodeRecord(rs[i], stamped).Ok?
    ensures r.Ok? ==> (|r.value| == |rs| &&
                       forall i :: 0 <= i < |rs| ==> r.value[i] == DecodeRecord(rs[i], stamped).value)
    decreases |rs|
  {
    if rs == [] then Ok([])
    else
      match DecodeAll(rs[..|rs| - 1], stamped)
      case Err(e) => Err(e)
      case Ok(ms) =>
        match DecodeRecord(rs[|rs| - 1], stamped)
        case Err(e) => Err(e)
        case Ok(m) => Ok(ms + [m])
  }

  /** The error `DecodeAll` reports is the one of the first record that fails. */
  lemma {:induction false} DecodeFirstError(rs: seq<Dict>, stamped: bool)
    requires DecodeAll(rs, stamped).Err?
    ensures exists i :: (0 <= i < |rs| && DecodeRecord(rs[i], stamped) == Err(DecodeAll(rs, stamped).error) &&
                         forall j :: 0 <= j < i ==> DecodeRecord(rs[j], stamped).Ok?)
    decreases |rs|
  {
    var n := |rs| - 1;
    var front := rs[..n];
    if DecodeAll(front, stamped).Err? {
      DecodeFirstError(front, stamped);
      var i :| 0 <= i < |front| && DecodeRecord(front[i], stamped) == Err(DecodeAll(front, stamped).error) &&
        forall j :: 0 <= j < i ==> DecodeRecord(front[j], stamped).Ok?;
      assert rs[i] == front[i];
      assert forall j :: 0 <= j < i ==> rs[j] == front[j];
    } else {
      assert forall j :: 0 <= j < n ==> rs[j] == front[j];
      assert DecodeRecord(rs[n], stamped) == Err(DecodeAll(rs, stamped).error);
    }
  }

  /** An error in a prefix is the error of the whole list. */
  lemma {:induction false} DecodePrefixError(rs: seq<Dict>, k: nat, stamped: bool)
    requires k <= |rs|
    requires DecodeAll(rs[..k], stamped).Err?
    ensures DecodeAll(rs, stamped) == DecodeAll(rs[..k], stamped)
    decreases |rs| - k
  {
    if k < |rs| {
      assert rs[..k + 1][..k] == rs[..k];
      DecodePrefixError(rs, k + 1, stamped);
    } else {
      assert rs[..k] == rs;
    }
  }

  /** What a message looks like once stored and read back. */
  function Reloaded(m: Message, stamped: bool): Message {
    Message(if m.kind == Human then Human else Ai, m.content, if stamped then m.timestamp else None)
  }

  function ReloadedAll(ms: seq<Message>, stamped: bool): (r: seq<Message>)
    ensures |r| == |ms|
  {
    seq(|ms|, i requires 0 <= i < |ms| => Reloaded(ms[i], stamped))
  }

  lemma ReloadedConcat(xs: seq<Message>, ys: seq<Message>, stamped: bool)
    ensures ReloadedAll(xs + ys, stamped) == ReloadedAll(xs, stamped) + ReloadedAll(ys, stamped)
  {
  }
}
