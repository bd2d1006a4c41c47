/**
 * The two reply sanitisers: `ChatOutputParser.parse_result`, which cuts a completion at the
 * first hallucinated dialogue marker (or at the first line break when there is none), and
 * `DeepseekOutputParser.parse`, which drops a `<think>...</think>` reasoning block.
 */
module Parsers {
  import opened Wrappers
  import opened PyStr

  /** One candidate completion handed to a parser. */
  datatype Generation = ChatGeneration(content: string) | TextGeneration(text: string)

  /** What the parsers raise. */
  datatype ParseError =
    | NotImplemented             // NotImplementedError: not exactly one candidate
    | OutputParserException      // the one candidate is not a chat generation
    | ValueError(missing: string) // `str.index` did not find `missing`

  const AiMarker := "AI:"
  const HumanMarker := "Human:"
  const ThinkOpen := "<think>"
  const ThinkClose := "</think>"

  /** The content of the single chat candidate, or the error raised for any other list. */
  function SingleChatContent(result: seq<Generation>): (r: Result<string, ParseError>) {
    if |result| != 1 then Err(NotImplemented)
    else if !result[0].ChatGeneration? then Err(OutputParserException)
    else Ok(result[0].content)
  }

  /** The body of `ChatOutputParser.parse_result` once the content has been extracted. */
  function CleanChat(content: string): (r: Result<string, ParseError>)
    ensures r.Err? ==> r.error == ValueError(HumanMarker) || r.error == ValueError(AiMarker)
    ensures r.Err? ==> Contains(Strip(content), AiMarker) || Contains(Strip(content), HumanMarker)
  {
    var c := Strip(content);
    if !Contains(c, AiMarker) && !Contains(c, HumanMarker) then Ok(ReplyLine(c))
    else ReplyBeforeMarkers(c)
  }

  /** Marker-free content: cut at the first line break, then strip. */
  function ReplyLine(c: string): (r: string) {
    var line := if '\n' in c then FirstLine(c) else c;
    Strip(line)
  }

  /** Content with a marker: the stripped text before the earlier of the two markers. */
  function ReplyBeforeMarkers(c: string): (r: Result<string, ParseError>) {
    match Find(c, HumanMarker)
    case None => Err(ValueError(HumanMarker))
    case Some(h) =>
      match Find(c, AiMarker)
      case None => Err(ValueError(AiMarker))
      case Some(a) => Ok(Strip(c[..if h <= a then h else a]))
  }

  /** `ChatOutputParser.parse_result`. */
  function ChatParseResult(result: seq<Generation>): (r: Result<string, ParseError>)
    ensures |result| != 1 ==> r == Err(NotImplemented)
    ensures |result| == 1 && result[0].TextGeneration? ==> r == Err(OutputParserException)
    ensures |result| == 1 && result[0].ChatGeneration? ==> r == CleanChat(result[0].content)
  {
    match SingleChatContent(result)
    case Err(e) => Err(e)
    case Ok(content) => CleanChat(content)
  }

  /** `DeepseekOutputParser.parse` accepts a bare string as well as a candidate list. */
  datatype DeepseekInput = Text(s: string) | Candidates(generations: seq<Generation>)

  /** The body of `DeepseekOutputParser.parse` once the content has been extracted. */
  function CleanThink(content: string): (r: Result<string, ParseError>)
    ensures r.Ok? <==> Contains(content, ThinkOpen) && Contains(content, ThinkClose)
  {
    match Find(content, ThinkOpen)
    case None => Err(ValueError(ThinkOpen))
    case Some(_) =>
      match Find(content, ThinkClose)
      case None => Err(ValueError(ThinkClose))
      case Some(e) => Ok(Strip(content[e + 8..]))
  }

  /** `DeepseekOutputParser.parse`. */
  function DeepseekParse(input: DeepseekInput): (r: Result<string, ParseError>)
    ensures input.Text? ==> r == CleanThink(input.s)
    ensures input.Candidates? && r.Ok? ==>
      |input.generations| == 1 && input.generations[0].ChatGeneration? &&
      Contains(input.generations[0].content, ThinkOpen) && Contains(input.generations[0].content, ThinkClose)
  {
    var content := match input
      case Text(s) => Ok(s)
      case Candidates(gs) => SingleChatContent(gs);
    match content
    case Err(e) => Err(e)
    case Ok(c) => CleanThink(c)
  }

  // ---------------------------------------------------------------------------
  // Properties of the chat parser

  /** Both parsers refuse a candidate list that is not exactly one chat generation. */
  lemma CandidateErrors(result: seq<Generation>)
    ensures |result| != 1 ==>
      ChatParseResult(result) == Err(NotImplemented) &&
      DeepseekParse(Candidates(result)) == Err(NotImplemented)
    ensures |result| == 1 && result[0].TextGeneration? ==>
      ChatParseResult(result) == Err(OutputParserException) &&
      DeepseekParse(Candidates(result)) == Err(OutputParserException)
  {
  }

  /** No marker: the reply is the first line of the stripped content, stripped again, and is one line. */
  lemma ChatWithoutMarkers(content: string)
    requires !Contains(content, AiMarker) && !Contains(content, HumanMarker)
    ensures CleanChat(content) == Ok(Strip(FirstLine(Strip(content))))
    ensures '\n' !in CleanChat(content).value
  {
    var c := Strip(content);
    ContainsStripped(content, AiMarker);
    ContainsStripped(content, HumanMarker);
    if '\n' !in c {
      FirstLineWhole(c);
    }
    StripKeepsAbsent(FirstLine(c), '\n');
  }

  /** No marker and no line break: the reply is the stripped content. */
  lemma ChatSingleLine(content: string)
    requires !Contains(content, AiMarker) && !Contains(content, HumanMarker)
    requires '\n' !in content
    ensures CleanChat(content) == Ok(Strip(content))
  {
    ContainsStripped(content, AiMarker);
    ContainsStripped(content, HumanMarker);
    StripKeepsAbsent(content, '\n');
    StripStrip(content);
  }

  /** Both markers: the reply is the stripped text before the earlier one and contains neither. */
  lemma ChatWithBothMarkers(content: string)
    requires Contains(content, AiMarker) && Contains(content, HumanMarker)
    ensures var c := Strip(content);
      Contains(c, HumanMarker) && Contains(c, AiMarker) &&
      var h := Find(c, HumanMarker).value;
      var a := Find(c, AiMarker).value;
      CleanChat(content) == Ok(Strip(c[..if h <= a then h else a]))
    ensures !Contains(CleanChat(content).value, AiMarker)
    ensures !Contains(CleanChat(content).value, HumanMarker)
  {
    var c := Strip(content);
    ContainsStripped(content, AiMarker);
    ContainsStripped(content, HumanMarker);
    var h := Find(c, HumanMarker).value;
    var a := Find(c, AiMarker).value;
    var m := if h <= a then h else a;
    var prefix := c[..m];
    var r := Strip(prefix);
    var i := StripStart(prefix);
    assert r == c[i..i + |r|] by { assert r == prefix[i..i + |r|]; }
    NotInEarlyPrefix(c, r, i, m, AiMarker);
    NotInEarlyPrefix(c, r, i, m, HumanMarker);
  }

  /** A slice ending before the first occurrence of `t` does not contain `t`. */
  lemma NotInEarlyPrefix(c: string, r: string, i: nat, m: nat, t: string)
    requires |t| > 0 && i + |r| <= m <= |c| && r == c[i..i + |r|]
    requires Find(c, t).Some? && m <= Find(c, t).value
    ensures !Contains(r, t)
  {
    if Contains(r, t) {
      var j := Find(r, t).value;
      OccursInSlice(c, t, i, i + |r|, j);
    }
  }

  /** Exactly one marker: `str.index` on the absent one raises and no reply is produced. */
  lemma ChatWithOneMarker(content: string)
    requires Contains(content, AiMarker) != Contains(content, HumanMarker)
    ensures CleanChat(content) ==
      Err(ValueError(if Contains(content, HumanMarker) then AiMarker else HumanMarker))
  {
    ContainsStripped(content, AiMarker);
    ContainsStripped(content, HumanMarker);
  }

  /**
   * A single-line reply without markers loses only its surrounding whitespace, as in
   * `"  padded reply  "` giving `"padded reply"`.
   */
  lemma ChatPaddedReply(reply: string)
    requires reply == [] || (!IsSpace(reply[0]) && !IsSpace(reply[|reply| - 1]))
    requires '\n' !in reply && !Contains(reply, AiMarker) && !Contains(reply, HumanMarker)
    ensures ChatParseResult([ChatGeneration("  " + reply + "  ")]) == Ok(reply)
  {
    var content := "  " + reply + "  ";
    if reply == [] {
      assert Strip(content) == [];
    } else {
      StripBetween(content, 2, 2 + |reply|);
      assert content[2..2 + |reply|] == reply;
    }
    ContainsStripped(content, AiMarker);
    ContainsStripped(content, HumanMarker);
    FirstLineWhole(reply);
  }

  /** `"Hello AI: junk"` has only the assistant marker, so the parser raises. */
  lemma ChatHelloExample(content: string)
    requires content == "Hello AI: junk"
    ensures ChatParseResult([ChatGeneration(content)]) == Err(ValueError(HumanMarker))
  {
    MissingCharNotContained(content, HumanMarker, 'm');
    assert OccursAt(content, AiMarker, 6) by { assert content[6..9] == AiMarker; }
    OccursContains(content, AiMarker, 6);
    ChatWithOneMarker(content);
  }

  // ---------------------------------------------------------------------------
  // Properties of the think-block parser

  /** A bare string is parsed as it is; a list must be exactly one chat generation, whose content is parsed. */
  lemma DeepseekContent(s: string, result: seq<Generation>)
    ensures DeepseekParse(Text(s)) == CleanThink(s)
    ensures |result| == 1 && result[0].ChatGeneration? ==>
      DeepseekParse(Candidates(result)) == CleanThink(result[0].content)
    ensures !(|result| == 1 && result[0].ChatGeneration?) ==> DeepseekParse(Candidates(result)).Err?
  {
  }

  /** The parser succeeds exactly when both delimiters occur, and then returns the stripped text after the first `</think>`. */
  lemma ThinkSuccess(content: string)
    ensures CleanThink(content).Ok? <==> Contains(content, ThinkOpen) && Contains(content, ThinkClose)
    ensures !Contains(content, ThinkOpen) ==> CleanThink(content) == Err(ValueError(ThinkOpen))
    ensures Contains(content, ThinkOpen) && !Contains(content, ThinkClose) ==>
      CleanThink(content) == Err(ValueError(ThinkClose))
    ensures CleanThink(content).Ok? ==>
      CleanThink(content) == Ok(Strip(content[Find(content, ThinkClose).value + |ThinkClose|..]))
  {
  }

  /**
   * Whatever precedes the first `</think>` never reaches the reply, and the position of
   * `<think>` is not checked: only the text after that first `</think>` matters.
   */
  lemma ThinkIgnoresPrefix(x: string, y: string)
    requires !Contains(x, ThinkClose)
    requires Contains(x + ThinkClose + y, ThinkOpen)
    ensures CleanThink(x + ThinkClose + y) == Ok(Strip(y))
  {
    var c := x + ThinkClose + y;
    FirstCloseAt(x, y);
    assert c[|x| + 8..] == y;
  }

  /** The first `</think>` in `x + "</think>" + y` is the one after `x` when `x` has none. */
  lemma FirstCloseAt(x: string, y: string)
    requires !Contains(x, ThinkClose)
    ensures Find(x + ThinkClose + y, ThinkClose) == Some(|x|)
  {
    var c := x + ThinkClose + y;
    assert c[|x|..|x| + 8] == ThinkClose;
    OccursContains(c, ThinkClose, |x|);
    var j := Find(c, ThinkClose).value;
    if j < |x| {
      // a `</think>` straddling the end of `x` is impossible: its only '<' is its first character
      if j + 8 <= |x| {
        assert c[j..j + 8] == x[j..j + 8];
        OccursContains(x, ThinkClose, j);
      } else {
        OccursAtChar(c, ThinkClose, j, |x| - j);
        assert false;
      }
    }
  }

  /**
   * A reasoning block followed by a space and a trimmed answer yields the answer, as in
   * `"<think>reasoning</think> final answer"` giving `"final answer"`.
   */
  lemma ThinkBlockThenAnswer(reasoning: string, answer: string)
    requires !Contains(ThinkOpen + reasoning, ThinkClose)
    requires answer == [] || (!IsSpace(answer[0]) && !IsSpace(answer[|answer| - 1]))
    ensures DeepseekParse(Text(ThinkOpen + reasoning + ThinkClose + " " + answer)) == Ok(answer)
  {
    var x, y := ThinkOpen + reasoning, " " + answer;
    var content := ThinkOpen + reasoning + ThinkClose + " " + answer;
    assert content == x + ThinkClose + y;
    assert OccursAt(content, ThinkOpen, 0) by { assert content[..7] == ThinkOpen; }
    OccursContains(content, ThinkOpen, 0);
    ThinkIgnoresPrefix(x, y);
    StripAfterSpace(answer);
  }

  /**
   * A `<think>` that comes only after `</think>` is accepted and returned, as in
   * `"</think>answer<think>"` giving `"answer<think>"`.
   */
  lemma ThinkOrderNotChecked(before: string, answer: string)
    requires !Contains(before, ThinkClose)
    requires answer == [] || !IsSpace(answer[0])
    ensures DeepseekParse(Text(before + ThinkClose + answer + ThinkOpen)) == Ok(answer + ThinkOpen)
  {
    var y := answer + ThinkOpen;
    var content := before + ThinkClose + answer + ThinkOpen;
    var i := |before| + 8 + |answer|;
    assert content == before + ThinkClose + y;
    assert OccursAt(content, ThinkOpen, i) by { assert content[i..i + 7] == ThinkOpen; }
    OccursContains(content, ThinkOpen, i);
    ThinkIgnoresPrefix(before, y);
    StripTrimmedConcat(answer, ThinkOpen);
    assert CleanThink(content) == Ok(y);
    assert DeepseekParse(Text(content)) == CleanThink(content);
  }
}
