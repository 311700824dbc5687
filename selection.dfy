/**
 * What select_next_question does with the selector's reply: guard on the
 * round limit and the remaining list, parse the index, check its range, and
 * remove the chosen question by position.
 */
module Selection {
  import opened Wrappers
  import opened Questions
  import Parse
  import Prompts

  /**
   * The outcome of one call to the external selector. TransportFailure
   * stands for every exception raised before the reply text is in hand
   * (connection error, non-success status, a body that is not JSON or lacks
   * choices[0].message.content), and also a content that is not a string,
   * which the parser turns into None by catching its own exception;
   * Content carries that text.
   */
  datatype SelectorReply = TransportFailure | Content(text: string)

  /** The chat-completion service: the reply it gives to a prompt. */
  type Llm = string -> SelectorReply

  /** The question chosen, if any, and the remaining list afterwards. */
  datatype Selection = Selection(question: Option<string>, remaining: seq<string>)

  /** The reply names a position of a list of length n. */
  predicate NamesPosition(reply: SelectorReply, n: nat)
  {
    reply.Content? && Parse.ParseLlmResponse(reply.text).Some? && Parse.ParseLlmResponse(reply.text).value < n
  }

  /** The position a reply names; meaningful when NamesPosition holds. */
  function NamedPosition(reply: SelectorReply): nat
  {
    if reply.Content? && Parse.ParseLlmResponse(reply.text).Some? then Parse.ParseLlmResponse(reply.text).value else 0
  }

  /** The result of select_next_question, given the state it reads and the selector's reply. */
  function Select(count: nat, remaining: seq<string>, reply: SelectorReply): (r: Selection)
    ensures r.question.Some? <==> count < MAX_QUESTIONS && NamesPosition(reply, |remaining|)
    ensures r.question.None? ==> r.remaining == remaining
    ensures r.question.Some? ==>
      var i := NamedPosition(reply);
      && r.question.value == remaining[i]
      && r.remaining == remaining[..i] + remaining[i + 1..]
    ensures r.question.Some? ==> |r.remaining| == |remaining| - 1
  {
    if count >= MAX_QUESTIONS || |remaining| == 0 then Selection(None, remaining)
    else match reply
      case TransportFailure => Selection(None, remaining)
      case Content(text) =>
        match Parse.ParseLlmResponse(text)
        case None => Selection(None, remaining)
        case Some(i) =>
          if i < |remaining| then
            Selection(Some(remaining[i]), remaining[..i] + remaining[i + 1..])
          else Selection(None, remaining)
  }

  /** A successful selection moves one question out of the list and loses none. */
  lemma SelectKeepsQuestions(count: nat, remaining: seq<string>, reply: SelectorReply)
    ensures var r := Select(count, remaining, reply);
      r.question.Some? ==> multiset(r.remaining) + multiset{r.question.value} == multiset(remaining)
  {
    var r := Select(count, remaining, reply);
    if r.question.Some? {
      var i := NamedPosition(reply);
      assert remaining == remaining[..i] + [remaining[i]] + remaining[i + 1..];
    }
  }

  /** A reply that starts with index k, followed by anything but a digit, gets question k. */
  lemma IndexReplySelects(count: nat, remaining: seq<string>, k: nat, rest: string)
    requires count < MAX_QUESTIONS && k < |remaining|
    requires rest == [] || !Parse.IsDigit(rest[0])
    ensures Select(count, remaining, Content(Parse.Decimal(k) + rest))
         == Selection(Some(remaining[k]), remaining[..k] + remaining[k + 1..])
  {
    Parse.DecimalRoundTrip(k, rest);
  }

  /** A reply that echoes the line the prompt shows for question k, with anything after it, gets question k. */
  lemma EchoedLineSelects(count: nat, remaining: seq<string>, k: nat, rest: string)
    requires count < MAX_QUESTIONS && k < |remaining|
    ensures Select(count, remaining, Content(Prompts.NumberedLine(k, ". ", remaining[k]) + rest))
         == Selection(Some(remaining[k]), remaining[..k] + remaining[k + 1..])
  {
    Prompts.EchoedLineNamesIndex(k, ". ", remaining[k], rest);
  }

  /** The worked example: from ["Q0", "Q1", "Q2"], the reply "1" picks "Q1" and leaves ["Q0", "Q2"]. */
  lemma SelectExample()
    ensures Select(0, ["Q0", "Q1", "Q2"], Content("1")) == Selection(Some("Q1"), ["Q0", "Q2"])
  {
    assert "1" == Parse.Decimal(1) + [];
    Parse.DecimalRoundTrip(1, []);
  }
}
