/**
 * The texts the survey builds for the selector: the formatted history, the
 * numbered list of remaining questions, and the selection prompt that
 * combines both.
 */
module Prompts {
  import opened Questions
  import Parse
  import opened Wrappers

  const NO_HISTORY := "No previous questions asked."
  const HISTORY_HEADER := "Previous questions and answers:\n"
  const REMAINING_HEADER := "Available questions:\n"
  const TASK_LINE := "Task: Select the most appropriate next question number from the available options.\n\n"
  const RESPONSES_HEADER := "Previous responses:\n"
  const OPTIONS_HEADER := "Available questions (select one number):\n"
  const INSTRUCTION := "\nProvide ONLY the question number (e.g. '2' or '15'). Do not explain your choice."

  /** The two lines that show one answered question. */
  function QaLines(e: Entry): string
  {
    "Q: " + e.question + "\nA: " + e.answer + "\n"
  }

  /** The answered questions, two lines each, in asking order. */
  function HistoryLines(history: seq<Entry>): string
  {
    if history == [] then ""
    else HistoryLines(history[..|history| - 1]) + QaLines(history[|history| - 1])
  }

  /** One numbered line, "<index><sep><question>\n". */
  function NumberedLine(index: nat, sep: string, question: string): string
  {
    Parse.Decimal(index) + sep + question + "\n"
  }

  /** The questions, one line each, numbered consecutively from `first`. */
  function Numbered(questions: seq<string>, first: nat, sep: string): string
  {
    if questions == [] then ""
    else
      var n := |questions| - 1;
      Numbered(questions[..n], first, sep) + NumberedLine(first + n, sep, questions[n])
  }

  /** format_history_for_llm. */
  function HistoryText(history: seq<Entry>): string
  {
    if history == [] then NO_HISTORY else HISTORY_HEADER + HistoryLines(history)
  }

  /** format_remaining_questions: the positional index is what the selector must name. */
  function RemainingText(remaining: seq<string>): string
  {
    REMAINING_HEADER + Numbered(remaining, 0, ": ")
  }

  /** The responses block of the prompt; absent while nothing has been asked. */
  function ResponsesBlock(history: seq<Entry>): string
  {
    if history == [] then "" else RESPONSES_HEADER + HistoryLines(history) + "\n"
  }

  /** Everything the selection prompt shows before the numbered questions. */
  function PromptHead(history: seq<Entry>): string
  {
    TASK_LINE + ResponsesBlock(history) + OPTIONS_HEADER
  }

  /** _create_selection_prompt. */
  function SelectionPrompt(history: seq<Entry>, remaining: seq<string>): string
  {
    PromptHead(history) + Numbered(remaining, 0, ". ") + INSTRUCTION
  }

  /** The history text is the "nothing asked yet" sentence exactly when the history is empty. */
  lemma HistoryTextEmpty(history: seq<Entry>)
    ensures HistoryText(history) == NO_HISTORY <==> history == []
  {
    if history != [] {
      assert HistoryText(history)[0] == 'P';
    }
  }

  /** A numbered listing splits at any point, the numbering carrying on. */
  lemma {:induction false} NumberedSplit(a: seq<string>, b: seq<string>, first: nat, sep: string)
    ensures Numbered(a + b, first, sep) == Numbered(a, first, sep) + Numbered(b, first + |a|, sep)
  {
    if b == [] {
      assert a + b == a;
    } else {
      var n := |b| - 1;
      assert (a + b)[..|a + b| - 1] == a + b[..n];
      assert (a + b)[|a + b| - 1] == b[n];
      NumberedSplit(a, b[..n], first, sep);
      Assoc(Numbered(a, first, sep), Numbered(b[..n], first + |a|, sep), NumberedLine(first + |a| + n, sep, b[n]));
    }
  }

  /** A proof step only: string concatenation regroups freely. */
  lemma Assoc(x: string, y: string, z: string)
    ensures (x + y) + z == x + (y + z)
  {
  }

  /**
   * The listing of `questions` shows question k on its own line, labelled
   * with the index k, after the lines for the earlier questions and before
   * those for the later ones.
   */
  lemma NumberedAt(questions: seq<string>, k: nat, sep: string)
    requires k < |questions|
    ensures Numbered(questions, 0, sep)
         == Numbered(questions[..k], 0, sep) + NumberedLine(k, sep, questions[k]) + Numbered(questions[k + 1..], k + 1, sep)
  {
    var front, back := questions[..k + 1], questions[k + 1..];
    assert questions == front + back;
    NumberedSplit(front, back, 0, sep);
    assert front[..k] == questions[..k];
  }

  /** The list of remaining questions shows each one on its own line under its positional index. */
  lemma RemainingTextOffers(remaining: seq<string>, k: nat)
    requires k < |remaining|
    ensures RemainingText(remaining)
         == REMAINING_HEADER + (Numbered(remaining[..k], 0, ": ") + NumberedLine(k, ": ", remaining[k])
                                + Numbered(remaining[k + 1..], k + 1, ": "))
  {
    NumberedAt(remaining, k, ": ");
  }

  /**
   * The selection prompt shows each remaining question on its own line under
   * its positional index, between the lines of its neighbours.
   */
  lemma PromptOffers(history: seq<Entry>, remaining: seq<string>, k: nat)
    requires k < |remaining|
    ensures SelectionPrompt(history, remaining)
         == PromptHead(history) + (Numbered(remaining[..k], 0, ". ") + NumberedLine(k, ". ", remaining[k])
                                   + Numbered(remaining[k + 1..], k + 1, ". ")) + INSTRUCTION
  {
    NumberedAt(remaining, k, ". ");
  }

  /** A reply that starts with a shown line, however it goes on, names that line's index. */
  lemma EchoedLineNamesIndex(k: nat, sep: string, question: string, rest: string)
    requires sep != [] && !Parse.IsDigit(sep[0])
    ensures Parse.ParseLlmResponse(NumberedLine(k, sep, question) + rest) == Some(k)
  {
    var tail := sep + question + "\n" + rest;
    assert NumberedLine(k, sep, question) + rest == Parse.Decimal(k) + tail;
    Parse.DecimalRoundTrip(k, tail);
  }
}
