/**
 * The survey object: the three fields the Python class mutates, and its
 * methods as imperative code — the prompt builders' accumulation loops,
 * the selection that pops from the remaining list, and the session loop
 * that records rounds and resets the state at the end.
 */
module Survey {
  import opened Wrappers
  import opened Questions
  import opened Parse
  import opened Prompts
  import opened Selection
  import opened Session

  /** How the program creates a session: from QUESTION_BANK, which is Bank(). */
  method NewSession() returns (s: PreferenceSurvey)
    ensures s.Valid()
    ensures s.questionBank == Bank()
    ensures s.Current() == Fresh(Bank())
  {
    BankFacts();
    s := new PreferenceSurvey(Bank());
  }

  class PreferenceSurvey {
    /** The canonical bank the session was created from (question_bank). */
    const questionBank: seq<string>
    /** remaining_questions: positions shift down after every removal. */
    var remaining: seq<string>
    /** conversation_history, in asking order. */
    var history: seq<Entry>
    /** question_count. */
    var count: nat

    ghost predicate Valid()
      reads this
    {
      UsableBank(questionBank) && Inv(questionBank, Current())
    }

    function Current(): State
      reads this
    {
      State(remaining, history, count)
    }

    /**
     * A new session works on its own copy of the bank it is given; the
     * program always gives it QUESTION_BANK, which is Bank().
     */
    constructor (bank: seq<string>)
      requires UsableBank(bank)
      ensures Valid()
      ensures questionBank == bank
      ensures Current() == Fresh(bank)
    {
      questionBank := bank;
      remaining := bank;
      history := [];
      count := 0;
      FreshInv(bank);
    }

    /** is_complete: under the invariant, complete means exactly five rounds are recorded. */
    function IsComplete(): (done: bool)
      reads this
      ensures Valid() ==> (done <==> |history| == MAX_QUESTIONS)
    {
      count >= MAX_QUESTIONS
    }

    /** simulate_response: a free choice between the two answers. */
    method SimulateResponse() returns (answer: string)
      ensures IsAnswer(answer)
    {
      answer :| answer in {"yes", "no"};
    }

    /** format_history_for_llm. */
    method FormatHistoryForLlm() returns (text: string)
      ensures text == HistoryText(history)
    {
      if |history| == 0 {
        return NO_HISTORY;
      }
      text := HISTORY_HEADER;
      var k := 0;
      while k < |history|
        invariant k <= |history|
        invariant text == HISTORY_HEADER + HistoryLines(history[..k])
      {
        assert history[..k + 1][..k] == history[..k];
        Assoc(HISTORY_HEADER, HistoryLines(history[..k]), QaLines(history[k]));
        text := text + QaLines(history[k]);
        k := k + 1;
      }
      assert history[..k] == history;
    }

    /** format_remaining_questions. */
    method FormatRemainingQuestions() returns (text: string)
      ensures text == RemainingText(remaining)
    {
      text := REMAINING_HEADER;
      var k := 0;
      while k < |remaining|
        invariant k <= |remaining|
        invariant text == REMAINING_HEADER + Numbered(remaining[..k], 0, ": ")
      {
        assert remaining[..k + 1][..k] == remaining[..k];
        Assoc(REMAINING_HEADER, Numbered(remaining[..k], 0, ": "), NumberedLine(k, ": ", remaining[k]));
        text := text + NumberedLine(k, ": ", remaining[k]);
        k := k + 1;
      }
      assert remaining[..k] == remaining;
    }

    /** _create_selection_prompt. */
    method CreateSelectionPrompt() returns (prompt: string)
      ensures prompt == SelectionPrompt(history, remaining)
    {
      prompt := TASK_LINE;
      if |history| > 0 {
        prompt := prompt + RESPONSES_HEADER;
        var k := 0;
        while k < |history|
          invariant k <= |history|
          invariant prompt == TASK_LINE + RESPONSES_HEADER + HistoryLines(history[..k])
        {
          assert history[..k + 1][..k] == history[..k];
          Assoc(TASK_LINE + RESPONSES_HEADER, HistoryLines(history[..k]), QaLines(history[k]));
          prompt := prompt + QaLines(history[k]);
          k := k + 1;
        }
        assert history[..k] == history;
        prompt := prompt + "\n";
        Assoc(TASK_LINE + RESPONSES_HEADER, HistoryLines(history), "\n");
        Assoc(TASK_LINE, RESPONSES_HEADER, HistoryLines(history) + "\n");
        Assoc(RESPONSES_HEADER, HistoryLines(history), "\n");
      }
      assert prompt == TASK_LINE + ResponsesBlock(history);
      prompt := prompt + OPTIONS_HEADER;
      var k := 0;
      while k < |remaining|
        invariant k <= |remaining|
        invariant prompt == PromptHead(history) + Numbered(remaining[..k], 0, ". ")
      {
        assert remaining[..k + 1][..k] == remaining[..k];
        Assoc(PromptHead(history), Numbered(remaining[..k], 0, ". "), NumberedLine(k, ". ", remaining[k]));
        prompt := prompt + NumberedLine(k, ". ", remaining[k]);
        k := k + 1;
      }
      assert remaining[..k] == remaining;
      prompt := prompt + INSTRUCTION;
    }

    /**
     * select_next_question: the reply to the prompt decides; on success the
     * named position is popped from the remaining list, on any failure
     * nothing changes.
     */
    method SelectNextQuestion(llm: Llm) returns (question: Option<string>)
      modifies this`remaining
      ensures question == Pick(Asking(llm), old(Current())).question
      ensures remaining == Pick(Asking(llm), old(Current())).remaining
      ensures history == old(history) && count == old(count)
    {
      if IsComplete() || |remaining| == 0 {
        return None;
      }
      var prompt := CreateSelectionPrompt();
      var reply := llm(prompt);
      if reply.TransportFailure? {
        return None;
      }
      var selectedIdx := ParseLlmResponse(reply.text);
      if selectedIdx.Some? && selectedIdx.value < |remaining| {
        var selected := remaining[selectedIdx.value];
        remaining := remaining[..selectedIdx.value] + remaining[selectedIdx.value + 1..];
        return Some(selected);
      }
      return None;
    }

    /**
     * One round of run_survey's loop: select a question and, unless the
     * selection failed, record the simulated answer to it.
     */
    method PlayRound(llm: Llm) returns (asked: bool, answer: string)
      modifies this
      ensures asked <==> !Stops(Asking(llm), old(Current()))
      ensures asked ==> IsAnswer(answer) && Current() == Advance(Asking(llm), old(Current()), answer)
      ensures !asked ==> history == old(history) && count == old(count)
      ensures !asked ==> remaining == Pick(Asking(llm), old(Current())).remaining
    {
      var question := SelectNextQuestion(llm);
      if question.None? || question.value == "" {
        return false, "";
      }
      answer := SimulateResponse();
      history, count := history + [Entry(question.value, answer)], count + 1;
      asked := true;
    }

    /**
     * The loop of run_survey: rounds until five are recorded or a selection
     * fails. The answers drawn replay the rounds from the state it started
     * in, and the replay ends where the loop stops.
     */
    method PlayRounds(llm: Llm) returns (ghost drawn: seq<string>)
      modifies this
      ensures AllAnswers(drawn) && |drawn| == count - old(count)
      ensures var final := Replay(Asking(llm), old(Current()), drawn);
        final.history == history && final.count == count && Stops(Asking(llm), final)
      ensures remaining == Pick(Asking(llm), Replay(Asking(llm), old(Current()), drawn)).remaining
    {
      ghost var start := Current();
      drawn := [];
      while !IsComplete()
        invariant |drawn| == count - start.count
        invariant AllAnswers(drawn)
        invariant Replay(Asking(llm), start, drawn) == Current()
        decreases MAX_QUESTIONS - count
      {
        var asked, answer := PlayRound(llm);
        if !asked {
          break;
        }
        ReplayExtend(Asking(llm), start, drawn, answer);
        drawn := drawn + [answer];
      }
    }

    /**
     * run_survey: the rounds, then the transcript that save_results receives
     * is returned and the state is reset to a fresh copy of the bank.
     */
    method RunSurvey(llm: Llm) returns (transcript: seq<Entry>)
      requires Valid()
      modifies this
      ensures Valid()
      ensures Current() == Fresh(questionBank)
      ensures exists answers :: TranscriptFor(Asking(llm), old(Current()), answers, transcript)
      ensures |old(history)| <= |transcript| <= MAX_QUESTIONS
      ensures transcript[..|old(history)|] == old(history)
      ensures forall k :: 0 <= k < |transcript| ==> IsAnswer(transcript[k].answer)
      ensures Distinct(Asked(transcript))
      ensures AlwaysNamesPosition(Asking(llm)) ==> |transcript| == MAX_QUESTIONS
    {
      ghost var start := Current();
      ghost var drawn := PlayRounds(llm);
      ghost var final := Replay(Asking(llm), start, drawn);
      transcript := history;
      remaining, history, count := questionBank, [], 0;
      FreshInv(questionBank);
      assert Valid() && Current() == Fresh(questionBank);
      ghost var answers := RunOutcome(questionBank, Asking(llm), start, drawn, final);
    }
  }
}
