/**
 * The rounds of run_survey as functions of the session state: the state
 * invariant a round keeps, the transcript a whole run produces for a given
 * selector and a given sequence of simulated answers, and what that
 * transcript is bound to look like.
 */
module Session {
  import opened Wrappers
  import opened Questions
  import opened Prompts
  import opened Selection

  /** remaining_questions, conversation_history and question_count. */
  datatype State = State(remaining: seq<string>, history: seq<Entry>, count: nat)

  /**
   * What decides each selection: the reply, as a function of the history and
   * the remaining list that the prompt is built from.
   */
  type Selector = (seq<Entry>, seq<string>) -> SelectorReply

  /** The selector a chat-completion service amounts to: it is sent the selection prompt. */
  function Asking(llm: Llm): Selector
  {
    (history, remaining) => llm(SelectionPrompt(history, remaining))
  }

  /** The state of a new session, or of one just reset: a full copy of the bank, nothing asked. */
  function Fresh(bank: seq<string>): State
  {
    State(bank, [], 0)
  }

  /** A fresh session satisfies the invariant. */
  lemma FreshInv(bank: seq<string>)
    ensures Inv(bank, Fresh(bank))
  {
    assert Asked([]) == [];
  }

  /** The only values simulate_response produces. */
  predicate IsAnswer(a: string)
  {
    a == "yes" || a == "no"
  }

  predicate AllAnswers(answers: seq<string>)
  {
    forall k :: 0 <= k < |answers| ==> IsAnswer(answers[k])
  }

  /**
   * The session invariant: the count is the number of recorded rounds and at
   * most five, the remaining questions and the asked ones together are the
   * bank exactly, and every recorded answer is "yes" or "no".
   */
  predicate Inv(bank: seq<string>, s: State)
  {
    && s.count == |s.history| <= MAX_QUESTIONS
    && multiset(s.remaining + Asked(s.history)) == multiset(bank)
    && forall k :: 0 <= k < |s.history| ==> IsAnswer(s.history[k].answer)
  }

  /** The selection made in state s, from the reply the selector gives for s. */
  function Pick(selector: Selector, s: State): Selection
  {
    Select(s.count, s.remaining, selector(s.history, s.remaining))
  }

  /** run_survey leaves its loop in state s: the survey is complete, or no (truthy) question came back. */
  predicate Stops(selector: Selector, s: State)
  {
    s.count >= MAX_QUESTIONS || Pick(selector, s).question.None? || Pick(selector, s).question.value == ""
  }

  /** One round: the picked question leaves the remaining list and is recorded with the answer. */
  function Advance(selector: Selector, s: State, answer: string): State
    requires !Stops(selector, s)
  {
    var p := Pick(selector, s);
    State(p.remaining, s.history + [Entry(p.question.value, answer)], s.count + 1)
  }

  /**
   * The transcript run_survey hands to save_results when it starts in state s
   * and the k-th simulated answer is answers[k] (answers beyond the last
   * round are not used).
   */
  function Transcript(selector: Selector, s: State, answers: seq<string>): seq<Entry>
    requires s.count + |answers| >= MAX_QUESTIONS
    decreases |answers|
  {
    if Stops(selector, s) then s.history
    else Transcript(selector, Advance(selector, s, answers[0]), answers[1..])
  }

  /**
   * The state reached by playing the rounds that the answers in `drawn`
   * were given for, stopping early if the loop would stop.
   */
  function Replay(selector: Selector, s: State, drawn: seq<string>): State
    decreases |drawn|
  {
    if drawn == [] || Stops(selector, s) then s
    else Replay(selector, Advance(selector, s, drawn[0]), drawn[1..])
  }

  /** Replaying one more round from where a replay ended. */
  lemma {:induction false} ReplayExtend(selector: Selector, s: State, drawn: seq<string>, answer: string)
    requires !Stops(selector, Replay(selector, s, drawn))
    ensures Replay(selector, s, drawn + [answer]) == Advance(selector, Replay(selector, s, drawn), answer)
    decreases |drawn|
  {
    if drawn == [] {
      assert [] + [answer] == [answer];
    } else {
      assert !Stops(selector, s);
      assert (drawn + [answer])[1..] == drawn[1..] + [answer];
      ReplayExtend(selector, Advance(selector, s, drawn[0]), drawn[1..], answer);
    }
  }

  /**
   * A transcript is the transcript of the state the first answers lead to,
   * provided every one of those answers was used by a round.
   */
  lemma {:induction false} TranscriptFromReplay(selector: Selector, s: State, drawn: seq<string>, tail: seq<string>)
    requires s.count + |drawn| + |tail| >= MAX_QUESTIONS
    requires Replay(selector, s, drawn).count == s.count + |drawn|
    ensures Transcript(selector, s, drawn + tail) == Transcript(selector, Replay(selector, s, drawn), tail)
    decreases |drawn|
  {
    if drawn != [] {
      assert !Stops(selector, s);
      assert (drawn + tail)[0] == drawn[0];
      assert (drawn + tail)[1..] == drawn[1..] + tail;
      TranscriptFromReplay(selector, Advance(selector, s, drawn[0]), drawn[1..], tail);
    } else {
      assert drawn + tail == tail;
    }
  }

  /** Where the loop stops, the transcript is the history so far. */
  lemma TranscriptAtStop(selector: Selector, s: State, answers: seq<string>)
    requires s.count + |answers| >= MAX_QUESTIONS && Stops(selector, s)
    ensures Transcript(selector, s, answers) == s.history
  {
  }

  /** `t` is the transcript of a session from `s` that gets the answers `answers`, one per round still open. */
  predicate TranscriptFor(selector: Selector, s: State, answers: seq<string>, t: seq<Entry>)
  {
    && |answers| == MAX_QUESTIONS - s.count
    && AllAnswers(answers)
    && t == Transcript(selector, s, answers)
  }

  /**
   * What a finished run amounts to: if playing the drawn answers from
   * `start` led to `final`, where the loop stops, then the history of
   * `final` is the transcript of `start` for some full supply of answers,
   * it has the shape every transcript has, and it is full whenever every
   * reply names a valid position.
   */
  lemma RunOutcome(bank: seq<string>, selector: Selector, start: State, drawn: seq<string>, final: State)
      returns (answers: seq<string>)
    requires UsableBank(bank) && Inv(bank, start) && AllAnswers(drawn)
    requires |drawn| == final.count - start.count
    requires Replay(selector, start, drawn) == final && Stops(selector, final)
    ensures TranscriptFor(selector, start, answers, final.history)
    ensures |start.history| <= |final.history| <= MAX_QUESTIONS
    ensures final.history[..|start.history|] == start.history
    ensures forall k :: 0 <= k < |final.history| ==> IsAnswer(final.history[k].answer)
    ensures Distinct(Asked(final.history))
    ensures AlwaysNamesPosition(selector) ==> |final.history| == MAX_QUESTIONS
  {
    ReplayInv(bank, selector, start, drawn);
    answers := drawn + Yeses(MAX_QUESTIONS - final.count);
    RunAnswers(selector, start, drawn, final);
    TranscriptBounded(bank, selector, start, answers);
    TranscriptNoRepeats(bank, selector, start, answers);
    if AlwaysNamesPosition(selector) {
      TranscriptFills(bank, selector, start, answers);
    }
  }

  /** Every state a replay reaches satisfies the invariant. */
  lemma {:induction false} ReplayInv(bank: seq<string>, selector: Selector, s: State, drawn: seq<string>)
    requires Inv(bank, s) && AllAnswers(drawn)
    ensures Inv(bank, Replay(selector, s, drawn))
    decreases |drawn|
  {
    if drawn != [] && !Stops(selector, s) {
      AdvanceKeepsInv(bank, selector, s, drawn[0]);
      ReplayInv(bank, selector, Advance(selector, s, drawn[0]), drawn[1..]);
    }
  }

  /** Answers that pad a supply out to full length; rounds never reach them. */
  function Yeses(n: nat): (r: seq<string>)
    ensures |r| == n && AllAnswers(r)
  {
    if n == 0 then [] else Yeses(n - 1) + ["yes"]
  }

  /** The drawn answers, padded to full length, are a supply whose transcript ends in `final`. */
  lemma RunAnswers(selector: Selector, start: State, drawn: seq<string>, final: State)
    requires final.count <= MAX_QUESTIONS && AllAnswers(drawn)
    requires |drawn| == final.count - start.count
    requires Replay(selector, start, drawn) == final && Stops(selector, final)
    ensures var answers := drawn + Yeses(MAX_QUESTIONS - final.count);
      && |answers| == MAX_QUESTIONS - start.count
      && AllAnswers(answers)
      && final.history == Transcript(selector, start, answers)
  {
    var pad := Yeses(MAX_QUESTIONS - final.count);
    TranscriptFromReplay(selector, start, drawn, pad);
    TranscriptAtStop(selector, final, pad);
    assert AllAnswers(drawn + pad);
  }

  /** A round keeps the invariant, shortens the remaining list by one and appends one entry. */
  lemma AdvanceKeepsInv(bank: seq<string>, selector: Selector, s: State, answer: string)
    requires Inv(bank, s) && !Stops(selector, s) && IsAnswer(answer)
    ensures Inv(bank, Advance(selector, s, answer))
    ensures |Advance(selector, s, answer).remaining| == |s.remaining| - 1
    ensures Advance(selector, s, answer).history == s.history + [Entry(Pick(selector, s).question.value, answer)]
  {
    var p := Pick(selector, s);
    SelectKeepsQuestions(s.count, s.remaining, selector(s.history, s.remaining));
    var e := Entry(p.question.value, answer);
    assert Asked(s.history + [e]) == Asked(s.history) + [e.question];
  }

  /**
   * Whatever the selector replies: the transcript extends the starting
   * history, has at most five entries, records only "yes" or "no", and asks
   * only bank questions, none more often than the bank holds it.
   */
  lemma {:induction false} TranscriptBounded(bank: seq<string>, selector: Selector, s: State, answers: seq<string>)
    requires Inv(bank, s) && AllAnswers(answers) && s.count + |answers| >= MAX_QUESTIONS
    ensures var t := Transcript(selector, s, answers);
      && |s.history| <= |t| <= MAX_QUESTIONS
      && t[..|s.history|] == s.history
      && (forall k :: 0 <= k < |t| ==> IsAnswer(t[k].answer))
      && multiset(Asked(t)) <= multiset(bank)
    decreases |answers|
  {
    if Stops(selector, s) {
      assert multiset(Asked(s.history)) <= multiset(bank);
    } else {
      var next := Advance(selector, s, answers[0]);
      AdvanceKeepsInv(bank, selector, s, answers[0]);
      TranscriptBounded(bank, selector, next, answers[1..]);
      var t := Transcript(selector, next, answers[1..]);
      assert t[..|s.history|] == t[..|next.history|][..|s.history|];
    }
  }

  /** Bank questions are distinct, so no question is asked twice in one transcript. */
  lemma TranscriptNoRepeats(bank: seq<string>, selector: Selector, s: State, answers: seq<string>)
    requires Inv(bank, s) && AllAnswers(answers) && s.count + |answers| >= MAX_QUESTIONS
    requires Distinct(bank)
    ensures Distinct(Asked(Transcript(selector, s, answers)))
  {
    TranscriptBounded(bank, selector, s, answers);
    SubMultisetDistinct(Asked(Transcript(selector, s, answers)), bank);
  }

  /** If every reply names a valid position, a session from a usable bank always reaches five rounds. */
  lemma {:induction false} TranscriptFills(bank: seq<string>, selector: Selector, s: State, answers: seq<string>)
    requires UsableBank(bank) && Inv(bank, s) && AllAnswers(answers) && s.count + |answers| >= MAX_QUESTIONS
    requires AlwaysNamesPosition(selector)
    ensures |Transcript(selector, s, answers)| == MAX_QUESTIONS
    decreases |answers|
  {
    if s.count < MAX_QUESTIONS {
      RemainingCount(bank, s);
      var p := Pick(selector, s);
      assert p.question.Some?;
      PickedFromBank(bank, selector, s);
      AdvanceKeepsInv(bank, selector, s, answers[0]);
      TranscriptFills(bank, selector, Advance(selector, s, answers[0]), answers[1..]);
    }
  }

  /** A selector whose every reply names a position of the list it was shown. */
  ghost predicate AlwaysNamesPosition(selector: Selector)
  {
    forall history, remaining :: 0 < |remaining| ==>
      NamesPosition(selector(history, remaining), |remaining|)
  }

  /** If the first selection fails, the session ends with the history it started with. */
  lemma TranscriptOnFailure(selector: Selector, s: State, answers: seq<string>)
    requires s.count + |answers| >= MAX_QUESTIONS
    requires !NamesPosition(selector(s.history, s.remaining), |s.remaining|)
    ensures Transcript(selector, s, answers) == s.history
  {
  }

  /** In particular, a fresh session whose selector fails at once saves an empty transcript. */
  lemma FreshSessionFailing(bank: seq<string>, selector: Selector, answers: seq<string>)
    requires |answers| >= MAX_QUESTIONS
    requires selector([], bank) == TransportFailure
    ensures Transcript(selector, Fresh(bank), answers) == []
  {
    TranscriptOnFailure(selector, Fresh(bank), answers);
  }

  /** Under the invariant, the remaining list and the asked questions add up to the bank. */
  lemma RemainingCount(bank: seq<string>, s: State)
    requires Inv(bank, s)
    ensures |s.remaining| + s.count == |bank|
  {
    assert |multiset(s.remaining) + multiset(Asked(s.history))| == |multiset(bank)|;
  }

  /** A picked question is a question of the bank; in a usable bank it is never empty. */
  lemma PickedFromBank(bank: seq<string>, selector: Selector, s: State)
    requires Inv(bank, s)
    ensures Pick(selector, s).question.Some? ==> Pick(selector, s).question.value in bank
    ensures Pick(selector, s).question.Some? && UsableBank(bank) ==> Pick(selector, s).question.value != ""
  {
    if Pick(selector, s).question.Some? {
      var q := Pick(selector, s).question.value;
      assert q in multiset(s.remaining + Asked(s.history));
      assert q in multiset(bank);
    }
  }

  /**
   * Where the loop stops with a usable bank, the failed selection has left
   * the remaining list as it was: an empty question is never popped.
   */
  lemma StopKeepsRemaining(bank: seq<string>, selector: Selector, s: State)
    requires UsableBank(bank) && Inv(bank, s) && Stops(selector, s)
    ensures Pick(selector, s).question.None?
    ensures Pick(selector, s).remaining == s.remaining
  {
    PickedFromBank(bank, selector, s);
  }

  /** A sequence that takes no element more often than a duplicate-free one is itself duplicate-free. */
  lemma SubMultisetDistinct(xs: seq<string>, ys: seq<string>)
    requires multiset(xs) <= multiset(ys) && Distinct(ys)
    ensures Distinct(xs)
  {
    forall i, j | 0 <= i < j < |xs|
      ensures DifferAt(xs, i, j)
    {
      if xs[i] == xs[j] {
        RepeatCountsTwice(xs, i, j);
        DistinctCountsOnce(ys, xs[i]);
        assert false;
      }
    }
  }

  lemma RepeatCountsTwice(xs: seq<string>, i: nat, j: nat)
    requires i < j < |xs| && xs[i] == xs[j]
    ensures multiset(xs)[xs[i]] >= 2
  {
    assert xs == xs[..j] + [xs[j]] + xs[j + 1..];
    assert xs[..j][i] == xs[i];
  }

  lemma {:induction false} DistinctCountsOnce(ys: seq<string>, v: string)
    requires Distinct(ys)
    ensures multiset(ys)[v] <= 1
  {
    if ys != [] {
      assert ys == [ys[0]] + ys[1..];
      forall i, j | 0 <= i < j < |ys[1..]|
        ensures DifferAt(ys[1..], i, j)
      {
        assert DifferAt(ys, i + 1, j + 1);
      }
      DistinctCountsOnce(ys[1..], v);
      if ys[0] == v {
        forall k | 0 <= k < |ys[1..]|
          ensures ys[1..][k] != v
        {
          assert DifferAt(ys, 0, k + 1);
        }
      }
    }
  }
}
