# Intellectual preference survey — session model

This project models the session core of `IntellectualPreferenceSurvey` in
`survey.py`. A session starts from a bank of 31 questions. It runs up to five
rounds. In each round it asks an external chat-completion service to choose
the next question by its position in the list of remaining questions. It then
records a simulated "yes" or "no" answer. The session stops at five rounds or
at the first failed selection, hands the transcript over, and resets itself.

The model has seven modules.

- `Parse` (parse.dfy) extracts the first number from the service's reply, as
  `_parse_llm_response` does. It also has a decimal printer, `Decimal`, which
  serves as the parser's inverse.
- `Questions` (questions.dfy) holds the question bank, the round limit of
  five, and the history entries. It also proves that the bank's entries are
  distinct and non-empty.
- `Prompts` (prompts.dfy) gives the texts the survey builds as pure
  functions: the formatted history, the numbered list of remaining questions,
  and the selection prompt.
- `Selection` (selection.dfy) is what `select_next_question` does with the
  reply: the guard, the parsing, the range check and the removal by position.
- `Session` (session.dfy) gives the session as values: the state, one round,
  the run loop replayed over the drawn answers, and the transcript. It holds
  the invariant and the theorems about whole runs.
- `Survey` (survey.dfy) is the Python class as a Dafny class. Its fields are
  updated in place by methods with loops. The three text builders are proved
  equal to the functions of `Prompts`. The selection is proved equal to
  `Selection.Select`. One round is proved equal to `Session.Advance`. The loop
  is proved to end in the state that `Session.Replay` reaches, except that its
  remaining list is the one the last, failed selection left. `Session.StopKeepsRemaining`
  shows that this is the same list. `SimulateResponse` is a free choice of
  "yes" or "no" and is tied to no function.
- `Wrappers` (wrappers.dfy) defines the `Option` type.

The service is a function from prompt text to a reply, `Selection.Llm`. A
reply is either `TransportFailure` or `Content(text)`. `TransportFailure`
stands for every exception raised before the reply text is in hand. It also stands for a reply whose content is not a string, for example JSON `null`. On such content `_parse_llm_response` raises inside its own `try` and returns None, so `Select` fails either way. At the
session level, the selector is a function of the history and the remaining
list, `Session.Selector`. `Session.Asking(llm)` is the selector that builds
the selection prompt from those two and sends it to the service. Answers are
a free choice between "yes" and "no". The theorems about runs hold for every
sequence of answers.

## Model

| member | source | states |
|---|---|---|
| Questions.BankFacts | survey.py:15-47 | The bank has 31 entries. They are pairwise distinct and none is empty, so the bank holds at least five questions. |
| Parse.ParseLlmResponse | survey.py:213-231 | The result is None exactly when the reply contains no digit. |
| Parse.DigitRun | survey.py:226-228 | The run it measures is all digits, and it is maximal: it ends at the end of the text or before a non-digit. |
| Parse.ParseFindsFirstNumeral | survey.py:226-229 | A reply made of a digit-free prefix, a numeral and a non-digit boundary parses to that numeral's value. Any later numbers are ignored. |
| Parse.ParseNumeralFirst | survey.py:226-229 | A reply that opens with a numeral followed by a non-digit parses to that numeral's value. |
| Parse.Decimal | survey.py:207 | Prints an index as a non-empty digit string with no leading zero, whose value is the index. |
| Parse.DecimalRoundTrip | survey.py:226-229 | Parsing a printed index, followed by anything that does not start with a digit, gives back that index. |
| Parse.ParseExampleExplained | survey.py:226-229 | "I choose option 2 because..." parses to 2. |
| Parse.ParseExampleLaterIgnored | survey.py:226-229 | "Pick 07, not 3" parses to 7: the leading zero is dropped and the later number is ignored. |
| Parse.ParseExampleNoDigits | survey.py:227-231 | A reply with no digit, "yes", parses to None. |
| Prompts.HistoryTextEmpty | survey.py:82-90 | The history text is "No previous questions asked." if and only if the history is empty. |
| Prompts.NumberedSplit | survey.py:95-96 | The numbered listing of two concatenated lists is the listing of the first, followed by the listing of the second with numbering carried on. |
| Prompts.NumberedAt | survey.py:95-96 | Question k of a listing is shown on its own line under index k, after the lines of the earlier questions and before those of the later ones. |
| Prompts.RemainingTextOffers | survey.py:92-97 | The remaining-questions text is the header followed by one "k: question" line per remaining question, in list order. |
| Prompts.PromptOffers | survey.py:195-211 | The selection prompt shows each remaining question on a "k. question" line under its position in the list. |
| Prompts.EchoedLineNamesIndex | survey.py:207 | A reply that starts with one of the listing's lines parses to that line's index. |
| Selection.Select | survey.py:137-193 | A question is chosen if and only if fewer than five rounds are recorded and the reply names a position of the remaining list. On failure the list is unchanged. On success the result is the question at position i, and the list becomes old[..i] + old[i+1..], so it is one shorter. |
| Selection.SelectKeepsQuestions | survey.py:185-188 | A successful selection moves exactly one question out of the list. The list afterwards plus the chosen question is the old list, as a multiset. |
| Selection.IndexReplySelects | survey.py:182-188 | A reply that starts with index k, below the list's length, followed by a non-digit, selects question k and removes exactly it. |
| Selection.EchoedLineSelects | survey.py:182-188 | A reply that echoes the prompt's line for question k selects question k and removes exactly it. |
| Selection.SelectExample | survey.py:185-188 | From ["Q0", "Q1", "Q2"] the reply "1" selects "Q1" and leaves ["Q0", "Q2"]. |
| Session.FreshInv | survey.py:64-67 | A fresh session satisfies the invariant: the count equals the history length, at most five; the remaining list plus the asked questions is the bank, as a multiset; every answer is yes or no. |
| Session.AdvanceKeepsInv | survey.py:239-249 | One round keeps the invariant. It removes one question from the remaining list and appends (question, answer) to the history. |
| Session.ReplayExtend | survey.py:237-249 | Replaying one more answer, when the loop does not stop, is one more round from the state reached. |
| Session.ReplayInv | survey.py:237-249 | The invariant holds in every state the loop reaches. |
| Session.RemainingCount | survey.py:185-188 | Under the invariant, the remaining questions plus the rounds recorded always number the bank's size. |
| Session.PickedFromBank | survey.py:185-188 | Under the invariant, a selected question is a bank question. With a usable bank it is never empty, so the loop's emptiness test never fires on a selected question. |
| Session.StopKeepsRemaining | survey.py:237-242 | Under the invariant and with a usable bank, in a state where the loop stops, no question was selected and the remaining list is left as it was. |
| Session.TranscriptFromReplay | survey.py:237-254 | The transcript from a start state is the transcript from any state the loop reaches on the way. |
| Session.TranscriptAtStop | survey.py:237-241 | In a state where the loop stops, the transcript is the history already recorded. |
| Session.RunAnswers | survey.py:237-254 | The answers drawn by the loop, padded to five, give a transcript equal to the history the loop ends with. |
| Session.TranscriptBounded | survey.py:237-249 | The transcript extends the starting history, holds at most five entries, and every answer in it is yes or no. |
| Session.TranscriptNoRepeats | survey.py:237-249 | With a distinct bank, no question appears twice in a transcript. |
| Session.TranscriptFills | survey.py:237-249 | If every reply to a non-empty list names a position of it, the transcript has exactly five entries. |
| Session.TranscriptOnFailure | survey.py:240-242 | If the reply does not name a position, the run ends with the history unchanged. |
| Session.FreshSessionFailing | survey.py:190-193 | If the first request fails, a fresh session's transcript is empty. |
| Session.RunOutcome | survey.py:237-254 | What the loop leaves is a transcript of the session. It extends the start history, has at most five entries, all answers are yes or no, no question repeats, and it has five entries when the selector always names a position. |
| Survey.NewSession | survey.py:64-67 | A session created from the canonical bank satisfies the invariant. It holds that bank, a copy of it as the remaining list, an empty history and a zero count. |
| Survey.PreferenceSurvey.constructor | survey.py:57-67 | The new session holds the bank it is given, a fresh copy of it as the remaining list, an empty history and a zero count, and satisfies the invariant. |
| Survey.PreferenceSurvey.IsComplete | survey.py:133-135 | Under the invariant, the survey is complete if and only if exactly five rounds are recorded. |
| Survey.PreferenceSurvey.SimulateResponse | survey.py:78-80 | The answer is "yes" or "no". |
| Survey.PreferenceSurvey.FormatHistoryForLlm | survey.py:82-90 | The loop builds exactly the history text. |
| Survey.PreferenceSurvey.FormatRemainingQuestions | survey.py:92-97 | The loop builds exactly the remaining-questions text. |
| Survey.PreferenceSurvey.CreateSelectionPrompt | survey.py:195-211 | The loops build exactly the selection prompt. |
| Survey.PreferenceSurvey.SelectNextQuestion | survey.py:137-193 | The method returns what Select returns for the service's reply to the prompt, and sets the remaining list to Select's. History and count are unchanged. |
| Survey.PreferenceSurvey.PlayRound | survey.py:238-249 | A round records an entry exactly when the loop would not stop. The recorded answer is yes or no, and the new state is one round of the session model. On failure only the remaining list is changed, as the selection leaves it. |
| Survey.PreferenceSurvey.PlayRounds | survey.py:237-254 | The loop draws one answer per recorded round, each yes or no. Its history and count are those of the state reached by replaying those answers, and that state is one where the loop stops. Its remaining list is the one the final selection leaves in that state. |
| Survey.PreferenceSurvey.RunSurvey | survey.py:233-263 | The transcript handed over is a run of the session from its state before the call. It extends the earlier history, has at most five entries, all answers are yes or no, no question repeats, and it has five entries when every reply names a position. Afterwards the state is a fresh copy of the bank and the invariant holds. |

## Left out

- The HTTP request to the chat-completion service: request body, headers, status check, JSON decoding and the path into `choices` (survey.py:149-183). The service is the function `Selection.Llm`, and each exception in that block is `TransportFailure`.
- `test_api_connection` (survey.py:265-284): network I/O only.
- API-key loading and the ValueError for a missing key (survey.py:48-53, 70-73): environment configuration. The model has no key.
- `save_path` and the creation of its directory (survey.py:68, 75-76): file-system effects.
- `save_results` (survey.py:99-131): file I/O, JSON encoding and a clock timestamp. `RunSurvey` instead returns the transcript that `save_results` would receive.
- Survey.PreferenceSurvey.RunSurvey: an exception from `save_results`, such as an I/O error or a JSON decoding error it does not catch, leaves `run_survey` before the reset at survey.py:261-263. The model has no such failure, so `RunSurvey` always resets.
- All `print` output and the `__main__` command-line driver (survey.py:286-306).
- `random.choice` (survey.py:80) is a nondeterministic choice. The model says nothing about the odds.
- Parse.ParseLlmResponse: Python's `\d` and `int()` also accept non-ASCII decimal digits. The model recognises ASCII '0'..'9' only. The model also omits the `except` path around `int()` (survey.py:223-230). Under Python's default limit on integer-string conversion, a numeral longer than 4300 digits makes `int()` raise, and the source then returns None. The model returns the numeral's value. The limit counts leading zeros, so `Select` differs from the source exactly when the first numeral has more than 4300 digits and its value still names a valid position. Such a numeral must start with leading zeros. An example is 4300 zeros followed by "1": the source stops the run there, while the model selects question 1.
- Survey.PreferenceSurvey.constructor: it takes the bank as a parameter that must be usable: at least five entries, distinct and non-empty. The program always passes `QUESTION_BANK`, which is `Questions.Bank()`, and `Questions.BankFacts` proves it usable. `Survey.NewSession` builds a session from `Bank()` in this way, and it is proved valid.
- Survey.PreferenceSurvey.RunSurvey: the reset copies `QUESTION_BANK` again. The model copies `questionBank`, which is the same value for every session the program creates.
- The Python object aliasing between `question_bank` and `QUESTION_BANK` is not modelled. Sequences here are values, and `questionBank` is a `const`, so no session can change the bank.
- The loop's `if not question` test (survey.py:240) is modelled as "no question, or the empty string". `Session.PickedFromBank` shows that the second case never arises with a usable bank.
