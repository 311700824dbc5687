/**
 * The fixed catalogue of yes/no questions a survey session draws from, the
 * round limit, and the transcript entry a round records.
 */
module Questions {

  /** Number of rounds after which a session is complete. */
  const MAX_QUESTIONS: nat := 5

  /** One asked question together with the answer recorded for it. */
  datatype Entry = Entry(question: string, answer: string)

  const Q0: string := "If you could prove or disprove God's existence, would you want to know?"
  const Q1: string := "Can reason alone lead us to religious truth?"
  const Q2: string := "Is faith more about experience or tradition?"
  const Q3: string := "Must the divine be personal to be meaningful?"
  const Q4: string := "Can multiple religions all be true?"
  const Q5: string := "Should religious truth adapt to modern knowledge?"
  const Q6: string := "Is divine revelation necessary for moral knowledge?"
  const Q7: string := "Does evil disprove a perfect God?"
  const Q8: string := "Is the universe itself divine?"
  const Q9: string := "Does genuine free will exist?"
  const Q10: string := "Is religion more about transformation or truth?"
  const Q11: string := "Can sacred texts contain errors?"
  const Q12: string := "Is mystical experience trustworthy?"
  const Q13: string := "Should faith seek understanding?"
  const Q14: string := "Does divine hiddenness matter?"
  const Q15: string := "Can finite minds grasp infinite truth?"
  const Q16: string := "Is reality fundamentally good?"
  const Q17: string := "Does prayer change anything?"
  const Q18: string := "Is consciousness evidence of divinity?"
  const Q19: string := "Can miracles violate natural law?"
  const Q20: string := "Is there purpose in evolution?"
  const Q21: string := "Can symbols contain ultimate truth?"
  const Q22: string := "Is divine grace necessary for virtue?"
  const Q23: string := "Should tradition limit interpretation?"
  const Q24: string := "Can ritual create real change?"
  const Q25: string := "Is doubt part of authentic faith?"
  const Q26: string := "Must religion be communal?"
  const Q27: string := "Can God's nature be known?"
  const Q28: string := "Is suffering meaningful?"
  const Q29: string := "Is love the ultimate reality?"
  const Q30: string := "Does immortality give life meaning?"

  /** The canonical question bank, in catalogue order. */
  function Bank(): seq<string>
  {
    [
      Q0, Q1, Q2, Q3, Q4, Q5, Q6, Q7,
      Q8, Q9, Q10, Q11, Q12, Q13, Q14, Q15,
      Q16, Q17, Q18, Q19, Q20, Q21, Q22, Q23,
      Q24, Q25, Q26, Q27, Q28, Q29, Q30
    ]
  }

  /** A projection helper: the questions of a transcript, in asking order. */
  function Asked(history: seq<Entry>): seq<string>
  {
    seq(|history|, k requires 0 <= k < |history| => history[k].question)
  }

  /** Positions i and j of `s` hold different strings. */
  predicate DifferAt(s: seq<string>, i: nat, j: nat)
    requires i < |s| && j < |s|
  {
    s[i] != s[j]
  }

  /** No string occurs twice in `s`. */
  predicate Distinct(s: seq<string>)
  {
    forall i, j :: 0 <= i < j < |s| ==> DifferAt(s, i, j)
  }

  /** What a session relies on about its bank: enough distinct, non-empty questions. */
  predicate UsableBank(bank: seq<string>)
  {
    && MAX_QUESTIONS <= |bank|
    && Distinct(bank)
    && forall k :: 0 <= k < |bank| ==> bank[k] != ""
  }

  /** The canonical bank holds 31 distinct, non-empty questions. */
  lemma BankFacts()
    ensures |Bank()| == 31
    ensures UsableBank(Bank())
  {
    var front, back := BankFront(), BankBack();
    assert Bank() == front + back;
    FrontDistinct();
    BackDistinct();
    FrontBackDisjoint();
    forall i, j | 0 <= i < j < |front + back|
      ensures DifferAt(front + back, i, j)
    {
      if j < |front| {
        assert DifferAt(front, i, j);
      } else if i >= |front| {
        assert DifferAt(back, i - |front|, j - |front|);
      } else {
        assert (front + back)[j] == back[j - |front|];
      }
    }
  }

  // The distinctness proof is split in halves to keep each obligation small.

  ghost function BankFront(): seq<string>
  {
    [
      Q0, Q1, Q2, Q3, Q4, Q5, Q6, Q7,
      Q8, Q9, Q10, Q11, Q12, Q13, Q14, Q15
    ]
  }

  ghost function BankBack(): seq<string>
  {
    [
      Q16, Q17, Q18, Q19, Q20, Q21, Q22, Q23,
      Q24, Q25, Q26, Q27, Q28, Q29, Q30
    ]
  }

  lemma FrontDistinct()
    ensures Distinct(BankFront())
  {
  }

  lemma BackDistinct()
    ensures Distinct(BankBack())
  {
  }

  lemma FrontBackDisjoint()
    ensures forall i, j :: 0 <= i < |BankFront()| && 0 <= j < |BankBack()| ==> BankFront()[i] != BankBack()[j]
  {
  }
}
