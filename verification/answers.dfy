/** The answer tracker: the selections made so far, keyed by question position
    (`handleOptionChange`, TestWindow.jsx lines 51-53). */
module Answers {
  import opened Wrappers

  /** The tracked selections: question position to the text of the chosen option. */
  type AnswerState = map<nat, string>

  /** `{ ...prev, [position]: option }`: the selection for `position` becomes `option`, every
      other position keeps its selection, and no position is dropped. */
  function Select(answers: AnswerState, position: nat, option: string): (r: AnswerState)
    ensures position in r && r[position] == option
    ensures r.Keys == answers.Keys + {position}
    ensures forall p :: p in answers && p != position ==> r[p] == answers[p]
  {
    answers[position := option]
  }

  /** `selectedAnswers[position]`: `undefined` for a position without a selection. */
  function AnswerAt(answers: AnswerState, position: nat): (r: Option<string>)
    ensures r.Some? <==> position in answers
    ensures r.Some? ==> r.value == answers[position]
  {
    if position in answers then Some(answers[position]) else None
  }

  /** Selecting the same option twice is the same as selecting it once. */
  lemma SelectIdempotent(answers: AnswerState, position: nat, option: string)
    ensures Select(Select(answers, position, option), position, option) == Select(answers, position, option)
  {
  }

  /** Selections at different positions do not interfere: their order does not matter. */
  lemma SelectCommutes(answers: AnswerState, p: nat, a: string, q: nat, b: string)
    requires p != q
    ensures Select(Select(answers, p, a), q, b) == Select(Select(answers, q, b), p, a)
  {
  }

  /** A later selection at the same position replaces the earlier one. */
  lemma SelectOverwrites(answers: AnswerState, position: nat, a: string, b: string)
    ensures Select(Select(answers, position, a), position, b) == Select(answers, position, b)
  {
  }
}
