/**
 The question record the endpoint returns, on both the generated and the
 fallback path, and the shape guarantees stated about it.
 */
module Questions {
  import opened JsValues

  /** The eight fields of the response body. Each holds a JavaScript value,
      because the generated path copies some of them from the upstream reply
      as they are. JSON keys: round, difficulty, question_type, question,
      options, correct_option_index, explanation, followup_tip. */
  datatype Question = Question(
    round: Value,
    difficulty: Value,
    questionType: Value,
    question: Value,
    options: Value,
    correctOptionIndex: Value,
    explanation: Value,
    followupTip: Value)

  /** What every response the endpoint sends satisfies: no field is
      undefined (so the JSON body carries all eight keys), the four text
      fields are truthy, `options` is an array and `correct_option_index` is
      a number or null. */
  predicate Conformant(q: Question) {
    && Truthy(q.round)
    && Truthy(q.difficulty)
    && Truthy(q.questionType)
    && Truthy(q.question)
    && q.options.Arr?
    && (q.correctOptionIndex.Num? || q.correctOptionIndex.Null?)
    && !q.explanation.Undefined?
    && !q.followupTip.Undefined?
  }

  /** A multiple-choice question: four text options, a correct index among
      them and a non-null explanation. */
  predicate IsMcq(q: Question) {
    && q.questionType == Str("mcq")
    && q.options.Arr? && |q.options.elems| == 4
    && (forall i :: 0 <= i < |q.options.elems| ==> q.options.elems[i].Str?)
    && q.correctOptionIndex.Num? && 0 <= q.correctOptionIndex.n < 4
    && q.explanation.Str?
  }

  /** An open question: no options, no correct index, no explanation, and a
      non-null follow-up tip. */
  predicate IsOpen(q: Question) {
    && q.questionType == Str("open")
    && q.options == Arr([])
    && q.correctOptionIndex == Null
    && q.explanation == Null
    && q.followupTip.Str?
  }

  /** The record as a JavaScript object, the way `res.json` serialises it
      and a client (or the upstream model) would send it back. */
  function ToValue(q: Question): Value {
    Obj(map[
      "round" := q.round,
      "difficulty" := q.difficulty,
      "question_type" := q.questionType,
      "question" := q.question,
      "options" := q.options,
      "correct_option_index" := q.correctOptionIndex,
      "explanation" := q.explanation,
      "followup_tip" := q.followupTip])
  }

  /** Reading a field of the serialised record gives the field. */
  lemma ToValueFields(q: Question)
    ensures Prop(ToValue(q), "round") == q.round
    ensures Prop(ToValue(q), "difficulty") == q.difficulty
    ensures Prop(ToValue(q), "question_type") == q.questionType
    ensures Prop(ToValue(q), "question") == q.question
    ensures Prop(ToValue(q), "options") == q.options
    ensures Prop(ToValue(q), "correct_option_index") == q.correctOptionIndex
    ensures Prop(ToValue(q), "explanation") == q.explanation
    ensures Prop(ToValue(q), "followup_tip") == q.followupTip
  {
  }
}
