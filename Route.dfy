/**
 The `POST /api/next-question` handler: default the request fields, try the
 generated path and coerce its result into the response shape, and answer
 with the fallback question whenever anything on that path throws.
 */
module Route {
  import opened JsValues
  import opened JsStrings
  import opened Difficulty
  import opened Questions
  import opened Fallback
  import opened Upstream
  import opened Wrappers

  /** The request body fields the handler reads; `None` is an absent field. */
  datatype RequestBody = RequestBody(
    domain: Option<string>,
    round: Option<string>,
    baseDifficulty: Option<string>,
    questionIndex: Option<int>)

  /** The request after defaulting. */
  datatype Request = Request(domain: string, round: string, baseDifficulty: string, questionIndex: int)

  /** A body field as the JavaScript value the handler reads. */
  function FieldValue(field: Option<string>): Value {
    if field.Some? then Str(field.value) else Undefined
  }

  /** A body field that `||` keeps: one whose value is truthy, that is, a
      present non-empty string. */
  predicate Given(field: Option<string>) {
    Truthy(FieldValue(field))
  }

  /** `field || fallback` for a string field: the same value JavaScript's
      `||` gives, and never empty when the fallback is not. */
  function OrDefault(field: Option<string>, fallback: string): (r: string)
    ensures Str(r) == Or(FieldValue(field), Str(fallback))
    ensures fallback != "" ==> r != ""
  {
    if Given(field) then field.value else fallback
  }

  /** The defaults of the handler: domain "generic", round "technical",
      difficulty "auto", index 0. A missing body reads as an empty one. */
  function Defaults(body: Option<RequestBody>): (r: Request)
    ensures r.domain != "" && r.round != "" && r.baseDifficulty != ""
    ensures body.None? ==> r == Request("generic", "technical", "auto", 0)
    ensures body.Some? ==>
      && (Given(body.value.domain) ==> r.domain == body.value.domain.value)
      && (!Given(body.value.domain) ==> r.domain == "generic")
      && (Given(body.value.round) ==> r.round == body.value.round.value)
      && (!Given(body.value.round) ==> r.round == "technical")
      && (Given(body.value.baseDifficulty) ==> r.baseDifficulty == body.value.baseDifficulty.value)
      && (!Given(body.value.baseDifficulty) ==> r.baseDifficulty == "auto")
      && (body.value.questionIndex.Some? ==> r.questionIndex == body.value.questionIndex.value)
      && (body.value.questionIndex.None? ==> r.questionIndex == 0)
  {
    var b := if body.Some? then body.value else RequestBody(None, None, None, None);
    Request(
      OrDefault(b.domain, "generic"),
      OrDefault(b.round, "technical"),
      OrDefault(b.baseDifficulty, "auto"),
      // `questionIndex || 0`: only 0 itself is a falsy integer, and 0 maps to 0
      if b.questionIndex.Some? && b.questionIndex.value != 0 then b.questionIndex.value else 0)
  }

  const Placeholder := "AI did not return a question. Please try again."

  /** The question type to assume when the reply gives none: decided by the
      requested round. */
  function DefaultType(round: string): (t: Value)
    ensures t == Str("mcq") <==> round == "aptitude"
    ensures t == Str("mcq") || t == Str("open")
  {
    Str(if round == "aptitude" then "mcq" else "open")
  }

  /** The `safeResponse` built from the parsed reply. Reading a property of
      a null or undefined reply throws, which the handler catches; any other
      reply yields a record of the response shape. */
  function Normalize(raw: Value, round: string, baseDifficulty: string, questionIndex: int): (r: Result<Question>)
    ensures r.Err? <==> Nullish(raw)
    ensures r.Err? ==> r.error == NullAccess
    ensures r.Ok? && round != "" ==> Conformant(r.value)
  {
    if Nullish(raw) then Err(NullAccess)
    else
      var difficulty := Or(Prop(raw, "difficulty"), Str(InferDifficulty(baseDifficulty, questionIndex)));
      var options := Prop(raw, "options");
      var index := Prop(raw, "correct_option_index");
      Ok(Question(
        round := Or(Prop(raw, "round"), Str(round)),
        difficulty := difficulty,
        questionType := Or(Prop(raw, "question_type"), DefaultType(round)),
        question := Or(Prop(raw, "question"), Str(Placeholder)),
        options := if options.Arr? then options else Arr([]),
        correctOptionIndex := if index.Num? then index else if round == "aptitude" then Num(0) else Null,
        explanation := Coalesce(Prop(raw, "explanation"), Null),
        followupTip := Coalesce(Prop(raw, "followup_tip"), Null)))
  }

  /** `||` fields: round, difficulty, question type and question text are
      copied when truthy and replaced when falsy, the question type by the
      requested round's default and not by the reply's round. */
  lemma NormalizeTruthyFields(raw: Value, round: string, baseDifficulty: string, questionIndex: int)
    requires !Nullish(raw)
    ensures var q := Normalize(raw, round, baseDifficulty, questionIndex).value;
      && (Truthy(Prop(raw, "round")) ==> q.round == Prop(raw, "round"))
      && (!Truthy(Prop(raw, "round")) ==> q.round == Str(round))
      && (Truthy(Prop(raw, "difficulty")) ==> q.difficulty == Prop(raw, "difficulty"))
      && (!Truthy(Prop(raw, "difficulty")) ==> q.difficulty == Str(InferDifficulty(baseDifficulty, questionIndex)))
      && (Truthy(Prop(raw, "question_type")) ==> q.questionType == Prop(raw, "question_type"))
      && (!Truthy(Prop(raw, "question_type")) ==> q.questionType == DefaultType(round))
      && (Truthy(Prop(raw, "question")) ==> q.question == Prop(raw, "question"))
      && (!Truthy(Prop(raw, "question")) ==> q.question == Str(Placeholder))
  {
  }

  /** Type-tested fields: `options` is kept only when it is an array, the
      correct index only when it is a number; otherwise the defaults are an
      empty array and 0 for an aptitude round, null for any other. */
  lemma NormalizeTypedFields(raw: Value, round: string, baseDifficulty: string, questionIndex: int)
    requires !Nullish(raw)
    ensures var q := Normalize(raw, round, baseDifficulty, questionIndex).value;
      && (Prop(raw, "options").Arr? ==> q.options == Prop(raw, "options"))
      && (!Prop(raw, "options").Arr? ==> q.options == Arr([]))
      && (Prop(raw, "correct_option_index").Num? ==> q.correctOptionIndex == Prop(raw, "correct_option_index"))
      && (!Prop(raw, "correct_option_index").Num? ==>
            q.correctOptionIndex == if round == "aptitude" then Num(0) else Null)
  {
  }

  /** `??` fields: explanation and follow-up tip become null exactly when
      they are null or missing, and are otherwise copied, falsy or not. */
  lemma NormalizeNullishFields(raw: Value, round: string, baseDifficulty: string, questionIndex: int)
    requires !Nullish(raw)
    ensures var q := Normalize(raw, round, baseDifficulty, questionIndex).value;
      && (q.explanation == Null <==> Nullish(Prop(raw, "explanation")))
      && (!Nullish(Prop(raw, "explanation")) ==> q.explanation == Prop(raw, "explanation"))
      && (q.followupTip == Null <==> Nullish(Prop(raw, "followup_tip")))
      && (!Nullish(Prop(raw, "followup_tip")) ==> q.followupTip == Prop(raw, "followup_tip"))
  {
  }

  /** An empty reply object for a technical round
      becomes an open question with the placeholder text. */
  lemma NormalizeEmptyReply(baseDifficulty: string, questionIndex: int)
    ensures var r := Normalize(Obj(map[]), "technical", baseDifficulty, questionIndex);
      && r.Ok?
      && r.value.questionType == Str("open")
      && r.value.options == Arr([])
      && r.value.correctOptionIndex == Null
      && r.value.question == Str(Placeholder)
      && Truthy(r.value.question)
  {
  }

  /** The default question type follows the requested round: whatever
      round the reply names, a reply without a question type gets the same
      default. */
  lemma DefaultTypeIgnoresReplyRound(fields: map<string, Value>, replyRound: Value,
                                     round: string, baseDifficulty: string, questionIndex: int)
    requires "question_type" !in fields || !Truthy(fields["question_type"])
    ensures Normalize(Obj(fields["round" := replyRound]), round, baseDifficulty, questionIndex).value.questionType
         == Normalize(Obj(fields), round, baseDifficulty, questionIndex).value.questionType
         == DefaultType(round)
  {
    PropOfUpdate(fields, "round", replyRound, "question_type");
  }

  /** `??` keeps falsy values that are not null: an empty explanation or a
      `false` tip is passed through. */
  lemma NormalizeKeepsFalsyNonNull(round: string, baseDifficulty: string, questionIndex: int)
    ensures var r := Normalize(Obj(map["explanation" := Str(""), "followup_tip" := Bool(false)]),
                               round, baseDifficulty, questionIndex);
      r.Ok? && r.value.explanation == Str("") && r.value.followupTip == Bool(false)
  {
  }

  /** The normalizer does not enforce the round's question shape: a reply
      for an aptitude round that says it is an open question with no options
      is passed on as such. */
  lemma NormalizeDoesNotForceMcq(baseDifficulty: string, questionIndex: int)
    ensures var r := Normalize(Obj(map["question_type" := Str("open")]), "aptitude", baseDifficulty, questionIndex);
      r.Ok? && r.value.questionType == Str("open") && r.value.options == Arr([])
      && r.value.correctOptionIndex == Num(0) && !IsMcq(r.value)
  {
  }

  /** A reply that already has the response shape comes out unchanged. */
  lemma NormalizeFixesConformant(q: Question, round: string, baseDifficulty: string, questionIndex: int)
    requires Conformant(q)
    requires q.correctOptionIndex.Null? ==> round != "aptitude"
    ensures Normalize(ToValue(q), round, baseDifficulty, questionIndex) == Ok(q)
  {
    ToValueFields(q);
  }

  /** The fallback question, sent back as a reply, survives normalisation. */
  lemma FallbackSurvivesNormalize(domain: string, round: string, baseDifficulty: string, questionIndex: int)
    requires round != ""
    ensures var fallback := BuildFallback(domain, round, baseDifficulty, questionIndex);
      Normalize(ToValue(fallback), round, baseDifficulty, questionIndex) == Ok(fallback)
  {
    NormalizeFixesConformant(BuildFallback(domain, round, baseDifficulty, questionIndex), round, baseDifficulty, questionIndex);
  }

  /** The fallback for a request body, after defaulting: always of the
      response shape, with a follow-up tip, for the requested domain. */
  function FallbackFor(body: Option<RequestBody>): (q: Question)
    ensures Conformant(q) && q.followupTip.Str?
    ensures q.round == Str(Defaults(body).round)
    ensures q.question.Str? && Embeds(q.question.s, Defaults(body).domain)
  {
    var req := Defaults(body);
    FallbackConformant(req.domain, req.round, req.baseDifficulty, req.questionIndex);
    FallbackEmbedsDomain(req.domain, req.round, req.baseDifficulty, req.questionIndex);
    BuildFallback(req.domain, req.round, req.baseDifficulty, req.questionIndex)
  }

  /** The handler: the normalised generated question, or the fallback when
      the generated path or the normalisation throws. It never fails. */
  function NextQuestion(body: Option<RequestBody>, call: Call, parse: Parser): (q: Question)
    ensures Conformant(q)
  {
    var req := Defaults(body);
    match GenerateAi(call, parse)
    case Err(_) => FallbackFor(body)
    case Ok(raw) =>
      match Normalize(raw, req.round, req.baseDifficulty, req.questionIndex)
      case Ok(q) => q
      case Err(_) => FallbackFor(body)
  }

  /** Any failure of the generated path, from the credential check to the
      parse, yields the fallback question. */
  lemma FailureFallsBack(body: Option<RequestBody>, call: Call, parse: Parser)
    requires GenerateAi(call, parse).Err?
    ensures NextQuestion(body, call, parse) == FallbackFor(body)
  {
  }

  /** A reply that parses to null throws while being normalised and also
      yields the fallback question. */
  lemma NullReplyFallsBack(body: Option<RequestBody>, call: Call, parse: Parser)
    requires GenerateAi(call, parse) == Ok(Null)
    ensures NextQuestion(body, call, parse) == FallbackFor(body)
  {
  }

  /** A reply that parses to anything else is normalised. */
  lemma SuccessNormalizes(body: Option<RequestBody>, call: Call, parse: Parser, raw: Value)
    requires GenerateAi(call, parse) == Ok(raw) && !Nullish(raw)
    ensures var req := Defaults(body);
      NextQuestion(body, call, parse) == Normalize(raw, req.round, req.baseDifficulty, req.questionIndex).value
  {
  }

  /** The handler answers with one of exactly two records: the normalised
      reply or the fallback question. */
  lemma NormalizedOrFallback(body: Option<RequestBody>, call: Call, parse: Parser)
    ensures var q := NextQuestion(body, call, parse);
      var req := Defaults(body);
      q == FallbackFor(body)
      || (GenerateAi(call, parse).Ok?
          && Normalize(GenerateAi(call, parse).value, req.round, req.baseDifficulty, req.questionIndex) == Ok(q))
  {
  }

  /** End to end: a technical round for domain
      "IT" whose upstream call fails gets an open question that mentions
      "IT". */
  lemma TransportFailureExample(parse: Parser)
    ensures var q := NextQuestion(Some(RequestBody(Some("IT"), Some("technical"), None, None)),
                                  Failed(TransportFailure), parse);
      && q.questionType == Str("open")
      && q.question.Str? && Embeds(q.question.s, "IT")
      && Conformant(q)
  {
  }

  /** A credential that is missing behaves like any other upstream failure. */
  lemma MissingKeyExample(body: Option<RequestBody>, parse: Parser)
    ensures NextQuestion(body, Failed(MissingApiKey), parse) == FallbackFor(body)
  {
  }
}
