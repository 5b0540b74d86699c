/**
 The fallback question generator: a fixed template per round, used whenever
 the generated path fails. It needs nothing external and never fails.
 */
module Fallback {
  import opened JsValues
  import opened JsStrings
  import opened Difficulty
  import opened Questions

  const AptitudeOptions: seq<Value> := [
    Str("Option A (dummy)"),
    Str("Option B (dummy - correct)"),
    Str("Option C (dummy)"),
    Str("Option D (dummy)")
  ]

  const AptitudeExplanation := "This is a placeholder explanation. Later the AI will generate a real one."
  const AptitudeTip := "Focus on understanding the logic first, then speed."
  // The two tips carry the characters the source file holds: an en dash and
  // arrows whose UTF-8 bytes were decoded once more as Windows-1252.
  const GdTip := "Organise your thoughts into 2\U{E2}\U{20AC}\U{201C}3 clear points and give examples."
  const MeTip := "Be honest and specific. Mention situation, your feelings, and what you learnt."
  const StarTip := "Use STAR: Situation \U{E2}\U{2020}\U{2019} Task \U{E2}\U{2020}\U{2019} Action \U{E2}\U{2020}\U{2019} Result."

  /** The 1-based position shown in the aptitude text, `#${questionIndex + 1}`. */
  function Numbering(questionIndex: int): string {
    "#" + IntToString(questionIndex + 1)
  }

  /** `Sample ${difficulty} aptitude question #${questionIndex + 1} (domain: ${domain}).` */
  function AptitudeText(difficulty: string, questionIndex: int, domain: string): (t: string)
    ensures Embeds(t, domain) && Embeds(t, difficulty)
    ensures Embeds(t, Numbering(questionIndex))
  {
    var s1 := "Sample " + difficulty + " aptitude question ";
    var s2 := s1 + Numbering(questionIndex) + " (domain: ";
    var t := s2 + domain + ").";
    EmbedsConcat("Sample ", difficulty, " aptitude question ");
    EmbedsExtend(s1, difficulty, Numbering(questionIndex));
    EmbedsExtend(s1 + Numbering(questionIndex), difficulty, " (domain: ");
    EmbedsConcat(s1, Numbering(questionIndex), " (domain: ");
    EmbedsExtend(s2, difficulty, domain);
    EmbedsExtend(s2 + domain, difficulty, ").");
    EmbedsExtend(s2, Numbering(questionIndex), domain);
    EmbedsExtend(s2 + domain, Numbering(questionIndex), ").");
    EmbedsConcat(s2, domain, ").");
    t
  }

  /** `Dummy GD topic (${difficulty}): "Impact of technology on ${domain} jobs in India."` */
  function GdText(difficulty: string, domain: string): (t: string)
    ensures Embeds(t, domain) && Embeds(t, difficulty)
  {
    var s1 := "Dummy GD topic (" + difficulty + "): \"Impact of technology on ";
    var t := s1 + domain + " jobs in India.\"";
    EmbedsConcat("Dummy GD topic (", difficulty, "): \"Impact of technology on ");
    EmbedsExtend(s1, difficulty, domain);
    EmbedsExtend(s1 + domain, difficulty, " jobs in India.\"");
    EmbedsConcat(s1, domain, " jobs in India.\"");
    t
  }

  /** `Self-reflection (${difficulty}): Describe one experience ... in ${domain}.` */
  function MeText(difficulty: string, domain: string): (t: string)
    ensures Embeds(t, domain) && Embeds(t, difficulty)
  {
    var s1 := "Self-reflection (" + difficulty
      + "): Describe one experience that changed how you think about your career in ";
    var t := s1 + domain + ".";
    EmbedsConcat("Self-reflection (", difficulty,
      "): Describe one experience that changed how you think about your career in ");
    EmbedsExtend(s1, difficulty, domain);
    EmbedsExtend(s1 + domain, difficulty, ".");
    EmbedsConcat(s1, domain, ".");
    t
  }

  /** The marker that opens the HR wording, `(${difficulty} HR)`. */
  function HrMarker(difficulty: string): string {
    "(" + difficulty + " HR)"
  }

  /** `(${difficulty} HR) Tell me about a time ... related to ${domain}.` */
  function HrText(difficulty: string, domain: string): (t: string)
    ensures Embeds(t, domain) && Embeds(t, difficulty)
    ensures StartsWith(t, HrMarker(difficulty))
  {
    var s1 := HrMarker(difficulty)
      + " Tell me about a time you handled a difficult situation related to ";
    var t := s1 + domain + ".";
    EmbedsConcat("(", difficulty, " HR)");
    EmbedsExtend(HrMarker(difficulty), difficulty,
      " Tell me about a time you handled a difficult situation related to ");
    EmbedsExtend(s1, difficulty, domain);
    EmbedsExtend(s1 + domain, difficulty, ".");
    EmbedsConcat(s1, domain, ".");
    assert t[..|HrMarker(difficulty)|] == HrMarker(difficulty);
    t
  }

  /** `(${difficulty} Technical) Explain a project or concept in ${domain} that you are proud of.` */
  function TechnicalText(difficulty: string, domain: string): (t: string)
    ensures Embeds(t, domain) && Embeds(t, difficulty)
    ensures !StartsWith(t, HrMarker(difficulty))
  {
    var opening := "(" + difficulty + " ";
    var wording := "Technical) Explain a project or concept in ";
    var rest := wording + domain + " that you are proud of.";
    EmbedsConcat(wording, domain, " that you are proud of.");
    EmbedsAfter(opening, rest, domain);
    EmbedsConcat("(", difficulty, " ");
    EmbedsExtend(opening, difficulty, rest);
    assert rest[0] == wording[0] == 'T';
    TechnicalDiffersFromHr(opening, rest, difficulty);
    opening + rest
  }

  /** The technical wording breaks off the HR marker right after the
      difficulty: 'T' where the marker has 'H'. */
  lemma TechnicalDiffersFromHr(opening: string, rest: string, difficulty: string)
    requires opening == "(" + difficulty + " "
    requires |rest| > 0 && rest[0] == 'T'
    ensures !StartsWith(opening + rest, HrMarker(difficulty))
  {
    assert HrMarker(difficulty) == opening + "HR)";
    assert (opening + rest)[|opening|] == 'T';
    assert (opening + "HR)")[|opening|] == 'H';
    DiffersAt(opening + rest, HrMarker(difficulty), |opening|);
  }

  /** The rounds with a template of their own; every other round, "hr"
      included, falls into the default bucket. */
  predicate IsDefaultBucket(round: string) {
    round != "aptitude" && round != "gd" && round != "me"
  }

  /** The aptitude template: a fixed four-option question whose second
      option is the correct one. */
  function AptitudeQuestion(domain: string, difficulty: string, questionIndex: int): (q: Question)
    requires difficulty != ""
    ensures IsMcq(q) && q.round == Str("aptitude") && q.correctOptionIndex == Num(1)
    ensures q.difficulty == Str(difficulty)
    ensures q.question.Str? && Embeds(q.question.s, domain) && Embeds(q.question.s, difficulty)
    ensures Embeds(q.question.s, Numbering(questionIndex))
    ensures q.followupTip.Str? && Conformant(q)
  {
    Question(
      round := Str("aptitude"),
      difficulty := Str(difficulty),
      questionType := Str("mcq"),
      question := Str(AptitudeText(difficulty, questionIndex, domain)),
      options := Arr(AptitudeOptions),
      correctOptionIndex := Num(1),
      explanation := Str(AptitudeExplanation),
      followupTip := Str(AptitudeTip))
  }

  /** An open question with the given round, text and tip. */
  function OpenQuestion(round: string, difficulty: string, text: string, tip: string): (q: Question)
    requires difficulty != "" && text != "" && tip != ""
    ensures IsOpen(q)
    ensures round != "" ==> Conformant(q)
    ensures q.round == Str(round) && q.difficulty == Str(difficulty)
    ensures q.question == Str(text) && q.followupTip == Str(tip)
  {
    Question(
      round := Str(round),
      difficulty := Str(difficulty),
      questionType := Str("open"),
      question := Str(text),
      options := Arr([]),
      correctOptionIndex := Null,
      explanation := Null,
      followupTip := Str(tip))
  }

  /** The default bucket: HR wording exactly when the round is "hr",
      technical wording otherwise, and the round echoed back. */
  function DefaultBucketQuestion(domain: string, round: string, difficulty: string): (q: Question)
    requires difficulty != ""
    ensures IsOpen(q) && q.round == Str(round) && q.difficulty == Str(difficulty)
    ensures q.question.Str? && Embeds(q.question.s, domain) && Embeds(q.question.s, difficulty)
    ensures StartsWith(q.question.s, HrMarker(difficulty)) <==> round == "hr"
    ensures q.followupTip == Str(StarTip)
    ensures round != "" ==> Conformant(q)
  {
    var tag := if round == "hr" then "HR" else "Technical";
    var text := if tag == "HR" then HrText(difficulty, domain) else TechnicalText(difficulty, domain);
    OpenQuestion(round, difficulty, text, StarTip)
  }

  /** `buildFallbackQuestion(domain, round, baseDifficulty, questionIndex)`. */
  function BuildFallback(domain: string, round: string, baseDifficulty: string, questionIndex: int): (q: Question)
    ensures q.round == Str(round)
    ensures q.difficulty == Str(InferDifficulty(baseDifficulty, questionIndex))
    ensures round == "aptitude" ==> IsMcq(q) && q.correctOptionIndex == Num(1)
    ensures round != "aptitude" ==> IsOpen(q)
  {
    var difficulty := InferDifficulty(baseDifficulty, questionIndex);
    if round == "aptitude" then
      AptitudeQuestion(domain, difficulty, questionIndex)
    else if round == "gd" then
      OpenQuestion("gd", difficulty, GdText(difficulty, domain), GdTip)
    else if round == "me" then
      OpenQuestion("me", difficulty, MeText(difficulty, domain), MeTip)
    else
      DefaultBucketQuestion(domain, round, difficulty)
  }

  /** Every fallback question mentions the requested domain. */
  lemma FallbackEmbedsDomain(domain: string, round: string, baseDifficulty: string, questionIndex: int)
    ensures var q := BuildFallback(domain, round, baseDifficulty, questionIndex);
      q.question.Str? && Embeds(q.question.s, domain)
  {
  }

  /** Every fallback question states the difficulty it was built for. */
  lemma FallbackEmbedsDifficulty(domain: string, round: string, baseDifficulty: string, questionIndex: int)
    ensures var q := BuildFallback(domain, round, baseDifficulty, questionIndex);
      q.question.Str? && Embeds(q.question.s, InferDifficulty(baseDifficulty, questionIndex))
  {
  }

  /** The aptitude fallback shows the 1-based position of the question. */
  lemma FallbackNumbering(domain: string, baseDifficulty: string, questionIndex: int)
    ensures var q := BuildFallback(domain, "aptitude", baseDifficulty, questionIndex);
      q.question.Str? && Embeds(q.question.s, Numbering(questionIndex))
  {
  }

  /** In the default bucket the HR wording is used exactly for the "hr"
      round. */
  lemma FallbackHrWording(domain: string, round: string, baseDifficulty: string, questionIndex: int)
    requires IsDefaultBucket(round)
    ensures var q := BuildFallback(domain, round, baseDifficulty, questionIndex);
      q.question.Str? &&
      (StartsWith(q.question.s, HrMarker(InferDifficulty(baseDifficulty, questionIndex))) <==> round == "hr")
  {
  }

  /** Every fallback question has the response shape and a follow-up tip,
      for any round the handler can ask for. */
  lemma FallbackConformant(domain: string, round: string, baseDifficulty: string, questionIndex: int)
    requires round != ""
    ensures var q := BuildFallback(domain, round, baseDifficulty, questionIndex);
      Conformant(q) && q.followupTip.Str?
  {
  }

  /** An aptitude fallback for the first
      question of a "finance" interview at automatic difficulty. */
  lemma AptitudeFallbackExample()
    ensures var q := BuildFallback("finance", "aptitude", "auto", 0);
      && q.questionType == Str("mcq")
      && |q.options.elems| == 4
      && q.correctOptionIndex == Num(1)
      && q.difficulty == Str("easy")
  {
  }
}
