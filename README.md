# Interview question backend, modelled in Dafny

The backend answers `POST /api/next-question` with one interview question
for a domain (such as "IT" or "finance"), a round (`aptitude`, `technical`,
`hr`, `gd` or `me`), a requested difficulty and the question's position in
the interview. It asks a generative model for the question and reshapes
whatever comes back into a fixed eight-field record. When anything on that
path fails it answers with a built-in template question instead, so the
endpoint always answers with a question.

This project models the deterministic parts of `backend/server.js`:

- **Difficulty** (`Difficulty.dfy`): `inferDifficulty`. A requested
  difficulty wins unless it is empty or `"auto"`. Otherwise an index up to
  1 (negative indices included) is easy, 2–3 is medium and 4 on is hard.
- **Fallback** (`Fallback.dfy`): `buildFallbackQuestion`. There is one
  template each for `aptitude`, `gd` and `me`. Every other round uses a
  default template with HR wording for `hr` and technical wording for
  anything else.
- **Upstream** (`Upstream.dfy`): the part of `generateAiQuestion` that
  handles the reply. It picks the text of the first candidate's first part
  (`text`, else `data`), strips an optional Markdown code fence and parses
  what is left. The call itself is one abstract step. Its outcome is a
  parameter `call: Call`: either the reply body, or one of the call's own
  failures (a missing key, a non-success status, a transport failure). `JSON.parse` is the
  parameter `parse: Parser`, a partial function from text to value.
- **Route** (`Route.dfy`): the handler. It defaults the request fields and
  coerces the parsed reply into the response record (the `safeResponse`
  normaliser). It falls back to the template on any failure.
- **JsValues** and **JsStrings**: the JavaScript semantics the code relies
  on. These are values and truthiness, `||`, `??`, optional chaining,
  `trim` with the ECMAScript whitespace set, the `[a-zA-Z]*` prefix and
  integer rendering in template literals.
- **Questions**: the response record and the shape predicates
  `Conformant`, `IsMcq` and `IsOpen`.

Throws and the `try`/`catch` become `Result` values. The handler is
`NextQuestion`. It is proved total and always `Conformant`: all eight
fields are present, the four text fields are truthy, `options` is an
array and the correct index is a number or null. It is also proved to
return exactly the normalised reply or the fallback record.

Points where the code decides something a reader might not expect:

- If the reply parses to JSON `null`, then `aiQuestion.difficulty` throws a
  TypeError inside the `try`, so the handler answers with the fallback
  question. The normaliser therefore does fail on that one input: its
  result is `Err(NullAccess)` exactly when the parsed reply is null or
  undefined (`Route.Normalize`, `Route.NullReplyFallsBack`).
- A truthy `data` field that is not a string is passed on unparsed,
  because of the `typeof cleaned === "string"` test
  (`Upstream.GenerateAi`, `Upstream.ExtractFromDataReply`).
- The normaliser does not enforce the round's shape. For an aptitude round,
  a reply saying `question_type: "open"` stays open
  (`Route.NormalizeDoesNotForceMcq`). "mcq means four options" holds only
  on the fallback path.
- The follow-up tips of the `gd` template and of the default template hold
  the characters that are in the source file. Those are an en dash and
  three arrows whose UTF-8 bytes were decoded a second time as
  Windows-1252 (`â€“` and `â†’`). The constants `Fallback.GdTip` and
  `Fallback.StarTip` spell out those characters.

## Model

| member | source | states |
|---|---|---|
| `Difficulty.InferDifficulty` | backend/server.js:12-18 | The result is never empty. A truthy, non-"auto" request is returned as it is. Otherwise the result is one of easy/medium/hard, chosen by the index band. |
| `Difficulty.OverrideIgnoresIndex` | backend/server.js:13 | An override gives the same answer, itself, for any two indices. |
| `Difficulty.AutoBands` | backend/server.js:15-17 | For "auto" or empty: index ≤ 1 gives "easy", 2–3 gives "medium" and ≥ 4 gives "hard". |
| `Difficulty.AutoMonotone` | backend/server.js:15-17 | The automatic level never decreases as the index grows. |
| `Difficulty.LevelAt` | backend/server.js:15-17 | The level is easy exactly for indices up to 1 and hard exactly from 4 on. |
| `Difficulty.Level.Name` | backend/server.js:15-17 | The level names are non-empty and never "auto". |
| `Fallback.AptitudeText` | backend/server.js:29 | The aptitude question text contains the domain, the difficulty and `#` followed by the 1-based position `questionIndex + 1`. |
| `Fallback.GdText` | backend/server.js:47 | The GD topic contains the domain and the difficulty. |
| `Fallback.MeText` | backend/server.js:60 | The self-reflection question contains the domain and the difficulty. |
| `Fallback.HrText` | backend/server.js:75 | The HR question contains the domain and the difficulty, and opens with `(<difficulty> HR)`. |
| `Fallback.TechnicalText` | backend/server.js:76 | The technical question contains the domain and the difficulty, and does not open with the HR marker. |
| `Fallback.TechnicalDiffersFromHr` | backend/server.js:75-76 | The two default-bucket wordings differ at the character after `(<difficulty> `: `T` against `H`. |
| `Fallback.AptitudeQuestion` | backend/server.js:24-40 | The aptitude template is an MCQ with four text options, correct index 1 and a text explanation. Its round is "aptitude" and it carries the given difficulty. Its text mentions the domain, the difficulty and the 1-based position. It is conformant. |
| `Fallback.OpenQuestion` | backend/server.js:42-81 | An open template has no options, a null index, a null explanation and a text tip. It echoes the round and difficulty it was given and is conformant for a non-empty round. |
| `Fallback.DefaultBucketQuestion` | backend/server.js:68-81 | The default bucket is an open question that echoes the requested round and whose text mentions the domain and the difficulty. Its follow-up tip is the STAR tip. It opens with the HR marker if and only if the round is "hr". |
| `Fallback.BuildFallback` | backend/server.js:21-82 | The fallback echoes the round and carries `inferDifficulty`'s result. For "aptitude" it is an MCQ with correct index 1. For any other round it is an open question. |
| `Fallback.FallbackEmbedsDomain` | backend/server.js:21-82 | For every round, the fallback question text contains the domain. |
| `Fallback.FallbackEmbedsDifficulty` | backend/server.js:21-82 | For every round, the fallback question text contains the difficulty `inferDifficulty` chose. |
| `Fallback.FallbackNumbering` | backend/server.js:29 | The aptitude fallback text shows `#` and the 1-based position of the question. |
| `Fallback.FallbackHrWording` | backend/server.js:68-76 | In the default bucket, the HR wording is used exactly when the round is "hr". |
| `Fallback.FallbackConformant` | backend/server.js:21-82 | For every non-empty round, the fallback has the response shape and a text follow-up tip. |
| `Fallback.AptitudeFallbackExample` | backend/server.js:24-36 | For question 0 of a finance aptitude round at "auto", the fallback is an MCQ with 4 options, index 1 and difficulty "easy". |
| `JsValues.Or` | backend/server.js:196-199 | `a \|\| b` is one of its operands. It is truthy exactly when either operand is. A truthy left operand wins, and a falsy result is the right operand. |
| `JsValues.Coalesce` | backend/server.js:223-224 | `a ?? b` is one of its operands. It is nullish exactly when both are. A non-nullish left operand wins, and a nullish result is the right operand. |
| `JsValues.PropOfUpdate` | backend/server.js:211-224 | Setting one key of an object changes the read of that key and no other read. |
| `JsStrings.TrimStart` | backend/server.js:168 | The leading strip never lengthens the text and leaves no whitespace in front. |
| `JsStrings.TrimEnd` | backend/server.js:168 | The trailing strip never lengthens the text and leaves no whitespace at the end. |
| `JsStrings.Trim` | backend/server.js:168 | `trim` never lengthens the text and leaves no whitespace at either end. |
| `JsStrings.DropLetters` | backend/server.js:171 | `[a-zA-Z]*` never lengthens the text and leaves no letter in front. |
| `JsStrings.DropLettersSplit` | backend/server.js:171 | The input is a run of ASCII letters followed by what `[a-zA-Z]*` leaves. |
| `JsStrings.TrimStartSplit` | backend/server.js:171 | The input is a run of whitespace followed by what `\s*` leaves. |
| `JsStrings.TrimStartSpec` | backend/server.js:168 | The leading half of `trim`: the result is a suffix, everything cut off is whitespace and the result does not start with whitespace. |
| `JsStrings.TrimEndSpec` | backend/server.js:168 | The trailing half of `trim`: the result is a prefix, everything cut off is whitespace and the result does not end with whitespace. |
| `JsStrings.TrimIsWhiteStrippedSlice` | backend/server.js:168-173 | `trim` returns a contiguous slice with only whitespace around it, and the slice has no whitespace at either end. |
| `JsStrings.TrimStartAppend` | backend/server.js:171 | Leading whitespace in front of text that does not start with whitespace is removed whole. |
| `JsStrings.TrimEndAppendWhite` | backend/server.js:173 | Trailing whitespace appended to a string makes no difference to trimming its end. |
| `JsStrings.TrimStartOfTrimmed` | backend/server.js:171 | Stripping leading whitespace is idempotent. |
| `JsStrings.DropLettersSpec` | backend/server.js:171 | `[a-zA-Z]*` removes the longest prefix of ASCII letters: what it cuts is letters and what it keeps does not start with one. |
| `JsStrings.DropLettersTag` | backend/server.js:171 | A language tag of letters in front of a non-letter is removed whole. |
| `JsStrings.NatToStringRoundTrip` | backend/server.js:29 | Reading back the decimal rendering of a number gives the number. |
| `JsStrings.NatToString` | backend/server.js:29 | The rendering is a non-empty string of digits with no leading zero. |
| `JsStrings.IntToString` | backend/server.js:29 | The rendering is a minus sign exactly for negative numbers, then decimal digits with no leading zero. |
| `JsStrings.IntToStringRoundTrip` | backend/server.js:29 | Reading back the signed rendering of any integer, with the independent `SignedDecimalValue`, gives the integer. |
| `Upstream.FirstPartField` | backend/server.js:157-158 | The optional chain gives undefined when the reply has no candidates or an empty list of them. |
| `Upstream.FirstPartFieldOfReply` | backend/server.js:157-158 | Whenever `candidates[0].content.parts[0]` reaches an object part, whatever other keys the objects on the way carry, the chain reads that part's field. |
| `Upstream.ExtractText` | backend/server.js:156-163 | A null or undefined reply fails with a TypeError. Otherwise the text is found if and only if the first part's `text` or `data` is truthy. It is `text` when that is truthy and `data` otherwise. It is always truthy. A failure is a TypeError or "no content". |
| `Upstream.ExtractFromTextReply` | backend/server.js:157 | A reply whose first part has non-empty `text` yields that text. |
| `Upstream.ExtractFromDataReply` | backend/server.js:158 | A reply whose first part has no truthy `text` but a truthy `data` yields that payload, whatever its type. |
| `Upstream.ExtractFromEmptyReply` | backend/server.js:156-163 | A reply without candidates fails with "no content". |
| `Upstream.OpeningMatchEnd` | backend/server.js:171 | Dropping the fence, then the letters, then the whitespace splits the text into fence, longest letter tag, longest whitespace run and the rest. |
| `Upstream.StripOpeningFence` | backend/server.js:171 | Text that does not open with a fence is left alone. Text that does is split into fence, longest ASCII-letter tag, longest whitespace run and the rest, and the result is that rest. The result is never longer than the text. |
| `Upstream.StripClosingFence` | backend/server.js:172 | A fence at the very end is removed, and only there. |
| `Upstream.CleanFences` | backend/server.js:166-175 | The cleaned text is never longer than the input and never starts or ends with whitespace. |
| `Upstream.CleanFencesIsTrimmed` | backend/server.js:166-175 | Without an opening fence, the cleaned text is a whitespace-stripped slice of the input. |
| `Upstream.CleanUnfenced` | backend/server.js:167-169 | When the trimmed text does not open with a fence, cleaning is just `trim`. |
| `Upstream.FencedIsUnpadded` | backend/server.js:168-169 | A fenced reply is already trimmed and opens with a fence. |
| `Upstream.OpeningOfFenced` | backend/server.js:171 | Removing the opening fence, its letter tag and the whitespace after it leaves the leading-stripped rest: `` TrimStart(payload + "\n```") ``, which drops the newline after the tag and any whitespace the payload starts with. |
| `Upstream.ClosingAfterPayload` | backend/server.js:171-172 | After the opening is stripped, the closing-fence step leaves the payload without its leading whitespace, followed by the newline, or nothing when the payload is all whitespace. |
| `Upstream.TrimAfterClosing` | backend/server.js:172-173 | The final `trim` of that text gives the trimmed payload. |
| `Upstream.CleanFencedIsTrimmedPayload` | backend/server.js:166-175 | Cleaning the fenced reply (three backticks, an optional letter tag, a newline, the payload X, a newline, three backticks) gives `trim(X)`. |
| `Upstream.CleanFencedMatchesUnfenced` | backend/server.js:166-175 | Cleaning a fenced payload gives the same result as cleaning the bare payload, when the payload does not itself open with a fence. |
| `Upstream.GenerateAi` | backend/server.js:88-185 | Each failure has exactly one cause, stated as an if-and-only-if. The call's own failures are passed on unchanged. A TypeError happens exactly on a null or undefined reply. "No content" happens exactly when neither `text` nor `data` is truthy. A parse failure happens exactly when the text is a string whose cleaned form does not parse. A success is the parse of the cleaned string, or the non-string text as it is. |
| `Upstream.GenerateFromFencedReply` | backend/server.js:156-185 | A reply whose first part's text is a fenced payload yields the parse of the trimmed payload, or a parse failure. |
| `Route.OrDefault` | backend/server.js:196-198 | The defaulted string field is what JavaScript's `\|\|` gives on the field and the default. It is never empty when the default is not. |
| `Route.Defaults` | backend/server.js:195-199 | The defaults are "generic", "technical", "auto" and 0. Each given field is kept and each missing or falsy one is replaced. A missing body behaves like an empty one. The three string fields are never empty. |
| `Route.DefaultType` | backend/server.js:216 | The default type is "mcq" exactly for the aptitude round, and "open" otherwise. |
| `Route.Normalize` | backend/server.js:211-225 | The normaliser fails (a TypeError) exactly when the parsed reply is null or undefined. Otherwise, for a non-empty requested round (which `Defaults` guarantees), it yields a conformant record. |
| `Route.NormalizeTruthyFields` | backend/server.js:211-217 | Falsy round, difficulty, type and text are replaced by the requested round, `inferDifficulty`, the round's default type and the placeholder. Truthy ones are copied. |
| `Route.NormalizeTypedFields` | backend/server.js:218-222 | `options` is kept only when it is an array, and is `[]` otherwise. The index is kept only when it is a number, and is otherwise 0 for "aptitude" and null for other rounds. |
| `Route.NormalizeNullishFields` | backend/server.js:223-224 | The explanation and the tip are null exactly when the reply's are null or missing. Otherwise they are copied. |
| `Route.NormalizeEmptyReply` | backend/server.js:211-225 | `{}` for a technical round gives an open question with no options, a null index and the placeholder text. |
| `Route.DefaultTypeIgnoresReplyRound` | backend/server.js:216 | Without a question type, the default depends on the requested round and not on the round in the reply. |
| `Route.NormalizeKeepsFalsyNonNull` | backend/server.js:223-224 | An empty explanation and a `false` tip are passed through. |
| `Route.NormalizeDoesNotForceMcq` | backend/server.js:216-222 | For an aptitude round, an "open" reply without options stays open and is not an MCQ, even though its index defaults to 0. |
| `Questions.ToValueFields` | backend/server.js:213-227 | Each of the eight keys of the serialised record reads back its field. |
| `Route.NormalizeFixesConformant` | backend/server.js:211-225 | A reply that already has the response shape (and has a null index only outside aptitude) comes out unchanged. |
| `Route.FallbackSurvivesNormalize` | backend/server.js:211-225 | The fallback record, sent back as a reply, is a fixed point of the normaliser. |
| `Route.FallbackFor` | backend/server.js:231 | The fallback for any request body is conformant, has a follow-up tip, echoes the defaulted round and mentions the defaulted domain. |
| `Route.NextQuestion` | backend/server.js:194-234 | The handler always answers with a conformant record. |
| `Route.FailureFallsBack` | backend/server.js:228-233 | Any failure on the generated path gives the fallback for the defaulted request. |
| `Route.NullReplyFallsBack` | backend/server.js:211-233 | A reply parsed to null gives the fallback. |
| `Route.SuccessNormalizes` | backend/server.js:203-227 | Any other parsed reply gives its normalised record. |
| `Route.NormalizedOrFallback` | backend/server.js:202-233 | The answer is either the normalised reply or the fallback record, and nothing else. |
| `Route.TransportFailureExample` | backend/server.js:194-233 | A technical round for "IT" with a failed call gives an open, conformant question that mentions "IT". |
| `Route.MissingKeyExample` | backend/server.js:228-233 | A missing API key gives the fallback like any other failure. |

## Left out

- The Express app, CORS, JSON body parsing, the `GET /` health route and
  `app.listen`/`PORT` (backend/server.js:1-9, 188-191, 236-240). These are
  HTTP plumbing.
- dotenv and the `GEMINI_API_KEY` lookup (backend/server.js:5, 88-91).
  These read the environment. A missing key is the `MissingApiKey`
  failure of the abstract call.
- The `fetch` call, its headers, the status check with the error text and
  `response.json()` (backend/server.js:127-154). These are network I/O.
  Their outcome is the `call` parameter, with the failures
  `ApiError`/`TransportFailure`.
- `JSON.parse` itself (backend/server.js:179). It is the `parse`
  parameter.
- The prompt text and `temperature: 0.8` (backend/server.js:93-125,
  129-138). They only shape the outgoing request, which is part of the abstract call.
- `console.error` logging (backend/server.js:181, 229). It is output only.
- `previousAnswers` (backend/server.js:85, 200). It is read but never
  used.
- Async execution and concurrent requests. The handler is a function of
  its request and the outcome of the call.
- Route.Defaults: request fields are typed (a string or absent for domain,
  round and difficulty, an integer or absent for the index). A non-string
  field, or a string index such as "3", which JavaScript would concatenate
  in `questionIndex + 1`, is not modelled.
- JsValues.Value: numbers are integers. Fractions, NaN and infinities are
  not modelled. The integer rendering in `JsStrings.IntToString` is the
  one JavaScript uses below 10^21.
- Fallback.Numbering: the `questionIndex + 1` of backend/server.js:29 is
  exact in the model, while JavaScript's double-precision addition rounds
  it from 2^53 on. The position shown, and `Fallback.FallbackNumbering`,
  agree with the program only for |questionIndex| < 2^53.
- JsValues.Prop: only own properties of objects are seen. The property
  names the server reads are not inherited by strings, arrays, numbers or
  plain objects, so inherited properties make no difference here.
- JsStrings: strings are sequences of Unicode code points, not UTF-16
  code units. This matters only for `"abc"?.[0]` on text outside the
  Basic Multilingual Plane.
