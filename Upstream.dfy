/**
 The part of `generateAiQuestion` that handles the upstream reply: pick the
 generated text out of the reply, strip an optional Markdown code fence and
 parse what is left. The call itself (credential lookup, HTTP request,
 status check, reading the body as JSON) is one abstract step whose outcome
 is a parameter of type `Call`, and `JSON.parse` is a parameter too.
 */
module Upstream {
  import opened JsValues
  import opened JsStrings
  import opened Wrappers

  /** The ways the call itself fails, before any reply text is seen. */
  datatype CallError =
    | MissingApiKey               // no credential configured
    | ApiError(detail: string)    // non-success status, with the reply body
    | TransportFailure            // the request or reading its body failed

  /** The outcome of the call: the reply body read as JSON, or a failure. */
  datatype Call = Responded(data: Value) | Failed(reason: CallError)

  /** The reasons the generated path gives up. */
  datatype Error =
    | CallFailed(reason: CallError)  // the call failed
    | NoContent                      // no text in the first candidate
    | ParseFailure                   // the cleaned text is not JSON
    | NullAccess                     // a property read on null or undefined (a TypeError)

  datatype Result<T> = Ok(value: T) | Err(error: Error)

  /** A JSON parser: `Some(v)` when the text is JSON denoting `v`, `None`
      when `JSON.parse` would throw. */
  type Parser = string -> Option<Value>

  const Fence := "```"

  /** `data.candidates?.[0]?.content?.parts?.[0]?.<name>` for a reply that
      is not null or undefined. */
  function FirstPartField(data: Value, name: string): (r: Value)
    ensures Nullish(Prop(data, "candidates")) ==> r == Undefined
    ensures Prop(data, "candidates") == Arr([]) ==> r == Undefined
  {
    var candidate := OptIndex0(Prop(data, "candidates"));
    OptProp(OptIndex0(OptProp(OptProp(candidate, "content"), "parts")), name)
  }

  /** The generated text: the first part's `text` if truthy, else its
      `data` if truthy, else a failure. A null or undefined reply fails on
      the very first property read. */
  function ExtractText(data: Value): (r: Result<Value>)
    ensures Nullish(data) ==> r == Err(NullAccess)
    ensures !Nullish(data) ==>
      (r.Ok? <==> Truthy(FirstPartField(data, "text")) || Truthy(FirstPartField(data, "data")))
    ensures r.Ok? ==> Truthy(r.value)
    ensures r.Ok? && Truthy(FirstPartField(data, "text")) ==> r.value == FirstPartField(data, "text")
    ensures r.Ok? && !Truthy(FirstPartField(data, "text")) ==> r.value == FirstPartField(data, "data")
    ensures r.Err? ==> r.error == NullAccess || r.error == NoContent
  {
    if Nullish(data) then Err(NullAccess)
    else
      var text := Or(Or(FirstPartField(data, "text"), FirstPartField(data, "data")), Null);
      if !Truthy(text) then Err(NoContent) else Ok(text)
  }

  /** `part` is what `data.candidates[0].content.parts[0]` reaches: each
      step of the path is an object or a non-empty array holding the next
      one. The objects on the way may carry any other keys (a candidate's
      `finishReason`, a content's `role`). */
  predicate FirstPartIs(data: Value, part: Value) {
    && data.Obj? && "candidates" in data.fields
    && var candidates := data.fields["candidates"];
    && candidates.Arr? && |candidates.elems| > 0
    && candidates.elems[0].Obj? && "content" in candidates.elems[0].fields
    && var content := candidates.elems[0].fields["content"];
    && content.Obj? && "parts" in content.fields
    && var parts := content.fields["parts"];
    && parts.Arr? && |parts.elems| > 0
    && parts.elems[0] == part && part.Obj?
  }

  /** Wherever the chain reaches an object part, it reads the requested
      field of that part. */
  lemma FirstPartFieldOfReply(data: Value, part: Value, name: string)
    requires FirstPartIs(data, part)
    ensures FirstPartField(data, name) == Prop(part, name)
  {
  }

  /** A reply whose first part has non-empty text yields that text. */
  lemma ExtractFromTextReply(data: Value, part: Value, t: string)
    requires FirstPartIs(data, part) && Prop(part, "text") == Str(t) && t != ""
    ensures ExtractText(data) == Ok(Str(t))
  {
    FirstPartFieldOfReply(data, part, "text");
  }

  /** A reply whose first part has no truthy text but a truthy `data`
      yields that payload, whatever its type. */
  lemma ExtractFromDataReply(data: Value, part: Value)
    requires FirstPartIs(data, part)
    requires !Truthy(Prop(part, "text")) && Truthy(Prop(part, "data"))
    ensures ExtractText(data) == Ok(Prop(part, "data"))
  {
    FirstPartFieldOfReply(data, part, "text");
    FirstPartFieldOfReply(data, part, "data");
  }

  /** A reply without candidates has no text. */
  lemma ExtractFromEmptyReply()
    ensures ExtractText(Obj(map["candidates" := Arr([])])) == Err(NoContent)
  {
  }

  /** The opening pattern `^```[a-zA-Z]*\s*` matches the front of
      s == Fence + (tag + (ws + r)): the letters of tag and the whitespace
      of ws, each run as long as it can be, and r is what is left. */
  ghost predicate OpeningMatch(s: string, tag: string, ws: string, r: string) {
    && s == Fence + (tag + (ws + r))
    && AllAsciiLetters(tag) && (ws + r == [] || !IsAsciiLetter((ws + r)[0]))
    && AllWhite(ws) && (r == [] || !IsWhite(r[0]))
  }

  /** Dropping the letters and then the whitespace after the fence leaves
      what follows the regex match. */
  lemma OpeningMatchEnd(s: string)
    requires StartsWith(s, Fence)
    ensures var t := s[|Fence|..];
      var d := DropLetters(t);
      var r := TrimStart(d);
      OpeningMatch(s, t[..|t| - |d|], d[..|d| - |r|], r)
  {
    var t := s[|Fence|..];
    DropLettersSplit(t);
    var d := DropLetters(t);
    TrimStartSplit(d);
    var r := TrimStart(d);
    var tag := t[..|t| - |d|];
    var ws := d[..|d| - |r|];
    assert s == Fence + t;
  }

  /** Replacing the opening pattern `^```[a-zA-Z]*\s*` with "": an
      opening fence, its language tag and the whitespace after it are
      removed. */
  function StripOpeningFence(s: string): (r: string)
    ensures |r| <= |s|
    ensures !StartsWith(s, Fence) ==> r == s
    ensures StartsWith(s, Fence) ==> exists tag, ws :: OpeningMatch(s, tag, ws, r)
  {
    if StartsWith(s, Fence) then
      OpeningMatchEnd(s);
      TrimStart(DropLetters(s[|Fence|..]))
    else
      s
  }

  /** `s.replace(/```$/, "")`: a fence at the very end is removed. */
  function StripClosingFence(s: string): (r: string)
    ensures EndsWith(s, Fence) ==> r + Fence == s
    ensures !EndsWith(s, Fence) ==> r == s
  {
    if EndsWith(s, Fence) then s[..|s| - |Fence|] else s
  }

  /** The cleanup of the generated text: trim it, and if it then opens
      with a fence, strip the opening and the closing fence and trim again. */
  function CleanFences(text: string): (r: string)
    ensures |r| <= |text|
    ensures r == [] || (!IsWhite(r[0]) && !IsWhite(r[|r| - 1]))
  {
    var t := Trim(text);
    if StartsWith(t, Fence) then Trim(StripClosingFence(StripOpeningFence(t))) else t
  }

  /** Text that does not open with a fence comes out as a
      whitespace-stripped slice of itself. */
  lemma CleanFencesIsTrimmed(text: string)
    ensures !StartsWith(Trim(text), Fence) ==> WhiteStripped(text, CleanFences(text))
  {
    TrimIsWhiteStrippedSlice(text);
  }

  /** Text that does not open with a fence is only trimmed. */
  lemma CleanUnfenced(text: string)
    requires !StartsWith(Trim(text), Fence)
    ensures CleanFences(text) == Trim(text)
  {
  }

  /** A fenced reply: an opening fence with an optional language tag, a
      newline, the payload, a newline and a closing fence. */
  function Fenced(tag: string, payload: string): string {
    Fence + (tag + ("\n" + (payload + ("\n" + Fence))))
  }

  /** A string that opens and ends with a non-white character is its own
      trim. */
  lemma TrimOfUnpadded(s: string)
    requires |s| > 0 && !IsWhite(s[0]) && !IsWhite(s[|s| - 1])
    ensures Trim(s) == s
  {
  }

  /** A fenced reply has nothing to trim: it opens and ends with a fence. */
  lemma FencedIsUnpadded(tag: string, payload: string)
    ensures Trim(Fenced(tag, payload)) == Fenced(tag, payload)
    ensures StartsWith(Fenced(tag, payload), Fence)
  {
    var s := Fenced(tag, payload);
    assert s[0] == '`' && s[|s| - 1] == '`';
    TrimOfUnpadded(s);
    assert s[..|Fence|] == Fence;
  }

  /** The opening regex removes the fence, the tag, the newline and any
      whitespace that opens the payload. */
  lemma {:induction false} OpeningOfFenced(tag: string, payload: string)
    requires AllAsciiLetters(tag)
    ensures StripOpeningFence(Fenced(tag, payload)) == TrimStart(payload + ("\n" + Fence))
  {
    var s := Fenced(tag, payload);
    assert s[..|Fence|] == Fence;
    var body := payload + ("\n" + Fence);
    assert s[|Fence|..] == tag + ("\n" + body);
    DropLettersTag(tag, "\n" + body);
    assert ("\n" + body)[1..] == body;
  }

  /** The closing regex removes exactly the fence that was appended. */
  lemma ClosingOfAppended(x: string)
    ensures StripClosingFence(x + Fence) == x
  {
    var y := x + Fence;
    assert y[|y| - |Fence|..] == Fence;
    assert y[..|y| - |Fence|] == x;
  }

  /** A newline and a fence alone clean up to nothing. */
  lemma ClosingOfBareFence()
    ensures StripClosingFence(TrimStart("\n" + Fence)) == []
  {
    var x := "\n" + Fence;
    assert IsWhite(x[0]) && x[1..] == Fence;
    assert !IsWhite(Fence[0]);
    assert TrimStart(x) == Fence;
    ClosingOfAppended([]);
    assert [] + Fence == Fence;
  }

  /** What the opening regex leaves ends with the closing fence, preceded
      by the payload without its leading whitespace and the newline (or by
      nothing, when the payload is all whitespace). */
  lemma ClosingAfterPayload(payload: string)
    ensures StripClosingFence(TrimStart(payload + ("\n" + Fence)))
      == if TrimStart(payload) == [] then [] else TrimStart(payload) + "\n"
  {
    TrimStartAppend(payload, "\n" + Fence);
    var p := TrimStart(payload);
    if p != [] {
      assert p + ("\n" + Fence) == (p + "\n") + Fence;
      ClosingOfAppended(p + "\n");
    } else {
      ClosingOfBareFence();
    }
  }

  /** A newline after text that has no leading whitespace is cut off by the
      trim, which then trims the text as it would the original payload. */
  lemma TrimPaddedNewline(payload: string)
    requires TrimStart(payload) != []
    ensures Trim(TrimStart(payload) + "\n") == Trim(payload)
  {
    var p := TrimStart(payload);
    TrimStartOfTrimmed(payload);
    TrimStartAppend(p, "\n");
    assert AllWhite("\n");
    TrimEndAppendWhite(p, "\n");
  }

  /** The final trim gives the payload's own trim. */
  lemma TrimAfterClosing(payload: string)
    ensures Trim(if TrimStart(payload) == [] then [] else TrimStart(payload) + "\n") == Trim(payload)
  {
    if TrimStart(payload) != [] {
      TrimPaddedNewline(payload);
    }
  }

  /** Stripping a fence yields the trimmed payload. */
  lemma CleanFencedIsTrimmedPayload(tag: string, payload: string)
    requires AllAsciiLetters(tag)
    ensures CleanFences(Fenced(tag, payload)) == Trim(payload)
  {
    FencedIsUnpadded(tag, payload);
    OpeningOfFenced(tag, payload);
    ClosingAfterPayload(payload);
    TrimAfterClosing(payload);
  }

  /** Cleaning a fenced reply gives what cleaning the bare payload gives,
      as long as the payload does not itself open with a fence. */
  lemma CleanFencedMatchesUnfenced(tag: string, payload: string)
    requires AllAsciiLetters(tag)
    requires !StartsWith(Trim(payload), Fence)
    ensures CleanFences(Fenced(tag, payload)) == CleanFences(payload)
  {
    CleanFencedIsTrimmedPayload(tag, payload);
  }

  /** `generateAiQuestion` after the call: the reply's text, cleaned and
      parsed when it is a string, returned as it is otherwise. Each failure
      has exactly one cause: the call, a null reply, no text, or text that
      does not parse. */
  function GenerateAi(call: Call, parse: Parser): (r: Result<Value>)
    ensures (r.Err? && r.error.CallFailed?) <==> call.Failed?
    ensures call.Failed? ==> r == Err(CallFailed(call.reason))
    ensures r == Err(NullAccess) <==> call.Responded? && Nullish(call.data)
    ensures r == Err(NoContent) <==>
      && call.Responded? && !Nullish(call.data)
      && !Truthy(FirstPartField(call.data, "text")) && !Truthy(FirstPartField(call.data, "data"))
    ensures r == Err(ParseFailure) <==>
      && call.Responded? && ExtractText(call.data).Ok? && ExtractText(call.data).value.Str?
      && parse(CleanFences(ExtractText(call.data).value.s)).None?
    ensures r.Ok? ==>
      && call.Responded? && ExtractText(call.data).Ok?
      && var text := ExtractText(call.data).value;
         (text.Str? ==> parse(CleanFences(text.s)) == Some(r.value))
         && (!text.Str? ==> r.value == text)
  {
    match call
    case Failed(reason) => Err(CallFailed(reason))
    case Responded(data) =>
      match ExtractText(data)
      case Err(e) => Err(e)
      case Ok(text) =>
        if text.Str? then
          match parse(CleanFences(text.s))
          case Some(v) => Ok(v)
          case None => Err(ParseFailure)
        else
          Ok(text)
  }

  /** A documented reply whose text is a fenced payload yields what the
      parser makes of the trimmed payload, or a parse failure. */
  lemma GenerateFromFencedReply(data: Value, part: Value, tag: string, payload: string, parse: Parser)
    requires FirstPartIs(data, part) && Prop(part, "text") == Str(Fenced(tag, payload))
    requires AllAsciiLetters(tag)
    ensures GenerateAi(Responded(data), parse)
      == match parse(Trim(payload)) case Some(v) => Ok(v) case None => Err(ParseFailure)
  {
    assert Fenced(tag, payload) != "" by {
      assert |Fenced(tag, payload)| >= 2 * |Fence|;
    }
    ExtractFromTextReply(data, part, Fenced(tag, payload));
    CleanFencedIsTrimmedPayload(tag, payload);
  }

}
