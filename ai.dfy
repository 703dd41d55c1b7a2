/**
 * The diagram generator's client side: which prompt is sent, and how the
 * model's raw reply is cleaned into Mermaid source or rejected.
 *
 * The model itself is a parameter `model: Prompt -> Result<string, string>`
 * (the reply text, or the message of a failed call). The long system prompt
 * and the prose of the two prompt templates are not modelled; a `Prompt`
 * records which template was chosen and what was filled into it.
 */
module Ai {
  import opened Text
  import opened Model

  /** The diagram keywords a cleaned reply must start with (matched as prefixes). */
  const DiagramTypes: seq<string> :=
    ["flowchart", "sequenceDiagram", "classDiagram", "stateDiagram", "erDiagram",
     "gantt", "pie", "gitGraph", "graph"]

  /** `prefixes.some(p => line.startsWith(p))` */
  predicate StartsWithAny(prefixes: seq<string>, line: string) {
    prefixes != [] && (IsPrefix(prefixes[0], line) || StartsWithAny(prefixes[1..], line))
  }

  /** `validTypes.some(type => line.startsWith(type))` */
  predicate HasDiagramType(line: string) {
    StartsWithAny(DiagramTypes, line)
  }

  datatype GenError =
    | NotConfigured                      // no API key: nothing is sent
    | GenerationFailed(message: string)  // the model call itself failed
    | EmptyCode                          // the cleaned reply is blank
    | MissingDiagramType                 // its first line names no diagram type

  // ------------------------------------------------------------ fences

  /** Drops one newline at the front, as `\n?` in the fence patterns does. */
  function DropNewline(s: string): string {
    if s != [] && s[0] == '\n' then s[1..] else s
  }

  /** `replace(/^```mermaid\n?/i, '')`: the opening fence with its language tag, any case. */
  function StripMermaidFence(s: string): string {
    if LowerStartsWith(s, "```mermaid") then DropNewline(s[10..]) else s
  }

  /** `replace(/^```\n?/i, '')`: a bare opening fence. */
  function StripFence(s: string): string {
    if IsPrefix("```", s) then DropNewline(s[3..]) else s
  }

  /**
   * `replace(/\n?```$/g, '')`: the closing fence at the very end, with the
   * newline before it when there is one (the leftmost match wins).
   */
  function StripClosingFence(s: string): string {
    if |s| >= 4 && s[|s| - 4..] == "\n```" then s[..|s| - 4]
    else if |s| >= 3 && s[|s| - 3..] == "```" then s[..|s| - 3]
    else s
  }

  /** The reply trimmed and rid of its fences, before any line is dropped. */
  function Unfenced(raw: string): string {
    StripClosingFence(StripFence(StripMermaidFence(Trim(raw))))
  }

  // ------------------------------------------------------------ specification

  /** The index of the first line whose trimmed text names a diagram type, or `|lines|`. */
  function FirstTypedLine(lines: seq<string>): (k: nat)
    ensures k <= |lines|
    ensures forall j :: 0 <= j < k ==> !HasDiagramType(Trim(lines[j]))
    ensures k < |lines| ==> HasDiagramType(Trim(lines[k]))
  {
    if lines == [] then 0
    else if HasDiagramType(Trim(lines[0])) then 0
    else 1 + FirstTypedLine(lines[1..])
  }

  /**
   * What cleaning an unfenced reply means: keep the lines from the first one
   * that names a diagram type onwards, trimmed; with no such line, the reply
   * is rejected, as empty when nothing but white space is left.
   */
  function Cleaned(text: string): (r: Result<string, GenError>)
    ensures r.Ok? ==> Trim(r.value) == r.value
    ensures r.Err? ==> r.error == EmptyCode || r.error == MissingDiagramType
  {
    var lines := Split(text, '\n');
    var k := FirstTypedLine(lines);
    if k < |lines| then TrimIdempotent(Join(lines[k..], '\n')); Ok(Trim(Join(lines[k..], '\n')))
    else if Blank(text) then Err(EmptyCode)
    else Err(MissingDiagramType)
  }

  /** The whole post-processing of a raw reply. */
  function Sanitized(raw: string): (r: Result<string, GenError>)
    ensures r.Ok? ==> r.value != [] && Trim(r.value) == r.value && HasDiagramType(Trim(Split(r.value, '\n')[0]))
  {
    if Cleaned(Unfenced(raw)).Ok? then AcceptedCodeIsWellFormed(Unfenced(raw)); Cleaned(Unfenced(raw))
    else Cleaned(Unfenced(raw))
  }

  // ------------------------------------------------------------ the code as written

  /**
   * The post-processing inside `generateMermaidCode`, step by step: strip the
   * fences, search the first typed line, drop what precedes it, then check the
   * trimmed text is non-empty and its first line names a diagram type.
   */
  method PostProcess(raw: string) returns (result: Result<string, GenError>)
    ensures result == Sanitized(raw)
  {
    var mermaidCode := Trim(raw);
    mermaidCode := StripMermaidFence(mermaidCode);
    mermaidCode := StripFence(mermaidCode);
    mermaidCode := StripClosingFence(mermaidCode);
    ghost var unfenced := mermaidCode;

    var lines := Split(mermaidCode, '\n');
    var codeStartIndex := FindCodeStart(lines);

    if codeStartIndex > 0 {
      mermaidCode := Join(lines[codeStartIndex..], '\n');
    }
    CodeStartIsFirstTypedLine(lines, codeStartIndex);
    CleanedFirstLine(unfenced, lines, codeStartIndex, mermaidCode);

    var trimmedCode := Trim(mermaidCode);
    if trimmedCode == [] {
      return Err(EmptyCode);
    }
    var firstLine := Trim(Split(trimmedCode, '\n')[0]);
    if !HasDiagramType(firstLine) {
      return Err(MissingDiagramType);
    }
    return Ok(Trim(mermaidCode));
  }

  /**
   * The search loop of the post-processing: the index of the first line whose
   * trimmed text starts with a diagram keyword, or -1 when there is none.
   */
  method FindCodeStart(lines: seq<string>) returns (codeStartIndex: int)
    ensures -1 <= codeStartIndex < |lines|
    ensures codeStartIndex >= 0 ==> HasDiagramType(Trim(lines[codeStartIndex]))
    ensures forall j :: 0 <= j < |lines| && (codeStartIndex == -1 || j < codeStartIndex) ==>
      !HasDiagramType(Trim(lines[j]))
  {
    codeStartIndex := -1;
    var i := 0;
    while i < |lines|
      invariant 0 <= i <= |lines|
      invariant codeStartIndex == -1
      invariant forall j :: 0 <= j < i ==> !HasDiagramType(Trim(lines[j]))
    {
      if HasDiagramType(Trim(lines[i])) {
        codeStartIndex := i;
        break;
      }
      i := i + 1;
    }
  }

  /** The search finds the line `FirstTypedLine` names. */
  lemma CodeStartIsFirstTypedLine(lines: seq<string>, start: int)
    requires -1 <= start < |lines|
    requires start >= 0 ==> HasDiagramType(Trim(lines[start]))
    requires forall j :: 0 <= j < |lines| && (start == -1 || j < start) ==> !HasDiagramType(Trim(lines[j]))
    ensures start == -1 <==> FirstTypedLine(lines) == |lines|
    ensures start != -1 ==> start == FirstTypedLine(lines)
  {
    var f := FirstTypedLine(lines);
    if f < |lines| {
      assert HasDiagramType(Trim(lines[f]));
    }
    if start >= 0 {
      assert !HasDiagramType(Trim(lines[f])) ==> f == |lines| || f > start;
    }
  }

  /** The two checks at the end of the post-processing decide exactly as `Sanitized` does. */
  lemma CleanedFirstLine(unfenced: string, lines: seq<string>, start: int, code: string)
    requires lines == Split(unfenced, '\n')
    requires start == -1 ==> FirstTypedLine(lines) == |lines|
    requires start != -1 ==> start == FirstTypedLine(lines) < |lines|
    requires code == if start > 0 then Join(lines[start..], '\n') else unfenced
    ensures start == -1 && Blank(unfenced) ==> Trim(code) == []
    ensures start == -1 && !Blank(unfenced) ==>
      Trim(code) != [] && !HasDiagramType(Trim(Split(Trim(code), '\n')[0]))
    ensures start != -1 ==>
      code == Join(lines[start..], '\n') &&
      Trim(code) != [] && HasDiagramType(Trim(Split(Trim(code), '\n')[0]))
  {
    JoinSplit(unfenced, '\n');
    if start == -1 {
      assert code == Join(lines, '\n');
      FirstLineOfTrimmed(lines);
      TrimEmptyIffBlank(code);
      var j := FirstNonBlank(lines);
      if j < |lines| {
        assert !HasDiagramType(Trim(lines[j]));
      }
    } else {
      var rest := lines[start..];
      assert lines[0..] == lines;
      assert code == Join(rest, '\n');
      TypedLineIsNotBlank(lines[start]);
      assert FirstNonBlank(rest) == 0;
      FirstLineOfTrimmed(rest);
    }
  }

  /** A line that names a diagram type has some visible character. */
  lemma TypedLineIsNotBlank(line: string)
    requires HasDiagramType(Trim(line))
    ensures !Blank(line)
  {
    LongPrefixes(DiagramTypes, Trim(line));
    TrimEmptyIffBlank(line);
  }

  /** A line that starts with one of several prefixes of three or more characters is that long. */
  lemma {:induction false} LongPrefixes(prefixes: seq<string>, line: string)
    requires forall i :: 0 <= i < |prefixes| ==> |prefixes[i]| >= 3
    requires StartsWithAny(prefixes, line)
    ensures |line| >= 3
  {
    if !IsPrefix(prefixes[0], line) {
      LongPrefixes(prefixes[1..], line);
    }
  }

  // ------------------------------------------------------------ properties of the cleaning

  /**
   * An accepted reply is non-empty, already trimmed, and its first line
   * (trimmed) starts with one of the diagram keywords.
   */
  lemma AcceptedCodeIsWellFormed(text: string)
    requires Cleaned(text).Ok?
    ensures var r := Cleaned(text).value;
      r != [] && Trim(r) == r && HasDiagramType(Trim(Split(r, '\n')[0]))
  {
    var lines := Split(text, '\n');
    var k := FirstTypedLine(lines);
    var code := Join(lines[k..], '\n');
    CleanedFirstLine(text, lines, k, if k > 0 then code else text);
    TrimIdempotent(code);
  }

  /**
   * A reply is rejected exactly when none of its lines names a diagram type,
   * and rejected as empty exactly when it is blank.
   */
  lemma CleanedCases(text: string)
    ensures var k := FirstTypedLine(Split(text, '\n'));
      (k < |Split(text, '\n')| <==> Cleaned(text).Ok?) &&
      (Cleaned(text) == Err(EmptyCode) <==> k == |Split(text, '\n')| && Blank(text))
  {
  }

  lemma RejectedIffNoTypedLine(text: string)
    ensures var lines := Split(text, '\n');
      Cleaned(text).Err? <==> forall j :: 0 <= j < |lines| ==> !HasDiagramType(Trim(lines[j]))
    ensures Cleaned(text) == Err(EmptyCode) <==> Blank(text)
  {
    var lines := Split(text, '\n');
    var k := FirstTypedLine(lines);
    CleanedCases(text);
    if k < |lines| {
      assert HasDiagramType(Trim(lines[k]));
      TypedLineIsNotBlank(lines[k]);
      if Blank(text) {
        BlankLinesOfBlank(text);
        assert false;
      }
    }
  }

  /** Every line of a blank text is blank. */
  lemma {:induction false} BlankLinesOfBlank(s: string)
    requires Blank(s)
    ensures forall j :: 0 <= j < |Split(s, '\n')| ==> Blank(Split(s, '\n')[j])
  {
    if s != [] {
      BlankLinesOfBlank(s[1..]);
      var rest := Split(s[1..], '\n');
      if s[0] != '\n' {
        assert Blank([s[0]] + rest[0]);
      }
    }
  }

  /**
   * When the first line already names a diagram type nothing is dropped: the
   * result is the whole reply, trimmed.
   */
  lemma NothingDroppedWhenFirstLineTyped(text: string)
    requires HasDiagramType(Trim(Split(text, '\n')[0]))
    ensures Cleaned(text) == Ok(Trim(text))
  {
    var lines := Split(text, '\n');
    assert lines[0..] == lines;
    JoinSplit(text, '\n');
  }

  /**
   * Lines before the first typed line are dropped and the ones from it on are
   * kept verbatim (only the ends of the whole text are trimmed).
   */
  lemma ProseBeforeCodeIsDropped(text: string, k: nat)
    requires k < |Split(text, '\n')|
    requires HasDiagramType(Trim(Split(text, '\n')[k]))
    requires forall j :: 0 <= j < k ==> !HasDiagramType(Trim(Split(text, '\n')[j]))
    ensures Cleaned(text) == Ok(Trim(Join(Split(text, '\n')[k..], '\n')))
  {
  }

  /** A line that starts with any of the keywords names a diagram type (`stateDiagram-v2`, `graph LR`). */
  lemma KeywordLineIsTyped(i: nat, rest: string)
    requires i < |DiagramTypes|
    ensures HasDiagramType(DiagramTypes[i] + rest)
  {
    assert (DiagramTypes[i] + rest)[..|DiagramTypes[i]|] == DiagramTypes[i];
    StartsWithAnyAt(DiagramTypes, i, DiagramTypes[i] + rest);
  }

  lemma {:induction false} StartsWithAnyAt(prefixes: seq<string>, i: nat, line: string)
    requires i < |prefixes| && IsPrefix(prefixes[i], line)
    ensures StartsWithAny(prefixes, line)
  {
    if i > 0 {
      StartsWithAnyAt(prefixes[1..], i - 1, line);
    }
  }

  /**
   * A line whose first character begins no keyword (a sentence such as
   * "Here is your diagram:") names no diagram type.
   */
  lemma ProseLineIsNotTyped(line: string)
    requires line != [] && line[0] !in "fscegp"
    ensures !HasDiagramType(line)
  {
    NoneStartsWith(DiagramTypes, line);
  }

  /** No prefix matches a line whose first character starts none of them. */
  lemma {:induction false} NoneStartsWith(prefixes: seq<string>, line: string)
    requires line != []
    requires forall i :: 0 <= i < |prefixes| ==> prefixes[i] != [] && prefixes[i][0] != line[0]
    ensures !StartsWithAny(prefixes, line)
  {
    if prefixes != [] {
      NoneStartsWith(prefixes[1..], line);
    }
  }

  /** A text that starts and ends with visible characters is its own `trim()`. */
  lemma TrimOfVisibleEnds(s: string)
    requires s != [] && !IsSpace(s[0]) && !IsSpace(s[|s| - 1])
    ensures Trim(s) == s
  {
  }

  /**
   * A reply fenced as a Mermaid block, the language tag in any case, is
   * unwrapped to its body.
   */
  lemma MermaidFenceIsStripped(tag: string, body: string)
    requires |tag| == 7 && forall i :: 0 <= i < 7 ==> LowerChar(tag[i]) == "mermaid"[i]
    requires body != [] && !IsPrefix("```", body)
    ensures Unfenced("```" + tag + "\n" + body + "\n```") == body
  {
    var s := "```" + tag + "\n" + body + "\n```";
    assert s[0] == '`' && s[|s| - 1] == '`';
    TrimOfVisibleEnds(s);
    MermaidTagIsDropped(tag, body);
    NoBareFenceLeft(body, "\n```");
    ClosingFenceIsDropped(body, true);
  }

  /** The first stage: the opening fence with its tag goes, and the newline after it. */
  lemma MermaidTagIsDropped(tag: string, body: string)
    requires |tag| == 7 && forall i :: 0 <= i < 7 ==> LowerChar(tag[i]) == "mermaid"[i]
    ensures StripMermaidFence("```" + tag + "\n" + body + "\n```") == body + "\n```"
  {
    var s := "```" + tag + "\n" + body + "\n```";
    assert LowerStartsWith(s, "```mermaid") by {
      forall i | 0 <= i < 10 ensures LowerChar(s[i]) == "```mermaid"[i] {
        if i >= 3 { assert s[i] == tag[i - 3]; }
      }
    }
    assert s[10..] == "\n" + body + "\n```";
  }

  /** The second stage leaves alone a text that does not start with a fence. */
  lemma NoBareFenceLeft(body: string, rest: string)
    requires body != [] && !IsPrefix("```", body) && |rest| >= 3 && rest[0] == '\n'
    ensures StripFence(body + rest) == body + rest
  {
    var t := body + rest;
    assert t[..3] != "```" by {
      if |body| >= 3 { assert t[..3] == body[..3]; } else { assert t[|body|] == '\n'; }
    }
  }

  /** The last stage: the closing fence goes, with the newline before it when there is one. */
  lemma ClosingFenceIsDropped(body: string, newline: bool)
    requires body != [] && (!newline ==> body[|body| - 1] != '\n')
    ensures StripClosingFence(body + (if newline then "\n```" else "```")) == body
  {
    var t := body + (if newline then "\n```" else "```");
    if newline {
      assert t[|t| - 4..] == "\n```";
    } else {
      assert t[|t| - 4] == body[|body| - 1];
      assert t[|t| - 3..] == "```";
    }
  }

  /** A bare fence, with the closing one right after the code, is stripped too. */
  lemma BareFenceIsStripped(body: string)
    requires body != [] && body[0] != '`' && body[|body| - 1] != '\n'
    ensures Unfenced("```\n" + body + "```") == body
  {
    var s := "```\n" + body + "```";
    assert s[0] == '`' && s[|s| - 1] == '`';
    TrimOfVisibleEnds(s);
    BareFenceIsDropped(body);
    ClosingFenceIsDropped(body, false);
  }

  /** The first two stages on a bare fence: no Mermaid tag, so only the bare fence and its newline go. */
  lemma BareFenceIsDropped(body: string)
    requires body != [] && body[0] != '`'
    ensures StripMermaidFence("```\n" + body + "```") == "```\n" + body + "```"
    ensures StripFence("```\n" + body + "```") == body + "```"
    ensures StripFence(body + "```") == body + "```"
  {
    var s := "```\n" + body + "```";
    assert !LowerStartsWith(s, "```mermaid") by { assert LowerChar(s[3]) == '\n'; }
    assert s[..3] == "```";
    assert s[3..] == "\n" + body + "```";
    var t := body + "```";
    assert t[0] != '`';
  }

  // ------------------------------------------------------------ prompt and generation

  /** Which prompt template is filled in, and with what. */
  datatype Prompt =
    | NewDiagram(request: string)
    | Revision(currentCode: string, request: string)

  /** `if (currentCode)`: the revision template only for a non-empty current code. */
  function PromptFor(userPrompt: string, currentCode: Option<string>): (p: Prompt)
    ensures p.request == userPrompt
    ensures p.Revision? <==> currentCode.Some? && currentCode.value != []
    ensures p.Revision? ==> p.currentCode == currentCode.value
  {
    match currentCode
    case Some(c) => if c != [] then Revision(c, userPrompt) else NewDiagram(userPrompt)
    case None => NewDiagram(userPrompt)
  }

  /**
   * What `generateMermaidCode(userPrompt, currentCode)` resolves to: without an
   * API key it fails before the model is asked; a failed call is passed on; a
   * reply is cleaned.
   */
  function Generated(apiKeyConfigured: bool, userPrompt: string, currentCode: Option<string>,
                     model: Prompt -> Result<string, string>): (r: Result<string, GenError>)
    ensures !apiKeyConfigured ==> r == Err(NotConfigured)
    ensures r.Ok? ==> r.value != [] && Trim(r.value) == r.value
  {
    if !apiKeyConfigured then Err(NotConfigured)
    else match model(PromptFor(userPrompt, currentCode))
      case Err(m) => Err(GenerationFailed(m))
      case Ok(text) => Sanitized(text)
  }

  /** `generateMermaidCode`, step by step; what it returns is well-formed Mermaid source or an error. */
  method GenerateMermaidCode(apiKeyConfigured: bool, userPrompt: string, currentCode: Option<string>,
                             model: Prompt -> Result<string, string>)
    returns (result: Result<string, GenError>)
    ensures result == Generated(apiKeyConfigured, userPrompt, currentCode, model)
    ensures !apiKeyConfigured ==> result == Err(NotConfigured)
    ensures result.Ok? ==> result.value != [] && HasDiagramType(Trim(Split(result.value, '\n')[0]))
  {
    if !apiKeyConfigured {
      return Err(NotConfigured);
    }
    var prompt := PromptFor(userPrompt, currentCode);
    var reply := model(prompt);
    match reply {
      case Err(m) =>
        result := Err(GenerationFailed(m));
      case Ok(text) =>
        result := PostProcess(text);
        if result.Ok? {
          AcceptedCodeIsWellFormed(Unfenced(text));
        }
    }
  }

  /** `refineMermaidCode(currentCode, userFeedback)` is generation with the arguments swapped. */
  method RefineMermaidCode(apiKeyConfigured: bool, currentCode: string, userFeedback: string,
                           model: Prompt -> Result<string, string>)
    returns (result: Result<string, GenError>)
    ensures result == Generated(apiKeyConfigured, userFeedback, Some(currentCode), model)
    ensures result.Ok? ==> result.value != [] && HasDiagramType(Trim(Split(result.value, '\n')[0]))
  {
    result := GenerateMermaidCode(apiKeyConfigured, userFeedback, Some(currentCode), model);
  }

  /** Refining an empty diagram asks for a new one: the no-current-code template. */
  lemma EmptyCodeRefinesAsNew(feedback: string)
    ensures PromptFor(feedback, Some([])) == NewDiagram(feedback)
    ensures PromptFor(feedback, None) == NewDiagram(feedback)
  {
  }
}
