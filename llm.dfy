/** The two pieces of src/utils/llm.py that are plain logic: pulling a JSON value out of
    a model's reply, and rewriting a prompt so it starts with a language and detail
    instruction. `parses` stands for `json.loads` (None when it raises), `clean` for
    `_remove_length_restrictions`, and `chineseText(language)` for the wording of the
    Chinese-language instruction. */
module Llm {
  import opened Common

  // ------------------------------------------------------------ extracting JSON

  /** The stripped text between the first `fence` and the next "```" after it, when
      both are there. */
  function FencedText(content: string, fence: string): (r: Option<string>)
    requires |fence| > 0
    ensures r.Some? ==> Contains(content, fence)
  {
    var start := Find(content, fence);
    if start == -1 then None
    else
      var rest := content[start + |fence|..];
      var end := Find(rest, "```");
      if end == -1 then None else Some(Strip(rest[..end]))
  }

  /** `'{'` count minus `'}'` count. */
  function Depth(s: string): int {
    if s == [] then 0
    else Depth(s[..|s| - 1]) + (if s[|s| - 1] == '{' then 1 else if s[|s| - 1] == '}' then -1 else 0)
  }

  /** `content[start..i]` inclusive ends in a closing brace that balances the braces
      opened since `start`. */
  predicate IsCandidate(content: string, start: nat, i: nat)
    requires start <= i < |content|
  {
    content[i] == '}' && Depth(content[start..i + 1]) == 0
  }

  /** The brace scan from `i` on, `count` being the depth so far. */
  function BraceSearch(content: string, start: nat, i: nat, count: int, parses: string -> Option<Json>): Option<Json>
    requires start <= i <= |content|
    decreases |content| - i
  {
    if i == |content| then None
    else if content[i] == '{' then BraceSearch(content, start, i + 1, count + 1, parses)
    else if content[i] == '}' then
      if count - 1 == 0 && parses(content[start..i + 1]).Some? then parses(content[start..i + 1])
      else BraceSearch(content, start, i + 1, count - 1, parses)
    else BraceSearch(content, start, i + 1, count, parses)
  }

  /** The brace scan returns the parse of the shortest balanced candidate that parses,
      and nothing when none does. */
  lemma {:induction false} BraceSearchFirst(content: string, start: nat, i: nat, count: int, parses: string -> Option<Json>)
    requires start <= i <= |content|
    requires count == Depth(content[start..i])
    ensures var r := BraceSearch(content, start, i, count, parses);
      && (r.Some? ==> exists k :: i <= k < |content| && IsCandidate(content, start, k) && parses(content[start..k + 1]) == r &&
                                  forall j :: i <= j < k && IsCandidate(content, start, j) ==> parses(content[start..j + 1]).None?)
      && (r.None? ==> forall j :: i <= j < |content| && IsCandidate(content, start, j) ==> parses(content[start..j + 1]).None?)
    decreases |content| - i
  {
    if i < |content| {
      assert content[start..i + 1][..i - start] == content[start..i];
      var next := if content[i] == '{' then count + 1 else if content[i] == '}' then count - 1 else count;
      assert next == Depth(content[start..i + 1]);
      var piece := content[start..i + 1];
      var found := content[i] == '}' && next == 0 && parses(piece).Some?;
      if found {
        assert IsCandidate(content, start, i);
      } else {
        assert IsCandidate(content, start, i) ==> !parses(piece).Some?;
        BraceSearchFirst(content, start, i + 1, next, parses);
      }
    }
  }

  /** `extract_json_from_response`. */
  function ExtractJson(content: string, parses: string -> Option<Json>): Option<Json> {
    if content == "" then None
    else
      match FencedText(content, "```json")
      case Some(t) => parses(t)
      case None =>
        var plain := if FencedText(content, "```").Some? then parses(FencedText(content, "```").value) else None;
        if plain.Some? then plain
        else
          var b := Find(content, "{");
          var braced := if b != -1 then BraceSearch(content, b, b, 0, parses) else None;
          if braced.Some? then braced else parses(Strip(content))
  }

  lemma EmptyReplyHasNoJson(parses: string -> Option<Json>)
    ensures ExtractJson("", parses) == None
  {
  }

  /** A closed ```json fence is final: its parse is the result, even when it fails. */
  lemma JsonFenceIsFinal(content: string, parses: string -> Option<Json>)
    requires FencedText(content, "```json").Some?
    ensures ExtractJson(content, parses) == parses(FencedText(content, "```json").value)
  {
  }

  /** A reply without "```" has neither kind of fence. */
  lemma NoFences(content: string)
    requires !Contains(content, "```")
    ensures FencedText(content, "```json").None? && FencedText(content, "```").None?
  {
    assert !Contains(content, "```json") by {
      if Contains(content, "```json") {
        var j := Find(content, "```json");
        assert content[j..j + 7][..3] == content[j..j + 3];
        assert OccursAt(content, "```", j);
      }
    }
  }

  /** Without fences, the result is the first balanced brace candidate that parses; the
      whole stripped reply is parsed only when there is no `{` or no candidate parses. */
  lemma UnfencedReply(content: string, parses: string -> Option<Json>)
    requires content != "" && !Contains(content, "```")
    ensures var b := Find(content, "{");
      var r := ExtractJson(content, parses);
      && (b == -1 ==> r == parses(Strip(content)))
      && (b != -1 && (forall j :: b <= j < |content| && IsCandidate(content, b, j) ==> parses(content[b..j + 1]).None?) ==>
            r == parses(Strip(content)))
      && (b != -1 && (exists j :: b <= j < |content| && IsCandidate(content, b, j) && parses(content[b..j + 1]).Some?) ==>
            exists k :: b <= k < |content| && IsCandidate(content, b, k) && r == parses(content[b..k + 1]) && r.Some? &&
              forall j :: b <= j < k && IsCandidate(content, b, j) ==> parses(content[b..j + 1]).None?)
  {
    NoFences(content);
    var b := Find(content, "{");
    if b != -1 {
      assert content[b..b] == [];
      BraceSearchFirst(content, b, b, 0, parses);
      var braced := BraceSearch(content, b, b, 0, parses);
      assert ExtractJson(content, parses) == (if braced.Some? then braced else parses(Strip(content)));
      if exists j :: b <= j < |content| && IsCandidate(content, b, j) && parses(content[b..j + 1]).Some? {
        var j :| b <= j < |content| && IsCandidate(content, b, j) && parses(content[b..j + 1]).Some?;
        assert braced.Some?;
      }
    }
  }

  /** The scan of lines 410-424 with its running `brace_count`. */
  method ScanBraces(content: string, braceStart: nat, parses: string -> Option<Json>) returns (r: Option<Json>)
    requires braceStart <= |content|
    ensures r == BraceSearch(content, braceStart, braceStart, 0, parses)
  {
    var braceCount := 0;
    var i := braceStart;
    while i < |content|
      invariant braceStart <= i <= |content|
      invariant BraceSearch(content, braceStart, i, braceCount, parses) == BraceSearch(content, braceStart, braceStart, 0, parses)
    {
      if content[i] == '{' {
        braceCount := braceCount + 1;
      } else if content[i] == '}' {
        braceCount := braceCount - 1;
        if braceCount == 0 {
          var parsed := parses(content[braceStart..i + 1]);
          if parsed.Some? {
            return parsed;
          }
        }
      }
      i := i + 1;
    }
    return None;
  }

  /** The strategies in order: the json fence, a plain fence, the brace scan, the
      whole reply. */
  method ExtractJsonFromResponse(content: string, parses: string -> Option<Json>) returns (r: Option<Json>)
    ensures r == ExtractJson(content, parses)
  {
    if content == "" {
      return None;
    }
    var fenced := FencedText(content, "```json");
    if fenced.Some? {
      return parses(fenced.value);
    }
    var plain := FencedText(content, "```");
    if plain.Some? {
      var parsed := parses(plain.value);
      if parsed.Some? {
        return parsed;
      }
    }
    var braceStart := Find(content, "{");
    if braceStart != -1 {
      r := ScanBraces(content, braceStart, parses);
      if r.Some? {
        return r;
      }
    }
    return parses(Strip(content));
  }

  // ------------------------------------------------------------ language instruction

  /** A chat message: its type ("system", "human", ...) and its text. */
  datatype Message = Message(kind: string, content: string)

  /** A prompt: a list of messages (a ChatPromptValue or a plain list) or a string. */
  datatype Prompt = Messages(messages: seq<Message>) | Text(text: string)

  predicate IsChineseLanguage(language: string) {
    Contains(language, "Chinese") || Contains(language, "中文") ||
    Lower(language) in ["zh", "zh-cn", "zh-tw", "zh_hans", "zh_hant"]
  }

  /** The instruction: the language part, then the detail part, joined by newlines. */
  function Instruction(language: string, detail: string, chineseText: string -> string): (r: string)
    ensures detail == "" && language != "" && !IsChineseLanguage(language) ==> r == "Respond in " + language + "."
    ensures language == "" && detail != "" ==> r == "\nDETAILED ANALYSIS REQUIREMENT:\n" + detail
    ensures detail == "" && language != "" && IsChineseLanguage(language) ==> r == chineseText(language)
    ensures language != "" && detail != "" && !IsChineseLanguage(language) ==>
      r == "Respond in " + language + "." + "\n" + "\nDETAILED ANALYSIS REQUIREMENT:\n" + detail
    ensures language != "" && detail != "" && IsChineseLanguage(language) ==>
      r == chineseText(language) + "\n" + "\nDETAILED ANALYSIS REQUIREMENT:\n" + detail
  {
    var languagePart: seq<string> :=
      if language == "" then []
      else if IsChineseLanguage(language) then [chineseText(language)]
      else ["Respond in " + language + "."];
    var detailPart: seq<string> := if detail == "" then [] else ["\nDETAILED ANALYSIS REQUIREMENT:\n" + detail];
    Join(languagePart + detailPart, "\n")
  }

  /** The index of the first system message, or |messages|. */
  function FirstSystem(messages: seq<Message>): (k: nat)
    ensures k <= |messages|
    ensures forall j :: 0 <= j < k ==> messages[j].kind != "system"
    ensures k < |messages| ==> messages[k].kind == "system"
  {
    if messages == [] then 0
    else if messages[0].kind == "system" then 0
    else 1 + FirstSystem(messages[1..])
  }

  /** The message-list rewrite: the first system message gets the instruction in front
      of its cleaned text, or a new system message goes first. */
  function InjectMessages(messages: seq<Message>, instruction: string, clean: string -> string): seq<Message> {
    var k := FirstSystem(messages);
    if k < |messages| then messages[k := Message("system", instruction + "\n\n" + clean(messages[k].content))]
    else [Message("system", instruction)] + messages
  }

  /** Only the first system message changes; without one, a system message carrying the
      instruction alone is put in front of the unchanged list. */
  lemma InjectMessagesShape(messages: seq<Message>, instruction: string, clean: string -> string)
    ensures var r := InjectMessages(messages, instruction, clean);
      var k := FirstSystem(messages);
      && (k < |messages| ==> |r| == |messages| && r[k] == Message("system", instruction + "\n\n" + clean(messages[k].content)) &&
                             forall j :: 0 <= j < |messages| && j != k ==> r[j] == messages[j])
      && (k == |messages| ==> r == [Message("system", instruction)] + messages)
  {
  }

  /** The rewrite leaves exactly one system message changed or added, the rest are the
      original messages in their order. */
  lemma InjectKeepsOtherMessages(messages: seq<Message>, instruction: string, clean: string -> string)
    ensures var r := InjectMessages(messages, instruction, clean);
      (exists j :: 0 <= j < |messages| && messages[j].kind == "system") <==> |r| == |messages|
  {
    var k := FirstSystem(messages);
    if k == |messages| {
      assert forall j :: 0 <= j < |messages| ==> messages[j].kind != "system";
    }
  }

  /** `_inject_language_instruction`. */
  function InjectLanguageInstruction(prompt: Prompt, language: string, detail: string,
                                    clean: string -> string, chineseText: string -> string): (r: Prompt)
    ensures language == "" && detail == "" ==> r == prompt
    ensures prompt.Text? && (language != "" || detail != "") ==>
      r == Text(Instruction(language, detail, chineseText) + "\n\n" + clean(prompt.text))
  {
    if language == "" && detail == "" then prompt
    else
      var instruction := Instruction(language, detail, chineseText);
      match prompt
      case Messages(ms) => Messages(InjectMessages(ms, instruction, clean))
      case Text(s) => Text(instruction + "\n\n" + clean(s))
  }

  /** The list branch as the source runs it: the caller's list is changed in place when
      it holds a system message, and a new list is returned otherwise. */
  method InjectIntoList(prompt: array<Message>, instruction: string, clean: string -> string) returns (r: seq<Message>)
    modifies prompt
    ensures r == InjectMessages(old(prompt[..]), instruction, clean)
    ensures FirstSystem(old(prompt[..])) < prompt.Length ==> prompt[..] == r
    ensures FirstSystem(old(prompt[..])) == prompt.Length ==> prompt[..] == old(prompt[..])
  {
    var i := 0;
    while i < prompt.Length
      invariant 0 <= i <= prompt.Length
      invariant prompt[..] == old(prompt[..])
      invariant forall j :: 0 <= j < i ==> prompt[j].kind != "system"
    {
      if prompt[i].kind == "system" {
        assert FirstSystem(prompt[..]) == i by {
          FirstSystemIs(prompt[..], i);
        }
        var originalContent := clean(prompt[i].content);
        prompt[i] := Message("system", instruction + "\n\n" + originalContent);
        return prompt[..];
      }
      i := i + 1;
    }
    FirstSystemIs(prompt[..], prompt.Length);
    return [Message("system", instruction)] + prompt[..];
  }

  /** `FirstSystem` is the first index with a system message. */
  lemma FirstSystemIs(messages: seq<Message>, i: nat)
    requires i <= |messages|
    requires forall j :: 0 <= j < i ==> messages[j].kind != "system"
    requires i < |messages| ==> messages[i].kind == "system"
    ensures FirstSystem(messages) == i
  {
  }
}
