/** The AI mentor service (app/services/vertex_ai_service.py): the prompt
    it builds around a student's question, the token estimate it reports,
    and the check that flags replies giving the solution away. The model
    call itself is outside the model: its reply arrives as a parameter. */
module VertexAi {
  import opened Common

  const ModelName := "gemini-2.5-flash"
  const ServiceTrouble := "I'm having trouble connecting to the AI service. Please try again in a moment."

  /** The fixed system instruction every prompt starts with. */
  const Instruction :=
    "You are a Socratic coding mentor helping students learn data structures and algorithms.\n"
    + "\n"
    + "CRITICAL RULES:\n"
    + "1. NEVER give complete solutions or full code\n"
    + "2. Guide with questions, not answers\n"
    + "3. Reference specific parts of their code when relevant\n"
    + "4. Keep responses concise (2-3 sentences)\n"
    + "5. Encourage thinking about time/space complexity\n"
    + "\n"
    + "Teaching style: Socratic method\n"
    + "- Ask probing questions\n"
    + "- Build on student's existing knowledge\n"
    + "- Let them discover the solution\n"
    + "\n"

  /** The reminder every prompt ends with. */
  const Closing := "\nRespond as a Socratic mentor. Guide, don't solve."

  const ProblemLead := "Student is working on: "
  const CodeFence := "```"
  const QuestionLead := "Student's question: "
  const HintLead := "Hints already given: "
  const HintAdvice := "Build on previous hints. Don't repeat what they already know.\n"

  // -----------------------------------------------------------------------
  // Building the prompt

  /** A Python `Optional[str]` in a truth test: present and non-empty. */
  predicate Truthy(o: Option<string>)
  {
    o.Some? && o.value != ""
  }

  function ProblemSection(problemId: Option<string>): string
  {
    if Truthy(problemId) then "\n" + (ProblemLead + problemId.value) + "\n" else ""
  }

  function CodeSection(code: Option<string>): string
  {
    if Truthy(code) then "\nStudent's current code:\n" + Fenced(code.value) + "\n" else ""
  }

  /** Code between two fence lines. */
  function Fenced(code: string): string
  {
    CodeFence + "\n" + code + "\n" + CodeFence
  }

  /** "n/3": how many of the three hints the student has seen. */
  function HintCount(hintLevel: int): string
  {
    HintLead + IntToString(hintLevel) + "/3"
  }

  function HintSection(hintLevel: int): string
  {
    if hintLevel > 0 then "\n" + HintCount(hintLevel) + "\n" + HintAdvice else ""
  }

  function QuestionSection(userMessage: string): string
  {
    "\n" + (QuestionLead + userMessage) + "\n"
  }

  /** `build_context`: the instruction, then the problem, code and hint
      sections when there is something to say, then the question and the
      closing reminder. */
  function BuildContext(userMessage: string, code: Option<string>, problemId: Option<string>, hintLevel: int): string
  {
    Instruction + (ProblemSection(problemId) + CodeSection(code) + HintSection(hintLevel))
    + (QuestionSection(userMessage) + Closing)
  }

  /** Every prompt starts with the instruction and ends with the question
      and the closing reminder. */
  lemma ContextFramed(userMessage: string, code: Option<string>, problemId: Option<string>, hintLevel: int)
    ensures var context := BuildContext(userMessage, code, problemId, hintLevel);
      && |context| >= |Instruction| + |QuestionSection(userMessage)| + |Closing|
      && context[..|Instruction|] == Instruction
      && context[|context| - |QuestionSection(userMessage)| - |Closing|..] == QuestionSection(userMessage) + Closing
  {
    var middle := ProblemSection(problemId) + CodeSection(code) + HintSection(hintLevel);
    FramedBy(Instruction, middle, QuestionSection(userMessage) + Closing);
  }

  lemma FramedBy(head: string, middle: string, tail: string)
    ensures (head + middle + tail)[..|head|] == head
    ensures (head + middle + tail)[|head + middle|..] == tail
  {
  }

  lemma InMiddle(a: string, x: string, b: string)
    ensures IsSubstring(x, a + x + b)
  {
    assert OccursAt(x, a + x + b, |a|);
  }

  /** The question always appears in the prompt. */
  lemma ContextCarriesQuestion(userMessage: string, code: Option<string>, problemId: Option<string>, hintLevel: int)
    ensures IsSubstring(QuestionLead + userMessage, BuildContext(userMessage, code, problemId, hintLevel))
  {
    var x := QuestionLead + userMessage;
    var middle := ProblemSection(problemId) + CodeSection(code) + HintSection(hintLevel);
    InMiddle("\n", x, "\n");
    SubstringBefore(x, QuestionSection(userMessage), Closing);
    SubstringAfter(x, Instruction + middle, QuestionSection(userMessage) + Closing);
  }

  /** A non-empty problem id appears in the prompt. */
  lemma ContextCarriesProblem(userMessage: string, code: Option<string>, problemId: Option<string>, hintLevel: int)
    requires Truthy(problemId)
    ensures IsSubstring(ProblemLead + problemId.value, BuildContext(userMessage, code, problemId, hintLevel))
  {
    var x := ProblemLead + problemId.value;
    var p, c, h := ProblemSection(problemId), CodeSection(code), HintSection(hintLevel);
    InMiddle("\n", x, "\n");
    SubstringBefore(x, p, c);
    SubstringBefore(x, p + c, h);
    SubstringAfter(x, Instruction, p + c + h);
    SubstringBefore(x, Instruction + (p + c + h), QuestionSection(userMessage) + Closing);
  }

  /** Non-empty code appears in the prompt inside a fence. */
  lemma ContextCarriesCode(userMessage: string, code: Option<string>, problemId: Option<string>, hintLevel: int)
    requires Truthy(code)
    ensures IsSubstring(Fenced(code.value), BuildContext(userMessage, code, problemId, hintLevel))
  {
    var x := Fenced(code.value);
    var p, c, h := ProblemSection(problemId), CodeSection(code), HintSection(hintLevel);
    InMiddle("\nStudent's current code:\n", x, "\n");
    SubstringAfter(x, p, c);
    SubstringBefore(x, p + c, h);
    SubstringAfter(x, Instruction, p + c + h);
    SubstringBefore(x, Instruction + (p + c + h), QuestionSection(userMessage) + Closing);
  }

  /** A positive hint level appears in the prompt as "n/3". */
  lemma ContextCarriesHints(userMessage: string, code: Option<string>, problemId: Option<string>, hintLevel: int)
    requires hintLevel > 0
    ensures IsSubstring(HintCount(hintLevel), BuildContext(userMessage, code, problemId, hintLevel))
  {
    var x := HintCount(hintLevel);
    var p, c, h := ProblemSection(problemId), CodeSection(code), HintSection(hintLevel);
    InMiddle("\n", x, "\n");
    SubstringBefore(x, "\n" + x + "\n", HintAdvice);
    SubstringAfter(x, p + c, h);
    SubstringAfter(x, Instruction, p + c + h);
    SubstringBefore(x, Instruction + (p + c + h), QuestionSection(userMessage) + Closing);
  }

  /** An empty problem id or empty code says nothing, and a hint level of
      zero or below shows no hint line: each prompts as if left out. */
  lemma EmptyContextIsOmitted(userMessage: string, code: Option<string>, problemId: Option<string>, hintLevel: int)
    ensures !Truthy(problemId) ==>
      BuildContext(userMessage, code, problemId, hintLevel) == BuildContext(userMessage, code, None, hintLevel)
    ensures !Truthy(code) ==>
      BuildContext(userMessage, code, problemId, hintLevel) == BuildContext(userMessage, None, problemId, hintLevel)
    ensures hintLevel <= 0 ==>
      BuildContext(userMessage, code, problemId, hintLevel) == BuildContext(userMessage, code, problemId, 0)
  {
  }

  // -----------------------------------------------------------------------
  // Generating a reply

  /** `len(Instruction)`, written out so that measuring a prompt does not
      have to spell the instruction out character by character. */
  const InstructionLength := 467

  lemma InstructionLengthIsExact()
    ensures |Instruction| == InstructionLength
  {
  }

  /** `len(context)` for the prompt `BuildContext` returns, section by
      section. */
  function PromptLength(userMessage: string, code: Option<string>, problemId: Option<string>, hintLevel: int): nat
  {
    InstructionLength + |ProblemSection(problemId) + CodeSection(code) + HintSection(hintLevel)|
    + |QuestionSection(userMessage) + Closing|
  }

  lemma PromptLengthIsExact(userMessage: string, code: Option<string>, problemId: Option<string>, hintLevel: int)
    ensures PromptLength(userMessage, code, problemId, hintLevel) == |BuildContext(userMessage, code, problemId, hintLevel)|
  {
    InstructionLengthIsExact();
  }

  /** `len(context + response_text) // 4`: about one token per four
      characters, rounded down. */
  function TokensUsed(contextLength: nat, replyLength: nat): (t: nat)
    ensures 4 * t <= contextLength + replyLength < 4 * t + 4
  {
    (contextLength + replyLength) / 4
  }

  datatype Generation =
    | Generated(response: string, tokensUsed: int, model: string)
    | Failed(message: string)

  /** `generate_response`, with the model's reply (or its failure, `None`)
      given: the reply and its token estimate over the prompt sent, or the
      friendly error that replaces whatever went wrong. */
  function GenerateResponse(userMessage: string, code: Option<string>, problemId: Option<string>, hintLevel: int,
                            reply: Option<string>): (g: Generation)
    ensures g.Generated? <==> reply.Some?
    ensures g.Generated? ==> g.response == reply.value && g.model == ModelName && g.tokensUsed >= 0
    ensures g.Failed? ==> g.message == ServiceTrouble
  {
    match reply
    case None => Failed(ServiceTrouble)
    case Some(text) =>
      Generated(text, TokensUsed(PromptLength(userMessage, code, problemId, hintLevel), |text|), ModelName)
  }

  /** The token estimate of a generated reply is a quarter, rounded down,
      of the length of the prompt actually built plus the reply. */
  lemma GenerateResponseTokens(userMessage: string, code: Option<string>, problemId: Option<string>, hintLevel: int,
                               reply: string)
    ensures var g := GenerateResponse(userMessage, code, problemId, hintLevel, Some(reply));
      var context := BuildContext(userMessage, code, problemId, hintLevel);
      && g.Generated?
      && 4 * g.tokensUsed <= |context| + |reply| < 4 * g.tokensUsed + 4
  {
    PromptLengthIsExact(userMessage, code, problemId, hintLevel);
  }

  // -----------------------------------------------------------------------
  // Screening a reply

  const CodeFenceMarkers := ["```python", "```javascript"]
  const MaxNewlinesWithCode := 5
  const GiveawayPhrases := ["here's the complete solution", "here's the full code", "copy this code", "the answer is"]

  /** A fenced Python or JavaScript block in a reply of more than five lines. */
  predicate TooMuchCode(text: string)
  {
    (IsSubstring(CodeFenceMarkers[0], text) || IsSubstring(CodeFenceMarkers[1], text))
    && CountChar(text, '\n') > MaxNewlinesWithCode
  }

  /** Some giveaway phrase appears in the reply, ignoring case. */
  predicate GivesAway(text: string)
  {
    exists k :: 0 <= k < |GiveawayPhrases| && IsSubstring(GiveawayPhrases[k], Lower(text))
  }

  predicate Acceptable(text: string)
  {
    !TooMuchCode(text) && !GivesAway(text)
  }

  /** `validate_response`: reject a long reply holding a code fence, then
      look for each giveaway phrase in turn. */
  method ValidateResponse(text: string) returns (ok: bool)
    ensures ok == Acceptable(text)
  {
    if IsSubstring(CodeFenceMarkers[0], text) || IsSubstring(CodeFenceMarkers[1], text) {
      var codeLines := CountChar(text, '\n');
      if codeLines > MaxNewlinesWithCode {
        return false;
      }
    }
    var i := 0;
    while i < |GiveawayPhrases|
      invariant 0 <= i <= |GiveawayPhrases|
      invariant forall k :: 0 <= k < i ==> !IsSubstring(GiveawayPhrases[k], Lower(text))
    {
      if IsSubstring(GiveawayPhrases[i], Lower(text)) {
        return false;
      }
      i := i + 1;
    }
    return true;
  }

  lemma LowerIdempotent(s: string)
    ensures Lower(Lower(s)) == Lower(s)
  {
  }

  /** The phrase check does not depend on letter case: lower-casing the
      reply first changes nothing. */
  lemma GiveawayIgnoresCase(text: string)
    ensures GivesAway(Lower(text)) <==> GivesAway(text)
  {
    LowerIdempotent(text);
  }

  /** A pattern cannot occur in a text that lacks one of its characters. */
  lemma AbsentWithoutChar(p: string, text: string, k: nat)
    requires k < |p| && p[k] !in text
    ensures !IsSubstring(p, text)
  {
    forall i | 0 <= i <= |text| ensures !OccursAt(p, text, i) {
      if i + |p| <= |text| {
        assert text[i..i + |p|][k] == text[i + k];
      }
    }
  }

  /** The code check does depend on it: a long reply whose fence is
      spelled "```Python" passes, the same reply spelled "```python" is
      rejected. */
  lemma FenceCheckIsCaseSensitive()
    ensures !TooMuchCode("```Python" + "\n\n\n\n\n\n")
    ensures TooMuchCode("```python" + "\n\n\n\n\n\n")
  {
    var lines := "\n\n\n\n\n\n";
    var upper := "```Python" + lines;
    AbsentWithoutChar(CodeFenceMarkers[0], upper, 3);
    AbsentWithoutChar(CodeFenceMarkers[1], upper, 3);
    var lower := "```python" + lines;
    assert lower[0..9] == CodeFenceMarkers[0];
    assert OccursAt(CodeFenceMarkers[0], lower, 0);
    assert multiset(lower) == multiset("```python") + multiset(lines);
    assert multiset(lines)['\n'] == 6;
  }
}
