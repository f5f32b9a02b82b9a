/** Answering a query: the prompt built from the retrieved context, the
    chat-completion request with its retry policy, and the conversion of the
    model's markdown answer into plain chat lines. */
module AnalyzerGeneration {
  import opened Wrappers
  import opened Text
  import opened Values

  // ---------------------------------------------------------------- the prompt

  /** The instructions before the context block; the f-string interpolates
      the context list as Python prints a list of strings. */
  function Preamble(context: seq<string>): string {
    Opening + ListRepr(context) + Instructions
  }

  const Opening := "You are a smart grocery assistant helping reduce food waste and manage groceries. "
                   + "Answer the query based ONLY on the facts provided "

  const Instructions :=
    " and user details. "
    + "Do NOT guess or assume information, especially about expiration dates or shelf life, "
    + "unless explicitly stated in the context. Consider these factors in EVERY response:\n"
    + "1. User allergies (e.g., avoid peanuts, rice)\n"
    + "2. Dietary preferences (e.g., vegetarian, vegan, gluten-free)\n"
    + "3. Health conditions (e.g., diabetes requires low-sugar recipes)\n"
    + "4. Current stock levels, categories, and shelf life from context\n"
    + "5. Recent purchases from receipts\n"
    + "Provide practical, specific advice in a friendly tone with simple markdown formatting. "
    + "Use bullet points, avoid ### headers, and avoid **bold** markers. "
    + "Include emojis for options (\U{1F967}), tips (\U{1F4DD}), and closers (\U{1F60A}).\n\n"

  /** `str(context)` for a list of strings: `[]` for no context, otherwise
      the brackets around every line quoted as `repr` quotes it. */
  function ListRepr(context: seq<string>): (r: string)
    ensures context == [] ==> r == "[]"
    ensures StartsWith(r, "[") && EndsWith(r, "]")
    ensures forall i :: 0 <= i < |context| ==> Contains(r, PyRepr(context[i]))
  {
    var items := seq(|context|, i requires 0 <= i < |context| => Str(context[i]));
    var quoted := seq(|items|, k requires 0 <= k < |items| => Repr(items[k]));
    BracketedQuotes(quoted, context);
    Repr(List(items))
  }

  /** A bracketed join of quoted lines starts and ends with its brackets and
      holds every quoted line. */
  lemma BracketedQuotes(quoted: seq<string>, lines: seq<string>)
    requires |quoted| == |lines|
    requires forall k :: 0 <= k < |lines| ==> quoted[k] == PyRepr(lines[k])
    ensures lines == [] ==> "[" + Join(", ", quoted) + "]" == "[]"
    ensures StartsWith("[" + Join(", ", quoted) + "]", "[") && EndsWith("[" + Join(", ", quoted) + "]", "]")
    ensures forall i :: 0 <= i < |lines| ==> Contains("[" + Join(", ", quoted) + "]", PyRepr(lines[i]))
  {
    var joined := Join(", ", quoted);
    var r := "[" + joined + "]";
    assert r[..1] == "[";
    assert r[|r| - 1..] == "]";
    forall i | 0 <= i < |lines| ensures Contains(r, PyRepr(lines[i])) {
      JoinContainsEach(", ", quoted, i);
      ContainsMiddle("[", joined, "]");
      ContainsTransitive(r, joined, quoted[i]);
    }
  }

  /** The block listing the context lines, present only for a non-empty context. */
  function ContextBlock(context: seq<string>): string {
    if context != [] then "Context:\n" + Join("\n", context) + "\n\n" else ""
  }

  function QueryLine(query: string): string {
    "Query: " + query + "\nAnswer:"
  }

  /** `_build_prompt`. */
  function BuildPrompt(query: string, context: seq<string>): string {
    Preamble(context) + ContextBlock(context) + QueryLine(query)
  }

  /** A three-part text starts with its first part, ends with its last, and
      contains its middle. */
  lemma ThreeParts(a: string, b: string, c: string)
    ensures StartsWith(a + b + c, a) && EndsWith(a + b + c, c) && Contains(a + b + c, b)
  {
    var s := a + b + c;
    assert s[..|a|] == a;
    assert s[|s| - |c|..] == c;
    ContainsMiddle(a, b, c);
  }

  /** Every context line occurs in the context block. */
  lemma BlockHoldsContext(context: seq<string>, i: nat)
    requires i < |context|
    ensures Contains(ContextBlock(context), context[i])
  {
    var joined := Join("\n", context);
    JoinContainsEach("\n", context, i);
    ContainsMiddle("Context:\n", joined, "\n\n");
    ContainsTransitive(ContextBlock(context), joined, context[i]);
  }

  /** The prompt starts with the instructions (which quote the context list)
      and ends with the query; between them the context block appears only
      when there is context, and then every context line occurs in it. */
  lemma {:induction false} PromptShape(query: string, context: seq<string>)
    ensures StartsWith(BuildPrompt(query, context), Preamble(context))
    ensures EndsWith(BuildPrompt(query, context), "Query: " + query + "\nAnswer:")
    ensures context == [] ==> BuildPrompt(query, context) == Preamble(context) + QueryLine(query)
    ensures context != [] ==> Contains(BuildPrompt(query, context), "Context:\n" + Join("\n", context) + "\n\n")
    ensures forall i :: 0 <= i < |context| ==> Contains(BuildPrompt(query, context), context[i])
  {
    var pre, block, q := Preamble(context), ContextBlock(context), QueryLine(query);
    var p := pre + block + q;
    assert BuildPrompt(query, context) == p;
    ThreeParts(pre, block, q);
    if context == [] {
      assert block == "";
    }
    forall i | 0 <= i < |context| ensures Contains(p, context[i]) {
      BlockHoldsContext(context, i);
      ContainsTransitive(p, block, context[i]);
    }
  }

  // ---------------------------------------------------------------- the request

  /** How one POST to the chat-completion endpoint ended: a decoded JSON
      body, a `requests` exception (an HTTP error status, a connection
      failure, a timeout or an undecodable body), or any other exception. */
  datatype Attempt = Answered(body: Value) | RequestFailed | OtherFailed

  /** `stop_after_attempt(3)`. */
  const MaxAttempts := 3

  /** The retry policy from attempt `i` on: `requests` exceptions are
      retried, any other exception is raised at once, and after the last
      attempt the retrying gives up with RetryError. */
  function Settle(prompt: string, llm: (string, nat) -> Attempt, i: nat): Result<Value, PyError>
    requires i < MaxAttempts
    decreases MaxAttempts - i
  {
    match llm(prompt, i)
    case Answered(body) => Ok(body)
    case OtherFailed => Err(ForeignError)
    case RequestFailed => if i + 1 == MaxAttempts then Err(RetryError) else Settle(prompt, llm, i + 1)
  }

  /** `_call_llm_api` with its `retry` decorator, as a value. */
  function LlmCall(prompt: string, llm: (string, nat) -> Attempt): Result<Value, PyError> {
    Settle(prompt, llm, 0)
  }

  /** The call answers with the first body received, provided every earlier
      attempt failed with a `requests` exception; it stops at the first other
      exception; and it gives up after three `requests` failures. */
  lemma LlmCallOutcome(prompt: string, llm: (string, nat) -> Attempt)
    ensures LlmCall(prompt, llm) == Err(RetryError) <==>
            llm(prompt, 0).RequestFailed? && llm(prompt, 1).RequestFailed? && llm(prompt, 2).RequestFailed?
    ensures llm(prompt, 0).OtherFailed? ==> LlmCall(prompt, llm) == Err(ForeignError)
    ensures LlmCall(prompt, llm).Ok? <==>
            || llm(prompt, 0).Answered?
            || (llm(prompt, 0).RequestFailed? && llm(prompt, 1).Answered?)
            || (llm(prompt, 0).RequestFailed? && llm(prompt, 1).RequestFailed? && llm(prompt, 2).Answered?)
    ensures LlmCall(prompt, llm).Ok? ==> exists i :: 0 <= i < MaxAttempts && llm(prompt, i) == Answered(LlmCall(prompt, llm).value)
  {
    assert Settle(prompt, llm, 2).Ok? ==> llm(prompt, 2) == Answered(Settle(prompt, llm, 2).value);
  }

  /** `_call_llm_api`: up to three attempts, returning how many were made. */
  method CallLlmApi(prompt: string, llm: (string, nat) -> Attempt) returns (r: Result<Value, PyError>, attempts: nat)
    ensures r == LlmCall(prompt, llm)
    ensures 1 <= attempts <= MaxAttempts
    ensures forall i :: 0 <= i < attempts - 1 ==> llm(prompt, i).RequestFailed?
    ensures r.Ok? ==> llm(prompt, attempts - 1) == Answered(r.value)
  {
    attempts := 0;
    while true
      invariant 0 <= attempts < MaxAttempts
      invariant forall i :: 0 <= i < attempts ==> llm(prompt, i).RequestFailed?
      invariant LlmCall(prompt, llm) == Settle(prompt, llm, attempts)
      decreases MaxAttempts - attempts
    {
      var outcome := llm(prompt, attempts);
      attempts := attempts + 1;
      match outcome
      case Answered(body) =>
        return Ok(body), attempts;
      case OtherFailed =>
        return Err(ForeignError), attempts;
      case RequestFailed =>
        if attempts == MaxAttempts {
          return Err(RetryError), attempts;
        }
    }
  }

  // ---------------------------------------------------------------- the answer

  const ErrorReply := "\U{1F614} Error processing AI response"

  /** `response['choices'][0]['message']['content'].strip()` guarded by
      `'choices' in response and response['choices']`; None stands for the
      unexpected-format branch and for every exception the lookups raise. */
  function ExtractContent(response: Value): (r: Option<string>)
    ensures r.Some? ==> response.Dict? && HasKey(response.entries, "choices") && IsStripped(r.value)
    ensures r.Some? ==> var choices := Lookup(response.entries, "choices").value;
                        choices.List? && choices.items != [] && choices.items[0].Dict?
    ensures r.Some? ==> var choice := Lookup(response.entries, "choices").value.items[0];
                        var message := Lookup(choice.entries, "message");
                        message.Some? && message.value.Dict?
                        && var content := Lookup(message.value.entries, "content");
                           content.Some? && content.value.Str? && r.value == Strip(content.value.s)
  {
    match response
    case Dict(entries) =>
      (match Lookup(entries, "choices")
       case Some(List(choices)) =>
         if choices == [] then None
         else
           (match choices[0]
            case Dict(choice) =>
              (match Lookup(choice, "message")
               case Some(Dict(message)) =>
                 (match Lookup(message, "content")
                  case Some(Str(content)) => Some(Strip(content))
                  case _ => None)
               case _ => None)
            case _ => None)
       case _ => None)
    case _ => None
  }

  /** One element of the HTML rendered from the markdown answer: its tag
      name, its markup, and its text with surrounding whitespace stripped.
      Elements with the same tag and markup are equal, as parsed tags are. */
  datatype Element = Element(name: string, markup: string, text: string)

  predicate IsHeading(name: string) {
    name in ["h1", "h2", "h3", "h4", "h5", "h6"]
  }

  /** The chat line for one element, with the bold markers removed from its
      text; None for a tag the answer is not searched for. */
  function LineFor(e: Element): (r: Option<string>)
    ensures r.Some? <==> IsHeading(e.name) || e.name == "li" || e.name == "p"
    ensures e.name == "li" ==> r == Some("- " + RemoveAll(e.text, "**"))
  {
    var t := RemoveAll(e.text, "**");
    if IsHeading(e.name) then
      if StartsWith(t, "Option") then Some("\U{1F967} " + t + "\n")
      else if StartsWith(t, "Smart Tips") || StartsWith(t, "Notes") then Some("\U{1F4DD} " + t + "\n")
      else Some(t + "\n")
    else if e.name == "li" then Some("- " + t)
    else if e.name == "p" then
      if StartsWith(t, "Let me know") || StartsWith(t, "Need more") then Some("\n\U{1F60A} " + t)
      else Some(t)
    else None
  }

  function LinesOf(line: Option<string>): seq<string> {
    if line.Some? then [line.value] else []
  }

  /** The lines for the elements in document order, an element equal to an
      earlier one being skipped, for any choice of line per element. */
  function DistinctLines(elements: seq<Element>, line: Element -> Option<string>): (r: seq<string>)
    ensures |r| <= |elements|
  {
    if elements == [] then []
    else
      var before, e := elements[..|elements| - 1], elements[|elements| - 1];
      DistinctLines(before, line) + (if e in before then [] else LinesOf(line(e)))
  }

  /** The output lines of `_process_llm_response`. */
  function OutputLines(elements: seq<Element>): seq<string> {
    DistinctLines(elements, LineFor)
  }

  /** Distinct elements that all have a line give one line each, in order. */
  lemma {:induction false} DistinctLinesOnePer(elements: seq<Element>, line: Element -> Option<string>)
    requires forall i, j :: 0 <= i < j < |elements| ==> elements[i] != elements[j]
    requires forall i :: 0 <= i < |elements| ==> line(elements[i]).Some?
    ensures |DistinctLines(elements, line)| == |elements|
    ensures forall i :: 0 <= i < |elements| ==> DistinctLines(elements, line)[i] == line(elements[i]).value
  {
    if elements != [] {
      var n := |elements| - 1;
      var before := elements[..n];
      DistinctLinesOnePer(before, line);
      assert elements[n] !in before by {
        forall k | 0 <= k < n ensures before[k] != elements[n] {
          assert before[k] == elements[k];
        }
      }
    }
  }

  /** Distinct elements of the searched tags give one line each, in order. */
  lemma OneLinePerElement(elements: seq<Element>)
    requires forall i, j :: 0 <= i < j < |elements| ==> elements[i] != elements[j]
    requires forall i :: 0 <= i < |elements| ==> LineFor(elements[i]).Some?
    ensures |OutputLines(elements)| == |elements|
    ensures forall i :: 0 <= i < |elements| ==> OutputLines(elements)[i] == LineFor(elements[i]).value
  {
    DistinctLinesOnePer(elements, LineFor);
  }

  /** A repeated element adds nothing to the output. */
  lemma RepeatAddsNothing(elements: seq<Element>, e: Element)
    requires e in elements
    ensures OutputLines(elements + [e]) == OutputLines(elements)
  {
    var all := elements + [e];
    assert all[..|all| - 1] == elements;
  }

  /** The reply shown to the user for a decoded response body. */
  function FormatReply(response: Value, render: string -> seq<Element>): string {
    match ExtractContent(response)
    case None => ErrorReply
    case Some(content) => Strip(Join("\n", OutputLines(render(content))))
  }

  /** `_process_llm_response`: the reply for a response body whose content
      renders to the elements the line loop walks. */
  method ProcessLlmResponse(response: Value, render: string -> seq<Element>) returns (reply: string)
    ensures reply == FormatReply(response, render)
  {
    var content := ExtractContent(response);
    if content.None? {
      return ErrorReply;
    }
    var lines := CollectLines(render(content.value));
    return Strip(Join("\n", lines));
  }

  /** The loop of `_process_llm_response`: walks the elements once,
      remembering those already seen. */
  method CollectLines(elements: seq<Element>) returns (lines: seq<string>)
    ensures lines == OutputLines(elements)
  {
    lines := [];
    var processed: set<Element> := {};
    var i := 0;
    while i < |elements|
      invariant 0 <= i <= |elements|
      invariant forall x :: x in processed <==> x in elements[..i]
      invariant lines == OutputLines(elements[..i])
    {
      var e := elements[i];
      OutputLinesSnoc(elements, i);
      if e !in processed {
        processed := processed + {e};
        var line := LineFor(e);
        if line.Some? {
          lines := lines + [line.value];
        }
      }
      i := i + 1;
    }
    assert elements[..i] == elements;
  }

  /** One more element: its line, unless an equal element came before. */
  lemma OutputLinesSnoc(elements: seq<Element>, i: nat)
    requires i < |elements|
    ensures forall x :: x in elements[..i + 1] <==> x in elements[..i] || x == elements[i]
    ensures OutputLines(elements[..i + 1])
            == OutputLines(elements[..i]) + (if elements[i] in elements[..i] then [] else LinesOf(LineFor(elements[i])))
  {
    assert elements[..i + 1] == elements[..i] + [elements[i]];
    assert elements[..i + 1][..i] == elements[..i];
  }

  // ---------------------------------------------------------------- no bold markers

  lemma NoDoubleStarConcat(a: string, b: string)
    requires !HasDoubleStar(a) && !HasDoubleStar(b)
    requires a == [] || b == [] || a[|a| - 1] != '*' || b[0] != '*'
    ensures !HasDoubleStar(a + b)
  {
    var s := a + b;
    forall i | 0 <= i < |s| - 1 ensures !(s[i] == '*' && s[i + 1] == '*') {
      if i + 1 < |a| {
        assert s[i] == a[i] && s[i + 1] == a[i + 1];
      } else if i >= |a| {
        assert s[i] == b[i - |a|] && s[i + 1] == b[i + 1 - |a|];
      }
    }
  }

  lemma NoDoubleStarSlice(s: string, i: nat, j: nat)
    requires i <= j <= |s| && !HasDoubleStar(s)
    ensures !HasDoubleStar(s[i..j])
  {
    var t := s[i..j];
    forall k | 0 <= k < |t| - 1 ensures !(t[k] == '*' && t[k + 1] == '*') {
      assert t[k] == s[i + k] && t[k + 1] == s[i + k + 1];
    }
  }

  /** A piece without stars between a prefix that does not end in one and a
      suffix that does not start with one. */
  lemma Framed(prefix: string, t: string, suffix: string)
    requires !HasDoubleStar(t) && !HasDoubleStar(prefix) && !HasDoubleStar(suffix)
    requires prefix == [] || prefix[|prefix| - 1] != '*'
    requires suffix == [] || suffix[0] != '*'
    ensures !HasDoubleStar(prefix + t + suffix)
  {
    NoDoubleStarConcat(prefix, t);
    if t != [] {
      assert (prefix + t)[|prefix + t| - 1] == t[|t| - 1];
    }
    NoDoubleStarConcat(prefix + t, suffix);
  }

  /** No line carries a bold marker. */
  lemma LineHasNoBold(e: Element)
    requires LineFor(e).Some?
    ensures !HasDoubleStar(LineFor(e).value)
  {
    var t := RemoveAll(e.text, "**");
    RemoveAllStarsLeavesNone(e.text);
    var l := LineFor(e).value;
    if IsHeading(e.name) {
      if StartsWith(t, "Option") {
        Framed("\U{1F967} ", t, "\n");
      } else if StartsWith(t, "Smart Tips") || StartsWith(t, "Notes") {
        Framed("\U{1F4DD} ", t, "\n");
      } else {
        Framed("", t, "\n");
        assert l == "" + t + "\n";
      }
    } else if e.name == "li" {
      Framed("- ", t, "");
      assert l == "- " + t + "";
    } else if StartsWith(t, "Let me know") || StartsWith(t, "Need more") {
      Framed("\n\U{1F60A} ", t, "");
      assert l == "\n\U{1F60A} " + t + "";
    } else {
      assert l == t;
    }
  }

  lemma {:induction false} LinesHaveNoBold(elements: seq<Element>)
    ensures forall i :: 0 <= i < |OutputLines(elements)| ==> !HasDoubleStar(OutputLines(elements)[i])
  {
    if elements != [] {
      var before, e := elements[..|elements| - 1], elements[|elements| - 1];
      assert OutputLines(elements) == OutputLines(before) + (if e in before then [] else LinesOf(LineFor(e)));
      LinesHaveNoBold(before);
      if e !in before && LineFor(e).Some? {
        LineHasNoBold(e);
      }
    }
  }

  lemma {:induction false} JoinHasNoBold(lines: seq<string>)
    requires forall i :: 0 <= i < |lines| ==> !HasDoubleStar(lines[i])
    ensures !HasDoubleStar(Join("\n", lines))
  {
    if |lines| > 1 {
      JoinHasNoBold(lines[1..]);
      assert lines[0] in lines;
      NoDoubleStarConcat(lines[0], "\n");
      var head := lines[0] + "\n";
      assert head[|head| - 1] == '\n';
      NoDoubleStarConcat(head, Join("\n", lines[1..]));
    }
  }

  /** The reply never contains a `**` bold marker, whatever the model wrote. */
  lemma ReplyHasNoBold(response: Value, render: string -> seq<Element>)
    ensures !HasDoubleStar(FormatReply(response, render))
  {
    match ExtractContent(response)
    case None =>
      assert forall i :: 0 <= i < |ErrorReply| ==> ErrorReply[i] != '*';
    case Some(content) =>
      var lines := OutputLines(render(content));
      LinesHaveNoBold(render(content));
      JoinHasNoBold(lines);
      var joined := Join("\n", lines);
      var r := Strip(joined);
      NoDoubleStarSlice(joined, StripOffset(joined), StripOffset(joined) + |r|);
  }

  /** A response whose first choice carries a message with text content is
      answered from that text: the content found is the text stripped, and
      the reply is built from the elements it renders to. */
  lemma WellFormedResponseGivesContent(entries: Record, choices: seq<Value>, choice: Record, message: Record,
                                       content: string, render: string -> seq<Element>)
    requires Lookup(entries, "choices") == Some(List(choices)) && choices != [] && choices[0] == Dict(choice)
    requires Lookup(choice, "message") == Some(Dict(message))
    requires Lookup(message, "content") == Some(Str(content))
    ensures ExtractContent(Dict(entries)) == Some(Strip(content))
    ensures FormatReply(Dict(entries), render) == Strip(Join("\n", OutputLines(render(Strip(content)))))
  {
  }

  /** A response without a non-empty `choices` list is answered with the
      error reply. */
  lemma MissingChoicesGiveErrorReply(response: Value, render: string -> seq<Element>)
    requires !response.Dict? || !HasKey(response.entries, "choices")
             || Lookup(response.entries, "choices") == Some(List([]))
    ensures FormatReply(response, render) == ErrorReply
  {
  }

  // ---------------------------------------------------------------- the whole answer

  const SorryReply := "Sorry, I couldn't process your request."

  /** `generate_response`: the prompt, the request, and the formatted reply;
      any failure of the request is answered with an apology. */
  method GenerateResponse(query: string, context: seq<string>, llm: (string, nat) -> Attempt,
                          render: string -> seq<Element>)
    returns (reply: string)
    ensures var call := LlmCall(BuildPrompt(query, context), llm);
            && (call.Err? ==> reply == SorryReply)
            && (call.Ok? ==> reply == FormatReply(call.value, render))
  {
    var prompt := BuildPrompt(query, context);
    var response, _ := CallLlmApi(prompt, llm);
    if response.Err? {
      return SorryReply;
    }
    reply := ProcessLlmResponse(response.value, render);
  }
}
