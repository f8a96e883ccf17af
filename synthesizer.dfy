/**
 * What `Synthesizer.generate` does around the language-model call: it builds
 * the user prompt, cuts the JSON candidate out of the reply text with the
 * greedy pattern `\{[\s\S]*\}`, decodes it, and insists on the four required
 * fields. The model call itself and `JSON.parse` are parameters.
 */
module Synthesizer {
  import opened Wrappers
  import opened Tools
  import opened Text

  /** `SynthesisRequest`; the two examples are optional. */
  datatype Request = Request(description: string, exampleInput: Option<string>, exampleOutput: Option<string>)

  /** JavaScript truthiness of an optional string: present and not empty. */
  predicate Given(o: Option<string>)
    ensures o.None? || o == Some("") ==> !Given(o)
    ensures o.Some? && |o.value| > 0 ==> Given(o)
  {
    o.Some? && o.value != ""
  }

  const PromptIntro: string := "Generate a tool for: "
  const InputLabel: string := "\n\nExample input: "
  const OutputLabel: string := "\nExpected output format: "

  /** The labelled line for an optional example, or nothing when it is not given. */
  function Line(lead: string, o: Option<string>): (s: string)
    ensures Given(o) ==> s == lead + o.value
    ensures !Given(o) ==> s == ""
  {
    if Given(o) then lead + o.value else ""
  }

  /** The user prompt `generate` sends. */
  function UserPrompt(req: Request): (p: string)
    ensures PromptIntro + req.description <= p
    ensures !Given(req.exampleInput) && !Given(req.exampleOutput) ==> p == PromptIntro + req.description
    ensures Given(req.exampleInput) ==> PromptIntro + req.description + InputLabel + req.exampleInput.value <= p
    ensures Given(req.exampleOutput) ==> EndsWith(p, OutputLabel + req.exampleOutput.value)
    ensures !Given(req.exampleOutput) ==> EndsWith(p, Line(InputLabel, req.exampleInput))
    ensures |p| == |PromptIntro| + |req.description| + |Line(InputLabel, req.exampleInput)|
                   + |Line(OutputLabel, req.exampleOutput)|
  {
    PromptIntro + req.description + Line(InputLabel, req.exampleInput) + Line(OutputLabel, req.exampleOutput)
  }

  /** `let userPrompt = ...; if (...) userPrompt += ...; if (...) userPrompt += ...`. */
  method BuildPrompt(req: Request) returns (prompt: string)
    ensures prompt == UserPrompt(req)
  {
    prompt := PromptIntro + req.description;
    if Given(req.exampleInput) {
      prompt := prompt + InputLabel + req.exampleInput.value;
    }
    assert prompt == PromptIntro + req.description + Line(InputLabel, req.exampleInput);
    if Given(req.exampleOutput) {
      prompt := prompt + OutputLabel + req.exampleOutput.value;
    }
    assert prompt == PromptIntro + req.description + Line(InputLabel, req.exampleInput)
                     + Line(OutputLabel, req.exampleOutput);
  }

  /** With only an example input, the prompt is the first line followed directly by the input line. */
  lemma InputOnlyLayout(d: string, x: string, o: Option<string>)
    requires x != "" && !Given(o)
    ensures UserPrompt(Request(d, Some(x), o)) == "Generate a tool for: " + d + "\n\nExample input: " + x
  {
  }

  /** With only an expected output, the output line follows the first line directly. */
  lemma OutputOnlyLayout(d: string, i: Option<string>, y: string)
    requires !Given(i) && y != ""
    ensures UserPrompt(Request(d, i, Some(y))) == "Generate a tool for: " + d + "\nExpected output format: " + y
  {
  }

  /** An empty example is left out exactly as a missing one is. */
  lemma EmptyExampleOmitted(d: string, i: Option<string>, o: Option<string>)
    ensures UserPrompt(Request(d, Some(""), o)) == UserPrompt(Request(d, None, o))
    ensures UserPrompt(Request(d, i, Some(""))) == UserPrompt(Request(d, i, None))
  {
  }

  /** The output line follows the input line after one newline; the input line follows the description after two. */
  lemma PromptLayout(d: string, x: string, y: string)
    requires x != "" && y != ""
    ensures UserPrompt(Request(d, Some(x), Some(y)))
         == "Generate a tool for: " + d + "\n\nExample input: " + x + "\nExpected output format: " + y
  {
  }

  /** `content || ""`: a missing reply is the empty text. */
  function ReplyText(content: Option<string>): (text: string)
    ensures content.Some? ==> text == content.value
    ensures content.None? ==> text == ""
  {
    if content.Some? then content.value else ""
  }

  /** `text[i..j]` is a match of `\{[\s\S]*\}`: it opens with '{' and closes with '}'. */
  predicate MatchesAt(text: string, i: int, j: int)
  {
    0 <= i && i + 2 <= j <= |text| && text[i] == '{' && text[j - 1] == '}'
  }

  /** The match `String.prototype.match` reports: the leftmost start, and from it the longest (greedy) end. */
  ghost predicate FirstGreedyMatch(text: string, i: int, j: int)
  {
    && MatchesAt(text, i, j)
    && (forall i', j' :: MatchesAt(text, i', j') ==> i <= i')
    && (forall j' :: MatchesAt(text, i, j') ==> j' <= j)
  }

  /** The index of the first `c` in `text` at or after `k`. */
  function FirstFrom(text: string, c: char, k: nat): (r: Option<nat>)
    requires k <= |text|
    ensures r.Some? ==> k <= r.value < |text| && text[r.value] == c
    ensures r.Some? ==> forall m :: k <= m < r.value ==> text[m] != c
    ensures r.None? ==> forall m :: k <= m < |text| ==> text[m] != c
    decreases |text| - k
  {
    if k == |text| then None
    else if text[k] == c then Some(k)
    else FirstFrom(text, c, k + 1)
  }

  /** The index of the last `c` in `text[..k]`. */
  function LastBefore(text: string, c: char, k: nat): (r: Option<nat>)
    requires k <= |text|
    ensures r.Some? ==> r.value < k && text[r.value] == c
    ensures r.Some? ==> forall m :: r.value < m < k ==> text[m] != c
    ensures r.None? ==> forall m :: 0 <= m < k ==> text[m] != c
  {
    if k == 0 then None
    else if text[k - 1] == c then Some(k - 1)
    else LastBefore(text, c, k - 1)
  }

  /** The bounds of the JSON candidate: from the first '{' to the last '}', if that '}' comes later. */
  function CandidateSpan(text: string): (r: Option<(nat, nat)>)
    ensures r.Some? ==> FirstGreedyMatch(text, r.value.0, r.value.1)
    ensures r.None? <==> forall i, j :: !MatchesAt(text, i, j)
  {
    match (FirstFrom(text, '{', 0), LastBefore(text, '}', |text|))
    case (Some(i), Some(j)) =>
      if i < j then
        assert forall i': int, j': int :: MatchesAt(text, i', j') ==> i <= i' && j' - 1 <= j;
        assert MatchesAt(text, i, j + 1);
        Some((i, j + 1))
      else
        assert forall i': int, j': int :: MatchesAt(text, i', j') ==> i <= i' && j' - 1 <= j;
        None
    case _ => None
  }

  /** `text.match(/\{[\s\S]*\}/)?.[0]`. */
  function JsonCandidate(text: string): (r: Option<string>)
    ensures r.Some? <==> exists i, j :: MatchesAt(text, i, j)
    ensures r.Some? ==> exists i, j :: FirstGreedyMatch(text, i, j) && r.value == text[i..j]
  {
    match CandidateSpan(text)
    case None => None
    case Some((i, j)) => Some(text[i..j])
  }

  /** The object `JSON.parse` yields, its fields typed as `GeneratedTool` declares them (absent or present). */
  datatype Candidate = Candidate(name: Option<string>, description: Option<string>,
                                 inputSchema: Option<Json>, handlerCode: Option<string>)

  /** The ways `generate` fails once the reply is in. */
  datatype SynthesisError =
    | NoJson                      // "Synthesizer did not return valid JSON"
    | Unparsable(message: string) // the error `JSON.parse` throws, passed on unwrapped
    | MissingFields               // "Generated tool is missing required fields"

  /** The message of the error `generate` throws. */
  function ErrorMessage(e: SynthesisError): (msg: string)
    ensures e.NoJson? ==> msg == "Synthesizer did not return valid JSON"
    ensures e.Unparsable? ==> msg == e.message
    ensures e.MissingFields? ==> msg == "Generated tool is missing required fields"
  {
    match e
    case NoJson => "Synthesizer did not return valid JSON"
    case Unparsable(m) => m
    case MissingFields => "Generated tool is missing required fields"
  }

  /** `!tool.name || !tool.description || !tool.inputSchema || !tool.handlerCode` rejects; otherwise the tool. */
  function RequireFields(c: Candidate): (r: Result<Tool, SynthesisError>)
    ensures r.Success? <==>
      Given(c.name) && Given(c.description) && Given(c.handlerCode) && c.inputSchema.Some? && Truthy(c.inputSchema.value)
    ensures r.Failure? ==> r.error == MissingFields
    ensures r.Success? ==> Some(r.value.name) == c.name && Some(r.value.description) == c.description
    ensures r.Success? ==> Some(r.value.inputSchema) == c.inputSchema && Some(r.value.handlerCode) == c.handlerCode
  {
    if Given(c.name) && Given(c.description) && c.inputSchema.Some? && Truthy(c.inputSchema.value) && Given(c.handlerCode)
    then Success(Tool(c.name.value, c.description.value, c.inputSchema.value, c.handlerCode.value))
    else Failure(MissingFields)
  }

  /** A parser standing for `JSON.parse`: a decoded object or the message of the error it throws. */
  type Parser = string -> Result<Candidate, string>

  /** Everything `generate` does with the reply content. */
  function ReadReply(parse: Parser, content: Option<string>): (r: Result<Tool, SynthesisError>)
    ensures r == Failure(NoJson) <==> JsonCandidate(ReplyText(content)).None?
    ensures r.Success? ==> r.value.name != "" && r.value.description != "" && r.value.handlerCode != ""
    ensures r.Success? ==> r.value.inputSchema != Null && Truthy(r.value.inputSchema)
    ensures r.Success? ==> exists s :: JsonCandidate(ReplyText(content)) == Some(s) && parse(s).Success?
    ensures forall s :: JsonCandidate(ReplyText(content)) == Some(s) ==>
      && (parse(s).Failure? ==> r == Failure(Unparsable(parse(s).error)))
      && (parse(s).Success? ==> r == RequireFields(parse(s).value))
  {
    match JsonCandidate(ReplyText(content))
    case None => Failure(NoJson)
    case Some(s) =>
      match parse(s)
      case Failure(m) => Failure(Unparsable(m))
      case Success(c) => RequireFields(c)
  }

  /** A missing reply fails as "did not return valid JSON". */
  lemma MissingContentHasNoJson(parse: Parser)
    ensures ReadReply(parse, None) == Failure(NoJson)
    ensures ReadReply(parse, Some("")) == Failure(NoJson)
  {
  }

  /** When no '}' follows the first '{' there is no candidate, whatever '}' came before it. */
  lemma UnclosedBraceHasNoJson(pre: string, post: string)
    requires '{' !in pre && '}' !in post
    ensures JsonCandidate(pre + "{" + post) == None
  {
  }

  /** `generate(request)`: the model is asked (`complete`), and its reply is read. */
  method Generate(complete: string -> Option<string>, parse: Parser, req: Request)
    returns (r: Result<Tool, SynthesisError>)
    ensures r == ReadReply(parse, complete(UserPrompt(req)))
  {
    var prompt := BuildPrompt(req);
    var content := complete(prompt);
    r := ReadReply(parse, content);
  }
}
