/**
 * The language-model client (backend/app/services/llm_client.py): provider
 * selection at construction, `complete` with its availability guard and
 * defaulted parameters, the equation explanation with its template fallback,
 * and the process-wide instance.
 *
 * The provider SDKs are outside the model: what one provider call gives back
 * is the parameter `outcome`, and whether the SDK's initialisation raises is
 * the parameter `initRaises`.
 */
module LlmClient {
  import opened Wrappers
  import opened Text

  /** The settings the client reads. */
  datatype Settings = Settings(provider: string, model: string, temperature: real, maxTokens: int,
                               geminiKey: string, openaiKey: string)

  /** The defaults of the settings class: Gemini, temperature 0.7, 2000 tokens, no keys. */
  const DefaultSettings := Settings("gemini", "gemini-2.5-flash", 0.7, 2000, "", "")

  /** What one provider SDK call gave back: a text, a missing text, or an exception. */
  datatype Outcome = Replied(text: string) | NoContent | Raised(msg: string)

  /** The parameters a completion request is sent with. */
  datatype Params = Params(temperature: real, maxTokens: int)

  /** The prompt Gemini receives: the system prompt, a blank line and the prompt, or the prompt alone. */
  function GeminiPrompt(prompt: string, systemPrompt: Option<string>): (r: string)
    ensures systemPrompt.None? || systemPrompt.value == "" ==> r == prompt
    ensures systemPrompt.Some? && systemPrompt.value != "" ==> StartsWith(r, systemPrompt.value) && EndsWith(r, prompt)
  {
    if systemPrompt.Some? && systemPrompt.value != "" then
      var r := systemPrompt.value + "\n\n" + prompt;
      assert r[..|systemPrompt.value|] == systemPrompt.value;
      assert r[|r| - |prompt|..] == prompt;
      r
    else prompt
  }

  /** The chat messages OpenAI receives: an optional system message, then the user message. */
  datatype Message = Message(role: string, content: string)

  function OpenAiMessages(prompt: string, systemPrompt: Option<string>): (r: seq<Message>)
    ensures |r| >= 1 && r[|r| - 1] == Message("user", prompt)
    ensures |r| == 2 <==> systemPrompt.Some? && systemPrompt.value != ""
    ensures |r| == 2 ==> r[0] == Message("system", systemPrompt.value)
  {
    (if systemPrompt.Some? && systemPrompt.value != "" then [Message("system", systemPrompt.value)] else [])
      + [Message("user", prompt)]
  }

  class Client {
    const provider: string
    const model: string
    const temperature: real
    const maxTokens: int
    /** Whether an SDK client was made (`self.client is not None`). */
    const available: bool

    /**
     * `LLMClient()`: the provider name lowercased; a client only for a known
     * provider whose key is set and whose SDK initialises.
     */
    constructor (settings: Settings, initRaises: bool)
      ensures provider == Lower(settings.provider) && model == settings.model
      ensures temperature == settings.temperature && maxTokens == settings.maxTokens
      ensures available <==>
        !initRaises && ((provider == "gemini" && settings.geminiKey != "") || (provider == "openai" && settings.openaiKey != ""))
    {
      provider := Lower(settings.provider);
      model := settings.model;
      temperature := settings.temperature;
      maxTokens := settings.maxTokens;
      var p := Lower(settings.provider);
      if p == "gemini" {
        available := settings.geminiKey != "" && !initRaises;
      } else if p == "openai" {
        available := settings.openaiKey != "" && !initRaises;
      } else {
        available := false;
      }
    }

    /** `is_available()` */
    predicate IsAvailable()
      reads this
    {
      available
    }

    /** The temperature and token limit a request uses: each argument when given, the configured default only when it is None. */
    function EffectiveParams(temperatureArg: Option<real>, maxTokensArg: Option<int>): (p: Params)
      reads this
      ensures temperatureArg.Some? ==> p.temperature == temperatureArg.value
      ensures temperatureArg.None? ==> p.temperature == temperature
      ensures maxTokensArg.Some? ==> p.maxTokens == maxTokensArg.value
      ensures maxTokensArg.None? ==> p.maxTokens == maxTokens
    {
      Params(temperatureArg.GetOr(temperature), maxTokensArg.GetOr(maxTokens))
    }

    /**
     * `complete`: None without a client and None when the provider call raises;
     * Gemini's missing text becomes the empty string, OpenAI's missing content None.
     */
    method Complete(prompt: string, systemPrompt: Option<string>, temperatureArg: Option<real>,
                    maxTokensArg: Option<int>, outcome: Outcome)
      returns (r: Option<string>)
      ensures !available ==> r == None
      ensures outcome.Raised? ==> r == None
      ensures r.Some? ==> available && (provider == "gemini" || provider == "openai")
      ensures available && outcome.Replied? && (provider == "gemini" || provider == "openai") ==>
        r == Some(outcome.text)
      ensures available && outcome.NoContent? ==>
        r == (if provider == "gemini" then Some("") else None)
    {
      if !available {
        return None;
      }
      var params := EffectiveParams(temperatureArg, maxTokensArg);
      if outcome.Raised? {
        return None;
      }
      if provider == "gemini" {
        var request := GeminiPrompt(prompt, systemPrompt);
        r := Some(if outcome.Replied? && outcome.text != "" then outcome.text else "");
      } else if provider == "openai" {
        var request := OpenAiMessages(prompt, systemPrompt);
        r := if outcome.Replied? then Some(outcome.text) else None;
      } else {
        r := None;
      }
    }

    /**
     * `generate_equation_explanation`: the model's text when it gives a
     * non-empty one, the template fallback otherwise (no client, an exception,
     * nothing or an empty text).
     */
    method GenerateEquationExplanation(latex: string, names: seq<string>, descriptions: seq<string>,
                                       context: string, outcome: Outcome)
      returns (r: string)
      requires |names| == |descriptions|
      ensures available && (provider == "gemini" || provider == "openai") && outcome.Replied? && outcome.text != "" ==>
        r == outcome.text
      ensures !available || outcome.Raised? || outcome.NoContent? || (outcome.Replied? && outcome.text == "") ==>
        r == FallbackExplanation(latex, descriptions)
    {
      if !available {
        return FallbackExplanation(latex, descriptions);
      }
      var prompt := ExplanationPrompt(latex, names, descriptions, context);
      var explanation := Complete(prompt, Some(TutorSystemPrompt), Some(0.7), None, outcome);
      if explanation.Some? && explanation.value != "" {
        r := explanation.value;
      } else {
        r := FallbackExplanation(latex, descriptions);
      }
    }
  }

  const TutorSystemPrompt := "You are a patient mathematics tutor explaining equations to undergraduate students.\nProvide clear, intuitive explanations avoiding unnecessary jargon."

  /** `"name (description)"` for each variable, comma-separated. */
  function VariableList(names: seq<string>, descriptions: seq<string>): string
    requires |names| == |descriptions|
  {
    if names == [] then ""
    else if |names| == 1 then names[0] + " (" + descriptions[0] + ")"
    else names[0] + " (" + descriptions[0] + "), " + VariableList(names[1..], descriptions[1..])
  }

  const PromptIntro := "Explain this equation in 2-3 sentences:\n\nEquation: "
  const PromptTail := "\n\nProvide:\n1. An intuitive one-sentence explanation\n2. The key relationship it describes\n3. A practical application or example if applicable\n\nKeep it accessible and concise."

  /** The user prompt of the explanation request. */
  function ExplanationPrompt(latex: string, names: seq<string>, descriptions: seq<string>, context: string): string
    requires |names| == |descriptions|
  {
    PromptIntro + latex + "\nVariables: " + VariableList(names, descriptions)
      + "\nContext: " + (if context != "" then context else "No additional context") + PromptTail
  }

  const Opening := "This equation"

  /** The explanation written without a model, by the number of variable descriptions. */
  function FallbackExplanation(latex: string, descriptions: seq<string>): string {
    var n := |descriptions|;
    if n == 0 then Opening + ": " + latex
    else if n == 1 then Opening + " describes " + descriptions[0] + "."
    else if n == 2 then Opening + " shows the relationship between " + descriptions[0] + " and " + descriptions[1] + "."
    else Opening + " relates " + Join(", ", descriptions[..n - 1]) + ", and " + descriptions[n - 1] + "."
  }

  /** `sub` occurs in `a + sub + b`. */
  lemma OccursInMiddle(a: string, sub: string, b: string)
    ensures Contains(a + sub + b, sub)
  {
    assert OccursAt(a + sub + b, sub, |a|);
  }

  /** An occurrence in `s` is an occurrence in any text that has `s` at offset `k`. */
  lemma OccursShift(s: string, sub: string, i: int, a: string, b: string)
    requires OccursAt(s, sub, i)
    ensures OccursAt(a + s + b, sub, |a| + i)
  {
    var t := a + s + b;
    forall k | 0 <= k < |sub| ensures t[|a| + i + k] == sub[k] {
      assert t[|a| + i + k] == s[i + k];
    }
  }

  /** Every piece of a join occurs in the joined text. */
  lemma {:induction false} JoinContainsPieces(sep: string, parts: seq<string>, j: int)
    requires 0 <= j < |parts|
    ensures Contains(Join(sep, parts), parts[j])
  {
    if |parts| == 1 {
      OccursInMiddle("", parts[0], "");
      assert "" + parts[0] + "" == parts[0];
    } else if j == 0 {
      OccursInMiddle("", parts[0], sep + Join(sep, parts[1..]));
      assert "" + parts[0] + (sep + Join(sep, parts[1..])) == Join(sep, parts);
    } else {
      JoinContainsPieces(sep, parts[1..], j - 1);
      var i :| OccursAt(Join(sep, parts[1..]), parts[j], i);
      OccursShift(Join(sep, parts[1..]), parts[j], i, parts[0] + sep, "");
      assert parts[0] + sep + Join(sep, parts[1..]) + "" == Join(sep, parts);
    }
  }

  /** The fallback for three or more variables: the opening, the join of all but the last, then the last. */
  lemma FallbackManyShape(latex: string, descriptions: seq<string>)
    requires |descriptions| >= 3
    ensures var n := |descriptions|;
      FallbackExplanation(latex, descriptions)
      == (Opening + " relates ") + Join(", ", descriptions[..n - 1]) + (", and " + descriptions[n - 1] + ".")
  {
  }

  /** The fallback for three or more variables names each of them. */
  lemma FallbackManyMentions(latex: string, descriptions: seq<string>, j: int)
    requires |descriptions| >= 3 && 0 <= j < |descriptions|
    ensures Contains(FallbackExplanation(latex, descriptions), descriptions[j])
  {
    var n := |descriptions|;
    var front, head := Opening + " relates ", Join(", ", descriptions[..n - 1]);
    FallbackManyShape(latex, descriptions);
    if j < n - 1 {
      assert descriptions[..n - 1][j] == descriptions[j];
      JoinContainsPieces(", ", descriptions[..n - 1], j);
      var i :| OccursAt(head, descriptions[j], i);
      OccursShift(head, descriptions[j], i, front, ", and " + descriptions[n - 1] + ".");
    } else {
      var before := front + head + ", and ";
      OccursInMiddle(before, descriptions[n - 1], ".");
      assert before + descriptions[n - 1] + "." == front + head + (", and " + descriptions[n - 1] + ".");
    }
  }

  /** The fallback for two variables names both. */
  lemma FallbackPairMentions(latex: string, descriptions: seq<string>)
    requires |descriptions| == 2
    ensures Contains(FallbackExplanation(latex, descriptions), descriptions[0])
    ensures Contains(FallbackExplanation(latex, descriptions), descriptions[1])
  {
    var a := Opening + " shows the relationship between ";
    var r := FallbackExplanation(latex, descriptions);
    assert r == a + descriptions[0] + (" and " + descriptions[1] + ".");
    OccursInMiddle(a, descriptions[0], " and " + descriptions[1] + ".");
    assert r == (a + descriptions[0] + " and ") + descriptions[1] + ".";
    OccursInMiddle(a + descriptions[0] + " and ", descriptions[1], ".");
  }

  /**
   * The fallback names every variable description (and, without variables,
   * the equation itself).
   */
  lemma FallbackMentionsEverything(latex: string, descriptions: seq<string>)
    ensures descriptions == [] ==> Contains(FallbackExplanation(latex, descriptions), latex)
    ensures forall j :: 0 <= j < |descriptions| ==> Contains(FallbackExplanation(latex, descriptions), descriptions[j])
  {
    var n := |descriptions|;
    if n == 0 {
      OccursInMiddle(Opening + ": ", latex, "");
      assert Opening + ": " + latex + "" == FallbackExplanation(latex, descriptions);
    } else if n == 1 {
      OccursInMiddle(Opening + " describes ", descriptions[0], ".");
    } else if n == 2 {
      FallbackPairMentions(latex, descriptions);
    } else {
      forall j | 0 <= j < n ensures Contains(FallbackExplanation(latex, descriptions), descriptions[j]) {
        FallbackManyMentions(latex, descriptions, j);
      }
    }
  }


  /** Every fallback opens with "This equation". */
  lemma FallbackOpening(latex: string, descriptions: seq<string>)
    ensures StartsWith(FallbackExplanation(latex, descriptions), "This equation")
  {
    var n := |descriptions|;
    var r := FallbackExplanation(latex, descriptions);
    if n == 0 {
      assert r == Opening + (": " + latex);
      StartsWithConcat(Opening, ": " + latex);
    } else if n == 1 {
      assert r == Opening + (" describes " + descriptions[0] + ".");
      StartsWithConcat(Opening, " describes " + descriptions[0] + ".");
    } else if n == 2 {
      var tail := " shows the relationship between " + descriptions[0] + " and " + descriptions[1] + ".";
      assert r == Opening + tail;
      StartsWithConcat(Opening, tail);
    } else {
      var tail := " relates " + Join(", ", descriptions[..n - 1]) + ", and " + descriptions[n - 1] + ".";
      assert r == Opening + tail;
      StartsWithConcat(Opening, tail);
    }
  }

  /** The module-level slot `_llm_client`. */
  class Registry {
    var instance: Client?

    constructor ()
      ensures instance == null
    {
      instance := null;
    }

    /** `get_llm_client()`: make the client on the first call, return the same one on every call. */
    method Get(settings: Settings, initRaises: bool) returns (c: Client)
      modifies this
      ensures instance == c
      ensures old(instance) != null ==> c == old(instance)
      ensures old(instance) == null ==> fresh(c)
    {
      if instance == null {
        instance := new Client(settings, initRaises);
      }
      c := instance;
    }
  }

  /** Two calls in a row give the very same client. */
  method GetTwice(registry: Registry, settings: Settings, initRaises: bool) returns (a: Client, b: Client)
    modifies registry
    ensures a == b && registry.instance == a
  {
    a := registry.Get(settings, initRaises);
    b := registry.Get(settings, initRaises);
  }
}
