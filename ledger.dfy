/**
 * The usage ledger: four token counters, the length-based token estimate, the
 * authoritative `response.usage` reconciliation, and the per-model cost of the
 * counters (rates per 1,000,000 tokens).
 */
module Ledger {
  import opened Text

  /** The four counters, named after the category strings `addTokenUsage` accepts. */
  datatype Category = InputText | InputAudio | OutputText | OutputAudio

  /** `this.tokenUsage`. */
  datatype Usage = Usage(inputTextTokens: nat, inputAudioTokens: nat, outputTextTokens: nat, outputAudioTokens: nat) {

    function Get(c: Category): nat {
      match c
      case InputText => inputTextTokens
      case InputAudio => inputAudioTokens
      case OutputText => outputTextTokens
      case OutputAudio => outputAudioTokens
    }
  }

  /** The counters after `resetTokenUsage` (and at construction). */
  const Zero := Usage(0, 0, 0, 0)

  /**
   * `estimateTokens`: 0 for an absent or empty text, otherwise the length of the
   * text in UTF-16 code units divided by 4, rounded up.
   */
  function Estimate(text: string): (n: nat)
    ensures n == 0 <==> text == []
    ensures text != [] ==> 4 * (n - 1) < Utf16Length(text) <= 4 * n
  {
    if text == [] then 0 else (Utf16Length(text) + 3) / 4
  }

  /**
   * `addTokenUsage(type, tokens)`: only the named counter moves, by exactly `tokens`,
   * and nothing moves unless `tokens > 0`.
   */
  function Add(u: Usage, c: Category, tokens: int): (r: Usage)
    ensures forall k :: r.Get(k) == u.Get(k) + (if k == c && tokens > 0 then tokens else 0)
  {
    if tokens <= 0 then u
    else match c
      case InputText => u.(inputTextTokens := u.inputTextTokens + tokens)
      case InputAudio => u.(inputAudioTokens := u.inputAudioTokens + tokens)
      case OutputText => u.(outputTextTokens := u.outputTextTokens + tokens)
      case OutputAudio => u.(outputAudioTokens := u.outputAudioTokens + tokens)
  }

  /** Estimates only ever raise counters. */
  lemma AddNeverDecreases(u: Usage, c: Category, tokens: int, k: Category)
    ensures Add(u, c, tokens).Get(k) >= u.Get(k)
  {
  }

  /**
   * The `usage` object of a `response.usage` event. A field that is absent, or
   * zero (falsy in JavaScript), is 0 here.
   */
  datatype Report = Report(inputTokens: nat, inputAudioTokens: nat, outputTokens: nat, outputAudioTokens: nat)

  /**
   * The reconciling branch of `trackTokenUsage`: a non-zero `input_tokens` replaces
   * the input pair (the text counter takes `input_tokens`, the audio counter takes
   * `input_audio_tokens`), and likewise for the output pair; a zero `input_tokens`
   * or `output_tokens` leaves its pair as it was.
   */
  function Reconcile(u: Usage, rep: Report): (r: Usage)
    ensures rep.inputTokens > 0 ==> r.inputTextTokens == rep.inputTokens && r.inputAudioTokens == rep.inputAudioTokens
    ensures rep.inputTokens == 0 ==> r.inputTextTokens == u.inputTextTokens && r.inputAudioTokens == u.inputAudioTokens
    ensures rep.outputTokens > 0 ==> r.outputTextTokens == rep.outputTokens && r.outputAudioTokens == rep.outputAudioTokens
    ensures rep.outputTokens == 0 ==> r.outputTextTokens == u.outputTextTokens && r.outputAudioTokens == u.outputAudioTokens
  {
    var u1 := if rep.inputTokens != 0 then u.(inputTextTokens := rep.inputTokens, inputAudioTokens := rep.inputAudioTokens) else u;
    if rep.outputTokens != 0 then u1.(outputTextTokens := rep.outputTokens, outputAudioTokens := rep.outputAudioTokens) else u1
  }

  /** A reconciled pair does not depend on the estimates that preceded it: it replaces rather than sums. */
  lemma ReconcileForgetsEstimates(u: Usage, c: Category, tokens: int, rep: Report)
    requires rep.inputTokens > 0 && rep.outputTokens > 0
    ensures Reconcile(Add(u, c, tokens), rep) == Reconcile(u, rep)
  {
  }

  /** An audio estimate of 50 followed by a report of 120 input-audio tokens (and 10 input tokens) leaves 120, not 170. */
  lemma ReconcileReplacesAudioEstimate()
    ensures Reconcile(Add(Zero, InputAudio, 50), Report(10, 120, 0, 0)).inputAudioTokens == 120
  {
  }

  /** A report that carries `input_audio_tokens` but no `input_tokens` leaves the earlier estimate in place. */
  lemma ReconcileNeedsInputTokens()
    ensures Reconcile(Add(Zero, InputAudio, 50), Report(0, 120, 0, 0)).inputAudioTokens == 50
  {
  }

  /** The six per-1,000,000-token rates of one model, as in `this.pricing` and `this.modelPricing`. */
  datatype Rates = Rates(textInput: real, textInputCached: real, audioInput: real, audioInputCached: real,
                         textOutput: real, audioOutput: real) {

    /** The rate `updateCostDisplay` applies to a counter (cached rates are never used). */
    function Of(c: Category): real {
      match c
      case InputText => textInput
      case InputAudio => audioInput
      case OutputText => textOutput
      case OutputAudio => audioOutput
    }
  }

  /** The model assumed when the session data names none. */
  const DefaultModel: string := "gpt-4o-realtime-preview"

  /** `this.pricing`: the rates for a model missing from the table. */
  const DefaultPricing := Rates(5.00, 2.50, 40.00, 2.50, 20.00, 80.00)

  /** `this.modelPricing`. */
  const ModelPricing: map<string, Rates> := map[
    "gpt-4o-realtime-preview" := Rates(5.00, 2.50, 40.00, 2.50, 20.00, 80.00),
    "gpt-4o-mini-realtime-preview" := Rates(0.60, 0.30, 10.00, 0.30, 2.40, 20.00),
    "gpt-4o-realtime-preview-2025-06-03" := Rates(5.00, 2.50, 40.00, 2.50, 20.00, 80.00)
  ]

  /**
   * `this.sessionData?.model || "gpt-4o-realtime-preview"`, then
   * `this.modelPricing[currentModel] || this.pricing`; `model` is "" when the session
   * data or its model is absent.
   */
  function PricingFor(model: string): (r: Rates)
    ensures model != "" && model in ModelPricing ==> r == ModelPricing[model]
    ensures model != "" && model !in ModelPricing ==> r == DefaultPricing
    ensures model == "" ==> r == ModelPricing[DefaultModel]
  {
    var current := if model != "" then model else DefaultModel;
    if current in ModelPricing then ModelPricing[current] else DefaultPricing
  }

  /** With no model, or an unknown one, costs use the same rates. */
  lemma MissingAndUnknownModelAgree(model: string)
    requires model !in ModelPricing
    ensures PricingFor(model) == PricingFor("") == DefaultPricing
  {
  }

  const PerMillion: real := 1000000.0

  /** One displayed cost: `(tokens / 1000000) * rate`. */
  function CategoryCost(tokens: nat, rate: real): real {
    (tokens as real / PerMillion) * rate
  }

  /** The five values `updateCostDisplay` shows. */
  datatype Costs = Costs(inputText: real, inputAudio: real, outputText: real, outputAudio: real, total: real) {

    function Of(c: Category): real {
      match c
      case InputText => inputText
      case InputAudio => inputAudio
      case OutputText => outputText
      case OutputAudio => outputAudio
    }
  }

  /**
   * The cost arithmetic of `updateCostDisplay`: each category costs its counter over
   * 1,000,000 times its rate (`CostPerCategory`), and the total is the sum of the four.
   */
  function Cost(u: Usage, r: Rates): (c: Costs)
    ensures c.total == c.Of(InputText) + c.Of(InputAudio) + c.Of(OutputText) + c.Of(OutputAudio)
  {
    var it := CategoryCost(u.inputTextTokens, r.textInput);
    var ia := CategoryCost(u.inputAudioTokens, r.audioInput);
    var ot := CategoryCost(u.outputTextTokens, r.textOutput);
    var oa := CategoryCost(u.outputAudioTokens, r.audioOutput);
    Costs(it, ia, ot, oa, it + ia + ot + oa)
  }

  /** Each displayed category cost is that counter's tokens at that category's rate per 1,000,000. */
  lemma CostPerCategory(u: Usage, r: Rates, k: Category)
    ensures Cost(u, r).Of(k) == u.Get(k) as real * r.Of(k) / PerMillion
  {
  }

  /** Unit scaling: 1,000,000 output-audio tokens cost exactly the model's `audioOutput` rate. */
  lemma MillionOutputAudioTokensCostTheRate(r: Rates)
    ensures Cost(Usage(0, 0, 0, 1000000), r).outputAudio == r.audioOutput
    ensures Cost(Usage(0, 0, 0, 1000000), r).total == r.audioOutput
  {
  }

  /** Under the default table, 1,000,000 output-audio tokens cost 80.00. */
  lemma DefaultOutputAudioCost()
    ensures Cost(Usage(0, 0, 0, 1000000), PricingFor("")).total == 80.00
  {
    MillionOutputAudioTokensCostTheRate(PricingFor(""));
  }

  /** Adding `tokens` to one counter raises the total cost by exactly those tokens at that category's rate. */
  lemma CostOfAdd(u: Usage, c: Category, tokens: int, r: Rates)
    ensures Cost(Add(u, c, tokens), r).total ==
            Cost(u, r).total + (if tokens > 0 then CategoryCost(tokens, r.Of(c)) else 0.0)
  {
    if tokens > 0 {
      match c
      case InputText => CategoryCostAdd(u.inputTextTokens, tokens, r.textInput);
      case InputAudio => CategoryCostAdd(u.inputAudioTokens, tokens, r.audioInput);
      case OutputText => CategoryCostAdd(u.outputTextTokens, tokens, r.textOutput);
      case OutputAudio => CategoryCostAdd(u.outputAudioTokens, tokens, r.audioOutput);
    }
  }

  /** Cost is linear in the tokens of one category. */
  lemma CategoryCostAdd(n: nat, tokens: nat, rate: real)
    ensures CategoryCost(n + tokens, rate) == CategoryCost(n, rate) + CategoryCost(tokens, rate)
  {
    assert (n + tokens) as real / PerMillion == n as real / PerMillion + tokens as real / PerMillion;
  }
}
