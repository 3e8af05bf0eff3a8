/**
 * Token and credit accounting: three readings of one usage object, by the credit reporter, the usage table and
 * Langfuse (MemoryProxy/src/credit-reporter.ts:45-209, MemoryProxy/src/pricing.ts:22-30, 147-160,
 * MemoryProxy/src/clickhouse.ts:460-696, 792-823, MemoryProxy/src/langfuse.ts:241-270).
 */
module Credit {
  import opened JsText
  import opened JsValue

  /** The properties of a usage object the program reads; Other stands for every property it does not. */
  datatype Key =
    | PromptTokensKey | CompletionTokensKey | TotalTokensKey | InputTokensKey | OutputTokensKey
    | CacheReadInputTokensKey | CacheCreationInputTokensKey | CacheCreationKey | CacheReadTokensKey
    | PromptTokensDetailsKey | PromptCacheHitTokensKey | PromptCacheWriteTokensKey | ErrorKey
    | Other(name: Text)

  type Usage = map<Key, Json>

  // ---- Numbers ----

  const ZERO: JsNumber := Fin(0.0)

  function Plus(a: JsNumber, b: JsNumber): JsNumber {
    if a.Fin? && b.Fin? then Fin(a.r + b.r)
    else if a.Fin? then b
    else if b.Fin? || a == b then a
    else NaN
  }

  function Negate(a: JsNumber): JsNumber {
    match a
    case Fin(x) => Fin(-x)
    case NaN => NaN
    case PosInf => NegInf
    case NegInf => PosInf
  }

  function Minus(a: JsNumber, b: JsNumber): JsNumber {
    Plus(a, Negate(b))
  }

  function Times(a: JsNumber, b: JsNumber): JsNumber {
    if a.Fin? && b.Fin? then Fin(a.r * b.r)
    else if a.Fin? then Scaled(b, a.r)
    else if b.Fin? then Scaled(a, b.r)
    else if a == NaN || b == NaN then NaN
    else if a == b then PosInf
    else NegInf
  }

  /** An infinity or NaN times a finite factor. */
  function Scaled(a: JsNumber, x: real): JsNumber {
    if a == NaN || x == 0.0 then NaN else if x > 0.0 then a else Negate(a)
  }

  /** a < b; no comparison with NaN holds. */
  predicate Less(a: JsNumber, b: JsNumber) {
    if a == NaN || b == NaN then false
    else if a.Fin? && b.Fin? then a.r < b.r
    else a != b && (a == NegInf || b == PosInf)
  }

  predicate AtMost(a: JsNumber, b: JsNumber) {
    a != NaN && b != NaN && !Less(b, a)
  }

  /** Math.max(0, a) */
  function NoLessThanZero(a: JsNumber): JsNumber {
    if Less(a, ZERO) then ZERO else a
  }

  /** a || b on numbers */
  function Or(a: JsNumber, b: JsNumber): JsNumber {
    if a == ZERO || a == NaN then b else a
  }

  function Per1000(a: JsNumber): JsNumber {
    if a.Fin? then Fin(a.r / 1000.0) else a
  }

  /** Sums of infinities and NaN, as IEEE 754 has them. */
  lemma SumLaws(a: JsNumber, b: JsNumber, x: real)
    ensures Plus(a, b) == Plus(b, a) && Plus(NaN, a) == NaN
    ensures Plus(PosInf, NegInf) == NaN && (Plus(a, a) == NaN <==> a == NaN)
    ensures Plus(PosInf, Fin(x)) == PosInf && Plus(NegInf, Fin(x)) == NegInf
    ensures Minus(a, b) == Negate(Minus(b, a)) && (a.Fin? ==> Minus(a, a) == ZERO)
  {
  }

  lemma OrderLaws(a: JsNumber, b: JsNumber, x: real)
    ensures Less(a, b) <==> Less(Negate(b), Negate(a))
    ensures Less(NegInf, Fin(x)) && Less(Fin(x), PosInf) && Less(NegInf, PosInf) && !Less(a, a) && !Less(a, NaN)
  {
  }

  /** The same for products. */
  lemma ProductLaws(a: JsNumber, b: JsNumber, x: real)
    ensures Times(a, b) == Times(b, a) && Times(NaN, a) == NaN
    ensures Negate(Negate(a)) == a && Times(PosInf, PosInf) == PosInf && Times(PosInf, ZERO) == NaN
    ensures x > 0.0 ==> Times(PosInf, Fin(x)) == PosInf
  {
  }

  lemma ProductSigns(a: JsNumber, b: JsNumber)
    ensures Times(Negate(a), b) == Negate(Times(a, b))
  {
    if a.Fin? && b.Fin? {
      assert -a.r * b.r == -(a.r * b.r);
    }
  }

  /** num() of the row builder and of Langfuse: any number, 0 for everything else. */
  function NumOf(v: Option<Json>): JsNumber {
    if v.Some? && v.value.Num? then v.value.n else ZERO
  }

  /** numField() of the credit reporter: finite numbers and numeric strings, 0 for everything else. */
  function NumField(js: Js, v: Option<Json>): JsNumber {
    match v
    case Some(Num(n)) => if n.Fin? then n else ZERO
    case Some(Str(s)) => if js.toNumber(s).Fin? then js.toNumber(s) else ZERO
    case _ => ZERO
  }

  function Field(usage: Usage, k: Key): Option<Json> {
    if k in usage then Some(usage[k]) else None
  }

  // ---- Upstream and pricing ----

  function LowerUnit(u: CodeUnit): CodeUnit {
    if 65 <= u <= 90 then u + 32 else u
  }

  predicate MatchesAt(url: Text, i: nat, word: Text) {
    i + |word| <= |url| && forall j :: 0 <= j < |word| ==> LowerUnit(url[i + j]) == word[j]
  }

  /** /tokenhub/i */
  predicate IsTokenHub(url: Text) {
    exists i: nat :: i < |url| && MatchesAt(url, i, Lit("tokenhub"))
  }

  datatype Protocol = Anthropic | OpenAi

  /** "/v1/messages" followed by a slash, a question mark or the end. */
  predicate IsMessagesPath(url: Text) {
    exists i: nat :: i < |url| && MatchesAt(url, i, Lit("/v1/messages"))
                     && (i + 12 == |url| || url[i + 12] in {47, 63})
  }

  function DetectUsageProtocol(url: Text): Protocol {
    if IsMessagesPath(url) then Anthropic else OpenAi
  }

  datatype Price = Price(
    input: JsNumber, output: JsNumber, cacheRead: JsNumber, cacheWrite5m: JsNumber, cacheWrite1h: JsNumber)

  datatype Tier = Tier(maxInputTokens: Option<JsNumber>, price: Price)
  datatype Model = Model(name: Text, price: Price, tiers: seq<Tier>)

  function SameLetters(a: Text, b: Text): bool {
    |a| == |b| && forall i :: 0 <= i < |a| ==> LowerUnit(a[i]) == LowerUnit(b[i])
  }

  function FindModel(models: seq<Model>, modelId: Text): Option<Model> {
    if models == [] then None
    else if SameLetters(models[0].name, modelId) then Some(models[0])
    else FindModel(models[1..], modelId)
  }

  function GetModelPricing(config: Option<seq<Model>>, modelId: Text): Option<Model> {
    if config.None? || modelId == [] then None else FindModel(config.value, modelId)
  }

  function TierPrice(tiers: seq<Tier>, totalInput: JsNumber, base: Price): Price {
    if tiers == [] then base
    else if tiers[0].maxInputTokens.None? || AtMost(totalInput, tiers[0].maxInputTokens.value) then tiers[0].price
    else TierPrice(tiers[1..], totalInput, base)
  }

  function ResolveTierPricing(model: Model, totalInput: JsNumber): Price {
    TierPrice(model.tiers, totalInput, model.price)
  }

  // ---- The credit reporter ----

  /** The five token classes a request is billed for. */
  datatype Billed = Billed(
    nonCacheInput: JsNumber, output: JsNumber, cacheRead: JsNumber, cacheWrite5m: JsNumber, cacheWrite1h: JsNumber)
  {
    function Input(): JsNumber {
      Plus(Plus(Plus(nonCacheInput, cacheRead), cacheWrite5m), cacheWrite1h)
    }
  }

  function BilledTokens(js: Js, usage: Usage, protocol: Protocol): Billed {
    var output := Or(NumField(js, Field(usage, CompletionTokensKey)),
                     NumField(js, Field(usage, OutputTokensKey)));
    match protocol
    case Anthropic =>
      var ephemeral5m := NumField(js, GetOpt(Field(usage, CacheCreationKey), "ephemeral_5m_input_tokens"));
      var totalWrite := NumField(js, Field(usage, CacheCreationInputTokensKey));
      Billed(NumField(js, Field(usage, InputTokensKey)), output, NumField(js, Field(usage, CacheReadInputTokensKey)),
             ephemeral5m, NoLessThanZero(Minus(totalWrite, ephemeral5m)))
    case OpenAi =>
      var cacheRead := Or(NumField(js, Field(usage, CacheReadTokensKey)),
                          NumField(js, GetOpt(Field(usage, PromptTokensDetailsKey), "cached_tokens")));
      Billed(NoLessThanZero(Minus(NumField(js, Field(usage, PromptTokensKey)), cacheRead)), output,
             cacheRead, ZERO, ZERO)
  }

  function CreditFor(b: Billed, model: Model): JsNumber {
    var p := ResolveTierPricing(model, Plus(b.nonCacheInput, b.cacheRead));
    Plus(Plus(Plus(Plus(
      Times(Per1000(b.nonCacheInput), p.input),
      Times(Per1000(b.output), p.output)),
      Times(Per1000(b.cacheRead), p.cacheRead)),
      Times(Per1000(b.cacheWrite5m), p.cacheWrite5m)),
      Times(Per1000(b.cacheWrite1h), p.cacheWrite1h))
  }

  function ComputeCreditDelta(js: Js, usage: Option<Usage>, config: Option<seq<Model>>, modelId: Text, url: Text)
    : JsNumber
  {
    if usage.None? || !IsTokenHub(url) then ZERO
    else
      var model := GetModelPricing(config, modelId);
      if model.None? then ZERO
      else CreditFor(BilledTokens(js, usage.value, DetectUsageProtocol(url)), model.value)
  }

  // ---- The usage table ----

  datatype Entry = Entry(
    isUsageEvent: bool, modelId: Text, routedFrom: Text, upstreamUrl: Text, usage: Option<Usage>, pricing: Option<seq<Model>>)

  datatype Row = Row(
    promptTokens: JsNumber, completionTokens: JsNumber, totalTokens: JsNumber, cacheHitTokens: JsNumber,
    cacheWriteTokens: JsNumber, inputTokens: JsNumber, credit: JsNumber, creditSaved: JsNumber)

  function CacheHit(usage: Usage): JsNumber {
    Or(Or(NumOf(Field(usage, PromptCacheHitTokensKey)), NumOf(Field(usage, CacheReadInputTokensKey))),
       NumOf(GetOpt(Field(usage, PromptTokensDetailsKey), "cached_tokens")))
  }

  function CacheWrite(usage: Usage): JsNumber {
    Or(NumOf(Field(usage, PromptCacheWriteTokensKey)), NumOf(Field(usage, CacheCreationInputTokensKey)))
  }

  function PromptTokens(usage: Usage): JsNumber {
    Or(NumOf(Field(usage, PromptTokensKey)),
       Plus(Plus(NumOf(Field(usage, InputTokensKey)), CacheHit(usage)), CacheWrite(usage)))
  }

  function CompletionTokens(usage: Usage): JsNumber {
    Or(NumOf(Field(usage, CompletionTokensKey)), NumOf(Field(usage, OutputTokensKey)))
  }

  function ComputeCreditSaved(js: Js, e: Entry, usage: Usage): JsNumber {
    if !e.isUsageEvent || e.routedFrom == [] then ZERO
    else
      var saved := Minus(ComputeCreditDelta(js, Some(usage), e.pricing, e.routedFrom, e.upstreamUrl),
                         ComputeCreditDelta(js, Some(usage), e.pricing, e.modelId, e.upstreamUrl));
      if Less(ZERO, saved) then saved else ZERO
  }

  /** entry.usage ?? {} */
  function UsageOf(e: Entry): Usage {
    if e.usage.Some? then e.usage.value else map[]
  }

  /** The row of an entry; error records have none. */
  function BuildRow(js: Js, e: Entry): Option<Row> {
    var usage := UsageOf(e);
    if Truthy(Field(usage, ErrorKey)) then None
    else
      Some(Row(PromptTokens(usage), CompletionTokens(usage),
               Or(NumOf(Field(usage, TotalTokensKey)), Plus(PromptTokens(usage), CompletionTokens(usage))),
               CacheHit(usage), CacheWrite(usage), NumOf(Field(usage, InputTokensKey)),
               ComputeCreditDelta(js, Some(usage), e.pricing, e.modelId, e.upstreamUrl),
               ComputeCreditSaved(js, e, usage)))
  }

  predicate IsCreditAnomalous(credit: JsNumber) {
    !credit.Fin? || credit.r < 0.0 || credit.r > 1_000_000.0
  }

  datatype RawReason = NonTokenHub | UnknownModel | InvalidFormat | InvalidCredit

  predicate IsNumber(v: Option<Json>) {
    v.Some? && v.value.Num?
  }

  function GetRawUsageReason(js: Js, e: Entry): Option<RawReason> {
    if e.usage.None? || e.usage.value == map[] then None
    else
      var usage := e.usage.value;
      if !IsTokenHub(e.upstreamUrl) then Some(NonTokenHub)
      else if e.modelId != [] && e.pricing.Some? && GetModelPricing(e.pricing, e.modelId).None? then Some(UnknownModel)
      else if !(IsNumber(Field(usage, InputTokensKey)) || IsNumber(Field(usage, PromptTokensKey)))
              || !(IsNumber(Field(usage, OutputTokensKey)) || IsNumber(Field(usage, CompletionTokensKey)))
      then Some(InvalidFormat)
      else if IsCreditAnomalous(ComputeCreditDelta(js, e.usage, e.pricing, e.modelId, e.upstreamUrl))
      then Some(InvalidCredit)
      else None
  }

  /** What writeClickHouse pushes to the raw buffer and to the main buffer. */
  datatype Written = Written(raw: Option<RawReason>, row: Option<Row>)

  function WriteClickHouse(js: Js, e: Entry, rawTable: bool): Written {
    Written(if rawTable then GetRawUsageReason(js, e) else None, BuildRow(js, e))
  }

  // ---- Langfuse ----

  function IfPositive(n: JsNumber): Option<JsNumber> {
    if Less(ZERO, n) then Some(n) else None
  }

  function OrZero(n: Option<JsNumber>): JsNumber {
    if n.Some? then n.value else ZERO
  }

  datatype UsageDetails = UsageDetails(
    input: JsNumber, output: JsNumber, total: JsNumber, cacheRead: Option<JsNumber>, cacheWrite: Option<JsNumber>)
  {
    /** The sum of the parts that are present. */
    function Parts(): JsNumber {
      Plus(Plus(Plus(input, OrZero(cacheRead)), OrZero(cacheWrite)), output)
    }
  }

  function NormalizeUsageDetails(usage: Usage): UsageDetails {
    var cacheRead := Or(Or(NumOf(Field(usage, PromptCacheHitTokensKey)), NumOf(Field(usage, CacheReadInputTokensKey))),
                        NumOf(GetOpt(Field(usage, PromptTokensDetailsKey), "cached_tokens")));
    var cacheWrite := Or(NumOf(Field(usage, PromptCacheWriteTokensKey)),
                         NumOf(Field(usage, CacheCreationInputTokensKey)));
    var promptTokens := Or(NumOf(Field(usage, PromptTokensKey)),
                           Plus(Plus(NumOf(Field(usage, InputTokensKey)), cacheRead), cacheWrite));
    var outputTokens := Or(NumOf(Field(usage, CompletionTokensKey)), NumOf(Field(usage, OutputTokensKey)));
    UsageDetails(NoLessThanZero(Minus(Minus(promptTokens, cacheRead), cacheWrite)), outputTokens,
                 Or(NumOf(Field(usage, TotalTokensKey)), Plus(promptTokens, outputTokens)),
                 IfPositive(cacheRead), IfPositive(cacheWrite))
  }

  // ---- The readings agree ----

  /** Absent, or a number that is finite. */
  predicate IsReading(v: Option<Json>) {
    v.None? || (v.value.Num? && v.value.n.Fin?)
  }

  /** The count of a property, zero when absent. */
  function CountOf(v: Option<Json>): real {
    if v.Some? && v.value.Num? && v.value.n.Fin? then v.value.n.r else 0.0
  }

  function CachedTokens(u: Usage): Option<Json> {
    GetOpt(Field(u, PromptTokensDetailsKey), "cached_tokens")
  }

  function FiveMinuteWrites(u: Usage): Option<Json> {
    GetOpt(Field(u, CacheCreationKey), "ephemeral_5m_input_tokens")
  }

  /** Native Anthropic form: none of the other dialect's counts, every count that is read a number or absent. */
  predicate AnthropicForm(u: Usage) {
    && Field(u, PromptTokensKey).None? && Field(u, CompletionTokensKey).None? && CachedTokens(u).None?
    && Field(u, PromptCacheHitTokensKey).None? && Field(u, PromptCacheWriteTokensKey).None?
    && IsReading(Field(u, InputTokensKey)) && IsReading(Field(u, OutputTokensKey))
    && IsReading(Field(u, CacheReadInputTokensKey)) && IsReading(Field(u, CacheCreationInputTokensKey))
    && IsReading(FiveMinuteWrites(u))
  }

  /** Native OpenAI form, with the cached tokens in the details, beside the prompt, or both. */
  predicate OpenAiForm(u: Usage) {
    && Field(u, InputTokensKey).None? && Field(u, OutputTokensKey).None?
    && Field(u, CacheReadInputTokensKey).None? && Field(u, CacheCreationInputTokensKey).None?
    && Field(u, PromptCacheHitTokensKey).None? && Field(u, PromptCacheWriteTokensKey).None?
    && IsReading(Field(u, PromptTokensKey)) && IsReading(Field(u, CompletionTokensKey))
    && IsReading(Field(u, CacheReadTokensKey)) && IsReading(CachedTokens(u))
  }

  /** The cached tokens the reporter bills: those beside the prompt, or else those of the details. */
  function BilledCache(u: Usage): real {
    var beside := CountOf(Field(u, CacheReadTokensKey));
    if beside != 0.0 then beside else CountOf(CachedTokens(u))
  }

  lemma ReadingsOf(js: Js, v: Option<Json>)
    requires IsReading(v)
    ensures NumField(js, v) == NumOf(v) == Fin(CountOf(v))
  {
  }

  lemma OrZeroFirst(x: real)
    ensures Or(ZERO, Fin(x)) == Fin(x) && Or(Fin(x), ZERO) == Fin(x)
  {
  }

  /** What the reporter reads from a usage object in Anthropic form. */
  lemma AnthropicBilled(js: Js, u: Usage)
    requires AnthropicForm(u)
    ensures BilledTokens(js, u, Anthropic)
         == Billed(Fin(CountOf(Field(u, InputTokensKey))), Fin(CountOf(Field(u, OutputTokensKey))),
                   Fin(CountOf(Field(u, CacheReadInputTokensKey))), Fin(CountOf(FiveMinuteWrites(u))),
                   NoLessThanZero(Fin(CountOf(Field(u, CacheCreationInputTokensKey)) - CountOf(FiveMinuteWrites(u)))))
  {
    ReadingsOf(js, Field(u, InputTokensKey));
    ReadingsOf(js, Field(u, OutputTokensKey));
    ReadingsOf(js, Field(u, CacheReadInputTokensKey));
    ReadingsOf(js, Field(u, CacheCreationInputTokensKey));
    ReadingsOf(js, FiveMinuteWrites(u));
    OrZeroFirst(CountOf(Field(u, OutputTokensKey)));
  }

  /** What the row reads from one. */
  lemma AnthropicRow(js: Js, u: Usage)
    requires AnthropicForm(u)
    ensures CacheHit(u) == Fin(CountOf(Field(u, CacheReadInputTokensKey)))
    ensures CacheWrite(u) == Fin(CountOf(Field(u, CacheCreationInputTokensKey)))
    ensures PromptTokens(u) == Fin(CountOf(Field(u, InputTokensKey)) + CountOf(Field(u, CacheReadInputTokensKey))
                                   + CountOf(Field(u, CacheCreationInputTokensKey)))
    ensures CompletionTokens(u) == Fin(CountOf(Field(u, OutputTokensKey)))
  {
    ReadingsOf(js, Field(u, InputTokensKey));
    ReadingsOf(js, Field(u, OutputTokensKey));
    ReadingsOf(js, Field(u, CacheReadInputTokensKey));
    ReadingsOf(js, Field(u, CacheCreationInputTokensKey));
    OrZeroFirst(CountOf(Field(u, CacheReadInputTokensKey)));
    OrZeroFirst(CountOf(Field(u, CacheCreationInputTokensKey)));
  }

  /** What the reporter reads from a usage object in OpenAI form. */
  lemma OpenAiBilled(js: Js, u: Usage)
    requires OpenAiForm(u)
    ensures BilledTokens(js, u, OpenAi)
         == Billed(NoLessThanZero(Fin(CountOf(Field(u, PromptTokensKey)) - BilledCache(u))),
                   Fin(CountOf(Field(u, CompletionTokensKey))), Fin(BilledCache(u)), ZERO, ZERO)
  {
    ReadingsOf(js, Field(u, PromptTokensKey));
    ReadingsOf(js, Field(u, CompletionTokensKey));
    ReadingsOf(js, Field(u, CacheReadTokensKey));
    ReadingsOf(js, CachedTokens(u));
    OrZeroFirst(CountOf(Field(u, CompletionTokensKey)));
  }

  /** What the row reads from one: without a prompt count it takes the cached tokens for the prompt. */
  lemma OpenAiRow(js: Js, u: Usage)
    requires OpenAiForm(u)
    ensures PromptTokens(u)
         == Fin(if CountOf(Field(u, PromptTokensKey)) != 0.0 then CountOf(Field(u, PromptTokensKey))
                else CountOf(CachedTokens(u)))
    ensures CompletionTokens(u) == Fin(CountOf(Field(u, CompletionTokensKey)))
  {
    ReadingsOf(js, Field(u, PromptTokensKey));
    ReadingsOf(js, Field(u, CompletionTokensKey));
    ReadingsOf(js, CachedTokens(u));
    OrZeroFirst(CountOf(CachedTokens(u)));
    OrZeroFirst(CountOf(Field(u, CompletionTokensKey)));
  }

  lemma AnthropicSum(input: real, output: real, read: real, write: real, write5m: real)
    ensures (Billed(Fin(input), Fin(output), Fin(read), Fin(write5m), NoLessThanZero(Fin(write - write5m))).Input()
             == Fin(input + read + write))
       <==> write5m <= write
  {
  }

  /**
   * For every usage object in Anthropic form the four billed input classes sum to the row's prompt tokens exactly
   * when the 5-minute writes are part of all writes.
   */
  lemma AnthropicInputIsPrompt(js: Js, u: Usage)
    requires AnthropicForm(u)
    ensures (BilledTokens(js, u, Anthropic).Input() == PromptTokens(u))
       <==> CountOf(FiveMinuteWrites(u)) <= CountOf(Field(u, CacheCreationInputTokensKey))
  {
    AnthropicBilled(js, u);
    AnthropicRow(js, u);
    AnthropicSum(CountOf(Field(u, InputTokensKey)), CountOf(Field(u, OutputTokensKey)),
                 CountOf(Field(u, CacheReadInputTokensKey)), CountOf(Field(u, CacheCreationInputTokensKey)),
                 CountOf(FiveMinuteWrites(u)));
  }

  function Larger0(x: real): real {
    if x < 0.0 then 0.0 else x
  }

  lemma OpenAiSum(prompt: real, output: real, cache: real)
    ensures Billed(NoLessThanZero(Fin(prompt - cache)), Fin(output), Fin(cache), ZERO, ZERO).Input()
         == Fin(Larger0(prompt - cache) + cache)
  {
  }

  /**
   * For every usage object in OpenAI form the billed input sums to the row's prompt tokens exactly when the cached
   * tokens billed are part of the prompt; where there is no prompt count, when they are those of the details.
   */
  lemma OpenAiInputIsPrompt(js: Js, u: Usage)
    requires OpenAiForm(u)
    ensures (BilledTokens(js, u, OpenAi).Input() == PromptTokens(u))
       <==> var prompt := CountOf(Field(u, PromptTokensKey));
            if prompt != 0.0 then BilledCache(u) <= prompt else Larger0(BilledCache(u)) == CountOf(CachedTokens(u))
  {
    OpenAiBilled(js, u);
    OpenAiRow(js, u);
    OpenAiSum(CountOf(Field(u, PromptTokensKey)), CountOf(Field(u, CompletionTokensKey)), BilledCache(u));
  }

  /** What else the row holds: the input count as given, and the total as given or else the sum; an error has no row. */
  lemma RowReads(js: Js, e: Entry)
    ensures BuildRow(js, e).None? <==> ErrorKey in UsageOf(e) && Truthy(Some(UsageOf(e)[ErrorKey]))
    ensures BuildRow(js, e).Some? ==>
              var row, u := BuildRow(js, e).value, UsageOf(e);
              && row.inputTokens == (if InputTokensKey in u && u[InputTokensKey].Num? then u[InputTokensKey].n else ZERO)
              && (forall x | TotalTokensKey in u && u[TotalTokensKey] == Num(Fin(x)) && x != 0.0 ::
                    row.totalTokens == Fin(x))
              && (TotalTokensKey !in u ==> row.totalTokens == Plus(row.promptTokens, row.completionTokens))
              && row.promptTokens == PromptTokens(u) && row.completionTokens == CompletionTokens(u)
              && row.cacheHitTokens == CacheHit(u) && row.cacheWriteTokens == CacheWrite(u)
    ensures WriteClickHouse(js, e, false) == Written(None, BuildRow(js, e))
  {
  }

  /** A usage in both forms at once: the completion count is the output for the row and for the bill, if it is not 0. */
  lemma CompletionFirst(js: Js, u: Usage, protocol: Protocol, x: real, y: real)
    requires CompletionTokensKey in u ==> u[CompletionTokensKey] == Num(Fin(x))
    requires CompletionTokensKey !in u ==> x == 0.0
    requires OutputTokensKey in u && u[OutputTokensKey] == Num(Fin(y))
    ensures CompletionTokens(u) == BilledTokens(js, u, protocol).output == Fin(if x != 0.0 then x else y)
  {
  }

  /** A count that upstream sends as a numeric text is billed, while the row shows none; any other text counts for 0. */
  lemma TextCounts(js: Js, s: Text)
    ensures var u: Usage := map[InputTokensKey := Str(s)];
            && PromptTokens(u) == ZERO
            && BilledTokens(js, u, Anthropic).nonCacheInput == if js.toNumber(s).Fin? then js.toNumber(s) else ZERO
  {
  }

  predicate IsCount(n: JsNumber) {
    n.Fin? && n.r >= 0.0
  }

  predicate CountsOnly(row: Row) {
    && IsCount(row.promptTokens) && IsCount(row.completionTokens)
    && IsCount(row.cacheHitTokens) && IsCount(row.cacheWriteTokens)
  }

  /**
   * For every usage object Langfuse is sent the row's total and output, the row's cache counts when positive, and as
   * input the row's prompt without its cached tokens.
   */
  lemma LangfuseReadsTheRow(js: Js, e: Entry)
    ensures BuildRow(js, e).Some? ==>
              var row := BuildRow(js, e).value;
              NormalizeUsageDetails(UsageOf(e)) == DetailsOf(row)
    ensures var sent, u := NormalizeUsageDetails(UsageOf(e)), UsageOf(e);
            && sent.cacheRead == (if Less(ZERO, CacheHit(u)) then Some(CacheHit(u)) else None)
            && sent.cacheWrite == (if Less(ZERO, CacheWrite(u)) then Some(CacheWrite(u)) else None)
  {
  }

  function DetailsOf(row: Row): UsageDetails {
    UsageDetails(NoLessThanZero(Minus(Minus(row.promptTokens, row.cacheHitTokens), row.cacheWriteTokens)),
                 row.completionTokens, row.totalTokens,
                 IfPositive(row.cacheHitTokens), IfPositive(row.cacheWriteTokens))
  }

  lemma PartOrZero(n: JsNumber)
    requires IsCount(n)
    ensures OrZero(IfPositive(n)) == n
  {
  }

  lemma FourParts(a: real, b: real, c: real, d: real)
    ensures Plus(Plus(Plus(Fin(a), Fin(b)), Fin(c)), Fin(d)) == Fin(a + b + c + d)
  {
  }

  lemma Uncached(prompt: real, read: real, write: real)
    ensures NoLessThanZero(Minus(Minus(Fin(prompt), Fin(read)), Fin(write)))
            == Fin(if prompt < read + write then 0.0 else prompt - read - write)
  {
  }

  lemma PartsOfRow(row: Row)
    requires CountsOnly(row)
    ensures (DetailsOf(row).Parts() == Plus(row.promptTokens, row.completionTokens))
       <==> row.cacheHitTokens.r + row.cacheWriteTokens.r <= row.promptTokens.r
  {
    var prompt, read, write, output :=
      row.promptTokens.r, row.cacheHitTokens.r, row.cacheWriteTokens.r, row.completionTokens.r;
    PartOrZero(Fin(read));
    PartOrZero(Fin(write));
    Uncached(prompt, read, write);
    FourParts(if prompt < read + write then 0.0 else prompt - read - write, read, write, output);
  }

  predicate GivesNoTotal(usage: Usage) {
    var total := NumOf(Field(usage, TotalTokensKey));
    total == ZERO || total == NaN
  }

  /**
   * Where upstream gives no total and the counts are counts, the parts sent to Langfuse sum to the row's total
   * exactly when the cached tokens do not exceed the prompt.
   */
  lemma LangfusePartsSumToTotal(js: Js, e: Entry)
    requires GivesNoTotal(UsageOf(e))
    ensures BuildRow(js, e).Some? && CountsOnly(BuildRow(js, e).value) ==>
              var row := BuildRow(js, e).value;
              (NormalizeUsageDetails(UsageOf(e)).Parts() == row.totalTokens)
              <==> row.cacheHitTokens.r + row.cacheWriteTokens.r <= row.promptTokens.r
  {
    if BuildRow(js, e).Some? && CountsOnly(BuildRow(js, e).value) {
      LangfuseReadsTheRow(js, e);
      PartsOfRow(BuildRow(js, e).value);
    }
  }

  /** The two usage objects, one in each form, report the same counts and no cache writes. */
  predicate SameCounts(a: Usage, o: Usage) {
    && CountOf(Field(a, InputTokensKey)) + CountOf(Field(a, CacheReadInputTokensKey)) == CountOf(Field(o, PromptTokensKey))
    && CountOf(Field(a, OutputTokensKey)) == CountOf(Field(o, CompletionTokensKey))
    && CountOf(Field(a, CacheReadInputTokensKey)) == BilledCache(o)
    && CountOf(Field(a, CacheCreationInputTokensKey)) == 0.0 && CountOf(FiveMinuteWrites(a)) == 0.0
  }

  lemma SameBilled(js: Js, a: Usage, o: Usage)
    requires AnthropicForm(a) && OpenAiForm(o) && SameCounts(a, o)
    requires CountOf(Field(a, InputTokensKey)) >= 0.0
    ensures BilledTokens(js, a, Anthropic) == BilledTokens(js, o, OpenAi)
  {
    AnthropicBilled(js, a);
    OpenAiBilled(js, o);
    var input := CountOf(Field(a, InputTokensKey));
    assert CountOf(Field(o, PromptTokensKey)) - BilledCache(o) == input;
  }

  // ---- Which URLs speak which dialect ----

  const MESSAGES: Text := Lit("/v1/messages")
  const CHAT: Text := Lit("/v1/chat/completions")
  const ADMIN: Text := Lit("/v1/messages_admin")

  /** The URL holds this word, in any letter case, and what follows it passes the test. */
  ghost predicate Contains(url: Text, word: Text, after: Text -> bool) {
    exists pre: Text, w: Text, post: Text :: url == pre + w + post && SameLetters(w, word) && after(post)
  }

  /** Lower case letters only, as the source writes its patterns. */
  predicate LowerCase(word: Text) {
    forall i :: 0 <= i < |word| ==> LowerUnit(word[i]) == word[i]
  }

  /** Two units count as the same letter exactly when they are equal or the two cases of one ASCII letter. */
  lemma SameLetterIff(a: CodeUnit, b: CodeUnit)
    ensures LowerUnit(a) == LowerUnit(b)
       <==> a == b || ('A' as int <= a <= 'Z' as int && b == a + 32) || ('A' as int <= b <= 'Z' as int && a == b + 32)
  {
  }

  lemma MatchesIff(url: Text, i: nat, word: Text)
    requires LowerCase(word)
    ensures MatchesAt(url, i, word) <==> i + |word| <= |url| && SameLetters(url[i..i + |word|], word)
  {
    if i + |word| <= |url| {
      var cut := url[i..i + |word|];
      assert forall j :: 0 <= j < |word| ==> cut[j] == url[i + j];
    }
  }

  lemma WordAt(url: Text, i: nat, word: Text, pre: Text, w: Text, post: Text)
    requires LowerCase(word) && url == pre + w + post && |pre| == i && SameLetters(w, word)
    ensures MatchesAt(url, i, word) && url[i + |word|..] == post
  {
    assert forall j :: 0 <= j < |word| ==> url[i + j] == w[j];
  }

  lemma MatchIsContained(url: Text, i: nat, word: Text, after: Text -> bool)
    requires LowerCase(word) && MatchesAt(url, i, word) && after(url[i + |word|..])
    ensures Contains(url, word, after)
  {
    var pre, w, post := url[..i], url[i..i + |word|], url[i + |word|..];
    MatchesIff(url, i, word);
    assert url == pre + w + post && SameLetters(w, word) && after(post);
  }

  lemma ContainedMatches(url: Text, word: Text, after: Text -> bool) returns (i: nat)
    requires LowerCase(word) && Contains(url, word, after)
    ensures MatchesAt(url, i, word) && after(url[i + |word|..])
  {
    var pre: Text, w: Text, post: Text :| url == pre + w + post && SameLetters(w, word) && after(post);
    WordAt(url, |pre|, word, pre, w, post);
    i := |pre|;
  }

  lemma ContainsIff(url: Text, word: Text, after: Text -> bool)
    requires LowerCase(word)
    ensures Contains(url, word, after)
       <==> exists i: nat :: MatchesAt(url, i, word) && after(url[i + |word|..])
  {
    if Contains(url, word, after) {
      var i := ContainedMatches(url, word, after);
    } else if exists i: nat :: MatchesAt(url, i, word) && after(url[i + |word|..]) {
      var i: nat :| MatchesAt(url, i, word) && after(url[i + |word|..]);
      MatchIsContained(url, i, word, after);
    }
  }

  /** A slash, a question mark or nothing more. */
  predicate PathEnds(post: Text) {
    post == [] || post[0] == 47 || post[0] == 63
  }

  /** A URL is Anthropic's exactly when it holds "/v1/messages" before a slash, a question mark or its end. */
  lemma AnthropicUrlIff(url: Text)
    ensures DetectUsageProtocol(url) == Anthropic <==> Contains(url, MESSAGES, PathEnds)
  {
    ContainsIff(url, MESSAGES, PathEnds);
    forall i: nat | MatchesAt(url, i, MESSAGES)
      ensures PathEnds(url[i + 12..]) <==> i + 12 == |url| || url[i + 12] in {47, 63}
    {
    }
  }

  /** An upstream is TokenHub exactly when its URL holds that word. */
  lemma TokenHubIff(url: Text)
    ensures IsTokenHub(url) <==> Contains(url, Lit("tokenhub"), _ => true)
  {
    ContainsIff(url, Lit("tokenhub"), _ => true);
  }

  /** Whatever stands before it, in whatever letter case, the messages endpoint is Anthropic's. */
  lemma MessagesUrl(base: Text, w: Text, post: Text)
    requires SameLetters(w, MESSAGES) && PathEnds(post)
    ensures DetectUsageProtocol(base + w + post) == Anthropic
  {
    AnthropicUrlIff(base + w + post);
  }

  /** Two of the letters of a match; the only slashes are the first and the fourth. */
  lemma Letters(url: Text, i: nat)
    requires MatchesAt(url, i, MESSAGES)
    ensures i + 12 <= |url| && LowerUnit(url[i]) == 47 && LowerUnit(url[i + 4]) == 109
    ensures forall k :: i <= k < i + 12 && url[k] == 47 ==> k == i || k == i + 3
  {
    forall k | i <= k < i + 12 && url[k] == 47
      ensures k == i || k == i + 3
    {
      assert LowerUnit(url[i + (k - i)]) == MESSAGES[k - i];
    }
    assert LowerUnit(url[i + 0]) == MESSAGES[0] && LowerUnit(url[i + 4]) == MESSAGES[4];
  }

  lemma NoOverlap(base: Text, path: Text, i: nat)
    requires |path| > 1 && path[0] == 47 && path[1] == 118
    requires MatchesAt(base + path, i, MESSAGES) && i < |base|
    ensures i + 12 <= |base|
  {
    var url := base + path;
    assert url[|base|] == 47 && url[|base| + 1] == 118;
    Letters(url, i);
  }

  lemma MatchesAhead(base: Text, path: Text, k: nat)
    ensures MatchesAt(base + path, |base| + k, MESSAGES) <==> MatchesAt(path, k, MESSAGES)
  {
    assert (base + path)[|base|..] == path;
  }

  /** A path that is no messages endpoint itself leaves the dialect of what stands before it. */
  lemma PathKeepsDialect(base: Text, path: Text)
    requires |path| > 1 && path[0] == 47 && path[1] == 118 && !IsMessagesPath(path)
    ensures DetectUsageProtocol(base + path) == DetectUsageProtocol(base)
  {
    var url := base + path;
    if IsMessagesPath(base) {
      var i: nat :| i < |base| && MatchesAt(base, i, MESSAGES)
                    && (i + 12 == |base| || base[i + 12] in {47, 63});
      assert MatchesAt(url, i, MESSAGES);
      assert url[i + 12] in {47, 63};
    }
    if IsMessagesPath(url) {
      var i: nat :| i < |url| && MatchesAt(url, i, MESSAGES) && (i + 12 == |url| || url[i + 12] in {47, 63});
      if i < |base| {
        NoOverlap(base, path, i);
        assert MatchesAt(base, i, MESSAGES);
      } else {
        MatchesAhead(base, path, i - |base|);
      }
    }
  }

  /** The chat endpoint, and one that only starts like the messages endpoint, are not Anthropic's. */
  lemma OtherPaths(base: Text)
    ensures DetectUsageProtocol(base + CHAT) == DetectUsageProtocol(base)
    ensures DetectUsageProtocol(base + ADMIN) == DetectUsageProtocol(base)
    ensures DetectUsageProtocol([]) == OpenAi
  {
    NoChatMatch();
    PathKeepsDialect(base, CHAT);
    NoAdminMatch();
    PathKeepsDialect(base, ADMIN);
  }

  lemma NoChatMatch()
    ensures !IsMessagesPath(CHAT)
  {
    forall i: nat | i < |CHAT|
      ensures !MatchesAt(CHAT, i, MESSAGES)
    {
      if MatchesAt(CHAT, i, MESSAGES) {
        Letters(CHAT, i);
      }
    }
  }

  lemma NoAdminMatch()
    ensures !IsMessagesPath(ADMIN)
  {
    forall i: nat | i < |ADMIN| && MatchesAt(ADMIN, i, MESSAGES)
      ensures i == 0
    {
      Letters(ADMIN, i);
    }
    assert ADMIN[12] == 95;
  }

  lemma TokenHubGrows(base: Text, more: Text)
    requires IsTokenHub(base)
    ensures IsTokenHub(base + more)
  {
    var i: nat :| i < |base| && MatchesAt(base, i, Lit("tokenhub"));
    assert MatchesAt(base + more, i, Lit("tokenhub"));
  }

  /**
   * Through one TokenHub base URL the same counts without cache writes cost the same at the messages endpoint and at
   * the chat endpoint, whatever the prices and tiers.
   */
  lemma DialectsCostTheSame(js: Js, config: Option<seq<Model>>, modelId: Text, base: Text, a: Usage, o: Usage)
    requires AnthropicForm(a) && OpenAiForm(o) && SameCounts(a, o)
    requires CountOf(Field(a, InputTokensKey)) >= 0.0
    requires Contains(base, Lit("tokenhub"), _ => true) && !Contains(base, MESSAGES, PathEnds)
    ensures ComputeCreditDelta(js, Some(a), config, modelId, base + MESSAGES)
         == ComputeCreditDelta(js, Some(o), config, modelId, base + CHAT)
  {
    TokenHubIff(base);
    AnthropicUrlIff(base);
    TokenHubGrows(base, MESSAGES);
    TokenHubGrows(base, CHAT);
    MessagesUrl(base, MESSAGES, []);
    assert base + MESSAGES + [] == base + MESSAGES;
    OtherPaths(base);
    SameBilled(js, a, o);
  }

  // ---- What a token costs ----

  predicate Fits(t: Tier, totalInput: JsNumber) {
    t.maxInputTokens.None? || AtMost(totalInput, t.maxInputTokens.value)
  }

  /** One tier prices the whole request: the first that fits its input, the model's own price when none does. */
  lemma {:induction false} FirstFittingTier(tiers: seq<Tier>, totalInput: JsNumber, base: Price)
    ensures (forall i :: 0 <= i < |tiers| ==> !Fits(tiers[i], totalInput)) ==> TierPrice(tiers, totalInput, base) == base
    ensures forall i :: 0 <= i < |tiers| && Fits(tiers[i], totalInput)
                        && (forall j :: 0 <= j < i ==> !Fits(tiers[j], totalInput)) ==>
              TierPrice(tiers, totalInput, base) == tiers[i].price
  {
    if tiers != [] {
      FirstFittingTier(tiers[1..], totalInput, base);
      forall i | 0 <= i < |tiers| && Fits(tiers[i], totalInput) && forall j :: 0 <= j < i ==> !Fits(tiers[j], totalInput)
        ensures TierPrice(tiers, totalInput, base) == tiers[i].price
      {
        if i > 0 {
          assert forall j :: 0 <= j < i - 1 ==> tiers[1..][j] == tiers[j + 1];
          assert tiers[1..][i - 1] == tiers[i];
        }
      }
      if forall i :: 0 <= i < |tiers| ==> !Fits(tiers[i], totalInput) {
        assert forall i :: 0 <= i < |tiers| - 1 ==> tiers[1..][i] == tiers[i + 1];
      }
    }
  }

  /** Credit for counts that are numbers, under one price of numbers. */
  function Cost(nonCache: real, output: real, read: real, write5m: real, write1h: real, p: Price): real
    requires AllFinite(p)
  {
    nonCache / 1000.0 * p.input.r + output / 1000.0 * p.output.r + read / 1000.0 * p.cacheRead.r
    + write5m / 1000.0 * p.cacheWrite5m.r + write1h / 1000.0 * p.cacheWrite1h.r
  }

  lemma CreditIsCost(a: real, b: real, c: real, d: real, e: real, model: Model)
    requires AllFinite(ResolveTierPricing(model, Fin(a + c)))
    ensures CreditFor(Billed(Fin(a), Fin(b), Fin(c), Fin(d), Fin(e)), model)
            == Fin(Cost(a, b, c, d, e, ResolveTierPricing(model, Fin(a + c))))
  {
  }

  /** Each class of tokens is billed per thousand at its own price. */
  lemma EachClassAtItsPrice(n: real, name: Text, p: Price)
    requires AllFinite(p)
    ensures var model := Model(name, p, []);
            && CreditFor(Billed(Fin(n), ZERO, ZERO, ZERO, ZERO), model) == Fin(n / 1000.0 * p.input.r)
            && CreditFor(Billed(ZERO, Fin(n), ZERO, ZERO, ZERO), model) == Fin(n / 1000.0 * p.output.r)
            && CreditFor(Billed(ZERO, ZERO, Fin(n), ZERO, ZERO), model) == Fin(n / 1000.0 * p.cacheRead.r)
            && CreditFor(Billed(ZERO, ZERO, ZERO, Fin(n), ZERO), model) == Fin(n / 1000.0 * p.cacheWrite5m.r)
            && CreditFor(Billed(ZERO, ZERO, ZERO, ZERO, Fin(n)), model) == Fin(n / 1000.0 * p.cacheWrite1h.r)
  {
    var model := Model(name, p, []);
    CreditIsCost(n, 0.0, 0.0, 0.0, 0.0, model);
    CreditIsCost(0.0, n, 0.0, 0.0, 0.0, model);
    CreditIsCost(0.0, 0.0, n, 0.0, 0.0, model);
    CreditIsCost(0.0, 0.0, 0.0, n, 0.0, model);
    CreditIsCost(0.0, 0.0, 0.0, 0.0, n, model);
  }

  lemma ProductAdds(n: real, m: real, p: real)
    ensures (n + m) / 1000.0 * p == n / 1000.0 * p + m / 1000.0 * p
  {
  }

  /** The tokens of two requests in one. */
  function Both(s: Tokens, t: Tokens): Tokens {
    Tokens(s.nonCache + t.nonCache, s.output + t.output, s.read + t.read, s.write5m + t.write5m, s.write1h + t.write1h)
  }

  function CostOf(t: Tokens, p: Price): real
    requires AllFinite(p)
  {
    Cost(t.nonCache, t.output, t.read, t.write5m, t.write1h, p)
  }

  lemma CostAdds(s: Tokens, t: Tokens, p: Price)
    requires AllFinite(p)
    ensures CostOf(Both(s, t), p) == CostOf(s, p) + CostOf(t, p)
  {
    ProductAdds(s.nonCache, t.nonCache, p.input.r);
    ProductAdds(s.output, t.output, p.output.r);
    ProductAdds(s.read, t.read, p.cacheRead.r);
    ProductAdds(s.write5m, t.write5m, p.cacheWrite5m.r);
    ProductAdds(s.write1h, t.write1h, p.cacheWrite1h.r);
  }

  lemma CreditOf(t: Tokens, model: Model, p: Price)
    requires AllFinite(p) && ResolveTierPricing(model, Fin(t.nonCache + t.read)) == p
    ensures CreditFor(t.AsBilled(), model) == Fin(CostOf(t, p))
  {
    CreditIsCost(t.nonCache, t.output, t.read, t.write5m, t.write1h, model);
  }

  /** Two requests and the one that joins them cost the same when all three are priced by the same tier. */
  lemma JoinedCostsTheSame(s: Tokens, t: Tokens, model: Model, p: Price)
    requires AllFinite(p)
    requires forall x | x in {s, t, Both(s, t)} :: ResolveTierPricing(model, Fin(x.nonCache + x.read)) == p
    ensures CreditFor(Both(s, t).AsBilled(), model)
         == Plus(CreditFor(s.AsBilled(), model), CreditFor(t.AsBilled(), model))
  {
    CreditOf(s, model, p);
    CreditOf(t, model, p);
    CreditOf(Both(s, t), model, p);
    CostAdds(s, t, p);
  }

  // ---- More tokens never cost less ----

  predicate AtMostPrice(p: Price, q: Price) {
    && AllFinite(p) && AllFinite(q)
    && 0.0 <= p.input.r <= q.input.r && 0.0 <= p.output.r <= q.output.r && 0.0 <= p.cacheRead.r <= q.cacheRead.r
    && 0.0 <= p.cacheWrite5m.r <= q.cacheWrite5m.r && 0.0 <= p.cacheWrite1h.r <= q.cacheWrite1h.r
  }

  /** No tier is dearer than a later one, nor than the model's own price, to which a request falls back. */
  ghost predicate Rising(tiers: seq<Tier>, base: Price) {
    && (forall i, j :: 0 <= i <= j < |tiers| ==> AtMostPrice(tiers[i].price, tiers[j].price))
    && (forall i :: 0 <= i < |tiers| ==> AtMostPrice(tiers[i].price, base))
    && AtMostPrice(base, base)
  }

  lemma RisingRest(tiers: seq<Tier>, base: Price)
    requires Rising(tiers, base) && tiers != []
    ensures Rising(tiers[1..], base)
  {
    assert forall i :: 0 <= i < |tiers| - 1 ==> tiers[1..][i] == tiers[i + 1];
  }

  /** A tier's price is at most the price of any request that does not fit it. */
  lemma {:induction false} NotDearer(tiers: seq<Tier>, first: Price, totalInput: JsNumber, base: Price)
    requires Rising(tiers, base) && AtMostPrice(first, base)
    requires forall i :: 0 <= i < |tiers| ==> AtMostPrice(first, tiers[i].price)
    ensures AtMostPrice(first, TierPrice(tiers, totalInput, base))
  {
    if tiers != [] && !Fits(tiers[0], totalInput) {
      RisingRest(tiers, base);
      NotDearer(tiers[1..], first, totalInput, base);
    }
  }

  /** A longer input never gets a cheaper tier. */
  lemma {:induction false} TierRises(tiers: seq<Tier>, a: real, b: real, base: Price)
    requires Rising(tiers, base) && a <= b
    ensures AtMostPrice(TierPrice(tiers, Fin(a), base), TierPrice(tiers, Fin(b), base))
  {
    if tiers != [] {
      RisingRest(tiers, base);
      if Fits(tiers[0], Fin(a)) {
        NotDearer(tiers, tiers[0].price, Fin(b), base);
      } else {
        TierRises(tiers[1..], a, b, base);
      }
    }
  }

  lemma ProductRises(n: real, m: real, p: real, q: real)
    requires 0.0 <= n <= m && 0.0 <= p <= q
    ensures n / 1000.0 * p <= m / 1000.0 * q
  {
    assert n / 1000.0 * p <= m / 1000.0 * p;
    assert m / 1000.0 * p <= m / 1000.0 * q;
  }

  datatype Tokens = Tokens(nonCache: real, output: real, read: real, write5m: real, write1h: real)
  {
    function AsBilled(): Billed {
      Billed(Fin(nonCache), Fin(output), Fin(read), Fin(write5m), Fin(write1h))
    }
  }

  predicate AtMostTokens(s: Tokens, t: Tokens) {
    && 0.0 <= s.nonCache <= t.nonCache && 0.0 <= s.output <= t.output && 0.0 <= s.read <= t.read
    && 0.0 <= s.write5m <= t.write5m && 0.0 <= s.write1h <= t.write1h
  }

  lemma CostRises(s: Tokens, t: Tokens, p: Price, q: Price)
    requires AtMostTokens(s, t) && AtMostPrice(p, q)
    ensures Cost(s.nonCache, s.output, s.read, s.write5m, s.write1h, p)
         <= Cost(t.nonCache, t.output, t.read, t.write5m, t.write1h, q)
  {
    ProductRises(s.nonCache, t.nonCache, p.input.r, q.input.r);
    ProductRises(s.output, t.output, p.output.r, q.output.r);
    ProductRises(s.read, t.read, p.cacheRead.r, q.cacheRead.r);
    ProductRises(s.write5m, t.write5m, p.cacheWrite5m.r, q.cacheWrite5m.r);
    ProductRises(s.write1h, t.write1h, p.cacheWrite1h.r, q.cacheWrite1h.r);
  }

  /** With tiers whose prices never fall, a request with more tokens of any class never costs less. */
  lemma MoreTokensNeverCostLess(s: Tokens, t: Tokens, model: Model)
    requires AtMostTokens(s, t) && Rising(model.tiers, model.price)
    ensures AtMost(CreditFor(s.AsBilled(), model), CreditFor(t.AsBilled(), model))
  {
    var p := ResolveTierPricing(model, Fin(s.nonCache + s.read));
    var q := ResolveTierPricing(model, Fin(t.nonCache + t.read));
    TierRises(model.tiers, s.nonCache + s.read, t.nonCache + t.read, model.price);
    CreditIsCost(s.nonCache, s.output, s.read, s.write5m, s.write1h, model);
    CreditIsCost(t.nonCache, t.output, t.read, t.write5m, t.write1h, model);
    CostRises(s, t, p, q);
  }

  function InputPrice(price: real): Price {
    Price(Fin(price), ZERO, ZERO, ZERO, ZERO)
  }

  /** A model whose price per thousand tokens falls from 3 to 1 above a thousand. */
  function FallingModel(): Model {
    Model([], InputPrice(0.0), [Tier(Some(Fin(1000.0)), InputPrice(3.0)), Tier(None, InputPrice(1.0))])
  }

  lemma FallingTiers()
    ensures ResolveTierPricing(FallingModel(), Fin(1000.0)) == InputPrice(3.0)
    ensures ResolveTierPricing(FallingModel(), Fin(2000.0)) == InputPrice(1.0)
  {
    var tiers := FallingModel().tiers;
    assert Fits(tiers[0], Fin(1000.0)) && !Fits(tiers[0], Fin(2000.0)) && Fits(tiers[1], Fin(2000.0));
    FirstFittingTier(tiers, Fin(1000.0), InputPrice(0.0));
    FirstFittingTier(tiers, Fin(2000.0), InputPrice(0.0));
  }

  lemma InputAlone(n: real, price: real)
    ensures Cost(n, 0.0, 0.0, 0.0, 0.0, InputPrice(price)) == n / 1000.0 * price
  {
  }

  lemma InputCredit(n: real, price: real, credit: real)
    requires ResolveTierPricing(FallingModel(), Fin(n)) == InputPrice(price) && n / 1000.0 * price == credit
    ensures FallingCredit(n) == Fin(credit)
  {
    assert n + 0.0 == n;
    CreditIsCost(n, 0.0, 0.0, 0.0, 0.0, FallingModel());
    InputAlone(n, price);
  }

  /** What n tokens of input cost on that model. */
  function FallingCredit(n: real): JsNumber {
    CreditFor(Tokens(n, 0.0, 0.0, 0.0, 0.0).AsBilled(), FallingModel())
  }

  /** Without that a longer input can be cheaper, as one tier prices the whole request. */
  lemma FallingTierCostsLess()
    ensures FallingCredit(1000.0) == Fin(3.0) && FallingCredit(2000.0) == Fin(2.0)
  {
    assert FallingCredit(1000.0) == Fin(3.0) by {
      FallingTiers();
      InputCredit(1000.0, 3.0, 3.0);
    }
    assert FallingCredit(2000.0) == Fin(2.0) by {
      FallingTiers();
      InputCredit(2000.0, 1.0, 2.0);
    }
  }

  // ---- Credit saved by routing ----

  /** The larger of two credits; a credit that is not a number is not larger than any other. */
  function Larger(a: JsNumber, b: JsNumber): JsNumber {
    if Less(a, b) then b else a
  }

  function Saved(actual: JsNumber, original: JsNumber): JsNumber {
    var saved := Minus(original, actual);
    if Less(ZERO, saved) then saved else ZERO
  }

  lemma SavedCompletes(actual: JsNumber, original: JsNumber)
    ensures (Plus(actual, Saved(actual, original)) == Larger(actual, original))
            <==> !(actual == NegInf && Less(actual, original))
  {
  }

  /** What the request would have cost on the model it was routed away from. */
  function OriginalCredit(js: Js, e: Entry): JsNumber {
    ComputeCreditDelta(js, Some(UsageOf(e)), e.pricing, e.routedFrom, e.upstreamUrl)
  }

  /**
   * On a routed usage row the credit and what was saved sum to the larger of the actual credit and what the original
   * model would have cost, except exactly when the actual credit is minus infinity and the original one is not;
   * on every other row nothing is saved.
   */
  lemma CreditPlusSaved(js: Js, e: Entry)
    ensures BuildRow(js, e).Some? ==>
              var row := BuildRow(js, e).value;
              && (e.isUsageEvent && e.routedFrom != [] ==>
                    ((Plus(row.credit, row.creditSaved) == Larger(row.credit, OriginalCredit(js, e)))
                     <==> !(row.credit == NegInf && Less(row.credit, OriginalCredit(js, e)))))
              && (!e.isUsageEvent || e.routedFrom == [] ==> row.creditSaved == ZERO)
  {
    if BuildRow(js, e).Some? {
      SavedCompletes(BuildRow(js, e).value.credit, OriginalCredit(js, e));
    }
  }

  // ---- Anomalous credits leave a raw record ----

  predicate AllFinite(p: Price) {
    p.input.Fin? && p.output.Fin? && p.cacheRead.Fin? && p.cacheWrite5m.Fin? && p.cacheWrite1h.Fin?
  }

  predicate FiniteModel(m: Model) {
    AllFinite(m.price) && forall i :: 0 <= i < |m.tiers| ==> AllFinite(m.tiers[i].price)
  }

  lemma {:induction false} TierPriceFinite(tiers: seq<Tier>, totalInput: JsNumber, base: Price)
    requires AllFinite(base) && forall i :: 0 <= i < |tiers| ==> AllFinite(tiers[i].price)
    ensures AllFinite(TierPrice(tiers, totalInput, base))
  {
    if tiers != [] {
      assert AllFinite(tiers[0].price);
      TierPriceFinite(tiers[1..], totalInput, base);
    }
  }

  lemma {:induction false} FindModelFinite(models: seq<Model>, modelId: Text)
    requires forall i :: 0 <= i < |models| ==> FiniteModel(models[i])
    ensures FindModel(models, modelId).Some? ==> FiniteModel(FindModel(models, modelId).value)
  {
    if models != [] {
      assert FiniteModel(models[0]);
      FindModelFinite(models[1..], modelId);
    }
  }

  lemma BilledFinite(js: Js, usage: Usage, protocol: Protocol)
    ensures var b := BilledTokens(js, usage, protocol);
            b.nonCacheInput.Fin? && b.output.Fin? && b.cacheRead.Fin? && b.cacheWrite5m.Fin? && b.cacheWrite1h.Fin?
  {
  }

  lemma CreditForFinite(b: Billed, model: Model)
    requires b.nonCacheInput.Fin? && b.output.Fin? && b.cacheRead.Fin? && b.cacheWrite5m.Fin? && b.cacheWrite1h.Fin?
    requires AllFinite(ResolveTierPricing(model, Plus(b.nonCacheInput, b.cacheRead)))
    ensures CreditFor(b, model).Fin?
  {
  }

  /** The table's first model with this name, in whatever letter case. */
  ghost predicate FirstNamed(models: seq<Model>, modelId: Text, m: Model) {
    exists i :: 0 <= i < |models| && models[i] == m && SameLetters(m.name, modelId)
                && forall j :: 0 <= j < i ==> !SameLetters(models[j].name, modelId)
  }

  /** A model is found exactly when it is the first one with the name. */
  lemma {:induction false} FindModelIff(models: seq<Model>, modelId: Text, m: Model)
    ensures FindModel(models, modelId) == Some(m) <==> FirstNamed(models, modelId, m)
  {
    if models != [] {
      var rest := models[1..];
      FindModelIff(rest, modelId, m);
      if FirstNamed(rest, modelId, m) && !SameLetters(models[0].name, modelId) {
        var i :| 0 <= i < |rest| && rest[i] == m && SameLetters(m.name, modelId)
                 && forall j :: 0 <= j < i ==> !SameLetters(rest[j].name, modelId);
        forall j | 0 <= j < i + 1
          ensures !SameLetters(models[j].name, modelId)
        {
          assert j > 0 ==> models[j] == rest[j - 1];
        }
        assert models[i + 1] == m;
      }
      if FirstNamed(models, modelId, m) && !SameLetters(models[0].name, modelId) {
        var i :| 0 <= i < |models| && models[i] == m && SameLetters(m.name, modelId)
                 && forall j :: 0 <= j < i ==> !SameLetters(models[j].name, modelId);
        assert rest[i - 1] == m;
        assert forall j :: 0 <= j < i - 1 ==> rest[j] == models[j + 1];
      }
    }
  }

  ghost predicate Named(models: seq<Model>, modelId: Text) {
    exists m :: m in models && SameLetters(m.name, modelId)
  }

  lemma {:induction false} FindModelSome(models: seq<Model>, modelId: Text)
    ensures FindModel(models, modelId).Some? <==> Named(models, modelId)
  {
    if models != [] {
      FindModelSome(models[1..], modelId);
      assert models == [models[0]] + models[1..];
    }
  }

  /** The request is priced: it went through TokenHub, for a model the table names. */
  ghost predicate Priced(e: Entry) {
    && Contains(e.upstreamUrl, Lit("tokenhub"), _ => true)
    && e.pricing.Some? && e.modelId != [] && Named(e.pricing.value, e.modelId)
  }

  /** An input count and an output count, in one dialect or the other, are numbers. */
  ghost predicate WellFormed(usage: Usage) {
    && (exists k, n :: k in {InputTokensKey, PromptTokensKey} && k in usage && usage[k] == Num(n))
    && (exists k, n :: k in {OutputTokensKey, CompletionTokensKey} && k in usage && usage[k] == Num(n))
  }

  lemma WellFormedIff(usage: Usage)
    ensures WellFormed(usage)
       <==> (IsNumber(Field(usage, InputTokensKey)) || IsNumber(Field(usage, PromptTokensKey)))
            && (IsNumber(Field(usage, OutputTokensKey)) || IsNumber(Field(usage, CompletionTokensKey)))
  {
    if IsNumber(Field(usage, InputTokensKey)) {
      assert usage[InputTokensKey] == Num(usage[InputTokensKey].n);
    }
    if IsNumber(Field(usage, PromptTokensKey)) {
      assert usage[PromptTokensKey] == Num(usage[PromptTokensKey].n);
    }
    if IsNumber(Field(usage, OutputTokensKey)) {
      assert usage[OutputTokensKey] == Num(usage[OutputTokensKey].n);
    }
    if IsNumber(Field(usage, CompletionTokensKey)) {
      assert usage[CompletionTokensKey] == Num(usage[CompletionTokensKey].n);
    }
  }

  /** A credit that is a number between 0 and a million. */
  ghost predicate Sound(credit: JsNumber) {
    exists r: real :: credit == Fin(r) && 0.0 <= r <= 1_000_000.0
  }

  lemma SoundIff(credit: JsNumber)
    ensures Sound(credit) <==> !IsCreditAnomalous(credit)
  {
    if credit.Fin? {
      assert credit == Fin(credit.r);
    }
  }

  /**
   * A usage that reports something leaves no raw record exactly when it came through TokenHub, names a model of the
   * table (or none, or there is no table), gives both counts as numbers, and costs between 0 and a million.
   */
  lemma NoRawRecordIff(js: Js, e: Entry)
    requires UsageOf(e) != map[]
    ensures WriteClickHouse(js, e, true).raw.None?
       <==> && Contains(e.upstreamUrl, Lit("tokenhub"), _ => true)
            && (e.modelId == [] || e.pricing.None? || Named(e.pricing.value, e.modelId))
            && WellFormed(UsageOf(e))
            && Sound(ComputeCreditDelta(js, e.usage, e.pricing, e.modelId, e.upstreamUrl))
  {
    TokenHubIff(e.upstreamUrl);
    if e.pricing.Some? {
      FindModelSome(e.pricing.value, e.modelId);
    }
    WellFormedIff(UsageOf(e));
    SoundIff(ComputeCreditDelta(js, e.usage, e.pricing, e.modelId, e.upstreamUrl));
  }

  /** The first of these conditions that fails names the record. */
  lemma RawRecordSaysWhy(js: Js, e: Entry)
    requires UsageOf(e) != map[]
    ensures var raw := WriteClickHouse(js, e, true).raw;
            && (raw == Some(NonTokenHub) <==> !Contains(e.upstreamUrl, Lit("tokenhub"), _ => true))
            && (raw == Some(UnknownModel) <==>
                  Contains(e.upstreamUrl, Lit("tokenhub"), _ => true) && e.modelId != [] && e.pricing.Some?
                  && !Named(e.pricing.value, e.modelId))
            && (raw == Some(InvalidFormat) ==> !WellFormed(UsageOf(e)))
            && (raw == Some(InvalidCredit) ==> WellFormed(UsageOf(e)))
  {
    TokenHubIff(e.upstreamUrl);
    if e.pricing.Some? {
      FindModelSome(e.pricing.value, e.modelId);
    }
    WellFormedIff(UsageOf(e));
  }

  /** A request that is not priced costs nothing; one that is costs what its model's tier says. */
  lemma OnlyPricedCost(js: Js, e: Entry)
    ensures var credit := ComputeCreditDelta(js, e.usage, e.pricing, e.modelId, e.upstreamUrl);
            && (e.usage.None? || !Priced(e) ==> credit == ZERO)
            && (forall m | e.usage.Some? && Priced(e) && FirstNamed(e.pricing.value, e.modelId, m) ::
                  credit == CreditFor(BilledTokens(js, e.usage.value, DetectUsageProtocol(e.upstreamUrl)), m))
  {
    TokenHubIff(e.upstreamUrl);
    if e.pricing.Some? {
      FindModelSome(e.pricing.value, e.modelId);
      forall m | FirstNamed(e.pricing.value, e.modelId, m)
        ensures FindModel(e.pricing.value, e.modelId) == Some(m)
      {
        FindModelIff(e.pricing.value, e.modelId, m);
      }
    }
  }

  /** With a price table of finite numbers every credit is finite, whatever upstream reports as usage. */
  lemma FinitePricesFiniteCredit(js: Js, usage: Option<Usage>, models: seq<Model>, modelId: Text, url: Text)
    requires forall i :: 0 <= i < |models| ==> FiniteModel(models[i])
    ensures ComputeCreditDelta(js, usage, Some(models), modelId, url).Fin?
  {
    FindModelFinite(models, modelId);
    var model := GetModelPricing(Some(models), modelId);
    if usage.Some? && model.Some? {
      var b := BilledTokens(js, usage.value, DetectUsageProtocol(url));
      BilledFinite(js, usage.value, DetectUsageProtocol(url));
      TierPriceFinite(model.value.tiers, Plus(b.nonCacheInput, b.cacheRead), model.value.price);
      CreditForFinite(b, model.value);
    }
  }

  lemma NothingTimes(price: JsNumber)
    ensures Times(Per1000(ZERO), price) == if price.Fin? then ZERO else NaN
  {
  }

  lemma NothingBilled(js: Js, protocol: Protocol)
    ensures BilledTokens(js, map[], protocol) == Billed(ZERO, ZERO, ZERO, ZERO, ZERO)
  {
  }

  lemma EmptyUsageCredit(model: Model)
    ensures CreditFor(Billed(ZERO, ZERO, ZERO, ZERO, ZERO), model)
            == if AllFinite(ResolveTierPricing(model, ZERO)) then ZERO else NaN
  {
    var p := ResolveTierPricing(model, ZERO);
    NothingTimes(p.input);
    NothingTimes(p.output);
    NothingTimes(p.cacheRead);
    NothingTimes(p.cacheWrite5m);
    NothingTimes(p.cacheWrite1h);
  }

  /** The model has a price for no tokens at all that is not a finite number. */
  ghost predicate BadPrice(e: Entry) {
    && IsTokenHub(e.upstreamUrl)
    && GetModelPricing(e.pricing, e.modelId).Some?
    && !AllFinite(ResolveTierPricing(GetModelPricing(e.pricing, e.modelId).value, ZERO))
  }

  lemma EmptyUsageAnomaly(js: Js, e: Entry)
    ensures IsCreditAnomalous(ComputeCreditDelta(js, Some(map[]), e.pricing, e.modelId, e.upstreamUrl)) <==> BadPrice(e)
  {
    var model := GetModelPricing(e.pricing, e.modelId);
    if model.Some? {
      NothingBilled(js, DetectUsageProtocol(e.upstreamUrl));
      EmptyUsageCredit(model.value);
    }
  }

  /**
   * With a raw table, a main-table row whose credit is not finite or lies outside 0 to 1000000 comes with a raw
   * record, except exactly when the usage is empty and the price it multiplies by zero is not finite.
   */
  lemma AnomalyIsRecordedUnless(js: Js, e: Entry)
    ensures var w := WriteClickHouse(js, e, true);
            (w.row.Some? && IsCreditAnomalous(w.row.value.credit) && w.raw.None?)
            <==> UsageOf(e) == map[] && BadPrice(e)
  {
    if UsageOf(e) == map[] {
      EmptyUsageAnomaly(js, e);
    }
  }

  /** An entry of that kind: no usage, and an infinite price for input. */
  function UnpricedEntry(): Entry {
    Entry(true, Lit("m"), [], Lit("tokenhub"), None,
          Some([Model(Lit("m"), Price(PosInf, ZERO, ZERO, ZERO, ZERO), [])]))
  }

  lemma UnpricedIsBad()
    ensures UsageOf(UnpricedEntry()) == map[] && BadPrice(UnpricedEntry())
  {
    var e := UnpricedEntry();
    assert MatchesAt(e.upstreamUrl, 0, Lit("tokenhub"));
    assert SameLetters(Lit("m"), Lit("m"));
    assert e.modelId != [];
  }

  /** Its row has an anomalous credit, and nothing is recorded. */
  lemma AnomalyWithoutRecord(js: Js)
    ensures var w := WriteClickHouse(js, UnpricedEntry(), true);
            w.row.Some? && IsCreditAnomalous(w.row.value.credit) && w.raw.None?
  {
    UnpricedIsBad();
    AnomalyIsRecordedUnless(js, UnpricedEntry());
  }
}
