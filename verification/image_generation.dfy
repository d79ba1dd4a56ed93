/**
 * The `POST /api/image` handler: request validation, the free-trial /
 * subscription gate, one or two calls to the image provider, and the
 * usage-counter increments that follow a successful generation.
 *
 * The identity provider, the API key, the two gate answers and the
 * provider's replies are foreign: they are inputs. The user's usage
 * counter is a `nat` threaded through the handler.
 */
module ImageGeneration {
  import opened Wrappers
  import opened JsValues
  import Cascade

  /**
   * The parsed request body. `Unparseable`: `req.json()` rejected.
   * `NullBody`: the body was JSON `null`, which cannot be destructured.
   * Any other JSON value destructures field by field; a non-object
   * value is `Fields` with every field `Undefined`.
   */
  datatype Body =
    | Unparseable
    | NullBody
    | Fields(prompt: JsValue, prompt2: JsValue, amount: JsValue, resolution: JsValue, model: JsValue)

  /** The request fields after destructuring defaults. */
  datatype Settings = Settings(prompt: JsValue, prompt2: JsValue, amount: JsValue, resolution: JsValue, model: JsValue)

  /** One generated image as the provider returns it. */
  datatype Image = Image(url: string)

  /** The provider's answer to one generation call; `ProviderFailed` is a rejected call. */
  datatype ProviderReply = ProviderFailed | Generated(data: seq<Image>)

  /** The `quality` parameter: `"hd"` or `"standard"`. */
  datatype Quality = Hd | Standard

  /** The arguments of one `images.generate` call; `n` is the `amount` field before `parseInt`. */
  datatype GenerationCall = GenerationCall(prompt: JsValue, n: JsValue, size: JsValue, model: JsValue, quality: Quality)

  /** The handler's observable side effects, in the order it awaits them. */
  datatype Effect = Generate(call: GenerationCall) | IncrementUsage

  /** The foreign answers the handler awaits. */
  datatype Services = Services(
    apiKey: Option<string>,       // the configured provider key
    freeTrial: bool,              // `checkApiLimit()`
    isPro: bool,                  // `checkSubscription()`
    firstReply: ProviderReply,    // the provider's answer for `prompt`
    secondReply: ProviderReply)   // the provider's answer for `prompt2`, if asked

  /** The handler's answer: a plain-text response, or the JSON list of images. */
  datatype ImageReply = Plain(code: nat, message: string) | ImageList(data: seq<Image>)

  /** The answer, the effects performed, and the usage counter afterwards. */
  datatype Outcome = Outcome(reply: ImageReply, effects: seq<Effect>, count: nat)

  const InternalError: ImageReply := Plain(500, "Internal Error")
  const Unauthorized: ImageReply := Plain(401, "Unauthorized")
  const MissingKey: ImageReply := Plain(500, "OpenAI API Key not configured.")
  const MissingPrompt: ImageReply := Plain(400, "At least one prompt is required")
  const MissingAmount: ImageReply := Plain(400, "Amount is required")
  const MissingResolution: ImageReply := Plain(400, "Resolution is required")
  const TrialExpired: ImageReply := Plain(403, "Free trial has expired. Please upgrade to pro.")

  /** Destructures the body: `amount`, `resolution` and `model` fall back to 1, `"1024x1024"` and `"dall-e-2"` when absent. */
  function ApplyDefaults(body: Body): (st: Settings)
    requires body.Fields?
    ensures st.prompt == body.prompt && st.prompt2 == body.prompt2
    ensures body.amount.Undefined? ==> st.amount == Number(1.0)
    ensures body.resolution.Undefined? ==> st.resolution == Str("1024x1024")
    ensures body.model.Undefined? ==> st.model == Str("dall-e-2")
    ensures Truthy(st.amount) <==> body.amount.Undefined? || Truthy(body.amount)
    ensures Truthy(st.resolution) <==> body.resolution.Undefined? || Truthy(body.resolution)
    ensures !body.amount.Undefined? ==> st.amount == body.amount
    ensures !body.resolution.Undefined? ==> st.resolution == body.resolution
    ensures !body.model.Undefined? ==> st.model == body.model
    ensures !st.model.Undefined?
  {
    Settings(
      body.prompt,
      body.prompt2,
      WithDefault(body.amount, Number(1.0)),
      WithDefault(body.resolution, Str("1024x1024")),
      WithDefault(body.model, Str("dall-e-2")))
  }

  /** The quality asked for: high definition for the DALL-E 3 model only. */
  function QualityFor(model: JsValue): Quality {
    if model == Str("dall-e-3") then Hd else Standard
  }

  /** The call issued for `prompt`; both calls share every other argument. */
  function CallFor(prompt: JsValue, st: Settings): GenerationCall {
    GenerationCall(prompt, st.amount, st.resolution, st.model, QualityFor(st.model))
  }

  /** The usage counter after performing `effects`: each `IncrementUsage` adds one. */
  function CounterAfter(count: nat, effects: seq<Effect>): (c: nat)
    ensures c >= count
    ensures c <= count + |effects|
    ensures (forall i :: 0 <= i < |effects| ==> effects[i].Generate?) ==> c == count
    decreases |effects|
  {
    if effects == [] then count
    else CounterAfter(if effects[0].IncrementUsage? then count + 1 else count, effects[1..])
  }

  /** Performing effects one after another adds their increments. */
  lemma {:induction false} CounterAfterAppend(count: nat, a: seq<Effect>, b: seq<Effect>)
    ensures CounterAfter(count, a + b) == CounterAfter(CounterAfter(count, a), b)
    decreases |a|
  {
    if a == [] {
      assert a + b == b;
    } else {
      assert (a + b)[1..] == a[1..] + b;
      CounterAfterAppend(if a[0].IncrementUsage? then count + 1 else count, a[1..], b);
    }
  }

  /** No effect ever lowers the counter, and an increment always raises it. */
  lemma CounterMonotone(count: nat, count': nat, effects: seq<Effect>)
    requires count <= count'
    ensures CounterAfter(count, effects) <= CounterAfter(count', effects)
    ensures CounterAfter(count, effects + [IncrementUsage]) == CounterAfter(count, effects) + 1
  {
    CounterMonotoneFrom(count, count', effects);
    CounterAfterAppend(count, effects, [IncrementUsage]);
  }

  /** A higher starting count stays at least as high after any trace. */
  lemma {:induction false} CounterMonotoneFrom(count: nat, count': nat, effects: seq<Effect>)
    requires count <= count'
    ensures CounterAfter(count, effects) <= CounterAfter(count', effects)
    decreases |effects|
  {
    if effects != [] {
      var inc := if effects[0].IncrementUsage? then 1 else 0;
      CounterMonotoneFrom(count + inc, count' + inc, effects[1..]);
    }
  }

  /** The increments after a successful generation: none for a subscriber, else one, plus one more when a second prompt was sent. */
  function UsageEffects(isPro: bool, secondPrompt: bool): (e: seq<Effect>)
    ensures forall i :: 0 <= i < |e| ==> e[i] == IncrementUsage
    ensures |e| == if isPro then 0 else if secondPrompt then 2 else 1
  {
    if isPro then [] else [IncrementUsage] + (if secondPrompt then [IncrementUsage] else [])
  }

  /** The request checks and the quota gate, in handler order; `None` when the request may generate. */
  function Gate(userId: Option<string>, st: Settings, s: Services): (r: Option<ImageReply>)
    ensures r == Some(TrialExpired) <==> Admissible(userId, st, s.apiKey) && !s.freeTrial && !s.isPro
    ensures r.None? <==> Admissible(userId, st, s.apiKey) && (s.freeTrial || s.isPro)
  {
    if !SignedIn(userId) then Some(Unauthorized)
    else if !(s.apiKey.Some? && s.apiKey.value != "") then Some(MissingKey)
    else if !Truthy(st.prompt) && !Truthy(st.prompt2) then Some(MissingPrompt)
    else if !Truthy(st.amount) then Some(MissingAmount)
    else if !Truthy(st.resolution) then Some(MissingResolution)
    else if !s.freeTrial && !s.isPro then Some(TrialExpired)
    else None
  }

  /** The request passes every check before the quota gate. */
  predicate Admissible(userId: Option<string>, st: Settings, apiKey: Option<string>) {
    && SignedIn(userId)
    && apiKey.Some? && apiKey.value != ""
    && (Truthy(st.prompt) || Truthy(st.prompt2))
    && Truthy(st.amount)
    && Truthy(st.resolution)
  }

  /** The generation calls, the concatenated result and the increments, for a request past the gate. */
  function RunGeneration(st: Settings, s: Services): (r: (ImageReply, seq<Effect>))
    ensures r.0.ImageList? ==> s.firstReply.Generated?
    ensures r.0.ImageList? ==> !Truthy(st.prompt2) || s.secondReply.Generated?
    ensures r.0.ImageList? ==>
      r.0.data == s.firstReply.data + (if Truthy(st.prompt2) && s.secondReply.Generated? then s.secondReply.data else [])
    ensures !r.0.ImageList? ==> r.0 == InternalError
    ensures r.0 == InternalError <==> s.firstReply.ProviderFailed? || (Truthy(st.prompt2) && s.secondReply.ProviderFailed?)
  {
    var first := CallFor(st.prompt, st);
    match s.firstReply
    case ProviderFailed => (InternalError, [Generate(first)])
    case Generated(data) =>
      if !Truthy(st.prompt2) then
        (ImageList(data), [Generate(first)] + UsageEffects(s.isPro, false))
      else
        var second := CallFor(st.prompt2, st);
        match s.secondReply
        case ProviderFailed => (InternalError, [Generate(first), Generate(second)])
        case Generated(data2) =>
          (ImageList(data + data2), [Generate(first), Generate(second)] + UsageEffects(s.isPro, true))
  }

  /** Once the handler starts incrementing the counter it performs nothing else: increments follow every generation. */
  predicate IncrementsLast(effects: seq<Effect>) {
    forall i, j :: 0 <= i < j < |effects| && effects[i].IncrementUsage? ==> effects[j].IncrementUsage?
  }

  /** The handler, starting from usage counter `count`. */
  function HandleImage(userId: Option<string>, body: Body, s: Services, count: nat): (o: Outcome)
    ensures o.count >= count
    ensures o.reply.Plain? ==> o.count == count
    ensures o.reply.ImageList? ==> body.Fields?
    ensures o.reply.ImageList? ==> o.count == count + (if s.isPro then 0 else if Truthy(body.prompt2) then 2 else 1)
    ensures o.reply.ImageList? ==> s.firstReply.Generated? && (Truthy(body.prompt2) ==> s.secondReply.Generated?)
    ensures o.reply.ImageList? ==>
      o.reply.data == s.firstReply.data + (if Truthy(body.prompt2) && s.secondReply.Generated? then s.secondReply.data else [])
    ensures IncrementsLast(o.effects)
    ensures body.Fields? ==>
      forall i :: 0 <= i < |o.effects| && o.effects[i].Generate? ==>
        o.effects[i].call.quality == QualityFor(ApplyDefaults(body).model)
  {
    if !body.Fields? then Outcome(InternalError, [], count)
    else
      var st := ApplyDefaults(body);
      match Gate(userId, st, s)
      case Some(rejection) => Outcome(rejection, [], count)
      case None =>
        var (reply, effects) := RunGeneration(st, s);
        CounterAfterAppend(count, [Generate(CallFor(st.prompt, st))], UsageEffects(s.isPro, false));
        CounterAfterAppend(count, [Generate(CallFor(st.prompt, st)), Generate(CallFor(st.prompt2, st))], UsageEffects(s.isPro, true));
        Outcome(reply, effects, CounterAfter(count, effects))
  }

  /** The request checks and the quota gate as an ordered list of guards. */
  function GateChecks(userId: Option<string>, st: Settings, s: Services): seq<Cascade.Check<ImageReply>> {
    [ Cascade.Check(SignedIn(userId), Unauthorized),
      Cascade.Check(s.apiKey.Some? && s.apiKey.value != "", MissingKey),
      Cascade.Check(Truthy(st.prompt) || Truthy(st.prompt2), MissingPrompt),
      Cascade.Check(Truthy(st.amount), MissingAmount),
      Cascade.Check(Truthy(st.resolution), MissingResolution),
      Cascade.Check(s.freeTrial || s.isPro, TrialExpired) ]
  }

  /** The first failing guard decides the response: 401, then the missing key, then the 400s, then the 403. */
  lemma GateIsFirstFailingCheck(userId: Option<string>, st: Settings, s: Services)
    ensures Gate(userId, st, s) == Cascade.FirstFailure(GateChecks(userId, st, s))
  {
    var checks := GateChecks(userId, st, s);
    if !SignedIn(userId) {
      Cascade.FirstFailureAt(checks, 0);
    } else if !(s.apiKey.Some? && s.apiKey.value != "") {
      Cascade.FirstFailureAt(checks, 1);
    } else if !Truthy(st.prompt) && !Truthy(st.prompt2) {
      Cascade.FirstFailureAt(checks, 2);
    } else if !Truthy(st.amount) {
      Cascade.FirstFailureAt(checks, 3);
    } else if !Truthy(st.resolution) {
      Cascade.FirstFailureAt(checks, 4);
    } else if !s.freeTrial && !s.isPro {
      Cascade.FirstFailureAt(checks, 5);
    }
  }

  /** The body is parsed before the session is checked: an unreadable body is a 500 even for a signed-out caller. */
  lemma UnreadableBodyIsInternalError(userId: Option<string>, body: Body, s: Services, count: nat)
    requires !body.Fields?
    ensures HandleImage(userId, body, s, count) == Outcome(InternalError, [], count)
  {
  }

  /** A readable request from a signed-out caller is a 401 that calls nothing and charges nothing. */
  lemma SignedOutIsUnauthorized(userId: Option<string>, body: Body, s: Services, count: nat)
    requires body.Fields? && !SignedIn(userId)
    ensures HandleImage(userId, body, s, count) == Outcome(Unauthorized, [], count)
  {
  }

  /** An absent `amount` defaults to 1 and passes; an explicit `null` is not defaulted and is rejected. */
  lemma NullAmountIsNotDefaulted(userId: Option<string>, prompt: JsValue, prompt2: JsValue, resolution: JsValue, model: JsValue, s: Services, count: nat)
    requires SignedIn(userId) && s.apiKey.Some? && s.apiKey.value != ""
    requires Truthy(prompt) || Truthy(prompt2)
    ensures HandleImage(userId, Fields(prompt, prompt2, Null, resolution, model), s, count).reply == MissingAmount
    ensures HandleImage(userId, Fields(prompt, prompt2, Undefined, resolution, model), s, count).reply != MissingAmount
  {
  }

  /** The quota gate denies exactly the admissible requests of users with neither a free trial nor a subscription, before any call. */
  lemma QuotaGate(userId: Option<string>, body: Body, s: Services, count: nat)
    requires body.Fields?
    ensures var o := HandleImage(userId, body, s, count);
      (o.reply == TrialExpired) <==> (Admissible(userId, ApplyDefaults(body), s.apiKey) && !s.freeTrial && !s.isPro)
    ensures var o := HandleImage(userId, body, s, count);
      o.reply == TrialExpired ==> o.effects == [] && o.count == count
  {
  }

  /** Past the gate, the provider is called for `prompt`, then for `prompt2` if it is truthy and the first call succeeded; increments come last and only on success. */
  lemma EffectsPastTheGate(userId: Option<string>, body: Body, s: Services, count: nat)
    requires body.Fields? && Gate(userId, ApplyDefaults(body), s).None?
    ensures var st := ApplyDefaults(body);
      var o := HandleImage(userId, body, s, count);
      o.effects
        == [Generate(CallFor(st.prompt, st))]
         + (if Truthy(st.prompt2) && s.firstReply.Generated? then [Generate(CallFor(st.prompt2, st))] else [])
         + (if o.reply.ImageList? then UsageEffects(s.isPro, Truthy(st.prompt2)) else [])
  {
  }

  /** A failed provider call is a 500 and leaves the counter as it was, even after a first call succeeded. */
  lemma ProviderFailureChargesNothing(userId: Option<string>, body: Body, s: Services, count: nat)
    requires body.Fields? && Gate(userId, ApplyDefaults(body), s).None?
    requires s.firstReply.ProviderFailed? || (Truthy(body.prompt2) && s.secondReply.ProviderFailed?)
    ensures HandleImage(userId, body, s, count).reply == InternalError
    ensures HandleImage(userId, body, s, count).count == count
  {
  }

  /** With only `prompt2` truthy, the first call still goes out, carrying the falsy `prompt`. */
  lemma FirstCallCarriesPrompt(userId: Option<string>, body: Body, s: Services, count: nat)
    requires body.Fields? && Gate(userId, ApplyDefaults(body), s).None?
    ensures var o := HandleImage(userId, body, s, count);
      |o.effects| >= 1 && o.effects[0].Generate? && o.effects[0].call.prompt == body.prompt
  {
  }

  /** Two prompts with `amount = "2"` for a trial user: four images, in prompt order, and two increments. */
  lemma TwoPromptScenario(userId: Option<string>, a: Image, b: Image, c: Image, d: Image, count: nat)
    requires SignedIn(userId)
    ensures var s := Services(Some("key"), true, false, Generated([a, b]), Generated([c, d]));
      var o := HandleImage(userId, Fields(Str("a cat"), Str("a dog"), Str("2"), Undefined, Undefined), s, count);
      && o.reply == ImageList([a, b, c, d])
      && o.count == count + 2
      && |o.effects| == 4
  {
  }

  /** The two calls of one request differ only in their prompt. */
  lemma CallsDifferOnlyInPrompt(prompt: JsValue, prompt2: JsValue, st: Settings)
    ensures CallFor(prompt2, st) == CallFor(prompt, st).(prompt := prompt2)
  {
  }

  /** Every call of a request asks for `hd` exactly when the body names `"dall-e-3"`; an absent model means `standard`. */
  lemma QualityFollowsModel(userId: Option<string>, body: Body, s: Services, count: nat)
    requires body.Fields?
    ensures var o := HandleImage(userId, body, s, count);
      forall i :: 0 <= i < |o.effects| && o.effects[i].Generate? ==>
        (o.effects[i].call.quality == Hd <==> body.model == Str("dall-e-3"))
  {
  }

  /** A readable body that fails a guard is answered with the first failing guard's rejection, calling and charging nothing. */
  lemma HandleImageIsFirstFailingCheck(userId: Option<string>, body: Body, s: Services, count: nat)
    requires body.Fields?
    ensures var first := Cascade.FirstFailure(GateChecks(userId, ApplyDefaults(body), s));
      first.Some? ==> HandleImage(userId, body, s, count) == Outcome(first.value, [], count)
  {
    GateIsFirstFailingCheck(userId, ApplyDefaults(body), s);
  }

  /** The handler lists images exactly when the body is readable, the gate lets it through and every call it makes succeeds. */
  lemma HandleImageSucceedsIff(userId: Option<string>, body: Body, s: Services, count: nat)
    ensures HandleImage(userId, body, s, count).reply.ImageList? <==>
      && body.Fields?
      && Gate(userId, ApplyDefaults(body), s).None?
      && s.firstReply.Generated?
      && (Truthy(body.prompt2) ==> s.secondReply.Generated?)
  {
  }
}
