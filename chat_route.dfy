/**
 * The chat endpoint `POST /api/chat`: it validates the visitor's message,
 * checks the configuration, calls the generative-language service with a
 * configured model, walks a fixed fallback ladder when that model is not
 * found, discovers a served model as a last resort, and always answers the
 * chat widget with a JSON envelope.
 *
 * The network is an oracle: `Generator` answers one generate call (or
 * `None` when the request throws or is aborted), `Lister` answers one model
 * listing (already reduced to the list of models, empty on any failure).
 * The handler's calls are returned as a trace so that their order can be
 * stated.
 */
module ChatRoute {
  import opened Wrappers
  import opened JsText

  // ---------------------------------------------------------------------------
  // Request, configuration and knowledge base
  // ---------------------------------------------------------------------------

  /** A JSON value as far as the handler inspects it. */
  datatype Json = JUndefined | JNull | JBool(b: bool) | JNumber(n: int) | JString(s: string) | JArray | JObject

  /** JavaScript truthiness of a JSON value. */
  predicate Truthy(v: Json) {
    match v
    case JUndefined => false
    case JNull => false
    case JBool(b) => b
    case JNumber(n) => n != 0
    case JString(s) => s != ""
    case _ => true
  }

  /** The destructured request body `{ message, conversationId }`. */
  datatype RequestBody = RequestBody(message: Json, conversationId: Json)

  /** The environment variables read by the handler; `None` when unset. */
  datatype Env = Env(apiKey: Option<string>, model: Option<string>, apiVersion: Option<string>)

  /** An environment variable that is set to a truthy (non-empty) string. */
  predicate IsSet(v: Option<string>) {
    v.Some? && v.value != ""
  }

  datatype Contact = Contact(phone: seq<string>, email: string, website: Option<string>)

  /** The institute knowledge base, of which the handler itself reads only `contact`. */
  datatype KnowledgeBase = KnowledgeBase(contact: Option<Contact>)

  // ---------------------------------------------------------------------------
  // The upstream service
  // ---------------------------------------------------------------------------

  /** A response body: not JSON at all, or JSON whose first candidate text is given. */
  datatype Payload = NotJson | Parsed(text: Option<string>)

  datatype Upstream = Upstream(status: int, payload: Payload)

  /** `Response.ok`. */
  predicate IsOk(u: Upstream) {
    200 <= u.status <= 299
  }

  /** A model identifier together with the API version it is addressed under. */
  datatype Attempt = Attempt(model: string, version: string)

  /** One entry of a model listing: its `name` and `supportedGenerationMethods`. */
  datatype ListedModel = ListedModel(name: Option<string>, methods: seq<string>)

  /** A request the handler sends upstream. */
  datatype Call = Generate(attempt: Attempt) | ListModels(version: string)

  /** The response of one generate call, `None` when the fetch threw or was aborted. */
  type Generator = (string, string) -> Option<Upstream>

  /** The models one listing returns (`[]` when the listing failed). */
  type Lister = string -> seq<ListedModel>

  // ---------------------------------------------------------------------------
  // Replies
  // ---------------------------------------------------------------------------

  /** The rejections that precede any upstream call. */
  datatype Rejection = InvalidInput | TooLong | NoCredential | NoKnowledgeBase

  /** The three upstream failures the visitor is told apart. */
  datatype Trouble = Busy | Forbidden | Generic

  datatype Reply =
    | Rejected(reason: Rejection)
    | SoftError(trouble: Trouble, contact: Option<Contact>)
    | ServerFault
    | Answer(reply: ReplyText, model: string, conversationId: Json)

  /** The `reply` of a 200 answer: the model's own text, or the canned text
      built from the knowledge base's contact block. */
  datatype ReplyText = ModelText(text: string) | CannedText(contact: Contact)

  /** The HTTP status of a rejection. */
  function RejectionStatus(r: Rejection): (status: int)
    ensures status in {400, 500, 503}
    ensures status == 400 <==> r == InvalidInput || r == TooLong
    ensures status == 503 <==> r == NoCredential
    ensures status == 500 <==> r == NoKnowledgeBase
  {
    match r
    case InvalidInput => 400
    case TooLong => 400
    case NoCredential => 503
    case NoKnowledgeBase => 500
  }

  /** The HTTP status the handler responds with. */
  function StatusOf(r: Reply): (status: int)
    ensures status == 200 <==> !r.Rejected?
  {
    if r.Rejected? then RejectionStatus(r.reason) else 200
  }

  /** The `error` and `suggestion` texts of every reply that is not an answer. */
  function ErrorText(r: Reply): string
    requires !r.Answer?
  {
    match r
    case Rejected(InvalidInput) => "Please provide a valid message"
    case Rejected(TooLong) => "Message too long"
    case Rejected(NoCredential) => "Service temporarily unavailable"
    case Rejected(NoKnowledgeBase) => "Service configuration issue"
    case SoftError(Busy, _) => "Service is busy"
    case SoftError(Forbidden, _) => "Service temporarily unavailable"
    case SoftError(Generic, _) => "I'm having trouble processing your request right now"
    case ServerFault => "Something went wrong on our end"
  }

  function SuggestionText(r: Reply): string
    requires !r.Answer?
  {
    match r
    case Rejected(InvalidInput) => "Ask about courses, admissions, fees, or any other institute information"
    case Rejected(TooLong) => "Please keep your question under 1000 characters"
    case Rejected(NoCredential) => "Please contact the institute directly for immediate assistance"
    case Rejected(NoKnowledgeBase) => "Please contact the institute directly for accurate information"
    case SoftError(Busy, _) => "Please wait a moment and try again"
    case SoftError(Forbidden, _) => "Please contact the institute directly for assistance"
    case SoftError(Generic, _) => "Please try again in a moment, or contact the institute directly for immediate assistance"
    case ServerFault => "Please try again in a few moments, or contact us directly for assistance"
  }

  /** The contact block of an envelope: the knowledge base's for an upstream
      failure, the hard-coded one of the outer `catch`, none for a rejection. */
  function ContactOf(r: Reply): Option<Contact>
    requires !r.Answer?
  {
    match r
    case SoftError(_, c) => c
    case ServerFault => Some(Contact(["98551-46491", "94639-26371"], "info@skillupinstitute.co.in", None))
    case Rejected(_) => None
  }

  /** Every envelope that is not an answer carries a non-empty `error`, which
      the widget tests for; the three upstream failure texts are distinct, and
      the outer `catch` text is none of them. */
  lemma ErrorTextsDistinct(r: Reply)
    requires !r.Answer?
    ensures ErrorText(r) != ""
    ensures ErrorText(SoftError(Busy, None)) != ErrorText(SoftError(Forbidden, None))
    ensures ErrorText(SoftError(Generic, None)) != ErrorText(SoftError(Busy, None))
    ensures ErrorText(SoftError(Generic, None)) != ErrorText(SoftError(Forbidden, None))
    ensures ErrorText(ServerFault) != ErrorText(SoftError(Busy, None))
    ensures ErrorText(ServerFault) != ErrorText(SoftError(Forbidden, None))
  {
    assert |ErrorText(SoftError(Busy, None))| == 15;
    assert |ErrorText(SoftError(Forbidden, None))| == 31;
    assert |ErrorText(SoftError(Generic, None))| == 52;
    assert |ErrorText(ServerFault)| == 31;
    assert ErrorText(ServerFault)[30] != ErrorText(SoftError(Forbidden, None))[30];
  }

  const MaxMessageLength := 1000

  // ---------------------------------------------------------------------------
  // Validation
  // ---------------------------------------------------------------------------

  /** The 400 replies for a message that is not a non-blank string of at most 1000 characters. */
  function ValidateMessage(message: Json): (r: Option<Reply>)
    ensures r.None? <==> message.JString? && !AllWhiteSpace(message.s) && |message.s| <= MaxMessageLength
    ensures r.Some? ==> StatusOf(r.value) == 400
    ensures r == Some(Rejected(TooLong)) <==>
      message.JString? && !AllWhiteSpace(message.s) && |message.s| > MaxMessageLength
  {
    TrimEmptyIffAllWhiteSpace(if message.JString? then message.s else "");
    if !Truthy(message) || !message.JString? || Trim(message.s) == "" then Some(Rejected(InvalidInput))
    else if |message.s| > MaxMessageLength then Some(Rejected(TooLong))
    else None
  }

  // ---------------------------------------------------------------------------
  // Model and version resolution
  // ---------------------------------------------------------------------------

  /** The built-in table of known model aliases. */
  const ModelConfigs: map<string, Attempt> := map[
    "gemini-pro" := Attempt("gemini-1.0-pro", "v1beta"),
    "gemini-2.0-flash" := Attempt("gemini-2.0-flash", "v1"),
    "gemini-1.5-flash" := Attempt("gemini-1.5-flash", "v1"),
    "gemini-1.0-pro" := Attempt("gemini-1.0-pro", "v1beta")
  ]

  /** `resolveModelAndVersion`: the table entry, or the id itself under `v1`. */
  function ResolveModelAndVersion(modelId: string): (r: Attempt)
    ensures r.version == "v1" || r.version == "v1beta"
    ensures modelId !in ModelConfigs ==> r == Attempt(modelId, "v1")
    ensures r.version == "v1beta" <==> r.model == "gemini-1.0-pro"
    ensures modelId in ModelConfigs ==> r.model == (if modelId == "gemini-pro" then "gemini-1.0-pro" else modelId)
  {
    if modelId in ModelConfigs then ModelConfigs[modelId] else Attempt(modelId, "v1")
  }

  /** Resolving a resolved model changes nothing: the table is closed under itself. */
  lemma ResolveIdempotent(modelId: string)
    ensures ResolveModelAndVersion(ResolveModelAndVersion(modelId).model) == ResolveModelAndVersion(modelId)
  {
  }

  /** The model asked for when `GOOGLE_MODEL` is unset. */
  const DefaultModel := "gemini-2.0-flash"

  /** `GOOGLE_MODEL`, defaulting to `gemini-2.0-flash`, trimmed. */
  function RequestedModel(env: Env): string {
    Trim(if IsSet(env.model) then env.model.value else DefaultModel)
  }

  /** The trimmed `GOOGLE_API_VERSION` when it is non-blank. */
  function EnvVersion(env: Env): Option<string> {
    if IsSet(env.apiVersion) && Trim(env.apiVersion.value) != "" then Some(Trim(env.apiVersion.value)) else None
  }

  /** The model and version of the primary call. An explicit version is used
      as given and leaves the model id unresolved; without one, the version
      comes from the alias table (or is `v1`) and the model is already resolved.
      The model id changes only through the alias table. */
  function PrimaryAttempt(env: Env): (a: Attempt)
    ensures EnvVersion(env).Some? ==> a.version == EnvVersion(env).value && a.model == RequestedModel(env)
    ensures EnvVersion(env).None? ==> (a.version == "v1" || a.version == "v1beta")
    ensures EnvVersion(env).None? ==> ResolveModelAndVersion(a.model) == a
    ensures a.model != RequestedModel(env) ==> RequestedModel(env) in ModelConfigs && EnvVersion(env).None?
  {
    ResolveIdempotent(RequestedModel(env));
    match EnvVersion(env)
    case Some(v) => Attempt(RequestedModel(env), v)
    case None => ResolveModelAndVersion(RequestedModel(env))
  }

  /** With neither `GOOGLE_MODEL` nor `GOOGLE_API_VERSION` set, the primary
      call is `gemini-2.0-flash` under `v1`. */
  lemma DefaultPrimaryAttempt(env: Env)
    requires !IsSet(env.model) && !IsSet(env.apiVersion)
    ensures PrimaryAttempt(env) == Attempt(DefaultModel, "v1")
  {
    TrimUnpadded(DefaultModel);
  }

  /** `GOOGLE_MODEL=gemini-pro` is resolved to `gemini-1.0-pro` under `v1beta`
      only when no version is set; with a version it is called as `gemini-pro`. */
  lemma AliasResolvedOnlyWithoutVersion(env: Env)
    requires env.model == Some("gemini-pro")
    ensures EnvVersion(env).None? ==> PrimaryAttempt(env) == Attempt("gemini-1.0-pro", "v1beta")
    ensures EnvVersion(env).Some? ==> PrimaryAttempt(env) == Attempt("gemini-pro", EnvVersion(env).value)
  {
    RequestedGeminiPro(env);
    if EnvVersion(env).None? {
      assert PrimaryAttempt(env) == ResolveModelAndVersion(RequestedModel(env));
      ResolveGeminiPro(RequestedModel(env));
    }
  }

  lemma RequestedGeminiPro(env: Env)
    requires env.model == Some("gemini-pro")
    ensures RequestedModel(env) == "gemini-pro"
  {
    var m := "gemini-pro";
    assert m[0] == 'g' && m[|m| - 1] == 'o';
    assert IsSet(env.model) && env.model.value == m;
    TrimUnpadded(m);
  }

  lemma ResolveGeminiPro(m: string)
    requires m == "gemini-pro"
    ensures ResolveModelAndVersion(m) == Attempt("gemini-1.0-pro", "v1beta")
  {
  }

  // ---------------------------------------------------------------------------
  // Choosing a served model from a listing
  // ---------------------------------------------------------------------------

  /** The model supports `generateContent`. */
  predicate IsGood(m: ListedModel) {
    "generateContent" in m.methods
  }

  predicate NameEndsWith(m: ListedModel, suffix: string) {
    m.name.Some? && EndsWith(m.name.value, suffix)
  }

  predicate NameContains(m: ListedModel, part: string) {
    m.name.Some? && Contains(m.name.value, part)
  }

  /** A good model served under exactly `id`. */
  predicate ServesExactly(m: ListedModel, id: string) {
    IsGood(m) && NameEndsWith(m, "/models/" + id)
  }

  /** `id.replace(/-latest$/, "")`. */
  function StripLatest(id: string): (r: string)
    ensures StartsWith(id, r)
    ensures EndsWith(id, "-latest") ==> r + "-latest" == id
    ensures !EndsWith(id, "-latest") ==> r == id
  {
    if EndsWith(id, "-latest") then id[..|id| - 7] else id
  }

  /** The first three dash-separated parts: `gemini-1.5-flash-8b` has family `gemini-1.5-flash`. */
  function Family(base: string): string {
    Join(Take(Split(base, "-"), 3), "-")
  }

  /** `name.split("/models/").pop()`. */
  function ShortName(name: string): string {
    Last(Split(name, "/models/"))
  }

  /** What `pickClosestSupportedModel` produces: nothing (`null`), an id, or a
      `TypeError` when the chosen model has no name. */
  datatype Pick = NoModel | Picked(id: string) | NamelessModel

  /** `pickClosestSupportedModel(models, desired)`: an exact match, else the
      `-latest` variant, else the first good model of the same family, else the
      first good model at all. */
  function PickClosestSupportedModel(models: seq<ListedModel>, desired: string): (r: Pick)
    ensures r.NoModel? <==> forall i :: 0 <= i < |models| ==> !IsGood(models[i])
    ensures (exists i :: 0 <= i < |models| && ServesExactly(models[i], desired)) ==> r == Picked(desired)
  {
    var base := StripLatest(desired);
    var family := "/models/" + Family(base);
    if FirstWhere(models, m => ServesExactly(m, desired)).Some? then Picked(desired)
    else if FirstWhere(models, m => ServesExactly(m, base + "-latest")).Some? then Picked(base + "-latest")
    else match FirstWhere(models, m => NameContains(m, family) && IsGood(m))
      case Some(i) => Picked(ShortName(models[i].name.value))
      case None =>
        match FirstWhere(models, IsGood)
        case Some(i) => if models[i].name.Some? then Picked(ShortName(models[i].name.value)) else NamelessModel
        case None => NoModel
  }

  /** Without an exact match, a served `-latest` variant of the base id wins. */
  lemma LatestBeatsFamily(models: seq<ListedModel>, desired: string, i: nat)
    requires forall j :: 0 <= j < |models| ==> !ServesExactly(models[j], desired)
    requires i < |models| && ServesExactly(models[i], StripLatest(desired) + "-latest")
    ensures PickClosestSupportedModel(models, desired) == Picked(StripLatest(desired) + "-latest")
  {
    var _ := FirstWhere(models, m => ServesExactly(m, StripLatest(desired) + "-latest"));
  }

  /** Without an exact or `-latest` match, the first good model whose name
      contains `/models/` and the family wins, under its short name. */
  lemma FamilyBeatsAny(models: seq<ListedModel>, desired: string, i: nat)
    requires forall j :: 0 <= j < |models| ==>
      !ServesExactly(models[j], desired) && !ServesExactly(models[j], StripLatest(desired) + "-latest")
    requires i < |models| && IsGood(models[i]) && NameContains(models[i], "/models/" + Family(StripLatest(desired)))
    requires forall j :: 0 <= j < i ==>
      !(IsGood(models[j]) && NameContains(models[j], "/models/" + Family(StripLatest(desired))))
    ensures PickClosestSupportedModel(models, desired) == Picked(ShortName(models[i].name.value))
  {
    var family := "/models/" + Family(StripLatest(desired));
    var p := (m: ListedModel) => NameContains(m, family) && IsGood(m);
    assert p(models[i]);
    assert forall j :: 0 <= j < i ==> !p(models[j]);
    assert FirstWhere(models, p) == Some(i);
  }

  /** Without an exact, `-latest` or family match, the first good model at all
      is picked, and a nameless one throws. */
  lemma AnyFallback(models: seq<ListedModel>, desired: string, i: nat)
    requires forall j :: 0 <= j < |models| ==>
      !ServesExactly(models[j], desired) && !ServesExactly(models[j], StripLatest(desired) + "-latest") &&
      !(IsGood(models[j]) && NameContains(models[j], "/models/" + Family(StripLatest(desired))))
    requires i < |models| && IsGood(models[i])
    requires forall j :: 0 <= j < i ==> !IsGood(models[j])
    ensures models[i].name.Some? ==> PickClosestSupportedModel(models, desired) == Picked(ShortName(models[i].name.value))
    ensures models[i].name.None? ==> PickClosestSupportedModel(models, desired) == NamelessModel
  {
    var family := "/models/" + Family(StripLatest(desired));
    var p := (m: ListedModel) => NameContains(m, family) && IsGood(m);
    assert forall j :: 0 <= j < |models| ==> !p(models[j]);
    assert FirstWhere(models, p).None?;
    assert FirstWhere(models, IsGood) == Some(i);
  }

  /** An id that is picked is one some good model in the listing is served
      under: its name ends with `/models/` and the id, or is the id itself. */
  lemma PickedModelIsServed(models: seq<ListedModel>, desired: string)
    requires PickClosestSupportedModel(models, desired).Picked?
    ensures exists i :: (0 <= i < |models| && IsGood(models[i]) && models[i].name.Some? &&
      (EndsWith(models[i].name.value, "/models/" + PickClosestSupportedModel(models, desired).id) ||
       models[i].name.value == PickClosestSupportedModel(models, desired).id))
  {
    var base := StripLatest(desired);
    var family := "/models/" + Family(base);
    var id := PickClosestSupportedModel(models, desired).id;
    var e := FirstWhere(models, m => ServesExactly(m, desired));
    var l := FirstWhere(models, m => ServesExactly(m, base + "-latest"));
    var f := FirstWhere(models, m => NameContains(m, family) && IsGood(m));
    var g := FirstWhere(models, IsGood);
    if e.Some? {
      assert ServesExactly(models[e.value], id);
    } else if l.Some? {
      assert ServesExactly(models[l.value], id);
    } else if f.Some? {
      assert IsGood(models[f.value]);
      ShortNameServed(models[f.value].name.value);
    } else {
      assert IsGood(models[g.value]);
      ShortNameServed(models[g.value].name.value);
    }
  }

  /** The short name of a listed model is what follows its last `/models/`,
      or the whole name when it has none. */
  lemma ShortNameServed(name: string)
    ensures EndsWith(name, "/models/" + ShortName(name)) || name == ShortName(name)
  {
    SplitLast(name, "/models/");
  }

  /** JavaScript truthiness of a pick: an empty id counts as no pick, a
      `TypeError` stops the chain. */
  predicate Settles(p: Pick) {
    p.NamelessModel? || (p.Picked? && p.id != "")
  }

  /** The `||` chain over `pickClosestSupportedModel`: the first pick that
      settles, trying the ids in order. */
  function FirstSettled(models: seq<ListedModel>, ids: seq<string>): (r: Pick)
    ensures r == NoModel || Settles(r)
    decreases |ids|
  {
    if ids == [] then NoModel
    else
      var p := PickClosestSupportedModel(models, ids[0]);
      if Settles(p) then p else FirstSettled(models, ids[1..])
  }

  /** The chain yields the pick of the first id whose pick settles. */
  lemma {:induction false} FirstSettledAt(models: seq<ListedModel>, ids: seq<string>, k: nat)
    requires k < |ids| && Settles(PickClosestSupportedModel(models, ids[k]))
    requires forall j :: 0 <= j < k ==> !Settles(PickClosestSupportedModel(models, ids[j]))
    ensures FirstSettled(models, ids) == PickClosestSupportedModel(models, ids[k])
    decreases k
  {
    if k > 0 {
      assert !Settles(PickClosestSupportedModel(models, ids[0]));
      assert ids[1..][k - 1] == ids[k];
      forall j | 0 <= j < k - 1
        ensures !Settles(PickClosestSupportedModel(models, ids[1..][j]))
      {
        assert ids[1..][j] == ids[j + 1];
      }
      FirstSettledAt(models, ids[1..], k - 1);
    }
  }

  /** The chain yields nothing when no id's pick settles. */
  lemma {:induction false} FirstSettledNone(models: seq<ListedModel>, ids: seq<string>)
    requires forall k :: 0 <= k < |ids| ==> !Settles(PickClosestSupportedModel(models, ids[k]))
    ensures FirstSettled(models, ids) == NoModel
    decreases |ids|
  {
    if ids != [] {
      assert forall k :: 0 <= k < |ids| - 1 ==> ids[1..][k] == ids[k + 1];
      FirstSettledNone(models, ids[1..]);
    }
  }

  /** The ids asked for in discovery: the attempted model, then
      `gemini-1.5-flash`, then `gemini-pro`. */
  function DiscoveryChoices(attemptModel: string): seq<string> {
    [attemptModel, "gemini-1.5-flash", "gemini-pro"]
  }

  // ---------------------------------------------------------------------------
  // The call ladder
  // ---------------------------------------------------------------------------

  /** `callGenerateContent`: a thrown or aborted fetch becomes a synthetic 408. */
  function CallGenerate(gen: Generator, a: Attempt): (u: Upstream)
    ensures gen(a.model, a.version).None? ==> u.status == 408 && !IsOk(u)
    ensures gen(a.model, a.version).Some? ==> u == gen(a.model, a.version).value
  {
    match gen(a.model, a.version)
    case None => Upstream(408, Parsed(None))
    case Some(u) => u
  }

  /** The other API version. */
  function Flip(version: string): (r: string)
    ensures r == "v1" || r == "v1beta"
    ensures r != version
  {
    if version == "v1" then "v1beta" else "v1"
  }

  /** The four fallback strategies tried, in order, after a 404. */
  function FallbackStrategies(a: Attempt): seq<Attempt> {
    [ Attempt(a.model + "-latest", a.version),
      Attempt(a.model, Flip(a.version)),
      Attempt("gemini-1.5-flash-latest", "v1"),
      Attempt("gemini-1.0-pro-latest", "v1beta") ]
  }

  /** The handler's mutable state: the response it holds, the attempt that
      produced it, the calls so far, and whether a `TypeError` was thrown. */
  datatype Progress = Progress(upstream: Upstream, attempt: Attempt, calls: seq<Call>, crashed: bool)

  function GenerateAll(xs: seq<Attempt>): (r: seq<Call>)
    ensures |r| == |xs|
  {
    if xs == [] then [] else [Generate(xs[0])] + GenerateAll(xs[1..])
  }

  /** The strategy loop: call each in turn; the first ok response is kept. */
  function RunStrategies(gen: Generator, st: Progress, xs: seq<Attempt>): Progress
    decreases |xs|
  {
    if xs == [] then st
    else
      var u := CallGenerate(gen, xs[0]);
      var calls := st.calls + [Generate(xs[0])];
      if IsOk(u) then Progress(u, xs[0], calls, false)
      else RunStrategies(gen, st.(calls := calls), xs[1..])
  }

  /** One pass of the discovery loop for version `ver`: the new state, and
      whether the loop goes on to the next version. */
  function DiscoverOne(gen: Generator, list: Lister, st: Progress, ver: string): (Progress, bool) {
    var models := list(ver);
    var listed := st.(calls := st.calls + [ListModels(ver)]);
    if |models| == 0 then (listed, true)
    else TryPick(gen, listed, FirstSettled(models, DiscoveryChoices(st.attempt.model)), ver)
  }

  /** The rest of a discovery pass once the models are listed: a nameless
      model throws, no pick goes on, a pick is called and kept when ok. */
  function TryPick(gen: Generator, listed: Progress, p: Pick, ver: string): (Progress, bool) {
    match p
    case NamelessModel => (listed.(crashed := true), false)
    case NoModel => (listed, true)
    case Picked(id) =>
      var a := Attempt(id, ver);
      var u := CallGenerate(gen, a);
      var tried := listed.(calls := listed.calls + [Generate(a)]);
      if IsOk(u) then (tried.(upstream := u, attempt := a), false) else (tried, true)
  }

  /** The discovery loop over the preferred API versions. */
  function RunDiscovery(gen: Generator, list: Lister, st: Progress, versions: seq<string>): Progress
    decreases |versions|
  {
    if versions == [] then st
    else
      var (next, goOn) := DiscoverOne(gen, list, st, versions[0]);
      if goOn then RunDiscovery(gen, list, next, versions[1..]) else next
  }

  /** The primary call, and on a 404 the strategies and then discovery. */
  function Fallback(gen: Generator, list: Lister, primary: Attempt): Progress
  {
    var u := CallGenerate(gen, primary);
    var st0 := Progress(u, primary, [Generate(primary)], false);
    if !IsOk(u) && u.status == 404 then
      var st1 := RunStrategies(gen, st0, FallbackStrategies(primary));
      if !IsOk(st1.upstream) then
        RunDiscovery(gen, list, st1, [st1.attempt.version, Flip(st1.attempt.version)])
      else st1
    else st0
  }

  // ---------------------------------------------------------------------------
  // Answering
  // ---------------------------------------------------------------------------

  /** The failure reported for the final upstream status: 429 is busy, 403 is
      forbidden, anything else generic. */
  function TroubleFor(status: int): (t: Trouble)
    ensures t == Busy <==> status == 429
    ensures t == Forbidden <==> status == 403
  {
    if status == 429 then Busy else if status == 403 then Forbidden else Generic
  }

  /** The reply used when the service returns no candidate text. */
  function CannedReply(c: Contact): string {
    "I apologize, but I'm having trouble generating a response right now. \n\n" +
    "For accurate and immediate information about Skill Up Institute, please:\n\n" +
    "📞 Call: " + Join(c.phone, " or ") + "\n" +
    "📧 Email: " + c.email + "\n" +
    "🌐 Visit: " + c.website.GetOr("undefined") + "\n\n" +
    "Our team will be happy to assist you with any questions about courses, admissions, or fees!"
  }

  /** The text sent as `reply`. */
  function TextOf(t: ReplyText): string {
    match t
    case ModelText(s) => s
    case CannedText(c) => CannedReply(c)
  }

  /** `conversationId || null`. */
  function EchoId(id: Json): (r: Json)
    ensures Truthy(id) ==> r == id
    ensures !Truthy(id) ==> r == JNull
  {
    if Truthy(id) then id else JNull
  }

  /** The reply built from the final state of the ladder. */
  function Conclude(st: Progress, kb: KnowledgeBase, conversationId: Json): (r: Reply)
    ensures StatusOf(r) == 200
    ensures r.SoftError? <==> !st.crashed && !IsOk(st.upstream)
    ensures !st.crashed && !IsOk(st.upstream) ==> r == SoftError(TroubleFor(st.upstream.status), kb.contact)
    ensures r.Answer? ==> r.model == st.attempt.model && r.conversationId == EchoId(conversationId)
    ensures (!st.crashed && IsOk(st.upstream) && st.upstream.payload.Parsed? && st.upstream.payload.text.Some? &&
      st.upstream.payload.text.value != "") ==> r.Answer? && r.reply == ModelText(st.upstream.payload.text.value)
  {
    if st.crashed then ServerFault
    else if !IsOk(st.upstream) then SoftError(TroubleFor(st.upstream.status), kb.contact)
    else match st.upstream.payload
      case NotJson => ServerFault
      case Parsed(text) =>
        if text.Some? && text.value != "" then Answer(ModelText(text.value), st.attempt.model, EchoId(conversationId))
        else match kb.contact
          case None => ServerFault
          case Some(c) => Answer(CannedText(c), st.attempt.model, EchoId(conversationId))
  }

  /** The whole handler: its reply and the upstream calls it makes, in order.
      `body` is `None` when the request body is not JSON or is `null` (reading
      or destructuring it throws); any other JSON value that is not an object
      destructures to `Some(RequestBody(JUndefined, JUndefined))`, which is
      refused with 400. */
  function PostSpec(body: Option<RequestBody>, env: Env, kb: Option<KnowledgeBase>,
                    gen: Generator, list: Lister): (Reply, seq<Call>)
  {
    match body
    case None => (ServerFault, [])
    case Some(b) =>
      match ValidateMessage(b.message)
      case Some(rejection) => (rejection, [])
      case None =>
        if !IsSet(env.apiKey) then (Rejected(NoCredential), [])
        else match kb
          case None => (Rejected(NoKnowledgeBase), [])
          case Some(k) =>
            var st := Fallback(gen, list, PrimaryAttempt(env));
            (Conclude(st, k, b.conversationId), st.calls)
  }

  /** The request passed every check that precedes the first upstream call. */
  predicate Accepted(body: Option<RequestBody>, env: Env, kb: Option<KnowledgeBase>) {
    body.Some? && ValidateMessage(body.value.message).None? && IsSet(env.apiKey) && kb.Some?
  }

  // ---------------------------------------------------------------------------
  // The handler
  // ---------------------------------------------------------------------------

  /** `POST`: the reply and the trace of upstream calls. */
  method Post(body: Option<RequestBody>, env: Env, kb: Option<KnowledgeBase>, gen: Generator, list: Lister)
    returns (reply: Reply, calls: seq<Call>)
    ensures (reply, calls) == PostSpec(body, env, kb, gen, list)
  {
    if body.None? {
      return ServerFault, [];
    }
    var b := body.value;
    var rejection := ValidateMessage(b.message);
    if rejection.Some? {
      return rejection.value, [];
    }
    if !IsSet(env.apiKey) {
      return Rejected(NoCredential), [];
    }
    if kb.None? {
      return Rejected(NoKnowledgeBase), [];
    }
    var primary := PrimaryAttempt(env);
    var attemptModel, attemptVersion := primary.model, primary.version;
    var upstream := CallGenerate(gen, primary);
    calls := [Generate(primary)];
    ghost var expected := Fallback(gen, list, primary);

    if !IsOk(upstream) && upstream.status == 404 {
      var attempt;
      upstream, attempt, calls := TryStrategies(gen, upstream, primary, calls);
      attemptModel, attemptVersion := attempt.model, attempt.version;

      if !IsOk(upstream) {
        var attempt, crashed;
        upstream, attempt, calls, crashed := Discover(gen, list, upstream, Attempt(attemptModel, attemptVersion), calls);
        if crashed {
          return ServerFault, calls;
        }
        attemptModel, attemptVersion := attempt.model, attempt.version;
      }
    }
    assert expected == Progress(upstream, Attempt(attemptModel, attemptVersion), calls, false);
    reply := Conclude(Progress(upstream, Attempt(attemptModel, attemptVersion), calls, false), kb.value, b.conversationId);
  }

  /** The strategy loop of `POST`: call each fallback strategy in turn and
      keep the first ok response. */
  method TryStrategies(gen: Generator, upstream0: Upstream, primary: Attempt, calls0: seq<Call>)
    returns (upstream: Upstream, attempt: Attempt, calls: seq<Call>)
    requires !IsOk(upstream0)
    ensures Progress(upstream, attempt, calls, false) ==
      RunStrategies(gen, Progress(upstream0, primary, calls0, false), FallbackStrategies(primary))
  {
    upstream, attempt, calls := upstream0, primary, calls0;
    var strategies := FallbackStrategies(primary);
    ghost var result := RunStrategies(gen, Progress(upstream0, primary, calls0, false), strategies);
    var i := 0;
    while i < |strategies|
      invariant 0 <= i <= |strategies|
      invariant !IsOk(upstream) && attempt == primary
      invariant result == RunStrategies(gen, Progress(upstream, primary, calls, false), strategies[i..])
    {
      var resp := CallGenerate(gen, strategies[i]);
      calls := calls + [Generate(strategies[i])];
      if IsOk(resp) {
        upstream, attempt := resp, strategies[i];
        return;
      }
      i := i + 1;
    }
  }

  /** The discovery loop of `POST`: list the models of each preferred
      version, call the pick, keep the first ok response. A nameless pick
      throws, which `crashed` reports. */
  method Discover(gen: Generator, list: Lister, upstream0: Upstream, attempt0: Attempt, calls0: seq<Call>)
    returns (upstream: Upstream, attempt: Attempt, calls: seq<Call>, crashed: bool)
    requires !IsOk(upstream0)
    ensures Progress(upstream, attempt, calls, crashed) ==
      RunDiscovery(gen, list, Progress(upstream0, attempt0, calls0, false), [attempt0.version, Flip(attempt0.version)])
  {
    upstream, attempt, calls, crashed := upstream0, attempt0, calls0, false;
    var preferredOrder := [attempt0.version, Flip(attempt0.version)];
    ghost var result := RunDiscovery(gen, list, Progress(upstream0, attempt0, calls0, false), preferredOrder);
    var j := 0;
    while j < |preferredOrder|
      invariant 0 <= j <= |preferredOrder|
      invariant !IsOk(upstream) && attempt == attempt0
      invariant result == RunDiscovery(gen, list, Progress(upstream, attempt, calls, false), preferredOrder[j..])
    {
      var ver := preferredOrder[j];
      var models := list(ver);
      calls := calls + [ListModels(ver)];
      if |models| > 0 {
        var picked := FirstSettled(models, DiscoveryChoices(attempt.model));
        if picked.NamelessModel? {
          crashed := true;
          return;
        }
        if picked.Picked? {
          var tryResp := CallGenerate(gen, Attempt(picked.id, ver));
          calls := calls + [Generate(Attempt(picked.id, ver))];
          if IsOk(tryResp) {
            upstream, attempt := tryResp, Attempt(picked.id, ver);
            return;
          }
        }
      }
      j := j + 1;
    }
  }

  // ---------------------------------------------------------------------------
  // Properties of the ladder
  // ---------------------------------------------------------------------------

  /** The calls a loop makes come after the calls already made. */
  lemma {:induction false} RunStrategiesExtends(gen: Generator, st: Progress, xs: seq<Attempt>)
    ensures |st.calls| <= |RunStrategies(gen, st, xs).calls|
    ensures RunStrategies(gen, st, xs).calls[..|st.calls|] == st.calls
    decreases |xs|
  {
    if xs != [] && !IsOk(CallGenerate(gen, xs[0])) {
      var next := st.(calls := st.calls + [Generate(xs[0])]);
      RunStrategiesExtends(gen, next, xs[1..]);
      assert next.calls[..|st.calls|] == st.calls;
    }
  }

  lemma {:induction false} RunDiscoveryExtends(gen: Generator, list: Lister, st: Progress, versions: seq<string>)
    ensures |st.calls| <= |RunDiscovery(gen, list, st, versions).calls|
    ensures RunDiscovery(gen, list, st, versions).calls[..|st.calls|] == st.calls
    decreases |versions|
  {
    if versions != [] {
      var (next, goOn) := DiscoverOne(gen, list, st, versions[0]);
      DiscoverOneExtends(gen, list, st, versions[0]);
      if goOn {
        RunDiscoveryExtends(gen, list, next, versions[1..]);
        assert RunDiscovery(gen, list, st, versions).calls[..|st.calls|]
            == RunDiscovery(gen, list, next, versions[1..]).calls[..|next.calls|][..|st.calls|];
      }
    }
  }

  /** One discovery pass appends to the calls and lists `ver` exactly once. */
  lemma DiscoverOneExtends(gen: Generator, list: Lister, st: Progress, ver: string)
    ensures |st.calls| <= |DiscoverOne(gen, list, st, ver).0.calls|
    ensures DiscoverOne(gen, list, st, ver).0.calls[..|st.calls|] == st.calls
    ensures ListedVersions(DiscoverOne(gen, list, st, ver).0.calls) == ListedVersions(st.calls) + [ver]
  {
    var listed := st.(calls := st.calls + [ListModels(ver)]);
    ListedVersionsAppend(st.calls, [ListModels(ver)]);
    assert listed.calls[..|st.calls|] == st.calls;
    var models := list(ver);
    if |models| > 0 {
      var p := FirstSettled(models, DiscoveryChoices(st.attempt.model));
      TryPickExtends(gen, listed, p, ver);
      var r := TryPick(gen, listed, p, ver).0;
      assert r.calls[..|st.calls|] == r.calls[..|listed.calls|][..|st.calls|];
    }
  }

  lemma TryPickExtends(gen: Generator, listed: Progress, p: Pick, ver: string)
    ensures |listed.calls| <= |TryPick(gen, listed, p, ver).0.calls|
    ensures TryPick(gen, listed, p, ver).0.calls[..|listed.calls|] == listed.calls
    ensures ListedVersions(TryPick(gen, listed, p, ver).0.calls) == ListedVersions(listed.calls)
  {
    if p.Picked? {
      var a := Attempt(p.id, ver);
      ListedVersionsAppend(listed.calls, [Generate(a)]);
      assert (listed.calls + [Generate(a)])[..|listed.calls|] == listed.calls;
    }
  }

  /** A discovery pass that does not end the loop with an ok response keeps
      the response and the attempt. */
  lemma DiscoverOneKeeps(gen: Generator, list: Lister, st: Progress, ver: string)
    ensures DiscoverOne(gen, list, st, ver).1 || !IsOk(DiscoverOne(gen, list, st, ver).0.upstream) ==>
      DiscoverOne(gen, list, st, ver).0.upstream == st.upstream && DiscoverOne(gen, list, st, ver).0.attempt == st.attempt
  {
    var listed := st.(calls := st.calls + [ListModels(ver)]);
    if |list(ver)| > 0 {
      TryPickKeeps(gen, listed, FirstSettled(list(ver), DiscoveryChoices(st.attempt.model)), ver);
    }
  }

  lemma TryPickKeeps(gen: Generator, listed: Progress, p: Pick, ver: string)
    ensures TryPick(gen, listed, p, ver).1 || !IsOk(TryPick(gen, listed, p, ver).0.upstream) ==>
      TryPick(gen, listed, p, ver).0.upstream == listed.upstream && TryPick(gen, listed, p, ver).0.attempt == listed.attempt
  {
  }

  /** A discovery pass keeps the state consistent. */
  lemma DiscoverOneConsistent(gen: Generator, list: Lister, st: Progress, ver: string)
    requires Consistent(gen, st)
    ensures Consistent(gen, DiscoverOne(gen, list, st, ver).0)
  {
    var listed := st.(calls := st.calls + [ListModels(ver)]);
    assert listed.calls[..|st.calls|] == st.calls;
    if |list(ver)| > 0 {
      TryPickConsistent(gen, listed, FirstSettled(list(ver), DiscoveryChoices(st.attempt.model)), ver);
    }
  }

  lemma TryPickConsistent(gen: Generator, listed: Progress, p: Pick, ver: string)
    requires Consistent(gen, listed)
    ensures Consistent(gen, TryPick(gen, listed, p, ver).0)
  {
    if p.Picked? {
      var a := Attempt(p.id, ver);
      assert (listed.calls + [Generate(a)])[..|listed.calls|] == listed.calls;
    }
  }

  /** The first upstream call is always the primary attempt. */
  lemma FallbackStartsWithPrimary(gen: Generator, list: Lister, primary: Attempt)
    ensures |Fallback(gen, list, primary).calls| >= 1
    ensures Fallback(gen, list, primary).calls[0] == Generate(primary)
  {
    var r := Fallback(gen, list, primary);
    var u := CallGenerate(gen, primary);
    var st0 := Progress(u, primary, [Generate(primary)], false);
    if !IsOk(u) && u.status == 404 {
      var st1 := RunStrategies(gen, st0, FallbackStrategies(primary));
      RunStrategiesExtends(gen, st0, FallbackStrategies(primary));
      assert st1.calls[..1] == [Generate(primary)];
      if !IsOk(st1.upstream) {
        var vs := [st1.attempt.version, Flip(st1.attempt.version)];
        assert r == RunDiscovery(gen, list, st1, vs);
        RunDiscoveryExtends(gen, list, st1, vs);
        assert r.calls[..1] == r.calls[..|st1.calls|][..1];
      } else {
        assert r == st1;
      }
      assert r.calls[..1] == [Generate(primary)];
    }
    assert r.calls[0] == r.calls[..1][0];
  }

  /** Only a 404 on the primary call starts the ladder: a 408 (time-out), a 429
      or a 403 is answered after exactly one call. */
  lemma NoLadderUnless404(gen: Generator, list: Lister, primary: Attempt)
    requires IsOk(CallGenerate(gen, primary)) || CallGenerate(gen, primary).status != 404
    ensures Fallback(gen, list, primary) == Progress(CallGenerate(gen, primary), primary, [Generate(primary)], false)
  {
  }

  /** The loop stops at the first strategy whose response is ok. */
  lemma {:induction false} RunStrategiesFirstOk(gen: Generator, st: Progress, xs: seq<Attempt>, k: nat)
    requires k < |xs| && IsOk(CallGenerate(gen, xs[k]))
    requires forall j :: 0 <= j < k ==> !IsOk(CallGenerate(gen, xs[j]))
    ensures RunStrategies(gen, st, xs) == Progress(CallGenerate(gen, xs[k]), xs[k], st.calls + GenerateAll(xs[..k + 1]), false)
    decreases k
  {
    if k > 0 {
      var next := st.(calls := st.calls + [Generate(xs[0])]);
      RunStrategiesFirstOk(gen, next, xs[1..], k - 1);
      assert xs[..k + 1][1..] == xs[1..][..k];
      assert GenerateAll(xs[..k + 1]) == [Generate(xs[0])] + GenerateAll(xs[1..][..k]);
    } else {
      assert xs[..1][1..] == [];
    }
  }

  /** When every strategy fails, each was called once, in order, and the
      state is otherwise unchanged. */
  lemma {:induction false} RunStrategiesAllFail(gen: Generator, st: Progress, xs: seq<Attempt>)
    requires forall j :: 0 <= j < |xs| ==> !IsOk(CallGenerate(gen, xs[j]))
    ensures RunStrategies(gen, st, xs) == st.(calls := st.calls + GenerateAll(xs))
    decreases |xs|
  {
    if xs != [] {
      var next := st.(calls := st.calls + [Generate(xs[0])]);
      RunStrategiesAllFail(gen, next, xs[1..]);
    }
  }

  /** After a 404, the first successful strategy is the one reported, and no
      later strategy is tried. */
  lemma FirstSuccessfulStrategyWins(gen: Generator, list: Lister, primary: Attempt, k: nat)
    requires CallGenerate(gen, primary).status == 404
    requires k < 4 && IsOk(CallGenerate(gen, FallbackStrategies(primary)[k]))
    requires forall j :: 0 <= j < k ==> !IsOk(CallGenerate(gen, FallbackStrategies(primary)[j]))
    ensures Fallback(gen, list, primary) ==
      Progress(CallGenerate(gen, FallbackStrategies(primary)[k]), FallbackStrategies(primary)[k],
               [Generate(primary)] + GenerateAll(FallbackStrategies(primary)[..k + 1]), false)
  {
    var st0 := Progress(CallGenerate(gen, primary), primary, [Generate(primary)], false);
    RunStrategiesFirstOk(gen, st0, FallbackStrategies(primary), k);
  }

  /** When all four strategies fail, discovery follows, listing the attempted
      version first and the other version second. */
  lemma DiscoveryAfterStrategies(gen: Generator, list: Lister, primary: Attempt)
    requires CallGenerate(gen, primary).status == 404
    requires forall j :: 0 <= j < 4 ==> !IsOk(CallGenerate(gen, FallbackStrategies(primary)[j]))
    ensures Fallback(gen, list, primary) ==
      RunDiscovery(gen, list,
        Progress(CallGenerate(gen, primary), primary, [Generate(primary)] + GenerateAll(FallbackStrategies(primary)), false),
        [primary.version, Flip(primary.version)])
  {
    var st0 := Progress(CallGenerate(gen, primary), primary, [Generate(primary)], false);
    RunStrategiesAllFail(gen, st0, FallbackStrategies(primary));
  }

  /** The versions listed by a sequence of calls. */
  function ListedVersions(calls: seq<Call>): (r: seq<string>)
    ensures |r| <= |calls|
  {
    if calls == [] then []
    else (if calls[0].ListModels? then [calls[0].version] else []) + ListedVersions(calls[1..])
  }

  lemma {:induction false} ListedVersionsAppend(a: seq<Call>, b: seq<Call>)
    ensures ListedVersions(a + b) == ListedVersions(a) + ListedVersions(b)
    decreases |a|
  {
    if a != [] {
      ListedVersionsAppend(a[1..], b);
      assert (a + b)[1..] == a[1..] + b;
    } else {
      assert a + b == b;
    }
  }

  /** Discovery lists a non-empty prefix of the versions, in the order given:
      it stops only after the version whose picked model answers. */
  lemma {:induction false} DiscoveryListsInOrder(gen: Generator, list: Lister, st: Progress, versions: seq<string>)
    requires versions != []
    ensures ListsPrefix(ListedVersions(st.calls), ListedVersions(RunDiscovery(gen, list, st, versions).calls), versions)
    decreases |versions|
  {
    var (next, goOn) := DiscoverOne(gen, list, st, versions[0]);
    DiscoverOneExtends(gen, list, st, versions[0]);
    PrefixCons(versions, 0);
    if goOn && versions[1..] != [] {
      DiscoveryListsInOrder(gen, list, next, versions[1..]);
      ListsPrefixCons(ListedVersions(st.calls), ListedVersions(RunDiscovery(gen, list, next, versions[1..]).calls), versions);
    }
  }

  /** Once the picked model of a version answers ok, discovery ends with that
      response: the listing and the one generate call are the last calls. */
  lemma DiscoveryStopsAtFirstOk(gen: Generator, list: Lister, st: Progress, versions: seq<string>)
    requires versions != [] && !IsOk(st.upstream)
    requires IsOk(DiscoverOne(gen, list, st, versions[0]).0.upstream)
    ensures RunDiscovery(gen, list, st, versions) == DiscoverOne(gen, list, st, versions[0]).0
    ensures RunDiscovery(gen, list, st, versions).calls ==
      st.calls + [ListModels(versions[0]), Generate(RunDiscovery(gen, list, st, versions).attempt)]
    ensures RunDiscovery(gen, list, st, versions).attempt.version == versions[0]
  {
    var models := list(versions[0]);
    var listed := st.(calls := st.calls + [ListModels(versions[0])]);
    assert |models| != 0;
    var p := FirstSettled(models, DiscoveryChoices(st.attempt.model));
    assert p.Picked?;
    assert !DiscoverOne(gen, list, st, versions[0]).1;
  }

  /** `after` is `before` followed by a non-empty prefix of `versions`. */
  predicate ListsPrefix(before: seq<string>, after: seq<string>, versions: seq<string>) {
    |before| < |after| <= |before| + |versions| && after == before + versions[..|after| - |before|]
  }

  lemma ListsPrefixCons(before: seq<string>, after: seq<string>, versions: seq<string>)
    requires |versions| > 1 && ListsPrefix(before + [versions[0]], after, versions[1..])
    ensures ListsPrefix(before, after, versions)
  {
    var m := |after| - |before| - 1;
    PrefixCons(versions, m);
  }

  lemma PrefixCons<T>(xs: seq<T>, m: nat)
    requires m < |xs|
    ensures xs[..m + 1] == [xs[0]] + xs[1..][..m]
  {
  }

  /** The state of the ladder is consistent: the attempt it holds was called,
      and when the response it holds is ok it is that attempt's response. */
  predicate Consistent(gen: Generator, st: Progress) {
    Generate(st.attempt) in st.calls && (IsOk(st.upstream) ==> st.upstream == CallGenerate(gen, st.attempt))
  }

  lemma {:induction false} RunStrategiesConsistent(gen: Generator, st: Progress, xs: seq<Attempt>)
    requires Consistent(gen, st)
    ensures Consistent(gen, RunStrategies(gen, st, xs))
    decreases |xs|
  {
    if xs != [] {
      var next := st.(calls := st.calls + [Generate(xs[0])]);
      if !IsOk(CallGenerate(gen, xs[0])) {
        RunStrategiesConsistent(gen, next, xs[1..]);
      }
    }
  }

  lemma {:induction false} RunDiscoveryConsistent(gen: Generator, list: Lister, st: Progress, versions: seq<string>)
    requires Consistent(gen, st)
    ensures Consistent(gen, RunDiscovery(gen, list, st, versions))
    decreases |versions|
  {
    if versions != [] {
      var (next, goOn) := DiscoverOne(gen, list, st, versions[0]);
      DiscoverOneConsistent(gen, list, st, versions[0]);
      if goOn {
        RunDiscoveryConsistent(gen, list, next, versions[1..]);
      }
    }
  }

  /** A failed discovery leaves the response and the attempt it started with. */
  lemma {:induction false} DiscoveryFailureKeepsState(gen: Generator, list: Lister, st: Progress, versions: seq<string>)
    requires !IsOk(st.upstream)
    ensures !IsOk(RunDiscovery(gen, list, st, versions).upstream) ==>
      RunDiscovery(gen, list, st, versions).upstream == st.upstream &&
      RunDiscovery(gen, list, st, versions).attempt == st.attempt
    decreases |versions|
  {
    if versions != [] {
      var (next, goOn) := DiscoverOne(gen, list, st, versions[0]);
      DiscoverOneKeeps(gen, list, st, versions[0]);
      if goOn {
        DiscoveryFailureKeepsState(gen, list, next, versions[1..]);
      }
    }
  }

  /** The model the handler reports was called, and its call produced the ok
      response the reply is built from. */
  lemma FallbackConsistent(gen: Generator, list: Lister, primary: Attempt)
    ensures Consistent(gen, Fallback(gen, list, primary))
  {
    var u := CallGenerate(gen, primary);
    var st0 := Progress(u, primary, [Generate(primary)], false);
    if !IsOk(u) && u.status == 404 {
      RunStrategiesConsistent(gen, st0, FallbackStrategies(primary));
      var st1 := RunStrategies(gen, st0, FallbackStrategies(primary));
      if !IsOk(st1.upstream) {
        RunDiscoveryConsistent(gen, list, st1, [st1.attempt.version, Flip(st1.attempt.version)]);
      }
    }
  }

  /** Once the primary call is a 404, a failure that survives the ladder is
      reported with the primary call's status: the strategies' and discovery's
      own failure statuses are dropped. */
  lemma LadderFailureKeeps404(gen: Generator, list: Lister, primary: Attempt)
    requires CallGenerate(gen, primary).status == 404
    ensures !IsOk(Fallback(gen, list, primary).upstream) ==> Fallback(gen, list, primary).upstream.status == 404
  {
    var st0 := Progress(CallGenerate(gen, primary), primary, [Generate(primary)], false);
    var st1 := RunStrategies(gen, st0, FallbackStrategies(primary));
    if !IsOk(st1.upstream) {
      if forall j :: 0 <= j < 4 ==> !IsOk(CallGenerate(gen, FallbackStrategies(primary)[j])) {
        RunStrategiesAllFail(gen, st0, FallbackStrategies(primary));
        DiscoveryFailureKeepsState(gen, list, st1, [st1.attempt.version, Flip(st1.attempt.version)]);
      } else {
        var k :| 0 <= k < 4 && IsOk(CallGenerate(gen, FallbackStrategies(primary)[k]));
        FirstOkExists(gen, FallbackStrategies(primary), k);
        var k0 :| 0 <= k0 < 4 && IsOk(CallGenerate(gen, FallbackStrategies(primary)[k0])) &&
          forall j :: 0 <= j < k0 ==> !IsOk(CallGenerate(gen, FallbackStrategies(primary)[j]));
        RunStrategiesFirstOk(gen, st0, FallbackStrategies(primary), k0);
      }
    }
  }

  /** Some strategy is ok, hence there is a first one that is. */
  lemma {:induction false} FirstOkExists(gen: Generator, xs: seq<Attempt>, k: nat)
    requires k < |xs| && IsOk(CallGenerate(gen, xs[k]))
    ensures exists k0 :: (0 <= k0 < |xs| && IsOk(CallGenerate(gen, xs[k0])) &&
      forall j :: 0 <= j < k0 ==> !IsOk(CallGenerate(gen, xs[j])))
    decreases k
  {
    if exists j :: 0 <= j < k && IsOk(CallGenerate(gen, xs[j])) {
      var j :| 0 <= j < k && IsOk(CallGenerate(gen, xs[j]));
      FirstOkExists(gen, xs, j);
    }
  }

  // ---------------------------------------------------------------------------
  // Properties of the handler
  // ---------------------------------------------------------------------------

  /** Validation and configuration are checked before any upstream call; the
      only statuses other than 200 are the 400, 503 and 500 rejections. */
  lemma RejectionsComeFirst(body: Option<RequestBody>, env: Env, kb: Option<KnowledgeBase>, gen: Generator, list: Lister)
    ensures StatusOf(PostSpec(body, env, kb, gen, list).0) in {200, 400, 500, 503}
    ensures StatusOf(PostSpec(body, env, kb, gen, list).0) != 200 <==> body.Some? && !Accepted(body, env, kb)
    ensures PostSpec(body, env, kb, gen, list).1 != [] <==> Accepted(body, env, kb)
    ensures Accepted(body, env, kb) ==> PostSpec(body, env, kb, gen, list).1[0] == Generate(PrimaryAttempt(env))
  {
    if Accepted(body, env, kb) {
      FallbackStartsWithPrimary(gen, list, PrimaryAttempt(env));
    }
  }

  /** A valid message without an API key is refused with 503, and with a key
      but no knowledge base with 500; neither calls the service. */
  lemma ConfigurationRejections(body: Option<RequestBody>, env: Env, kb: Option<KnowledgeBase>, gen: Generator, list: Lister)
    requires body.Some? && ValidateMessage(body.value.message).None?
    ensures !IsSet(env.apiKey) ==> PostSpec(body, env, kb, gen, list) == (Rejected(NoCredential), [])
    ensures IsSet(env.apiKey) && kb.None? ==> PostSpec(body, env, kb, gen, list) == (Rejected(NoKnowledgeBase), [])
    ensures StatusOf(PostSpec(body, env, kb, gen, list).0) == 503 <==> !IsSet(env.apiKey)
    ensures StatusOf(PostSpec(body, env, kb, gen, list).0) == 500 <==> IsSet(env.apiKey) && kb.None?
  {
    if Accepted(body, env, kb) {
      RejectionsComeFirst(body, env, kb, gen, list);
    }
  }

  /** A JSON body that is not an object, such as a number, has no message
      and is refused with 400 before anything else. */
  lemma NonObjectBodyRefused(env: Env, kb: Option<KnowledgeBase>, gen: Generator, list: Lister)
    ensures PostSpec(Some(RequestBody(JUndefined, JUndefined)), env, kb, gen, list) == (Rejected(InvalidInput), [])
    ensures StatusOf(PostSpec(Some(RequestBody(JUndefined, JUndefined)), env, kb, gen, list).0) == 400
  {
  }

  /** An invalid message is refused with 400 before the credential and the
      knowledge base are looked at, whatever the environment holds, and
      nothing upstream is called. */
  lemma InvalidMessageFirst(b: RequestBody, env: Env, kb: Option<KnowledgeBase>, gen: Generator, list: Lister)
    requires ValidateMessage(b.message).Some?
    ensures PostSpec(Some(b), env, kb, gen, list) == (ValidateMessage(b.message).value, [])
    ensures StatusOf(PostSpec(Some(b), env, kb, gen, list).0) == 400
  {
  }

  /** An accepted request is answered from the final state of the ladder. */
  lemma AcceptedRequestRunsLadder(body: Option<RequestBody>, env: Env, kb: Option<KnowledgeBase>, gen: Generator, list: Lister)
    requires Accepted(body, env, kb)
    ensures PostSpec(body, env, kb, gen, list) ==
      (Conclude(Fallback(gen, list, PrimaryAttempt(env)), kb.value, body.value.conversationId),
       Fallback(gen, list, PrimaryAttempt(env)).calls)
  {
  }

  /** A primary call that fails with anything but 404 is reported by its own
      status after one call: 429 as busy, 403 as unavailable, the rest generic. */
  lemma PrimaryFailureReported(body: Option<RequestBody>, env: Env, kb: Option<KnowledgeBase>, gen: Generator, list: Lister)
    requires Accepted(body, env, kb)
    requires !IsOk(CallGenerate(gen, PrimaryAttempt(env))) && CallGenerate(gen, PrimaryAttempt(env)).status != 404
    ensures PostSpec(body, env, kb, gen, list) ==
      (SoftError(TroubleFor(CallGenerate(gen, PrimaryAttempt(env)).status), kb.value.contact), [Generate(PrimaryAttempt(env))])
  {
  }

  /** After a 404 on the primary call the visitor never sees the busy or the
      unavailable text. */
  lemma After404OnlyGenericError(body: Option<RequestBody>, env: Env, kb: Option<KnowledgeBase>, gen: Generator, list: Lister)
    requires Accepted(body, env, kb)
    requires CallGenerate(gen, PrimaryAttempt(env)).status == 404
    ensures PostSpec(body, env, kb, gen, list).0.SoftError? ==> PostSpec(body, env, kb, gen, list).0.trouble == Generic
  {
    var st := Fallback(gen, list, PrimaryAttempt(env));
    AcceptedRequestRunsLadder(body, env, kb, gen, list);
    LadderFailureKeeps404(gen, list, PrimaryAttempt(env));
    var r := Conclude(st, kb.value, body.value.conversationId);
    assert PostSpec(body, env, kb, gen, list).0 == r;
    if r.SoftError? {
      assert st.upstream.status == 404;
    }
  }

  /** An answer names a model whose generate call was made and answered ok. */
  lemma AnswerNamesServingModel(body: Option<RequestBody>, env: Env, kb: Option<KnowledgeBase>, gen: Generator, list: Lister)
    requires PostSpec(body, env, kb, gen, list).0.Answer?
    ensures exists v :: (Generate(Attempt(PostSpec(body, env, kb, gen, list).0.model, v)) in PostSpec(body, env, kb, gen, list).1 &&
      IsOk(CallGenerate(gen, Attempt(PostSpec(body, env, kb, gen, list).0.model, v))))
  {
    assert Accepted(body, env, kb);
    var st := Fallback(gen, list, PrimaryAttempt(env));
    var r := Conclude(st, kb.value, body.value.conversationId);
    AcceptedRequestRunsLadder(body, env, kb, gen, list);
    FallbackConsistent(gen, list, PrimaryAttempt(env));
    assert Attempt(r.model, st.attempt.version) == st.attempt;
  }
}
