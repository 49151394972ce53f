/**
 * Self-registration of an integration type in the Gundi registry: the slug is resolved and
 * normalised, a registration payload is built from the action-handler table, and the payload
 * is submitted with a bounded retry on HTTP errors.
 *
 * The registry client is a script `client: nat -> Outcome`: `client(k)` is what the client's
 * `register_integration_type` does on its k-th call (counting from 0).
 */
module SelfRegistration {
  import opened Wrappers
  import opened PyStr

  /** `attempts=3` of the retry context. */
  const MaxAttempts: nat := 3

  const MissingSlugMessage: string :=
    "Please define a slug id for this integration type, either passing it in the type_slug argument or setting it in the INTEGRATION_TYPE_SLUG setting."

  const TypeDescriptionPrefix: string := "Default type for integrations with "

  const ActionDescriptionSuffix: string := " action"

  // ---------------------------------------------------------------------------
  // Data model
  // ---------------------------------------------------------------------------

  /** The JSON schema of an action's configuration model, treated as an opaque document. */
  datatype Schema = Schema(document: string)

  /**
   * An action's configuration model: whether it is a subclass of the authentication, pull and
   * push configuration base classes, and its schema.
   */
  datatype ConfigModel = ConfigModel(isAuth: bool, isPull: bool, isPush: bool, schema: Schema)

  /** One entry of the action-handler table: the action id and its configuration model. */
  type Handler = (string, ConfigModel)

  datatype ActionType = Authentication | PullData | PushData | Generic

  /** One element of the payload's `actions` list. */
  datatype ActionEntry = ActionEntry(
    actionType: ActionType,
    name: string,
    value: string,
    description: string,
    schema: Schema,
    isPeriodicAction: bool)

  /** The registration payload (`data`); `serviceUrl` is `None` when the key is absent. */
  datatype Payload = Payload(
    name: string,
    value: string,
    description: string,
    serviceUrl: Option<string>,
    actions: seq<ActionEntry>)

  datatype Response = Response(body: string)

  /** What one call of `register_integration_type` does: return, or raise an error of a class. */
  datatype Outcome = Returned(response: Response) | HttpError(detail: string) | OtherError(detail: string)

  /** The exceptions the routine can raise. */
  datatype Failure = ValueError(message: string) | RaisedHttpError(detail: string) | RaisedOtherError(detail: string)

  /** The top-level keys of the payload dictionary. */
  function Keys(data: Payload): set<string> {
    {"name", "value", "description", "actions"} + if data.serviceUrl.Some? then {"service_url"} else {}
  }

  /** Python truthiness of an optional string: present and non-empty. */
  predicate Truthy(s: Option<string>) {
    s.Some? && s.value != ""
  }

  // ---------------------------------------------------------------------------
  // Slug resolution and names
  // ---------------------------------------------------------------------------

  /** `type_slug or INTEGRATION_TYPE_SLUG`, and the `ValueError` when that is falsy. */
  function ResolveSlug(typeSlug: Option<string>, defaultSlug: Option<string>): (r: Result<string, Failure>)
    ensures r.Err? <==> !Truthy(typeSlug) && !Truthy(defaultSlug)
    ensures r.Err? ==> r.error == ValueError(MissingSlugMessage)
    ensures Truthy(typeSlug) ==> r == Ok(typeSlug.value)
    ensures !Truthy(typeSlug) && Truthy(defaultSlug) ==> r == Ok(defaultSlug.value)
    ensures r.Ok? ==> r.value != ""
  {
    if Truthy(typeSlug) then Ok(typeSlug.value)
    else if Truthy(defaultSlug) then Ok(defaultSlug.value)
    else Err(ValueError(MissingSlugMessage))
  }

  /** `slug.strip().lower()`: no surrounding whitespace and no capital letters are left. */
  function NormalizeSlug(slug: string): (r: string)
    ensures Trimmed(r)
    ensures forall i :: 0 <= i < |r| ==> !IsUpper(r[i])
    ensures r == [] <==> AllSpace(slug)
  {
    var t := Strip(slug);
    LowerKeepsSpace(t);
    LowerHasNoUpper(t);
    Lower(t)
  }

  /** `s.replace("_", " ").title()`: the display name for a slug or an action id. */
  function DisplayName(s: string): (r: string)
    ensures |r| == |s|
    ensures '_' !in r
    ensures Lower(r) == Lower(ReplaceChar(s, '_', ' '))
  {
    var spaced := ReplaceChar(s, '_', ' ');
    ReplaceCharLeavesNoOld(s, '_', ' ');
    LowerOfTitle(spaced);
    assert forall i :: 0 <= i < |spaced| ==> Title(spaced)[i] != '_' by {
      forall i | 0 <= i < |spaced| ensures Title(spaced)[i] != '_' {
        TitleAt(spaced, i);
      }
    }
    Title(spaced)
  }

  // ---------------------------------------------------------------------------
  // Classification
  // ---------------------------------------------------------------------------

  /** The `issubclass` chain: authentication first, then pull, then push, else generic. */
  function Classify(config: ConfigModel): (t: ActionType)
    ensures t == Authentication <==> config.isAuth
    ensures t == PullData <==> !config.isAuth && config.isPull
    ensures t == PushData <==> !config.isAuth && !config.isPull && config.isPush
    ensures t == Generic <==> !config.isAuth && !config.isPull && !config.isPush
  {
    if config.isAuth then Authentication
    else if config.isPull then PullData
    else if config.isPush then PushData
    else Generic
  }

  /**
   * The periodic flag is the pull marker, tested on its own: it agrees with the pull-data type
   * except for a configuration that is also an authentication one.
   */
  lemma PeriodicVersusType(config: ConfigModel)
    ensures Classify(config) == PullData ==> config.isPull
    ensures config.isPull ==> Classify(config) in {Authentication, PullData}
    ensures !config.isAuth ==> (config.isPull <==> Classify(config) == PullData)
  {
  }


  // ---------------------------------------------------------------------------
  // Payload construction
  // ---------------------------------------------------------------------------

  /** What the loop body appends for one handler. */
  ghost predicate IsEntryFor(e: ActionEntry, integrationName: string, h: Handler) {
    e.value == h.0 &&
    e.name == DisplayName(h.0) &&
    e.description == integrationName + " " + e.name + ActionDescriptionSuffix &&
    e.schema == h.1.schema &&
    e.actionType == Classify(h.1) &&
    e.isPeriodicAction == h.1.isPull
  }

  /**
   * An entry built for a configuration that is both authentication and pull (push or not) is
   * typed Authentication and still carries `is_periodic_action`.
   */
  lemma AuthAndPullIsPeriodicAuthentication(e: ActionEntry, integrationName: string, h: Handler)
    requires IsEntryFor(e, integrationName, h) && h.1.isAuth && h.1.isPull
    ensures e.actionType == Authentication && e.isPeriodicAction
  {
  }

  /** One entry per handler, in table order. */
  ghost predicate IsActionsFor(actions: seq<ActionEntry>, integrationName: string, handlers: seq<Handler>) {
    |actions| == |handlers| &&
    forall i :: 0 <= i < |handlers| ==> IsEntryFor(actions[i], integrationName, handlers[i])
  }

  /** The payload built from a normalised slug, the service URL argument and the handler table. */
  ghost predicate IsPayloadFor(data: Payload, slug: string, serviceUrl: Option<string>, handlers: seq<Handler>) {
    var name := DisplayName(slug);
    data.name == name &&
    data.value == slug &&
    data.description == TypeDescriptionPrefix + name &&
    data.serviceUrl == (if Truthy(serviceUrl) then serviceUrl else None) &&
    IsActionsFor(data.actions, name, handlers)
  }

  /** The `for action_id, handler in action_handlers.items()` loop. */
  method BuildActions(integrationName: string, handlers: seq<Handler>) returns (actions: seq<ActionEntry>)
    ensures IsActionsFor(actions, integrationName, handlers)
  {
    actions := [];
    for k := 0 to |handlers|
      invariant |actions| == k
      invariant forall i :: 0 <= i < k ==> IsEntryFor(actions[i], integrationName, handlers[i])
    {
      var (actionId, configModel) := handlers[k];
      var actionName := DisplayName(actionId);
      var actionSchema := configModel.schema;
      var actionType := Classify(configModel);
      actions := actions + [ActionEntry(
        actionType,
        actionName,
        actionId,
        integrationName + " " + actionName + ActionDescriptionSuffix,
        actionSchema,
        configModel.isPull)];
    }
  }

  /** The `data` dictionary: fixed fields, then `service_url` if given, then `actions`. */
  method BuildPayload(slug: string, serviceUrl: Option<string>, handlers: seq<Handler>) returns (data: Payload)
    ensures IsPayloadFor(data, slug, serviceUrl, handlers)
  {
    var name := DisplayName(slug);
    data := Payload(name, slug, TypeDescriptionPrefix + name, None, []);
    if Truthy(serviceUrl) {
      data := data.(serviceUrl := serviceUrl);
    }
    var actions := BuildActions(name, handlers);
    data := data.(actions := actions);
  }

  /**
   * The payload is fully determined by its inputs, and the service URL argument decides only the
   * `service_url` key: two payloads for the same slug and table agree everywhere else.
   */
  lemma PayloadDeterminedUpToServiceUrl(
    d1: Payload, d2: Payload, slug: string, u1: Option<string>, u2: Option<string>, handlers: seq<Handler>)
    requires IsPayloadFor(d1, slug, u1, handlers) && IsPayloadFor(d2, slug, u2, handlers)
    ensures d1.(serviceUrl := None) == d2.(serviceUrl := None)
    ensures Keys(d1) - {"service_url"} == Keys(d2) - {"service_url"}
    ensures Truthy(u1) == Truthy(u2) && (Truthy(u1) ==> u1 == u2) ==> d1 == d2
  {
    assert d1.actions == d2.actions by {
      forall i | 0 <= i < |handlers| ensures d1.actions[i] == d2.actions[i] {
        assert IsEntryFor(d1.actions[i], DisplayName(slug), handlers[i]);
        assert IsEntryFor(d2.actions[i], DisplayName(slug), handlers[i]);
      }
    }
  }

  /** The `service_url` key is present exactly when the argument is truthy, and then holds it. */
  lemma ServiceUrlKey(data: Payload, slug: string, serviceUrl: Option<string>, handlers: seq<Handler>)
    requires IsPayloadFor(data, slug, serviceUrl, handlers)
    ensures "service_url" in Keys(data) <==> Truthy(serviceUrl)
    ensures Truthy(serviceUrl) ==> data.serviceUrl == serviceUrl
  {
  }

  /** The `value` of every action is its id, in table order, so distinct ids give distinct values. */
  lemma ActionValuesFollowTable(actions: seq<ActionEntry>, integrationName: string, handlers: seq<Handler>)
    requires IsActionsFor(actions, integrationName, handlers)
    ensures forall i :: 0 <= i < |actions| ==> actions[i].value == handlers[i].0
    ensures (forall i, j :: 0 <= i < j < |handlers| ==> handlers[i].0 != handlers[j].0) ==>
      forall i, j :: 0 <= i < j < |actions| ==> actions[i].value != actions[j].value
  {
    assert forall i :: 0 <= i < |actions| ==> IsEntryFor(actions[i], integrationName, handlers[i]);
  }

  /** The display name is the normalised slug with underscores as spaces, up to case. */
  lemma NameMatchesSlug(raw: string)
    ensures Lower(DisplayName(NormalizeSlug(raw))) == ReplaceChar(NormalizeSlug(raw), '_', ' ')
  {
    var v := NormalizeSlug(raw);
    var spaced := ReplaceChar(v, '_', ' ');
    assert Lower(spaced) == spaced by {
      forall i | 0 <= i < |v| ensures Lower(spaced)[i] == spaced[i] {
        CaseMapsKeepClass(v[i]);
      }
    }
  }

  /** Normalising a normalised slug changes nothing. */
  lemma NormalizeIdempotent(raw: string)
    ensures NormalizeSlug(NormalizeSlug(raw)) == NormalizeSlug(raw)
  {
    var t := Strip(raw);
    LowerCommutesWithStrip(t);
    StripIdempotent(raw);
    LowerIdempotent(t);
  }

  /**
   * The emptiness test comes before `strip()`: a whitespace-only slug is accepted and
   * registers the empty value and name.
   */
  lemma WhitespaceOnlySlugAccepted(slug: string, defaultSlug: Option<string>)
    requires slug != [] && AllSpace(slug)
    ensures ResolveSlug(Some(slug), defaultSlug) == Ok(slug)
    ensures NormalizeSlug(slug) == [] && DisplayName(NormalizeSlug(slug)) == []
  {
  }

  // ---------------------------------------------------------------------------
  // Bounded retry
  // ---------------------------------------------------------------------------

  /** How the outcome of a call surfaces from the routine: returned or raised unchanged. */
  function Surface(o: Outcome): Result<Response, Failure> {
    match o
    case Returned(resp) => Ok(resp)
    case HttpError(d) => Err(RaisedHttpError(d))
    case OtherError(d) => Err(RaisedOtherError(d))
  }

  /**
   * The retry context from attempt `k` on: the result and the total number of calls made.
   * An HTTP error is retried while attempts remain; anything else ends the loop.
   */
  function RetryRun(client: nat -> Outcome, k: nat): (r: (Result<Response, Failure>, nat))
    requires k < MaxAttempts
    ensures k < r.1 <= MaxAttempts
    ensures r.0 == Surface(client(r.1 - 1))
    decreases MaxAttempts - k
  {
    match client(k)
    case HttpError(d) => if k + 1 < MaxAttempts then RetryRun(client, k + 1) else (Err(RaisedHttpError(d)), k + 1)
    case _ => (Surface(client(k)), k + 1)
  }

  /**
   * What the retry context promises: between 1 and 3 calls, every call before the last raised an
   * HTTP error, the loop stops early only on a call that did not, and the last call's outcome is
   * what the routine returns or raises.
   */
  lemma {:induction false} RetryRunProperties(client: nat -> Outcome, k: nat)
    requires k < MaxAttempts
    ensures var (result, calls) := RetryRun(client, k);
      k < calls <= MaxAttempts &&
      (forall i :: k <= i < calls - 1 ==> client(i).HttpError?) &&
      (calls < MaxAttempts ==> !client(calls - 1).HttpError?) &&
      result == Surface(client(calls - 1))
    decreases MaxAttempts - k
  {
    if client(k).HttpError? && k + 1 < MaxAttempts {
      RetryRunProperties(client, k + 1);
    }
  }

  /**
   * Conversely, the attempt where the loop stops is the first one that is not an HTTP error, or
   * the third: calls up to then raised HTTP errors.
   */
  lemma {:induction false} RetryStopsAt(client: nat -> Outcome, k: nat, n: nat)
    requires k <= n < MaxAttempts
    requires forall i :: k <= i < n ==> client(i).HttpError?
    requires !client(n).HttpError? || n == MaxAttempts - 1
    ensures RetryRun(client, k) == (Surface(client(n)), n + 1)
    decreases n - k
  {
    if k < n {
      assert client(k).HttpError?;
      RetryStopsAt(client, k + 1, n);
    }
  }

  /** Two HTTP errors followed by a success: three calls, and the success is returned. */
  lemma TwoHttpErrorsThenSuccess(resp: Response)
    ensures RetryRun((k: nat) => if k < 2 then HttpError("timeout") else Returned(resp), 0) == (Ok(resp), 3)
  {
    var client := (k: nat) => if k < 2 then HttpError("timeout") else Returned(resp);
    RetryStopsAt(client, 0, 2);
  }

  /** The retry loop of `stamina.retry_context(on=httpx.HTTPError, attempts=3)`. */
  method RegisterWithRetry(client: nat -> Outcome, data: Payload) returns (result: Result<Response, Failure>, sent: seq<Payload>)
    ensures (result, |sent|) == RetryRun(client, 0)
    ensures forall i :: 0 <= i < |sent| ==> sent[i] == data
  {
    var attempt: nat := 0;
    var done := false;
    sent := [];
    result := Err(RaisedHttpError(""));
    while !done
      invariant attempt <= MaxAttempts
      invariant |sent| == attempt
      invariant forall i :: 0 <= i < |sent| ==> sent[i] == data
      invariant done ==> (result, attempt) == RetryRun(client, 0)
      invariant !done ==> attempt < MaxAttempts && RetryRun(client, attempt) == RetryRun(client, 0)
      decreases MaxAttempts - attempt
    {
      var outcome := client(attempt);
      sent := sent + [data];
      attempt := attempt + 1;
      match outcome
      case Returned(resp) =>
        result := Ok(resp);
        done := true;
      case OtherError(d) =>
        result := Err(RaisedOtherError(d));
        done := true;
      case HttpError(d) =>
        if attempt == MaxAttempts {
          result := Err(RaisedHttpError(d));
          done := true;
        }
    }
  }

  // ---------------------------------------------------------------------------
  // The routine
  // ---------------------------------------------------------------------------

  /**
   * `register_integration_in_gundi`: `defaultSlug` is the `INTEGRATION_TYPE_SLUG` setting,
   * `handlers` the action-handler table; `sent` lists the payload of every registry call.
   */
  method RegisterIntegrationInGundi(
    client: nat -> Outcome,
    handlers: seq<Handler>,
    typeSlug: Option<string>,
    defaultSlug: Option<string>,
    serviceUrl: Option<string>)
    returns (result: Result<Response, Failure>, sent: seq<Payload>)
    ensures !Truthy(typeSlug) && !Truthy(defaultSlug) ==>
      result == Err(ValueError(MissingSlugMessage)) && sent == []
    ensures Truthy(typeSlug) || Truthy(defaultSlug) ==>
      var raw := if Truthy(typeSlug) then typeSlug.value else defaultSlug.value;
      1 <= |sent| <= MaxAttempts &&
      (forall i :: 0 <= i < |sent| ==> IsPayloadFor(sent[i], NormalizeSlug(raw), serviceUrl, handlers)) &&
      (result, |sent|) == RetryRun(client, 0)
  {
    var resolved := ResolveSlug(typeSlug, defaultSlug);
    if resolved.Err? {
      return Err(resolved.error), [];
    }
    var slug := NormalizeSlug(resolved.value);
    var data := BuildPayload(slug, serviceUrl, handlers);
    result, sent := RegisterWithRetry(client, data);
    RetryRunProperties(client, 0);
  }
}
