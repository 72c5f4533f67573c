/** The decision of internal/maskinporten/client_state.go: from a snapshot of the custom resource, the
    API client and the secret to the commands that take it where it should be. */
module ClientState {
  import opened Wrappers
  import opened Keys
  import opened Rotation
  import opened World

  datatype ApiView = ApiView(id: string, scopes: Option<seq<string>>, keys: seq<Jwk>)

  datatype Snapshot = Snapshot(crd: Crd, api: Option<ApiView>, manifest: Secret, content: Option<Content>)

  function NewClientState(
    crd: Crd, api: Option<ApiView>, secret: Option<Secret>, content: Option<Content>): Result<Snapshot, FetchError>
  {
    if secret.None? then Err(NoSecret)
    else if api.Some? && api.value.id == "" then Err(EmptyClientId)
    else Ok(Snapshot(crd, api, secret.value, content))
  }

  /** The parts of the API request that depend on the app. */
  datatype Request = Request(name: string, scopes: Option<seq<string>>)

  function BuildApiReq(app: App, crd: Crd): Request { Request(app.ClientName(), crd.scopes) }

  /** A command's data. The id of a client to be created is empty until the API has answered. */
  datatype Cmd =
    | CreateClient(clientId: string, req: Request, newKeys: seq<Jwk>)
    | UpdateSecret(content: Content)
    | UpdateClient(id: string, update: Option<Request>, keys: Option<seq<Jwk>>)
    | DeleteClient(id: string)
    | DeleteSecret

  /** What is read from configuration, clock and random source during one reconciliation. */
  datatype Inputs = Inputs(authority: string, now: Readings, entropy: Entropy)

  function NewContent(id: string, inputs: Inputs, keys: seq<Jwk>): Content
    requires keys != []
  {
    Content(id, inputs.authority, Some(keys), Some(keys[0]))
  }

  /** A new key pair together with its public half. */
  function NewKeys(inputs: Inputs): (r: Result<(seq<Jwk>, seq<Jwk>), CryptoError>)
    ensures r.Ok? ==> |r.value.0| == 1
  {
    match CreateJwks(inputs.now.NotAfter(), inputs.now.issue, inputs.entropy)
    case Err(x) => Err(x)
    case Ok(keys) =>
      match ToPublic(keys)
      case Err(x) => Err(x)
      case Ok(public) => Ok((keys, public))
  }

  function Plan(app: App, inputs: Inputs, s: Snapshot): Result<seq<Cmd>, CryptoError> {
    if s.crd.deleting then Ok(PlanDeletion(s))
    else if s.api.None? then PlanCreation(app, inputs, s)
    else if s.content.None? then PlanRecovery(inputs, s.api.value)
    else PlanUpdate(app, inputs, s, s.api.value, s.content.value)
  }

  function PlanDeletion(s: Snapshot): seq<Cmd> {
    (if s.content.Some? then [DeleteSecret] else []) + (if s.api.Some? then [DeleteClient(s.api.value.id)] else [])
  }

  function PlanCreation(app: App, inputs: Inputs, s: Snapshot): Result<seq<Cmd>, CryptoError> {
    match NewKeys(inputs)
    case Err(x) => Err(x)
    case Ok((keys, public)) =>
      Ok([CreateClient("", BuildApiReq(app, s.crd), public), UpdateSecret(NewContent("", inputs, keys))])
  }

  function PlanRecovery(inputs: Inputs, api: ApiView): Result<seq<Cmd>, CryptoError> {
    match NewKeys(inputs)
    case Err(x) => Err(x)
    case Ok((keys, public)) =>
      Ok([UpdateClient(api.id, None, Some(public)), UpdateSecret(NewContent(api.id, inputs, keys))])
  }

  function PlanUpdate(app: App, inputs: Inputs, s: Snapshot, api: ApiView, content: Content):
    Result<seq<Cmd>, CryptoError>
  {
    match Rotate(inputs.now, inputs.entropy, content.jwks)
    case Err(x) => Err(x)
    case Ok(rotated) =>
      var keys := if rotated.Some? then rotated.value else content.jwks.value;
      match (if rotated.Some? then ToPublic(keys) else Ok([]))
      case Err(x) => Err(x)
      case Ok(public) =>
        Ok((if inputs.authority != content.authority || rotated.Some? then [UpdateSecret(NewContent(api.id, inputs, keys))] else [])
           + (if rotated.Some? then [UpdateClient(api.id, None, Some(public))] else [])
           + (if s.crd.scopes != api.scopes then [UpdateClient(api.id, Some(BuildApiReq(app, s.crd)), None)] else []))
  }

  /** Some key carries exactly one certificate, as all others do, and has more than seven days to go. */
  ghost predicate KeysLast(content: Content, now: Readings) {
    && content.jwks.Some? && content.jwks.value != [] && OneCertificateEach(content.jwks.value)
    && exists k :: k in content.jwks.value && NotAfter(k) - now.threshold > 7 * 24 * 3600 * 1_000_000_000
  }

  /** The decision is to do nothing exactly when everything is as it should be. */
  ghost predicate Settled(inputs: Inputs, s: Snapshot) {
    if s.crd.deleting then s.content.None? && s.api.None?
    else
      && s.api.Some? && s.content.Some?
      && inputs.authority == s.content.value.authority
      && s.crd.scopes == s.api.value.scopes
      && KeysLast(s.content.value, inputs.now)
  }

  lemma NothingToDoIffSettled(app: App, inputs: Inputs, s: Snapshot)
    ensures Plan(app, inputs, s) == Ok([]) <==> Settled(inputs, s)
  {
    var plan := Plan(app, inputs, s);
    assert plan.Ok? && |plan.value| == 0 ==> plan.value == [];
    if !s.crd.deleting && s.api.Some? && s.content.Some? && s.content.value.jwks.Some? {
      var keys := s.content.value.jwks.value;
      if keys != [] && OneCertificateEach(keys) {
        RotationIsNeeded(inputs.now, inputs.entropy, keys);
        assert KeysLast(s.content.value, inputs.now) <==> Rotate(inputs.now, inputs.entropy, s.content.value.jwks) == Ok(None);
      } else {
        assert Rotate(inputs.now, inputs.entropy, s.content.value.jwks).Err?;
      }
    }
  }

  predicate Creates(c: Cmd) { c.CreateClient? || c.UpdateSecret? || c.UpdateClient? }

  /** Where no client shows, everything is made anew, whatever content there is: it is overwritten. */
  lemma NoClientMeansCreation(app: App, inputs: Inputs, s: Snapshot)
    requires !s.crd.deleting && s.api.None?
    ensures match Plan(app, inputs, s)
            case Err(x) => GenerationError(x)
            case Ok(cmds) =>
              && |cmds| == 2 && cmds[0].CreateClient? && cmds[1].UpdateSecret?
              && cmds[0].req == Request("altinnoperator-" + app.owner + "-" + app.environment + "-" + app.appId, s.crd.scopes)
              && cmds[1].content.authority == inputs.authority && cmds[1].content.jwks.Some?
              && Usable(cmds[1].content.jwks.value) && cmds[0].newKeys == PublicKeys(cmds[1].content.jwks.value)
              && CreateJwks(inputs.now.NotAfter(), inputs.now.issue, inputs.entropy) == Ok(cmds[1].content.jwks.value)
  {
    NewKeysArePublic(inputs);
  }

  /** Exactly when an update cannot be decided, on any content: where the rotation cannot, or where the key it
      keeps has no private half to publish. */
  lemma UpdateFailure(app: App, inputs: Inputs, s: Snapshot, api: ApiView, content: Content)
    ensures var r, plan := Rotate(inputs.now, inputs.entropy, content.jwks), PlanUpdate(app, inputs, s, api, content);
            && (r.Err? ==> plan == Err(r.error))
            && (plan.Ok? <==> r.Ok? && (r.value.Some? ==> forall k :: k in r.value.value ==> k.isPrivate))
            && (r.Ok? && plan.Err? ==> plan.error == AlreadyPublic)
  {
  }

  lemma UpdateOnlyCreates(app: App, inputs: Inputs, s: Snapshot, api: ApiView, content: Content)
    requires PlanUpdate(app, inputs, s, api, content).Ok?
    ensures forall c :: c in PlanUpdate(app, inputs, s, api, content).value ==> Creates(c)
  {
  }

  /** A deletion only deletes, the secret before the client; everything else never deletes. */
  lemma PlanDirection(app: App, inputs: Inputs, s: Snapshot)
    requires Plan(app, inputs, s).Ok?
    ensures s.crd.deleting ==> forall c :: c in Plan(app, inputs, s).value ==> !Creates(c)
    ensures !s.crd.deleting ==> forall c :: c in Plan(app, inputs, s).value ==> Creates(c)
    ensures forall i, j :: 0 <= i < j < |Plan(app, inputs, s).value| && Plan(app, inputs, s).value[i].DeleteClient?
                           ==> !Plan(app, inputs, s).value[j].DeleteSecret?
  {
    var cmds := Plan(app, inputs, s).value;
    if !s.crd.deleting {
      if s.api.Some? && s.content.Some? {
        UpdateOnlyCreates(app, inputs, s, s.api.value, s.content.value);
      }
      assert forall i :: 0 <= i < |cmds| ==> cmds[i] in cmds;
    }
  }

  /** On usable key material the decision fails only where a generator does, and every key set it sends
      passes the public-key guard of the API client. */
  lemma PlanFailsOnlyInGeneration(app: App, inputs: Inputs, s: Snapshot)
    requires s.content.Some? ==> s.content.value.jwks.Some? && Usable(s.content.value.jwks.value)
    ensures Plan(app, inputs, s).Err? ==> GenerationError(Plan(app, inputs, s).error)
    ensures Plan(app, inputs, s).Ok? ==> forall c :: c in Plan(app, inputs, s).value ==> SendsOnlyPublic(c)
  {
    NewKeysArePublic(inputs);
    if s.api.Some? && s.content.Some? {
      UpdateFailsOnlyInGeneration(app, inputs, s, s.api.value, s.content.value);
    }
  }

  predicate SendsOnlyPublic(c: Cmd) {
    && (c.CreateClient? ==> AllPublic(c.newKeys))
    && (c.UpdateClient? && c.keys.Some? ==> AllPublic(c.keys.value))
  }

  lemma NewKeysArePublic(inputs: Inputs)
    ensures var r := NewKeys(inputs);
            if r.Ok? then Usable(r.value.0) && r.value.1 == PublicKeys(r.value.0) && AllPublic(r.value.1)
            else GenerationError(r.error)
  {
    CreatedKeysAreUsable(inputs.now, inputs.entropy);
    var r := CreateJwks(inputs.now.NotAfter(), inputs.now.issue, inputs.entropy);
    if r.Ok? {
      ToPublicMeaning(r.value);
    }
  }

  lemma UpdateFailsOnlyInGeneration(app: App, inputs: Inputs, s: Snapshot, api: ApiView, content: Content)
    requires content.jwks.Some? && Usable(content.jwks.value)
    ensures var r := PlanUpdate(app, inputs, s, api, content);
            && (r.Err? ==> GenerationError(r.error))
            && (r.Ok? ==> forall c :: c in r.value ==> SendsOnlyPublic(c))
  {
    RotationKeepsUsable(inputs.now, inputs.entropy, content.jwks.value);
    var r := Rotate(inputs.now, inputs.entropy, content.jwks);
    if r.Ok? && r.value.Some? {
      ToPublicMeaning(r.value.value);
    }
  }
}
