/** The objects internal/maskinporten/client_state.go shares between commands: the state to send to the
    API, the content to write to the secret, and the secret itself. */
module ClientObjects {
  import opened Wrappers
  import opened Keys
  import opened Rotation
  import opened KeyService
  import opened World
  import opened ClientState
  import C = Controller

  class ApiState {
    var clientId: string
    var req: Option<Request>
    var jwks: Option<seq<Jwk>>

    constructor (clientId: string, req: Option<Request>, jwks: Option<seq<Jwk>>)
      ensures this.clientId == clientId && this.req == req && this.jwks == jwks
    {
      this.clientId, this.req, this.jwks := clientId, req, jwks;
    }
  }

  /** A Kubernetes secret; its data map is changed in place. */
  class K8sSecret {
    const opaqueType: bool
    var data: Option<map<string, Blob>>

    constructor (s: Secret)
      ensures Value() == s
    {
      opaqueType, data := s.opaqueType, s.data;
    }

    function Value(): Secret
      reads this
    {
      Secret(opaqueType, data)
    }

    method DeepCopy() returns (copy: K8sSecret)
      ensures fresh(copy) && copy.Value() == Value()
    {
      copy := new K8sSecret(Value());
    }
  }

  method DeleteSecretStateContent(secret: K8sSecret)
    modifies secret
    ensures secret.Value() == old(secret.Value()).DeleteContent()
  {
    if secret.data.Some? {
      secret.data := Some(secret.data.value - {SETTINGS_FILE});
    }
  }

  class SecretStateContent {
    var clientId: string
    var authority: string
    var jwks: Option<seq<Jwk>>
    var jwk: Option<Jwk>

    constructor (c: Content)
      ensures Value() == c
    {
      clientId, authority, jwks, jwk := c.clientId, c.authority, c.jwks, c.jwk;
    }

    function Value(): Content
      reads this
    {
      Content(clientId, authority, jwks, jwk)
    }

    method SerializeTo(secret: K8sSecret)
      modifies secret
      ensures secret.Value() == old(secret.Value()).Serialize(old(Value()))
    {
      if secret.data.None? {
        secret.data := Some(map[]);
      }
      secret.data := Some(secret.data.value[SETTINGS_FILE := Settings(Value())]);
    }
  }

  datatype CommandData =
    | CreateClientInApi(create: ApiState)
    | UpdateSecretContent(content: SecretStateContent)
    | UpdateClientInApi(update: ApiState)
    | DeleteClientInApi(clientId: string)
    | DeleteSecretContent

  /** The one callback there is: it fills the id the API answered with into both objects. */
  datatype Callback = NoCallback | FillClientId(api: ApiState, content: SecretStateContent)

  datatype Command = Command(data: CommandData, callback: Callback)

  method FillIn(c: Callback, clientId: string)
    requires c.FillClientId?
    modifies c.api, c.content
    ensures c.api.req == old(c.api.req) && c.api.jwks == old(c.api.jwks) && c.api.clientId == clientId
    ensures c.content.Value() == old(c.content.Value()).(clientId := clientId)
  {
    c.api.clientId := clientId;
    c.content.clientId := clientId;
  }

  function ObjectOf(c: Command): set<object> {
    match c.data
    case CreateClientInApi(a) => {a}
    case UpdateClientInApi(a) => {a}
    case UpdateSecretContent(s) => {s}
    case _ => {}
  }

  ghost function Objects(cmds: seq<Command>): set<object> {
    set c, o | c in cmds && o in ObjectOf(c) :: o
  }

  /** The command as a value, read off its objects as they are now. */
  ghost predicate Shows(c: Command, v: Cmd)
    reads ObjectOf(c)
  {
    match c.data
    case CreateClientInApi(a) => a.req.Some? && a.jwks.Some? && v == CreateClient(a.clientId, a.req.value, a.jwks.value)
    case UpdateClientInApi(a) => v == UpdateClient(a.clientId, a.req, a.jwks)
    case UpdateSecretContent(s) => v == UpdateSecret(s.Value())
    case DeleteClientInApi(id) => v == DeleteClient(id)
    case DeleteSecretContent => v == DeleteSecret
  }

  function TypeName(d: CommandData): string {
    match d
    case CreateClientInApi(_) => "CreateClientInApiCommand"
    case UpdateSecretContent(_) => "UpdateSecretContentCommand"
    case UpdateClientInApi(_) => "UpdateClientInApiCommand"
    case DeleteClientInApi(_) => "DeleteClientInApiCommand"
    case DeleteSecretContent => "DeleteSecretContentCommand"
  }

  /** `CommandList.Strings` */
  method Strings(cmds: seq<Command>, ghost shown: seq<Cmd>) returns (r: seq<string>)
    requires ShowAll(cmds, shown)
    ensures r == C.ActionNames(shown)
  {
    r := [];
    var i := 0;
    while i < |cmds|
      invariant i <= |cmds| && r == C.ActionNames(shown[..i])
    {
      assert Shows(cmds[i], shown[i]);
      r := r + [TypeName(cmds[i].data)];
      i := i + 1;
    }
    assert shown[..i] == shown;
  }

  ghost predicate ShowAll(cmds: seq<Command>, vs: seq<Cmd>)
    reads Objects(cmds)
  {
    |cmds| == |vs| && forall i :: 0 <= i < |cmds| ==> Shows(cmds[i], vs[i])
  }

  lemma AppendShows(cmds: seq<Command>, vs: seq<Cmd>, c: Command, v: Cmd)
    requires ShowAll(cmds, vs) && Shows(c, v)
    ensures ShowAll(cmds + [c], vs + [v])
    ensures Objects(cmds + [c]) == Objects(cmds) + ObjectOf(c)
    ensures NoCreate(cmds) && !c.data.CreateClientInApi? && c.callback == NoCallback ==> NoCreate(cmds + [c])
  {
  }

  /** Only a create command has a callback. It stands first, and its callback fills its own state and the
      content of the command behind it, which is the last. */
  ghost predicate Shaped(cmds: seq<Command>) {
    && (forall i :: 0 <= i < |cmds| && cmds[i].data.CreateClientInApi? ==>
                      i == 0 && |cmds| == 2 && cmds[1].data.UpdateSecretContent?
                      && cmds[0].callback == FillClientId(cmds[0].data.create, cmds[1].data.content))
    && (forall i :: 0 <= i < |cmds| && !cmds[i].data.CreateClientInApi? ==> cmds[i].callback == NoCallback)
  }

  ghost predicate NoCreate(cmds: seq<Command>) {
    forall c :: c in cmds ==> !c.data.CreateClientInApi? && c.callback == NoCallback
  }

  lemma NoCreateIsShaped(cmds: seq<Command>)
    requires NoCreate(cmds)
    ensures Shaped(cmds)
  {
    assert forall i :: 0 <= i < |cmds| ==> cmds[i] in cmds;
  }

  /** Commands without callbacks, and what they show. */
  ghost predicate Lists(cmds: seq<Command>, vs: seq<Cmd>)
    reads Objects(cmds)
  {
    ShowAll(cmds, vs) && NoCreate(cmds)
  }

  method AppendUpdateSecret(commands: seq<Command>, ghost shown: seq<Cmd>, c: Content) returns (r: seq<Command>)
    requires Lists(commands, shown)
    ensures Lists(r, shown + [UpdateSecret(c)]) && fresh(Objects(r) - Objects(commands))
  {
    var content := new SecretStateContent(c);
    var command := Command(UpdateSecretContent(content), NoCallback);
    AppendShows(commands, shown, command, UpdateSecret(c));
    r := commands + [command];
  }

  method AppendUpdateClient(
    commands: seq<Command>, ghost shown: seq<Cmd>, id: string, req: Option<Request>, jwks: Option<seq<Jwk>>)
    returns (r: seq<Command>)
    requires Lists(commands, shown)
    ensures Lists(r, shown + [UpdateClient(id, req, jwks)]) && fresh(Objects(r) - Objects(commands))
  {
    var apiState := new ApiState(id, req, jwks);
    var command := Command(UpdateClientInApi(apiState), NoCallback);
    AppendShows(commands, shown, command, UpdateClient(id, req, jwks));
    r := commands + [command];
  }

  /** The two commands share the content: the callback of the first fills the id into the second. */
  method ReconcileCreation(app: App, inputs: Inputs, s: Snapshot) returns (r: Result<seq<Command>, CryptoError>)
    ensures r.Err? ==> PlanCreation(app, inputs, s) == Err(r.error)
    ensures r.Ok? ==>
              && PlanCreation(app, inputs, s).Ok?
              && ShowAll(r.value, PlanCreation(app, inputs, s).value)
              && Shaped(r.value) && fresh(Objects(r.value))
  {
    var req := BuildApiReq(app, s.crd);
    var jwks := CreateJwks(inputs.now.NotAfter(), inputs.now.issue, inputs.entropy);
    if jwks.Err? {
      return Err(jwks.error);
    }
    var publicJwks := Publish(Some(jwks.value));
    if publicJwks.Err? {
      return Err(publicJwks.error);
    }
    var apiState := new ApiState("", Some(req), Some(publicJwks.value));
    var content := new SecretStateContent(NewContent("", inputs, jwks.value));
    return Ok([
                Command(CreateClientInApi(apiState), FillClientId(apiState, content)),
                Command(UpdateSecretContent(content), NoCallback)
              ]);
  }

  method ReconcileRecovery(inputs: Inputs, api: ApiView) returns (r: Result<seq<Command>, CryptoError>)
    ensures r.Err? ==> PlanRecovery(inputs, api) == Err(r.error)
    ensures r.Ok? ==>
              && PlanRecovery(inputs, api).Ok?
              && Lists(r.value, PlanRecovery(inputs, api).value) && fresh(Objects(r.value))
  {
    var jwks := CreateJwks(inputs.now.NotAfter(), inputs.now.issue, inputs.entropy);
    if jwks.Err? {
      return Err(jwks.error);
    }
    var publicJwks := Publish(Some(jwks.value));
    if publicJwks.Err? {
      return Err(publicJwks.error);
    }
    var commands := AppendUpdateClient([], [], api.id, None, Some(publicJwks.value));
    ghost var shown := [UpdateClient(api.id, None, Some(publicJwks.value))];
    commands := AppendUpdateSecret(commands, shown, NewContent(api.id, inputs, jwks.value));
    return Ok(commands);
  }

  /** `ClientState.Reconcile`: appends commands over fresh objects; their values are the plan. */
  method Reconcile(app: App, inputs: Inputs, s: Snapshot) returns (r: Result<seq<Command>, CryptoError>)
    ensures r.Err? ==> Plan(app, inputs, s) == Err(r.error)
    ensures r.Ok? ==>
              && Plan(app, inputs, s).Ok? && ShowAll(r.value, Plan(app, inputs, s).value)
              && Shaped(r.value) && fresh(Objects(r.value))
  {
    var commands: seq<Command> := [];
    if s.crd.deleting {
      if s.content.Some? {
        commands := commands + [Command(DeleteSecretContent, NoCallback)];
      }
      if s.api.Some? {
        commands := commands + [Command(DeleteClientInApi(s.api.value.id), NoCallback)];
      }
      return Ok(commands);
    } else if s.api.None? {
      r := ReconcileCreation(app, inputs, s);
    } else if s.content.None? {
      r := ReconcileRecovery(inputs, s.api.value);
      if r.Ok? {
        NoCreateIsShaped(r.value);
      }
    } else {
      r := ReconcileUpdate(app, inputs, s, s.api.value, s.content.value);
      if r.Ok? {
        NoCreateIsShaped(r.value);
      }
    }
  }

  lemma PlanUpdateParts(app: App, inputs: Inputs, s: Snapshot, api: ApiView, current: Content, rotated: Option<seq<Jwk>>)
    requires Rotate(inputs.now, inputs.entropy, current.jwks) == Ok(rotated)
    ensures
      var keys := if rotated.Some? then rotated.value else current.jwks.value;
      var public := if rotated.Some? then ToPublic(keys) else Ok([]);
      if public.Err? then PlanUpdate(app, inputs, s, api, current) == Err(public.error)
      else
        PlanUpdate(app, inputs, s, api, current)
        == Ok((if inputs.authority != current.authority || rotated.Some? then [UpdateSecret(NewContent(api.id, inputs, keys))] else [])
              + (if rotated.Some? then [UpdateClient(api.id, None, Some(public.value))] else [])
              + (if s.crd.scopes != api.scopes then [UpdateClient(api.id, Some(BuildApiReq(app, s.crd)), None)] else []))
  {
  }

  method ReconcileUpdate(app: App, inputs: Inputs, s: Snapshot, api: ApiView, current: Content)
    returns (r: Result<seq<Command>, CryptoError>)
    ensures r.Err? ==> PlanUpdate(app, inputs, s, api, current) == Err(r.error)
    ensures r.Ok? ==>
              && PlanUpdate(app, inputs, s, api, current).Ok?
              && Lists(r.value, PlanUpdate(app, inputs, s, api, current).value)
              && fresh(Objects(r.value))
  {
    var authorityChanged := inputs.authority != current.authority;
    var scopesChanged := s.crd.scopes != api.scopes;
    var rotated := RotateIfNeeded(inputs.now, inputs.entropy, current.jwks);
    if rotated.Err? {
      return Err(rotated.error);
    }
    PlanUpdateParts(app, inputs, s, api, current, rotated.value);
    var jwksChanged := rotated.value.Some?;
    var jwks := if jwksChanged then rotated.value.value else current.jwks.value;
    r := UpdateCommands(app, inputs, s, api, authorityChanged, jwksChanged, scopesChanged, jwks);
  }

  method UpdateCommands(app: App, inputs: Inputs, s: Snapshot, api: ApiView,
                        authorityChanged: bool, jwksChanged: bool, scopesChanged: bool, jwks: seq<Jwk>)
    returns (r: Result<seq<Command>, CryptoError>)
    requires jwks != []
    ensures
      var public := if jwksChanged then ToPublic(jwks) else Ok([]);
      if public.Err? then r == Err(public.error)
      else
        && r.Ok? && fresh(Objects(r.value))
        && Lists(r.value,
                 (if authorityChanged || jwksChanged then [UpdateSecret(NewContent(api.id, inputs, jwks))] else [])
                 + (if jwksChanged then [UpdateClient(api.id, None, Some(public.value))] else [])
                 + (if scopesChanged then [UpdateClient(api.id, Some(BuildApiReq(app, s.crd)), None)] else []))
  {
    var commands: seq<Command> := [];
    ghost var shown: seq<Cmd> := [];
    if authorityChanged || jwksChanged {
      commands := AppendUpdateSecret(commands, shown, NewContent(api.id, inputs, jwks));
      shown := shown + [UpdateSecret(NewContent(api.id, inputs, jwks))];
    }
    if jwksChanged {
      var publicJwks := Publish(Some(jwks));
      if publicJwks.Err? {
        return Err(publicJwks.error);
      }
      commands := AppendUpdateClient(commands, shown, api.id, None, Some(publicJwks.value));
      shown := shown + [UpdateClient(api.id, None, Some(publicJwks.value))];
    }
    if scopesChanged {
      commands := AppendUpdateClient(commands, shown, api.id, Some(BuildApiReq(app, s.crd)), None);
      shown := shown + [UpdateClient(api.id, Some(BuildApiReq(app, s.crd)), None)];
    }
    return Ok(commands);
  }
}
