/** The controller of internal/controller/maskinportenclient_controller.go as it runs: it changes the
    request, the resource in memory and the command objects step by step, call by call over the network.
    Each method is tied to the function of `Controller` that says what it does. */
module Reconciler {
  import opened Wrappers
  import opened Keys
  import opened World
  import opened ClientState
  import opened State = ClientObjects
  import opened HttpApiClient
  import C = Controller
  import I = Invariant

  /** The resource in memory. */
  class MaskinportenClient {
    var scopes: Option<seq<string>>
    const deleting: bool
    var finalizer: bool
    var status: Status

    constructor (c: Crd)
      ensures Value() == c
    {
      scopes, deleting, finalizer, status := c.scopes, c.deleting, c.finalizer, c.status;
    }

    function Value(): Crd
      reads this
    {
      Crd(scopes, deleting, finalizer, status)
    }

    method AddFinalizer() returns (updated: bool)
      modifies this`finalizer
      ensures finalizer && updated == !old(finalizer)
    {
      updated := !finalizer;
      finalizer := true;
    }

    method RemoveFinalizer() returns (updated: bool)
      modifies this`finalizer
      ensures !finalizer && updated == old(finalizer)
    {
      updated := finalizer;
      finalizer := false;
    }
  }

  class MaskinportenClientRequest {
    var kind: Option<C.Kind>
    var instance: MaskinportenClient?

    constructor ()
      ensures kind == None && instance == null
    {
      kind, instance := None, null;
    }
  }

  ghost function Filled(cmd: Command): set<object> {
    if cmd.callback.FillClientId? then {cmd.callback.api, cmd.callback.content} else {}
  }

  ghost predicate HasItsCallback(cmd: Command) {
    if cmd.data.CreateClientInApi? then cmd.callback.FillClientId? && cmd.callback.api == cmd.data.create
    else cmd.callback.NoCallback?
  }

  /** In a plan that creates a client the content behind it has no id yet. */
  ghost predicate AwaitsItsId(plan: seq<Cmd>) {
    |plan| == 2 && plan[0].CreateClient? && plan[1].UpdateSecret? ==> plan[1].content.clientId == ""
  }

  lemma TakeMore(commands: seq<Command>, i: nat)
    requires i < |commands|
    ensures commands[..i + 1] == commands[..i] + [commands[i]]
  {
  }

  lemma NextShows(commands: seq<Command>, i: nat, rest: seq<Cmd>)
    requires i < |commands| && ShowAll(commands[i..], rest)
    ensures rest != [] && Shows(commands[i], rest[0]) && ShowAll(commands[i + 1..], rest[1..])
  {
    assert commands[i..][0] == commands[i] && commands[i..][1..] == commands[i + 1..];
  }

  lemma FilledIsOwn(commands: seq<Command>, i: nat)
    requires i < |commands| && Shaped(commands)
    ensures Filled(commands[i]) <= Objects(commands) && HasItsCallback(commands[i])
  {
    if commands[i].data.CreateClientInApi? {
      assert commands[0] in commands && commands[0].data.create in ObjectOf(commands[0]);
      assert commands[1] in commands && commands[1].data.content in ObjectOf(commands[1]);
    }
  }

  /** Once the callback has filled in the id, the command behind shows the content with that id. */
  lemma CreationShows(commands: seq<Command>, newId: string, plan: seq<Cmd>) returns (rest: seq<Cmd>)
    requires Shaped(commands) && |commands| == |plan| == 2 && commands[0].data.CreateClientInApi? && plan[0].CreateClient?
    requires plan[1].UpdateSecret? && plan[1].content.clientId == ""
    requires commands[0].callback.content.Value() == plan[1].content.(clientId := newId)
    ensures rest == C.AfterCallback(newId, plan[0], plan[1..]) && ShowAll(commands[1..], rest)
  {
    rest := C.Fill(newId, plan[1..]);
    assert plan[1..][0] == plan[1];
    assert rest[0] == C.FillOne(newId, plan[1]);
  }

  lemma PlanAwaitsItsId(app: App, inputs: Inputs, s: Snapshot)
    ensures Plan(app, inputs, s).Ok? ==> AwaitsItsId(Plan(app, inputs, s).value)
  {
  }

  /** How a round ends once its commands have been run. */
  ghost function Conclusion(
    w: World, script: seq<Outcome>, kind: C.Kind, instance: Crd, env: C.RoundEnv, shown: seq<Cmd>, end: C.ExecEnd):
    C.RoundResult
  {
    match end
    case AssertionFailed => C.RoundResult(w, C.Crashed)
    case CommandFailed => C.ReportError(w, script, instance, shown)
    case AllExecuted =>
      if shown == [] then C.RoundResult(w, C.Quiet)
      else
        var u := C.UpdateStatus(w, script, Some(kind), instance, "reconciled", shown);
        C.RoundResult(u.world, if u.ok then C.Requeue(C.RandomizeDuration(env.requeueAfter, env.offset)) else C.Failed)
  }

  /** A round from the loaded resource on. */
  ghost function Continuation(
    app: App, env: C.RoundEnv, w: World, script: seq<Outcome>, kind: C.Kind, instance: Crd): C.RoundResult
  {
    var f := C.FetchState(app, w.core, script, instance);
    if f.result.Err? then C.ReportError(w, f.script, instance, [])
    else
      var plan := Plan(app, env.inputs, f.result.value);
      if plan.Err? then C.ReportError(w, f.script, instance, [])
      else C.CarryOut(env, C.Decided(w, f.script, kind, f.result.value, plan.value))
  }

  lemma LoadedGoesOn(app: App, env: C.RoundEnv, w: World)
    requires C.LoadInstance(w, env.script).loading.Loaded?
    ensures var l := C.LoadInstance(w, env.script);
            C.Round(app, env, w) == Continuation(app, env, l.world, l.script, l.loading.kind, l.loading.instance)
  {
  }

  lemma DecidedConcludes(app: App, env: C.RoundEnv, w: World, script: seq<Outcome>, kind: C.Kind, s: Snapshot)
    ensures var plan := Plan(app, env.inputs, s);
            var x := C.Exec(w.core, script, env.newId, s.manifest, if plan.Ok? then plan.value else [], []);
            (if plan.Err? then C.ReportError(w, script, s.crd, [])
             else C.CarryOut(env, C.Decided(w, script, kind, s, plan.value)))
            == Conclusion(w.(core := x.core), x.script, kind, s.crd, env, x.executed,
                          if plan.Err? then C.CommandFailed else x.end)
  {
  }

  lemma RoundIsSafe(app: App, env: C.RoundEnv, w: World)
    ensures I.Inv(app, w) ==> I.Inv(app, C.Round(app, env, w).world) && C.Round(app, env, w).reply != C.Crashed
  {
    if I.Inv(app, w) {
      I.RoundKeepsInv(app, env, w);
      I.RoundCrd(app, env, w);
    }
  }

  datatype LoadError = NoError | IsNotFound | OtherError

  class MaskinportenClientReconciler {
    const app: App
    const net: Network
    const apiClient: ApiClient

    ghost predicate Valid() {
      apiClient.app == app && apiClient.net == net
    }

    constructor (app: App, net: Network)
      ensures Valid() && this.app == app && this.net == net
    {
      this.app, this.net := app, net;
      apiClient := new ApiClient(app, net);
    }

    // ---- updateStatus ----

    /** The effect of the commands on the status, command by command. */
    method FoldCommands(instance: MaskinportenClient, commands: seq<Command>, ghost shown: seq<Cmd>)
      requires ShowAll(commands, shown) && instance !in Objects(commands)
      modifies instance`status
      ensures instance.status == C.FoldStatus(old(instance.status), shown)
    {
      var i := 0;
      while i < |commands|
        invariant i <= |commands|
        invariant instance.status == C.FoldStatus(old(instance.status), shown[..i])
      {
        assert Shows(commands[i], shown[i]);
        assert shown[..i + 1][..i] == shown[..i];
        match commands[i].data {
          case CreateClientInApi(api) =>
            instance.status := instance.status.(clientId := api.clientId);
          case UpdateClientInApi(api) =>
            instance.status := instance.status.(clientId := api.clientId);
          case DeleteClientInApi(_) =>
            instance.status := instance.status.(clientId := "");
          case UpdateSecretContent(content) =>
            var keyIds := CollectKeyIds(content.jwks);
            instance.status := instance.status.(authority := content.authority, keyIds := keyIds);
          case DeleteSecretContent =>
            instance.status := instance.status.(authority := "", keyIds := []);
        }
        i := i + 1;
      }
      assert shown[..i] == shown;
    }

    method CollectKeyIds(jwks: Option<seq<Jwk>>) returns (ids: seq<string>)
      ensures ids == if jwks.None? then [] else KeyIds(jwks.value)
    {
      ids := [];
      if jwks.Some? {
        var i := 0;
        while i < |jwks.value|
          invariant i <= |jwks.value| && ids == KeyIds(jwks.value[..i])
        {
          ids := ids + [jwks.value[i].kid];
          i := i + 1;
        }
        assert jwks.value[..i] == jwks.value;
      }
    }

    method UpdateStatus(kind: Option<C.Kind>, instance: MaskinportenClient, state: string,
                        commands: seq<Command>, ghost shown: seq<Cmd>)
      returns (ok: bool)
      requires Valid() && ShowAll(commands, shown) && instance !in Objects(commands)
      requires net.world.crd == Some(instance.Value())
      modifies net, instance
      ensures var u := C.UpdateStatus(old(net.world), old(net.script), kind, old(instance.Value()), state, shown);
              && net.world == u.world && net.script == u.script && ok == u.ok
              && (ok && u.world.crd.Some? ==> instance.Value() == u.instance)
    {
      var names := Strings(commands, shown);
      instance.status := instance.status.(state := state, lastActions := names);
      FoldCommands(instance, commands, shown);
      var updatedFinalizers := false;
      if kind == Some(C.CreateKind) {
        updatedFinalizers := instance.AddFinalizer();
      } else if kind == Some(C.DeleteKind) {
        updatedFinalizers := instance.RemoveFinalizer();
      }
      if updatedFinalizers {
        var reply := net.UpdateResource(instance.Value());
        ok := reply.Some?;
        if ok {
          instance.scopes, instance.finalizer, instance.status :=
            reply.value.scopes, reply.value.finalizer, reply.value.status;
        }
      } else {
        ok := net.UpdateResourceStatus(instance.Value());
      }
    }

    method UpdateStatusWithError(instance: MaskinportenClient, commands: seq<Command>, ghost shown: seq<Cmd>)
      requires Valid() && ShowAll(commands, shown) && instance !in Objects(commands)
      requires net.world.crd == Some(instance.Value())
      modifies net, instance
      ensures net.world == C.ReportError(old(net.world), old(net.script), old(instance.Value()), shown).world
    {
      var _ := UpdateStatus(None, instance, "error", commands, shown);
    }

    // ---- loadInstance ----

    /** Fills the kind and the instance into the request. */
    method LoadInstance(req: MaskinportenClientRequest) returns (err: LoadError)
      requires Valid()
      modifies net, req
      ensures var l := C.LoadInstance(old(net.world), old(net.script));
              && net.world == l.world && net.script == l.script
              && (l.loading.LoadFailed? <==> err == OtherError)
              && (l.loading.NotFound? <==> err == IsNotFound)
              && (l.loading.Loaded? ==>
                    && req.instance != null && fresh(req.instance) && req.kind == Some(l.loading.kind)
                    && req.instance.Value() == l.loading.instance && net.world.crd == Some(l.loading.instance))
    {
      var ok := net.Read();
      if !ok {
        return OtherError;
      }
      if net.world.crd.None? {
        return IsNotFound;
      }
      var instance := new MaskinportenClient(net.world.crd.value);
      req.instance := instance;
      if !instance.deleting {
        if !instance.finalizer {
          req.kind := Some(C.CreateKind);
          ok := UpdateStatus(req.kind, instance, "recorded", [], []);
          if !ok {
            return OtherError;
          }
        } else {
          req.kind := Some(C.UpdateKind);
        }
      } else {
        req.kind := Some(C.DeleteKind);
      }
      return NoError;
    }

    // ---- fetchCurrentState ----

    method FetchSecret() returns (r: Result<Option<Secret>, FetchError>)
      requires Valid()
      modifies net
      ensures var f := C.FetchSecret(old(net.world.core), old(net.script));
              net.world == old(net.world) && net.script == f.script && r == f.result
    {
      var ok := net.Read();
      if !ok {
        return Err(ReadFailed);
      }
      var secrets := net.world.core.secrets;
      if |secrets| > 1 {
        return Err(ManySecrets);
      }
      if |secrets| == 1 {
        if !secrets[0].opaqueType {
          return Err(NotOpaque);
        }
        return Ok(Some(secrets[0]));
      }
      return Ok(None);
    }

    /** The first listed client that bears the app's name. */
    method FindClient() returns (r: Result<Option<ApiView>, FetchError>)
      requires Valid()
      modifies net
      ensures var f := C.FindByName(app, old(net.world.core), old(net.script));
              net.world == old(net.world) && net.script == f.script && r == f.result
    {
      var allClients := apiClient.GetAllClients();
      if allClients.None? {
        return Err(ReadFailed);
      }
      ghost var api := net.world.core.api;
      ghost var own := C.OwnClients(app, api, api.listing);
      C.OwnClientsMeaning(app, api, api.listing);
      var clientName := app.ClientName();
      var i := 0;
      while i < |allClients.value|
        invariant i <= |own| && net.world == old(net.world) && net.script == Tail(old(net.script))
        invariant C.FirstNamed(app, api, own) == C.FirstNamed(app, api, own[i..])
      {
        assert own[i] in own && own[i..][1..] == own[i + 1..];
        var c := allClients.value[i];
        if c.clientName.Some? && c.clientName.value == clientName {
          var client := apiClient.GetClient(c.clientId);
          return if client.Err? then Err(client.error) else Ok(Some(client.value));
        }
        i := i + 1;
      }
      return Ok(None);
    }

    method FetchCurrentState(instance: MaskinportenClient) returns (r: Result<Snapshot, FetchError>)
      requires Valid()
      modifies net
      ensures var f := C.FetchState(app, old(net.world.core), old(net.script), old(instance.Value()));
              net.world == old(net.world) && net.script == f.script && r == f.result
    {
      var secret := FetchSecret();
      if secret.Err? {
        return Err(secret.error);
      }
      var content := None;
      if secret.value.Some? {
        var deserialized := secret.value.value.Deserialize();
        if deserialized.Err? {
          return Err(deserialized.error);
        }
        content := deserialized.value;
      }
      var client := None;
      if content.Some? {
        if content.value.clientId != "" {
          var found := apiClient.GetClient(content.value.clientId);
          if found.Err? {
            return Err(found.error);
          }
          client := Some(found.value);
        }
      } else {
        var found := FindClient();
        if found.Err? {
          return Err(found.error);
        }
        client := found.value;
      }
      return NewClientState(instance.Value(), client, secret.value, content);
    }

    // ---- reconcile: the command executor ----

    /** One command over the network, then its callback. */
    method Execute(cmd: Command, ghost shown: Cmd, manifest: K8sSecret, newId: string) returns (end: C.ExecEnd)
      requires Valid() && Shows(cmd, shown) && HasItsCallback(cmd)
      modifies net, Filled(cmd)
      ensures manifest.Value() == old(manifest.Value())
      ensures !C.AssertionHolds(shown) ==>
                end == C.AssertionFailed && net.world == old(net.world) && net.script == old(net.script)
      ensures C.AssertionHolds(shown) ==>
                var d := SendAll(old(net.world.core), old(net.script), C.WritesOf(newId, old(manifest.Value()), shown));
                && net.world == old(net.world).(core := d.core) && net.script == d.script
                && end == if d.ok then C.AllExecuted else C.CommandFailed
      ensures if cmd.data.CreateClientInApi? && end == C.AllExecuted
              then Shows(cmd, C.Executed(newId, shown))
                   && cmd.callback.content.Value() == old(cmd.callback.content.Value()).(clientId := newId)
              else unchanged(Filled(cmd))
    {
      match cmd.data {
        case CreateClientInApi(api) =>
          var resp := apiClient.CreateClient(newId, api.req.value, api.jwks);
          if resp.None? {
            return C.CommandFailed;
          }
          FillIn(cmd.callback, resp.value);
        case UpdateClientInApi(api) =>
          end := UpdateInApi(api);
          return;
        case UpdateSecretContent(content) =>
          if content.clientId == "" {
            return C.AssertionFailed;
          }
          var updatedSecret := manifest.DeepCopy();
          content.SerializeTo(updatedSecret);
          SendOne(net.world.core, net.script, PutSecret(updatedSecret.Value()));
          var ok := net.Write(PutSecret(updatedSecret.Value()));
          return if ok then C.AllExecuted else C.CommandFailed;
        case DeleteClientInApi(id) =>
          SendOne(net.world.core, net.script, DropClient(id));
          var ok := apiClient.DeleteClient(id);
          return if ok then C.AllExecuted else C.CommandFailed;
        case DeleteSecretContent =>
          var updatedSecret := manifest.DeepCopy();
          DeleteSecretStateContent(updatedSecret);
          SendOne(net.world.core, net.script, PutSecret(updatedSecret.Value()));
          var ok := net.Write(PutSecret(updatedSecret.Value()));
          return if ok then C.AllExecuted else C.CommandFailed;
      }
      return C.AllExecuted;
    }

    /** The client first, then its keys, each where the command carries it. */
    method UpdateInApi(api: ApiState) returns (end: C.ExecEnd)
      requires Valid()
      modifies net
      ensures var ws := (if api.req.Some? then [PutClient(api.clientId, api.req.value.name, SentScopes(api.req.value.scopes))] else [])
                        + (if api.jwks.Some? then [PostJwks(api.clientId, api.jwks.value)] else []);
              var d := SendAll(old(net.world.core), old(net.script), ws);
              && net.world == old(net.world).(core := d.core) && net.script == d.script
              && end == if d.ok then C.AllExecuted else C.CommandFailed
    {
      if api.req.Some? {
        var w := PutClient(api.clientId, api.req.value.name, SentScopes(api.req.value.scopes));
        SendFirst(net.world.core, net.script, w, if api.jwks.Some? then [PostJwks(api.clientId, api.jwks.value)] else []);
        var ok := apiClient.UpdateClient(api.clientId, api.req.value);
        if !ok {
          return C.CommandFailed;
        }
      }
      if api.jwks.Some? {
        SendOne(net.world.core, net.script, PostJwks(api.clientId, api.jwks.value));
        var ok := apiClient.CreateClientJwks(api.clientId, api.jwks);
        if !ok {
          return C.CommandFailed;
        }
      }
      return C.AllExecuted;
    }

    /** One turn of the loop: the commands still to come and those carried out, as they now are. */
    method ExecuteNext(commands: seq<Command>, i: nat, ghost rest: seq<Cmd>, ghost shown: seq<Cmd>,
                       manifest: K8sSecret, newId: string)
      returns (end: C.ExecEnd, ghost next: seq<Cmd>, ghost nowShown: seq<Cmd>)
      requires Valid() && i < |commands| && Shaped(commands)
      requires ShowAll(commands[..i], shown) && ShowAll(commands[i..], rest)
      requires i == 0 ==> AwaitsItsId(rest)
      modifies net, Objects(commands)
      ensures net.world.crd == old(net.world.crd) && manifest.Value() == old(manifest.Value())
      ensures C.Exec(old(net.world.core), old(net.script), newId, old(manifest.Value()), rest, shown)
           == if end == C.AllExecuted
              then C.Exec(net.world.core, net.script, newId, old(manifest.Value()), next, nowShown)
              else C.Execution(net.world.core, net.script, nowShown, end)
      ensures if end == C.AllExecuted
              then ShowAll(commands[..i + 1], nowShown) && ShowAll(commands[i + 1..], next)
              else ShowAll(commands[..i], nowShown)
    {
      var cmd := commands[i];
      NextShows(commands, i, rest);
      FilledIsOwn(commands, i);
      end := Execute(cmd, rest[0], manifest, newId);
      next, nowShown := rest, shown;
      if end == C.AllExecuted {
        if cmd.data.CreateClientInApi? {
          next := CreationShows(commands, newId, rest);
        } else {
          next := rest[1..];
        }
        AppendShows(commands[..i], shown, cmd, C.Executed(newId, rest[0]));
        nowShown := shown + [C.Executed(newId, rest[0])];
        TakeMore(commands, i);
      }
    }

    /** Runs the commands in order up to the first failure; returns those that were carried out. */
    method ExecuteAll(commands: seq<Command>, ghost plan: seq<Cmd>, manifest: K8sSecret, newId: string)
      returns (executed: seq<Command>, ghost shown: seq<Cmd>, end: C.ExecEnd)
      requires Valid() && ShowAll(commands, plan) && Shaped(commands) && AwaitsItsId(plan)
      modifies net, Objects(commands)
      ensures var x := C.Exec(old(net.world.core), old(net.script), newId, old(manifest.Value()), plan, []);
              && net.world == old(net.world).(core := x.core) && net.script == x.script
              && end == x.end && shown == x.executed && ShowAll(executed, shown)
      ensures executed <= commands && (end == C.AllExecuted ==> executed == commands)
    {
      executed, shown := [], [];
      ghost var rest := plan;
      ghost var m := manifest.Value();
      ghost var x := C.Exec(net.world.core, net.script, newId, m, plan, []);
      assert commands[0..] == commands;
      var i := 0;
      while i < |commands|
        invariant i <= |commands| && executed == commands[..i]
        invariant ShowAll(commands[..i], shown) && ShowAll(commands[i..], rest)
        invariant i == 0 ==> AwaitsItsId(rest)
        invariant net.world.crd == old(net.world.crd) && manifest.Value() == m
        invariant C.Exec(net.world.core, net.script, newId, m, rest, shown) == x
      {
        end, rest, shown := ExecuteNext(commands, i, rest, shown, manifest, newId);
        if end != C.AllExecuted {
          return;
        }
        TakeMore(commands, i);
        executed := executed + [commands[i]];
        i := i + 1;
      }
      end := C.AllExecuted;
    }

    /** Decides and executes. An error in the decision ends like a failed command, with nothing carried
        out. */
    method ReconcileState(state: Snapshot, inputs: Inputs, newId: string)
      returns (executed: seq<Command>, ghost shown: seq<Cmd>, end: C.ExecEnd)
      requires Valid()
      modifies net
      ensures ShowAll(executed, shown)
      ensures var plan := Plan(app, inputs, state);
              var x := C.Exec(old(net.world.core), old(net.script), newId, state.manifest, if plan.Ok? then plan.value else [], []);
              && net.world == old(net.world).(core := x.core) && net.script == x.script && shown == x.executed
              && end == if plan.Err? then C.CommandFailed else x.end
    {
      var commands := State.Reconcile(app, inputs, state);
      if commands.Err? {
        return [], [], C.CommandFailed;
      }
      ghost var plan := Plan(app, inputs, state).value;
      PlanAwaitsItsId(app, inputs, state);
      var manifest := new K8sSecret(state.manifest);
      executed, shown, end := ExecuteAll(commands.value, plan, manifest, newId);
    }

    // ---- Reconcile ----

    method Conclude(kind: C.Kind, instance: MaskinportenClient, executed: seq<Command>, ghost shown: seq<Cmd>,
                    end: C.ExecEnd, env: C.RoundEnv)
      returns (reply: C.Reply)
      requires Valid() && ShowAll(executed, shown) && instance !in Objects(executed)
      requires net.world.crd == Some(instance.Value())
      modifies net, instance
      ensures var r := Conclusion(old(net.world), old(net.script), kind, old(instance.Value()), env, shown, end);
              net.world == r.world && reply == r.reply
    {
      if end == C.AssertionFailed {
        return C.Crashed;
      }
      if end == C.CommandFailed {
        UpdateStatusWithError(instance, executed, shown);
        return C.Failed;
      }
      if |executed| == 0 {
        return C.Quiet;
      }
      var ok := UpdateStatus(Some(kind), instance, "reconciled", executed, shown);
      if !ok {
        return C.Failed;
      }
      return C.Requeue(C.RandomizeDuration(env.requeueAfter, env.offset));
    }

    method Continue(kind: C.Kind, instance: MaskinportenClient, env: C.RoundEnv) returns (reply: C.Reply)
      requires Valid() && net.world.crd == Some(instance.Value())
      modifies net, instance
      ensures var r := Continuation(app, env, old(net.world), old(net.script), kind, old(instance.Value()));
              net.world == r.world && reply == r.reply
    {
      var currentState := FetchCurrentState(instance);
      if currentState.Err? {
        UpdateStatusWithError(instance, [], []);
        return C.Failed;
      }
      ghost var script := net.script;
      var executed, shown, end := ReconcileState(currentState.value, env.inputs, env.newId);
      reply := Conclude(kind, instance, executed, shown, end, env);
      DecidedConcludes(app, env, old(net.world), script, kind, currentState.value);
    }

    /** One round, from the request to the answer given to the queue. */
    method Reconcile(env: C.RoundEnv) returns (reply: C.Reply)
      requires Valid() && net.script == env.script
      modifies net
      ensures var r := C.Round(app, env, old(net.world));
              net.world == r.world && reply == r.reply
      ensures I.Inv(app, old(net.world)) ==> I.Inv(app, net.world) && reply != C.Crashed
    {
      RoundIsSafe(app, env, net.world);
      var req := new MaskinportenClientRequest();
      var err := LoadInstance(req);
      if err != NoError {
        return if err == IsNotFound then C.Quiet else C.Failed;
      }
      LoadedGoesOn(app, env, old(net.world));
      reply := Continue(req.kind.value, req.instance, env);
    }
  }

  /** One request, from the name of a resource to the answer given to the queue. */
  method HandleRequest(owner: string, environment: string, name: string, net: Network, env: C.RoundEnv)
    returns (reply: C.Reply)
    requires net.script == env.script
    modifies net
    ensures var r := C.Requested(owner, environment, name, env, old(net.world));
            net.world == r.world && reply == r.reply
    ensures reply == C.Crashed ==>
              AppIdOf(name).Some? && !I.Inv(App(owner, environment, AppIdOf(name).value), old(net.world))
  {
    var appId := AppIdOf(name);
    if appId.None? {
      return C.Failed;
    }
    var reconciler := new MaskinportenClientReconciler(App(owner, environment, appId.value), net);
    reply := reconciler.Reconcile(env);
  }
}
