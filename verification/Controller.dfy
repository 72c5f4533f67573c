/** One reconciliation round of internal/controller/maskinportenclient_controller.go, as a function of
    the world, the inputs and what becomes of each call. */
module Controller {
  import opened Wrappers
  import opened Text
  import opened Keys
  import opened World
  import opened ClientState

  /** What a round is given: configuration, clock and randomness, the id the API hands out next, the
      configured requeue delay with its random offset, and the fate of each call in turn. */
  datatype RoundEnv = RoundEnv(inputs: Inputs, newId: string, requeueAfter: nat, offset: nat, script: seq<Outcome>)

  datatype Reply = Requeue(after: int) | Quiet | Failed | Crashed

  datatype RoundResult = RoundResult(world: World, reply: Reply)

  datatype Kind = CreateKind | UpdateKind | DeleteKind

  // ---- requeue delay ----

  /** The largest offset in either direction: ten percent, truncated. */
  function MaxOffset(d: nat): nat { (d as real * 0.1).Floor }

  /** The draw is taken below `2 * MaxOffset(d)`. */
  function RandomizeDuration(d: nat, draw: nat): int { d - MaxOffset(d) + draw }

  // ---- loadInstance, updateStatus ----

  datatype Loading = LoadFailed | NotFound | Loaded(kind: Kind, instance: Crd)

  datatype Load = Load(world: World, script: seq<Outcome>, loading: Loading)

  /** Reads the resource, and adds the finalizer to one that is new. */
  function LoadInstance(w: World, script: seq<Outcome>): (l: Load)
    ensures l.world.core == w.core
  {
    var rest := Tail(script);
    if !Head(script).Succeeds? then Load(w, rest, LoadFailed)
    else if w.crd.None? then Load(w, rest, NotFound)
    else if w.crd.value.deleting then Load(w, rest, Loaded(DeleteKind, w.crd.value))
    else if w.crd.value.finalizer then Load(w, rest, Loaded(UpdateKind, w.crd.value))
    else
      var u := UpdateStatus(w, rest, Some(CreateKind), w.crd.value, "recorded", []);
      Load(u.world, u.script, if u.ok then Loaded(CreateKind, u.instance) else LoadFailed)
  }

  function ActionName(c: Cmd): string {
    match c
    case CreateClient(_, _, _) => "CreateClientInApiCommand"
    case UpdateSecret(_) => "UpdateSecretContentCommand"
    case UpdateClient(_, _, _) => "UpdateClientInApiCommand"
    case DeleteClient(_) => "DeleteClientInApiCommand"
    case DeleteSecret => "DeleteSecretContentCommand"
  }

  function ActionNames(cmds: seq<Cmd>): (r: seq<string>)
    ensures |r| == |cmds|
  {
    seq(|cmds|, i requires 0 <= i < |cmds| => ActionName(cmds[i]))
  }

  function StatusAfter(s: Status, c: Cmd): Status {
    match c
    case CreateClient(id, _, _) => s.(clientId := id)
    case UpdateClient(id, _, _) => s.(clientId := id)
    case DeleteClient(_) => s.(clientId := "")
    case UpdateSecret(content) =>
      s.(authority := content.authority, keyIds := if content.jwks.None? then [] else KeyIds(content.jwks.value))
    case DeleteSecret => s.(authority := "", keyIds := [])
  }

  function FoldStatus(s: Status, cmds: seq<Cmd>): Status {
    if cmds == [] then s else StatusAfter(FoldStatus(s, cmds[..|cmds| - 1]), cmds[|cmds| - 1])
  }

  datatype StatusUpdate = StatusUpdate(world: World, script: seq<Outcome>, instance: Crd, ok: bool)

  /** Where the finalizer changes, the resource itself is written: the server keeps the old status, a list
      of scopes that is present but empty is not sent, and a resource that is being deleted is gone once
      its finalizer is. Otherwise the status is written. */
  function UpdateStatus(w: World, script: seq<Outcome>, kind: Option<Kind>, instance: Crd, state: string, cmds: seq<Cmd>):
    (u: StatusUpdate)
    ensures u.world.core == w.core
  {
    var status := FoldStatus(instance.status.(state := state, lastActions := ActionNames(cmds)), cmds);
    var written :=
      if kind == Some(CreateKind) && !instance.finalizer then
        Some(instance.(finalizer := true, scopes := Resent(instance.scopes)))
      else if kind == Some(DeleteKind) && instance.finalizer then
        (if instance.deleting then None else Some(instance.(finalizer := false, scopes := Resent(instance.scopes))))
      else Some(instance.(status := status));
    var world := if Head(script).Refused? || w.crd.None? then w else w.(crd := written);
    var ok := Head(script).Succeeds? && w.crd.Some?;
    StatusUpdate(world, Tail(script), if ok && written.Some? then written.value else instance, ok)
  }

  /** The status write after a failure names no kind of request, and its own failure is ignored. */
  function ReportError(w: World, script: seq<Outcome>, instance: Crd, executed: seq<Cmd>): (r: RoundResult)
    ensures r.world.core == w.core && r.reply == Failed
  {
    RoundResult(UpdateStatus(w, script, None, instance, "error", executed).world, Failed)
  }

  // ---- fetchCurrentState ----

  datatype Fetch<T> = Fetch(script: seq<Outcome>, result: Result<T, FetchError>)

  /** Only names that extend the operator's prefix are its own. */
  predicate OwnName(app: App, name: Option<string>) {
    name.Some? && TrimPrefix(name.value, app.NamePrefix()) != name.value
  }

  function View(id: string, c: Client): ApiView { ApiView(id, ReceivedScopes(c.scopes), c.keys) }

  /** Two reads: the client, then its key set. */
  function GetClient(app: App, core: Core, script: seq<Outcome>, id: string): Fetch<ApiView> {
    var rest := Tail(script);
    if !Head(script).Succeeds? then Fetch(rest, Err(ReadFailed))
    else if id !in core.api.clients then Fetch(rest, Err(ClientMissing))
    else if !OwnName(app, core.api.clients[id].name) then Fetch(rest, Err(UnexpectedName))
    else if !Head(rest).Succeeds? then Fetch(Tail(rest), Err(ReadFailed))
    else Fetch(Tail(rest), Ok(View(id, core.api.clients[id])))
  }

  function OwnClients(app: App, api: Api, listing: seq<string>): seq<string> {
    if listing == [] then []
    else
      var own := listing[0] in api.clients && OwnName(app, api.clients[listing[0]].name);
      (if own then [listing[0]] else []) + OwnClients(app, api, listing[1..])
  }

  /** A client that bears the app's name. */
  predicate Bears(app: App, api: Api, id: string) {
    id in api.clients && api.clients[id].name == Some(app.ClientName())
  }

  function FirstNamed(app: App, api: Api, ids: seq<string>): Option<string> {
    if ids == [] then None
    else if Bears(app, api, ids[0]) then Some(ids[0])
    else FirstNamed(app, api, ids[1..])
  }

  function FindByName(app: App, core: Core, script: seq<Outcome>): Fetch<Option<ApiView>> {
    var rest := Tail(script);
    if !Head(script).Succeeds? then Fetch(rest, Err(ReadFailed))
    else
      match FirstNamed(app, core.api, OwnClients(app, core.api, core.api.listing))
      case None => Fetch(rest, Ok(None))
      case Some(id) => Optional(GetClient(app, core, rest, id))
  }

  function Optional(f: Fetch<ApiView>): Fetch<Option<ApiView>> {
    match f.result
    case Err(x) => Fetch(f.script, Err(x))
    case Ok(v) => Fetch(f.script, Ok(Some(v)))
  }

  function FetchSecret(core: Core, script: seq<Outcome>): Fetch<Option<Secret>> {
    var rest := Tail(script);
    if !Head(script).Succeeds? then Fetch(rest, Err(ReadFailed))
    else if |core.secrets| > 1 then Fetch(rest, Err(ManySecrets))
    else if |core.secrets| == 0 then Fetch(rest, Ok(None))
    else if !core.secrets[0].opaqueType then Fetch(rest, Err(NotOpaque))
    else Fetch(rest, Ok(Some(core.secrets[0])))
  }

  /** The API client: by the id in the secret where there is content, by name where there is none. */
  function FetchApi(app: App, core: Core, script: seq<Outcome>, content: Option<Content>): Fetch<Option<ApiView>> {
    if content.None? then FindByName(app, core, script)
    else if content.value.clientId == "" then Fetch(script, Ok(None))
    else Optional(GetClient(app, core, script, content.value.clientId))
  }

  function FetchState(app: App, core: Core, script: seq<Outcome>, instance: Crd): Fetch<Snapshot> {
    var s := FetchSecret(core, script);
    match s.result
    case Err(x) => Fetch(s.script, Err(x))
    case Ok(secret) =>
      match (if secret.None? then Ok(None) else secret.value.Deserialize())
      case Err(x) => Fetch(s.script, Err(x))
      case Ok(content) =>
        var a := FetchApi(app, core, s.script, content);
        match a.result
        case Err(x) => Fetch(a.script, Err(x))
        case Ok(api) => Fetch(a.script, NewClientState(instance, api, secret, content))
  }

  // ---- reconcile: the command executor ----

  function WritesOf(newId: string, manifest: Secret, c: Cmd): seq<Write> {
    match c
    case CreateClient(_, req, keys) => [PostClient(newId, req.name, SentScopes(req.scopes)), PostJwks(newId, keys)]
    case UpdateSecret(content) => [PutSecret(manifest.Serialize(content))]
    case UpdateClient(id, update, keys) =>
      (if update.Some? then [PutClient(id, update.value.name, SentScopes(update.value.scopes))] else [])
      + (if keys.Some? then [PostJwks(id, keys.value)] else [])
    case DeleteClient(id) => [DropClient(id)]
    case DeleteSecret => [PutSecret(manifest.DeleteContent())]
  }

  /** The callback of a create command fills the id into the command itself and into the content that is
      still to be written. */
  function FillOne(id: string, c: Cmd): Cmd {
    if c.UpdateSecret? && c.content.clientId == "" then UpdateSecret(c.content.(clientId := id)) else c
  }

  function Fill(id: string, cmds: seq<Cmd>): (r: seq<Cmd>)
    ensures |r| == |cmds| && forall i :: 0 <= i < |cmds| ==> r[i] == FillOne(id, cmds[i])
  {
    seq(|cmds|, i requires 0 <= i < |cmds| => FillOne(id, cmds[i]))
  }

  function AfterCallback(newId: string, c: Cmd, rest: seq<Cmd>): (r: seq<Cmd>)
    ensures |r| == |rest|
  {
    if c.CreateClient? then Fill(newId, rest) else rest
  }

  function Executed(newId: string, c: Cmd): Cmd { if c.CreateClient? then c.(clientId := newId) else c }

  datatype ExecEnd = AllExecuted | CommandFailed | AssertionFailed

  datatype Execution = Execution(core: Core, script: seq<Outcome>, executed: seq<Cmd>, end: ExecEnd)

  predicate AssertionHolds(c: Cmd) { c.UpdateSecret? ==> c.content.clientId != "" }

  function Exec(core: Core, script: seq<Outcome>, newId: string, manifest: Secret, cmds: seq<Cmd>, executed: seq<Cmd>):
    Execution
    decreases |cmds|
  {
    if cmds == [] then Execution(core, script, executed, AllExecuted)
    else if !AssertionHolds(cmds[0]) then Execution(core, script, executed, AssertionFailed)
    else
      var d := SendAll(core, script, WritesOf(newId, manifest, cmds[0]));
      if !d.ok then Execution(d.core, d.script, executed, CommandFailed)
      else Exec(d.core, d.script, newId, manifest, AfterCallback(newId, cmds[0], cmds[1..]),
                executed + [Executed(newId, cmds[0])])
  }

  // ---- Reconcile ----

  datatype Decision =
    | Stopped(end: RoundResult)
    | Decided(world: World, script: seq<Outcome>, kind: Kind, snapshot: Snapshot, cmds: seq<Cmd>)

  /** Up to the point where the commands are known. */
  function Decide(app: App, env: RoundEnv, w: World): (d: Decision)
    ensures (if d.Stopped? then d.end.world else d.world).core == w.core
  {
    var l := LoadInstance(w, env.script);
    match l.loading
    case LoadFailed => Stopped(RoundResult(l.world, Failed))
    case NotFound => Stopped(RoundResult(l.world, Quiet))
    case Loaded(kind, instance) =>
      var f := FetchState(app, l.world.core, l.script, instance);
      match f.result
      case Err(_) => Stopped(ReportError(l.world, f.script, instance, []))
      case Ok(snapshot) =>
        match Plan(app, env.inputs, snapshot)
        case Err(_) => Stopped(ReportError(l.world, f.script, instance, []))
        case Ok(cmds) => Decided(l.world, f.script, kind, snapshot, cmds)
  }

  /** Carrying the commands out and recording it. A round without commands ends here, with nothing
      written and nothing scheduled. */
  function CarryOut(env: RoundEnv, d: Decision): RoundResult
    requires d.Decided?
  {
    var x := Exec(d.world.core, d.script, env.newId, d.snapshot.manifest, d.cmds, []);
    var w := d.world.(core := x.core);
    match x.end
    case AssertionFailed => RoundResult(w, Crashed)
    case CommandFailed => ReportError(w, x.script, d.snapshot.crd, x.executed)
    case AllExecuted =>
      if x.executed == [] then RoundResult(w, Quiet)
      else
        var u := UpdateStatus(w, x.script, Some(d.kind), d.snapshot.crd, "reconciled", x.executed);
        RoundResult(u.world, if u.ok then Requeue(RandomizeDuration(env.requeueAfter, env.offset)) else Failed)
  }

  function Round(app: App, env: RoundEnv, w: World): RoundResult {
    var d := Decide(app, env, w);
    if d.Stopped? then d.end else CarryOut(env, d)
  }

  /** A request names a resource. One whose name has no dash is rejected before anything is read. */
  function Requested(owner: string, environment: string, name: string, env: RoundEnv, w: World): RoundResult {
    match AppIdOf(name)
    case None => RoundResult(w, Failed)
    case Some(appId) => Round(App(owner, environment, appId), env, w)
  }

  // ---- what a round can touch ----

  /** A name of the operator's: it begins with "altinnoperator-", the owner, a dash, the environment and a
      dash. */
  lemma OwnNameMeaning(app: App, name: Option<string>)
    ensures var prefix := "altinnoperator-" + app.owner + "-" + app.environment + "-";
            OwnName(app, name) <==> name.Some? && |prefix| <= |name.value| && name.value[..|prefix|] == prefix
  {
    assert |app.NamePrefix()| > 0;
  }

  lemma {:induction false} KeepOneMore(app: App, api: Api, listing: seq<string>, id: string)
    ensures OwnClients(app, api, listing + [id])
         == OwnClients(app, api, listing) + if id in api.clients && OwnName(app, api.clients[id].name) then [id] else []
  {
    if listing == [] {
      assert ([] + [id])[1..] == [];
    } else {
      assert (listing + [id])[1..] == listing[1..] + [id];
      KeepOneMore(app, api, listing[1..], id);
    }
  }

  /** The listed clients that are kept, in the order of the listing, each as often as it is listed. */
  lemma OwnClientsOneMore(app: App, api: Api, listing: seq<string>, id: string)
    ensures var prefix := "altinnoperator-" + app.owner + "-" + app.environment + "-";
            var kept := id in api.clients && api.clients[id].name.Some?
                        && |prefix| <= |api.clients[id].name.value| && api.clients[id].name.value[..|prefix|] == prefix;
            && OwnClients(app, api, []) == []
            && OwnClients(app, api, listing + [id]) == OwnClients(app, api, listing) + if kept then [id] else []
  {
    KeepOneMore(app, api, listing, id);
    if id in api.clients { OwnNameMeaning(app, api.clients[id].name); }
  }

  /** Of all listings: kept are those listed clients, and only those, whose names begin with
      "altinnoperator-", the owner, a dash, the environment and a dash. */
  lemma {:induction false} OwnClientsMeaning(app: App, api: Api, listing: seq<string>)
    ensures var prefix := "altinnoperator-" + app.owner + "-" + app.environment + "-";
            forall id :: id in OwnClients(app, api, listing) <==>
                         id in listing && id in api.clients && api.clients[id].name.Some?
                         && |prefix| <= |api.clients[id].name.value| && api.clients[id].name.value[..|prefix|] == prefix
    ensures forall id :: id in OwnClients(app, api, listing) <==>
                         id in listing && id in api.clients && OwnName(app, api.clients[id].name)
  {
    if listing != [] { OwnClientsMeaning(app, api, listing[1..]); }
    forall id | id in api.clients
      ensures var prefix := "altinnoperator-" + app.owner + "-" + app.environment + "-";
              var name := api.clients[id].name;
              OwnName(app, name) <==> name.Some? && |prefix| <= |name.value| && name.value[..|prefix|] == prefix
    {
      OwnNameMeaning(app, api.clients[id].name);
    }
  }

  /** Getting a client is two calls, the second only for a client that is there and of the operator's. What
      fails, fails with its own error, and nothing else does. */
  lemma GetClientMeaning(app: App, core: Core, script: seq<Outcome>, id: string)
    ensures var prefix := "altinnoperator-" + app.owner + "-" + app.environment + "-";
            var f, found := GetClient(app, core, script, id), id in core.api.clients;
            var own := found && core.api.clients[id].name.Some?
                       && |prefix| <= |core.api.clients[id].name.value| && core.api.clients[id].name.value[..|prefix|] == prefix;
            var first, second := Nth(script, 0).Succeeds?, Nth(script, 1).Succeeds?;
            && (f.result == Err(ReadFailed) <==> !first || (own && !second))
            && (f.result == Err(ClientMissing) <==> first && !found)
            && (f.result == Err(UnexpectedName) <==> first && found && !own)
            && (f.result.Ok? <==> first && own && second)
            && (f.result.Ok? ==>
                  && f.result.value.id == id && f.result.value.keys == core.api.clients[id].keys
                  && f.result.value.scopes == if core.api.clients[id].scopes == [] then None else Some(core.api.clients[id].scopes))
            && f.script == From(script, if first && own then 2 else 1)
  {
    ScriptUnfolds(script);
    if id in core.api.clients { OwnNameMeaning(app, core.api.clients[id].name); }
  }

  /** The client taken is the first in the list that bears the name. */
  lemma {:induction false} FirstNamedMeaning(app: App, api: Api, ids: seq<string>)
    ensures FirstNamed(app, api, ids).Some? ==>
              exists i :: 0 <= i < |ids| && ids[i] == FirstNamed(app, api, ids).value && Bears(app, api, ids[i])
                          && forall j :: 0 <= j < i ==> !Bears(app, api, ids[j])
    ensures FirstNamed(app, api, ids).None? ==> forall id :: id in ids ==> !Bears(app, api, id)
  {
    if ids != [] && !Bears(app, api, ids[0]) {
      FirstNamedMeaning(app, api, ids[1..]);
      if FirstNamed(app, api, ids[1..]).Some? {
        var i :| 0 <= i < |ids[1..]| && ids[1..][i] == FirstNamed(app, api, ids[1..]).value && Bears(app, api, ids[1..][i])
                 && forall j :: 0 <= j < i ==> !Bears(app, api, ids[1..][j]);
        assert ids[i + 1] == ids[1..][i];
        assert forall j :: 1 <= j < i + 1 ==> ids[j] == ids[1..][j - 1];
      }
    }
  }

  lemma AppNameIsOwn(app: App)
    ensures OwnName(app, Some(app.ClientName()))
  {
    assert HasPrefix(app.ClientName(), app.NamePrefix());
    assert |app.NamePrefix()| > 0;
  }

  /** Search by name over the filtered list finds a client exactly when one bears the name. */
  lemma SearchByName(app: App, api: Api)
    requires api.Valid()
    ensures var r := FirstNamed(app, api, OwnClients(app, api, api.listing));
            && (r.Some? ==> Bears(app, api, r.value))
            && (r.None? ==> forall id :: !Bears(app, api, id))
  {
    var own := OwnClients(app, api, api.listing);
    OwnClientsMeaning(app, api, api.listing);
    FirstNamedMeaning(app, api, own);
    AppNameIsOwn(app);
    assert forall id :: Bears(app, api, id) ==> id in own;
  }

  // ---- what a fetch makes of everything it may find ----

  /** The secret comes first, and what is wrong with it ends the fetch. */
  lemma FetchRejectsSecrets(app: App, core: Core, script: seq<Outcome>, instance: Crd)
    ensures var r, read := FetchState(app, core, script, instance).result, Nth(script, 0).Succeeds?;
            && (!read ==> r == Err(ReadFailed))
            && (r == Err(ManySecrets) <==> read && |core.secrets| > 1)
            && (r == Err(NotOpaque) <==> read && |core.secrets| == 1 && !core.secrets[0].opaqueType)
            && (r == Err(BadSettings) <==>
                && read && |core.secrets| == 1 && core.secrets[0].opaqueType && core.secrets[0].data.Some?
                && "maskinporten-settings.json" in core.secrets[0].data.value
                && core.secrets[0].data.value["maskinporten-settings.json"].Bytes?)
            && (read && core.secrets == [] ==> r.Err?)
  {
    ScriptUnfolds(script);
  }

  /** With content, the client is the one of that id; content without an id shows none, and asks for none. */
  lemma FetchWithContent(app: App, core: Core, script: seq<Outcome>, instance: Crd, c: Content)
    requires Nth(script, 0).Succeeds? && |core.secrets| == 1 && core.secrets[0].opaqueType
    requires core.secrets[0].Stored() == Some(c)
    ensures var f, g := FetchState(app, core, script, instance), GetClient(app, core, From(script, 1), c.clientId);
            if c.clientId == "" then f == Fetch(From(script, 1), Ok(Snapshot(instance, None, core.secrets[0], Some(c))))
            else if g.result.Err? then f == Fetch(g.script, Err(g.result.error))
            else f == Fetch(g.script, Ok(Snapshot(instance, Some(g.result.value), core.secrets[0], Some(c))))
  {
    ScriptUnfolds(script);
  }

  /** Without content, it is the first listed that bears the app's name, asked for by its id. */
  lemma FetchWithoutContent(app: App, core: Core, script: seq<Outcome>, instance: Crd)
    requires Nth(script, 0).Succeeds? && |core.secrets| == 1 && core.secrets[0].opaqueType
    requires !core.secrets[0].HasSettings()
    ensures var f := FetchState(app, core, script, instance);
            var first := FirstNamed(app, core.api, OwnClients(app, core.api, core.api.listing));
            if !Nth(script, 1).Succeeds? then f == Fetch(From(script, 2), Err(ReadFailed))
            else if first.None? then f == Fetch(From(script, 2), Ok(Snapshot(instance, None, core.secrets[0], None)))
            else
              var g := GetClient(app, core, From(script, 2), first.value);
              if g.result.Err? then f == Fetch(g.script, Err(g.result.error))
              else if first.value == "" then f == Fetch(g.script, Err(EmptyClientId))
              else f == Fetch(g.script, Ok(Snapshot(instance, Some(g.result.value), core.secrets[0], None)))
  {
    ScriptUnfolds(script);
  }

  /** Without a secret the API is still asked, and what it answers is reported if it is an error; if not, the
      missing secret is. */
  lemma FetchWithoutSecret(app: App, core: Core, script: seq<Outcome>, instance: Crd)
    requires Nth(script, 0).Succeeds? && core.secrets == []
    ensures var f := FetchState(app, core, script, instance);
            var first := FirstNamed(app, core.api, OwnClients(app, core.api, core.api.listing));
            if !Nth(script, 1).Succeeds? then f == Fetch(From(script, 2), Err(ReadFailed))
            else if first.None? then f == Fetch(From(script, 2), Err(NoSecret))
            else
              var g := GetClient(app, core, From(script, 2), first.value);
              f == Fetch(g.script, Err(if g.result.Err? then g.result.error else NoSecret))
  {
    ScriptUnfolds(script);
  }

  /** The operator's name is the operator's context and the app id, so a client bears it or not by its name
      alone. */
  lemma BearsMeaning(app: App, api: Api, id: string)
    ensures Bears(app, api, id) <==>
            && id in api.clients && api.clients[id].name.Some?
            && api.clients[id].name.value == "altinnoperator-" + app.owner + "-" + app.environment + "-" + app.appId
  {
  }

  /** All writes of a command list, in order. */
  function AllWrites(newId: string, manifest: Secret, cmds: seq<Cmd>): seq<Write>
    decreases |cmds|
  {
    if cmds == [] then []
    else WritesOf(newId, manifest, cmds[0]) + AllWrites(newId, manifest, AfterCallback(newId, cmds[0], cmds[1..]))
  }

  lemma {:induction false} PlayJoined(core: Core, script: seq<Outcome>, ws: seq<Write>, more: seq<Write>)
    requires SendAll(core, script, ws).ok
    ensures Play(core, ws + more) == Play(SendAll(core, script, ws).core, more)
    decreases |ws|
  {
    if ws == [] {
      assert ws + more == more;
    } else {
      var first := Send(core, script, ws[0]);
      assert (ws + more)[1..] == ws[1..] + more;
      PlayJoined(first.core, first.script, ws[1..], more);
    }
  }

  /** Wherever a round is cut, the state is one that the uninterrupted sequence of writes passes
      through. */
  lemma {:induction false} CutIsAPrefix(
    core: Core, script: seq<Outcome>, newId: string, manifest: Secret, cmds: seq<Cmd>, executed: seq<Cmd>)
    returns (k: nat)
    ensures var x := Exec(core, script, newId, manifest, cmds, executed);
            var ws := AllWrites(newId, manifest, cmds);
            && k <= |ws|
            && x.core == Play(core, ws[..k])
            && (x.end.AllExecuted? ==> k == |ws|)
    decreases |cmds|
  {
    var ws := AllWrites(newId, manifest, cmds);
    if cmds == [] || !AssertionHolds(cmds[0]) {
      k := 0;
    } else {
      var mine := WritesOf(newId, manifest, cmds[0]);
      var d := SendAll(core, script, mine);
      if !d.ok {
        k := DeliveredPrefix(core, script, mine);
        assert ws[..k] == mine[..k];
      } else {
        var rest := AfterCallback(newId, cmds[0], cmds[1..]);
        var j := CutIsAPrefix(d.core, d.script, newId, manifest, rest, executed + [Executed(newId, cmds[0])]);
        k := |mine| + j;
        assert ws[..k] == mine + AllWrites(newId, manifest, rest)[..j];
        PlayJoined(core, script, mine, AllWrites(newId, manifest, rest)[..j]);
      }
    }
  }
}
