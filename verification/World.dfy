/** Everything outside the operator: the Maskinporten API, the app's secrets and the custom resource,
    and the calls that read or write them. */
module World {
  import opened Wrappers
  import opened Text
  import opened Keys

  /** What names the app: the operator's context and the app id taken from the resource name. */
  datatype App = App(owner: string, environment: string, appId: string) {
    function NamePrefix(): string { "altinnoperator-" + owner + "-" + environment + "-" }

    function ClientName(): string { NamePrefix() + appId }
  }

  /** The app id is what stands between the first two dashes of the resource name. */
  function AppIdOf(resourceName: string): Option<string> {
    var parts := Split(resourceName, '-');
    if |parts| < 2 then None else Some(parts[1])
  }

  /** For a resource called `owner-app`, the app id read back is `app` exactly when the app's own
      name has no dash; otherwise it is cut short. */
  lemma AppIdIsWholeUnlessDashed(owner: string, app: string)
    requires '-' !in owner
    ensures AppIdOf(owner + "-" + app).Some?
    ensures AppIdOf(owner + "-" + app) == Some(app) <==> '-' !in app
  {
    assert owner + "-" + app == owner + ['-'] + app;
    SecondPart(owner, '-', app);
    FirstPartHasNoSeparator(app, '-');
  }

  /** The id is there exactly when the name has a dash, and it ends at the second dash, if there is one. */
  lemma AppIdEndsAtTheSecondDash(owner: string, first: string, more: string)
    requires '-' !in owner && '-' !in first
    ensures AppIdOf(owner).None?
    ensures AppIdOf(owner + "-" + first) == Some(first)
    ensures AppIdOf(owner + "-" + first + "-" + more) == Some(first)
  {
    PartsCount(owner, '-');
    assert owner + "-" + first == owner + ['-'] + first;
    SecondPart(owner, '-', first);
    assert owner + "-" + first + "-" + more == owner + ['-'] + (first + ['-'] + more);
    SecondPart(owner, '-', first + ['-'] + more);
    FirstPart(first, '-', more);
  }

  lemma NameInParts(a: App)
    ensures a.ClientName() == "altinnoperator" + ['-'] + (a.owner + ['-'] + (a.environment + ['-'] + a.appId))
    ensures a.ClientName() == a.NamePrefix() + a.appId
    ensures a.NamePrefix() == "altinnoperator-" + a.owner + "-" + a.environment + "-"
  {
    assert "altinnoperator-" == "altinnoperator" + ['-'];
  }

  /** The name a client is registered under. Owners and environments without dashes can be told from it, so
      no two apps share one. */
  lemma ClientNamesDiffer(a: App, b: App)
    requires '-' !in a.owner && '-' !in a.environment && '-' !in b.owner && '-' !in b.environment
    ensures a.ClientName() == b.ClientName() <==> a == b
  {
    NameInParts(a);
    NameInParts(b);
    FourPartsDetermined("altinnoperator", a.owner, a.environment, a.appId, b.owner, b.environment, b.appId, '-');
  }

  /** A registered client; `scopes` is the stored list, empty when none was sent. */
  datatype Client = Client(name: Option<string>, scopes: seq<string>, keys: seq<Jwk>)

  /** The self-service API: clients by id, and the order in which it lists them. */
  datatype Api = Api(clients: map<string, Client>, listing: seq<string>) {
    ghost predicate Valid() {
      && (forall id :: id in listing <==> id in clients)
      && "" !in clients
    }
  }

  /** The `omitempty` field: nil and empty lists are both sent as nothing, and read back as nil. */
  function SentScopes(scopes: Option<seq<string>>): seq<string> {
    if scopes.None? then [] else scopes.value
  }

  function ReceivedScopes(scopes: seq<string>): Option<seq<string>> {
    if scopes == [] then None else Some(scopes)
  }

  /** What a list is after a write and a read through such a field. The resource's own list is one too. */
  function Resent(scopes: Option<seq<string>>): (r: Option<seq<string>>)
    ensures r == scopes <==> scopes != Some([])
  {
    ReceivedScopes(SentScopes(scopes))
  }

  datatype Content = Content(clientId: string, authority: string, jwks: Option<seq<Jwk>>, jwk: Option<Jwk>)

  /** A value of the secret: what the JSON codec makes of a content, or bytes it does not decode. */
  datatype Blob = Settings(content: Content) | Bytes(bytes: string)

  const SETTINGS_FILE := "maskinporten-settings.json"

  datatype Secret = Secret(opaqueType: bool, data: Option<map<string, Blob>>) {
    predicate HasSettings() { data.Some? && SETTINGS_FILE in data.value }

    /** The content, where there is one that decodes. */
    function Stored(): Option<Content> {
      if HasSettings() && data.value[SETTINGS_FILE].Settings? then Some(data.value[SETTINGS_FILE].content) else None
    }

    function Serialize(c: Content): Secret {
      this.(data := Some((if data.None? then map[] else data.value)[SETTINGS_FILE := Settings(c)]))
    }

    function DeleteContent(): Secret {
      if data.None? then this else this.(data := Some(data.value - {SETTINGS_FILE}))
    }

    function Deserialize(): Result<Option<Content>, FetchError> {
      if !HasSettings() then Ok(None)
      else
        match data.value[SETTINGS_FILE]
        case Settings(c) => Ok(Some(c))
        case Bytes(_) => Err(BadSettings)
    }

    /** The entries that are not the operator's. */
    function Others(): map<string, Blob> {
      if data.None? then map[] else data.value - {SETTINGS_FILE}
    }
  }

  datatype FetchError =
    | ReadFailed | ManySecrets | NotOpaque | BadSettings | ClientMissing | UnexpectedName | NoSecret | EmptyClientId

  /** Writing reads back what was written, deleting reads back nothing, and neither touches another
      entry. */
  lemma SecretRoundTrip(s: Secret, c: Content)
    ensures s.Serialize(c).Deserialize() == Ok(Some(c)) && s.Serialize(c).Stored() == Some(c)
    ensures s.DeleteContent().Deserialize() == Ok(None) && s.DeleteContent().Stored() == None
    ensures s.Serialize(c).Others() == s.Others() == s.DeleteContent().Others()
    ensures s.Serialize(c).DeleteContent().Others() == s.Others()
    ensures var before := if s.data.None? then map[] else s.data.value;
            && s.Serialize(c).data == Some(before["maskinporten-settings.json" := Settings(c)])
            && s.DeleteContent().data == if s.data.None? then None else Some(before - {"maskinporten-settings.json"})
  {
    assert s.Serialize(c).Others() == s.Others();
  }

  datatype Status = Status(
    clientId: string, authority: string, keyIds: seq<string>, state: string, lastActions: seq<string>)

  const NO_STATUS := Status("", "", [], "", [])

  datatype Crd = Crd(scopes: Option<seq<string>>, deleting: bool, finalizer: bool, status: Status)

  /** What reconciliation commands act on. */
  datatype Core = Core(api: Api, secrets: seq<Secret>)

  datatype World = World(crd: Option<Crd>, core: Core)

  /** What becomes of one call: it succeeds, it has no effect, or it takes effect but its response is
      lost. A read that loses its response has simply failed. */
  datatype Outcome = Succeeds | Refused | ResponseLost

  function Head(script: seq<Outcome>): Outcome { if script == [] then Succeeds else script[0] }

  function Tail(script: seq<Outcome>): seq<Outcome> { if script == [] then [] else script[1..] }

  /** The calls from the n-th on, counted from zero, and the n-th itself. */
  function From(script: seq<Outcome>, n: nat): seq<Outcome> { if n <= |script| then script[n..] else [] }

  function Nth(script: seq<Outcome>, n: nat): Outcome { Head(From(script, n)) }

  lemma FromNext(script: seq<Outcome>, n: nat)
    ensures Tail(From(script, n)) == From(script, n + 1)
    ensures From(script, 0) == script
  {
  }

  /** The first n calls all succeed. */
  predicate Begins(script: seq<Outcome>, n: nat) { n > 0 ==> Begins(script, n - 1) && Nth(script, n - 1).Succeeds? }

  lemma ScriptUnfolds(s: seq<Outcome>)
    ensures From(s, 0) == s && Tail(s) == From(s, 1) && Tail(From(s, 1)) == From(s, 2) && Tail(From(s, 2)) == From(s, 3)
    ensures Tail(From(s, 3)) == From(s, 4) && Tail(From(s, 4)) == From(s, 5) && Tail(From(s, 5)) == From(s, 6)
    ensures Begins(s, 4) <==> Nth(s, 0).Succeeds? && Nth(s, 1).Succeeds? && Nth(s, 2).Succeeds? && Nth(s, 3).Succeeds?
    ensures Begins(s, 5) <==> Begins(s, 4) && Nth(s, 4).Succeeds?
    ensures Begins(s, 6) <==> Begins(s, 5) && Nth(s, 5).Succeeds?
  {
    FromNext(s, 0);
    assert Begins(s, 1) <==> Nth(s, 0).Succeeds?;
    assert Begins(s, 2) <==> Begins(s, 1) && Nth(s, 1).Succeeds?;
    assert Begins(s, 3) <==> Begins(s, 2) && Nth(s, 2).Succeeds?;
  }

  predicate Faultless(script: seq<Outcome>) { forall o :: o in script ==> o == Succeeds }

  predicate NothingLost(script: seq<Outcome>) { forall o :: o in script ==> o != ResponseLost }

  /** The writes of the API client and of the executor. */
  datatype Write =
    | PostClient(id: string, name: string, scopes: seq<string>)
    | PostJwks(id: string, keys: seq<Jwk>)
    | PutClient(id: string, name: string, scopes: seq<string>)
    | DropClient(id: string)
    | PutSecret(secret: Secret)

  /** The effect of a write, `None` where a guard or the server refuses it: an id that is missing, unknown
      or taken, a private key, a secret that is not there to be updated. Posting a key set replaces
      the keys the client has; putting a client leaves them alone. */
  function Effect(core: Core, w: Write): Option<Core> {
    var api := core.api;
    match w
    case PostClient(id, name, scopes) =>
      if id == "" || id in api.clients then None
      else Some(core.(api := Api(api.clients[id := Client(Some(name), scopes, [])], api.listing + [id])))
    case PostJwks(id, keys) =>
      if id == "" || !AllPublic(keys) || id !in api.clients then None
      else Some(core.(api := api.(clients := api.clients[id := api.clients[id].(keys := keys)])))
    case PutClient(id, name, scopes) =>
      if id == "" || id !in api.clients then None
      else Some(core.(api := api.(clients := api.clients[id := api.clients[id].(name := Some(name), scopes := scopes)])))
    case DropClient(id) =>
      if id !in api.clients then None
      else Some(core.(api := Api(api.clients - {id}, Without(api.listing, id))))
    case PutSecret(secret) =>
      if |core.secrets| != 1 then None else Some(core.(secrets := [secret]))
  }

  function Without(ids: seq<string>, id: string): (r: seq<string>)
    ensures forall x :: x in r <==> x in ids && x != id
  {
    if ids == [] then []
    else if ids[0] == id then Without(ids[1..], id)
    else [ids[0]] + Without(ids[1..], id)
  }

  /** One write under one outcome of the network. */
  datatype Delivery = Delivery(core: Core, script: seq<Outcome>, ok: bool)

  /** What the API client checks before it makes the call at all. */
  predicate PassesGuard(w: Write) {
    match w
    case PostJwks(id, keys) => id != "" && AllPublic(keys)
    case PutClient(id, _, _) => id != ""
    case _ => true
  }

  function Send(core: Core, script: seq<Outcome>, w: Write): Delivery {
    var effect := Effect(core, w);
    if !PassesGuard(w) then Delivery(core, script, false)
    else if effect.None? then Delivery(core, Tail(script), false)
    else
      match Head(script)
      case Succeeds => Delivery(effect.value, Tail(script), true)
      case Refused => Delivery(core, Tail(script), false)
      case ResponseLost => Delivery(effect.value, Tail(script), false)
  }

  /** Writes in order, up to the first that does not report success. */
  function SendAll(core: Core, script: seq<Outcome>, ws: seq<Write>): Delivery
    decreases |ws|
  {
    if ws == [] then Delivery(core, script, true)
    else
      var sent := Send(core, script, ws[0]);
      if sent.ok then SendAll(sent.core, sent.script, ws[1..]) else sent
  }

  lemma SendFirst(core: Core, script: seq<Outcome>, w: Write, more: seq<Write>)
    ensures var d := Send(core, script, w);
            SendAll(core, script, [w] + more) == if d.ok then SendAll(d.core, d.script, more) else d
  {
    assert ([w] + more)[1..] == more;
  }

  lemma SendOne(core: Core, script: seq<Outcome>, w: Write)
    ensures SendAll(core, script, [w]) == Send(core, script, w)
  {
    SendFirst(core, script, w, []);
    assert [w] + [] == [w];
  }

  /** The state after writes that all reach the server; a refused write changes nothing and ends it. */
  function Play(core: Core, ws: seq<Write>): Core
    decreases |ws|
  {
    if ws == [] then core
    else
      match Effect(core, ws[0])
      case None => core
      case Some(next) => Play(next, ws[1..])
  }

  /** However the network behaves, a sequence of writes leaves the state that some prefix of it leaves
      when nothing fails, and the whole sequence when it reports success. */
  lemma {:induction false} DeliveredPrefix(core: Core, script: seq<Outcome>, ws: seq<Write>) returns (k: nat)
    ensures k <= |ws| && SendAll(core, script, ws).core == Play(core, ws[..k])
    ensures SendAll(core, script, ws).ok ==> k == |ws|
    decreases |ws|
  {
    if ws == [] {
      k := 0;
    } else {
      var first := Send(core, script, ws[0]);
      if first.ok {
        var rest := DeliveredPrefix(first.core, first.script, ws[1..]);
        k := rest + 1;
        assert ws[..k][1..] == ws[1..][..rest];
      } else if first.core == core {
        k := 0;
      } else {
        k := 1;
        assert ws[..k][1..] == [];
      }
    }
  }
}
