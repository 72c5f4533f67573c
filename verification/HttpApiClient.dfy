/** The network, and the operator's API client of internal/maskinporten/http_api_client.go on it. */
module HttpApiClient {
  import opened Wrappers
  import opened Text
  import opened Keys
  import opened World
  import opened ClientState
  import C = Controller

  /** The world behind the network, and what will become of the calls still to be made. */
  class Network {
    var world: World
    var script: seq<Outcome>

    constructor (world: World, script: seq<Outcome>)
      ensures this.world == world && this.script == script
    {
      this.world, this.script := world, script;
    }

    method Read() returns (ok: bool)
      modifies this
      ensures world == old(world) && script == Tail(old(script)) && ok == Head(old(script)).Succeeds?
    {
      ok := Head(script).Succeeds?;
      script := Tail(script);
    }

    /** A write that has passed the client's guards. */
    method Write(w: Write) returns (ok: bool)
      requires PassesGuard(w)
      modifies this
      ensures var d := Send(old(world.core), old(script), w);
              world == old(world).(core := d.core) && script == d.script && ok == d.ok
    {
      var d := Send(world.core, script, w);
      world, script, ok := world.(core := d.core), d.script, d.ok;
    }

    /** A write of the resource itself: the server keeps the status it has, an empty list of scopes is not
        sent, and the resource is gone once it is being deleted and has no finalizer. The reply is what the
        server stored. */
    method UpdateResource(c: Crd) returns (reply: Option<Crd>)
      modifies this
      ensures
        var stored := old(world).crd;
        var written := if stored.None? then None else Some(c.(status := stored.value.status, scopes := Resent(c.scopes)));
        var kept := if written.Some? && c.deleting && !c.finalizer then None else written;
        && script == Tail(old(script))
        && world == (if Head(old(script)).Refused? then old(world) else old(world).(crd := kept))
        && reply == if Head(old(script)).Succeeds? then written else None
    {
      var outcome := Head(script);
      var written := if world.crd.None? then None else Some(c.(status := world.crd.value.status, scopes := Resent(c.scopes)));
      script := Tail(script);
      if !outcome.Refused? {
        world := world.(crd := if written.Some? && c.deleting && !c.finalizer then None else written);
      }
      return if outcome.Succeeds? then written else None;
    }

    /** A write of the status: nothing else of the resource changes. */
    method UpdateResourceStatus(c: Crd) returns (ok: bool)
      modifies this
      ensures
        var stored := old(world).crd;
        && script == Tail(old(script))
        && world == (if Head(old(script)).Refused? || stored.None? then old(world)
                     else old(world).(crd := Some(stored.value.(status := c.status))))
        && ok == (Head(old(script)).Succeeds? && stored.Some?)
    {
      var outcome := Head(script);
      script := Tail(script);
      ok := outcome.Succeeds? && world.crd.Some?;
      if !outcome.Refused? && world.crd.Some? {
        world := world.(crd := Some(world.crd.value.(status := c.status)));
      }
    }
  }

  /** One entry of the listing. */
  datatype ClientResponse = ClientResponse(clientId: string, clientName: Option<string>)

  function Responses(api: Api, ids: seq<string>): (r: seq<ClientResponse>)
    ensures |r| == |ids|
  {
    seq(|ids|, i requires 0 <= i < |ids| =>
      ClientResponse(ids[i], if ids[i] in api.clients then api.clients[ids[i]].name else None))
  }

  lemma ResponsesOneMore(api: Api, ids: seq<string>, id: string)
    requires id in api.clients
    ensures Responses(api, ids + [id]) == Responses(api, ids) + [ClientResponse(id, api.clients[id].name)]
  {
  }

  class ApiClient {
    const app: App
    const net: Network

    constructor (app: App, net: Network)
      ensures this.app == app && this.net == net
    {
      this.app, this.net := app, net;
    }

    /** The listed clients whose names extend the operator's prefix. */
    method GetAllClients() returns (r: Option<seq<ClientResponse>>)
      modifies net
      ensures net.world == old(net.world) && net.script == Tail(old(net.script))
      ensures var api := net.world.core.api;
              r == if Head(old(net.script)).Succeeds? then Some(Responses(api, C.OwnClients(app, api, api.listing))) else None
    {
      var ok := net.Read();
      if !ok {
        return None;
      }
      var api := net.world.core.api;
      var dtos := Responses(api, api.listing);
      var result := [];
      var i := 0;
      while i < |dtos|
        invariant i <= |dtos|
        invariant net.world == old(net.world) && net.script == Tail(old(net.script))
        invariant result == Responses(api, C.OwnClients(app, api, api.listing[..i]))
      {
        ghost var id := api.listing[i];
        assert api.listing[..i + 1] == api.listing[..i] + [id];
        C.KeepOneMore(app, api, api.listing[..i], id);
        if dtos[i].clientName.Some? {
          var clientName := dtos[i].clientName.value;
          if TrimPrefix(clientName, app.NamePrefix()) != clientName {
            ResponsesOneMore(api, C.OwnClients(app, api, api.listing[..i]), id);
            result := result + [dtos[i]];
          }
        }
        i := i + 1;
      }
      assert api.listing[..i] == api.listing;
      return Some(result);
    }

    method GetClient(clientId: string) returns (r: Result<ApiView, FetchError>)
      modifies net
      ensures var f := C.GetClient(app, old(net.world.core), old(net.script), clientId);
              net.world == old(net.world) && net.script == f.script && r == f.result
    {
      var ok := net.Read();
      if !ok {
        return Err(ReadFailed);
      }
      var clients := net.world.core.api.clients;
      if clientId !in clients {
        return Err(ClientMissing);
      }
      if !C.OwnName(app, clients[clientId].name) {
        return Err(UnexpectedName);
      }
      ok := net.Read();
      if !ok {
        return Err(ReadFailed);
      }
      return Ok(C.View(clientId, clients[clientId]));
    }

    /** No private key leaves: the set is checked key by key before the call. */
    method CreateClientJwks(clientId: string, jwks: Option<seq<Jwk>>) returns (ok: bool)
      modifies net
      ensures jwks.None? || clientId == "" || (exists k :: k in jwks.value && k.isPrivate) ==>
                !ok && net.world == old(net.world) && net.script == old(net.script)
      ensures jwks.Some? ==>
                var d := Send(old(net.world.core), old(net.script), PostJwks(clientId, jwks.value));
                net.world == old(net.world).(core := d.core) && net.script == d.script && ok == d.ok
    {
      if clientId == "" || jwks.None? {
        return false;
      }
      var keys := jwks.value;
      var i := 0;
      while i < |keys|
        invariant i <= |keys| && AllPublic(keys[..i])
      {
        if keys[i].isPrivate {
          assert keys[i] in keys;
          return false;
        }
        assert keys[..i + 1] == keys[..i] + [keys[i]];
        i := i + 1;
      }
      assert keys[..i] == keys;
      ok := net.Write(PostJwks(clientId, keys));
    }

    /** Two calls: the client exists before it has keys, and a failure in between leaves it so. `newId` is
        the id the API answers with. */
    method CreateClient(newId: string, req: Request, jwks: Option<seq<Jwk>>) returns (id: Option<string>)
      modifies net
      ensures jwks.None? ==> id.None? && net.world == old(net.world) && net.script == old(net.script)
      ensures jwks.Some? ==>
                var d := SendAll(old(net.world.core), old(net.script),
                                 [PostClient(newId, req.name, SentScopes(req.scopes)), PostJwks(newId, jwks.value)]);
                && net.world == old(net.world).(core := d.core) && net.script == d.script
                && id == if d.ok then Some(newId) else None
    {
      if jwks.None? {
        return None;
      }
      ghost var ws := [PostClient(newId, req.name, SentScopes(req.scopes)), PostJwks(newId, jwks.value)];
      ghost var first := Send(net.world.core, net.script, ws[0]);
      assert ws[1..] == [ws[1]] && ws[1..][1..] == [];
      assert first.ok ==> SendAll(first.core, first.script, ws[1..]) == Send(first.core, first.script, ws[1]);
      var ok := net.Write(PostClient(newId, req.name, SentScopes(req.scopes)));
      if !ok {
        return None;
      }
      ok := CreateClientJwks(newId, jwks);
      if !ok {
        return None;
      }
      return Some(newId);
    }

    method UpdateClient(clientId: string, req: Request) returns (ok: bool)
      modifies net
      ensures var d := Send(old(net.world.core), old(net.script), PutClient(clientId, req.name, SentScopes(req.scopes)));
              net.world == old(net.world).(core := d.core) && net.script == d.script && ok == d.ok
      ensures clientId == "" ==> !ok && net.world == old(net.world) && net.script == old(net.script)
    {
      if clientId == "" {
        return false;
      }
      ok := net.Write(PutClient(clientId, req.name, SentScopes(req.scopes)));
    }

    method DeleteClient(clientId: string) returns (ok: bool)
      modifies net
      ensures var d := Send(old(net.world.core), old(net.script), DropClient(clientId));
              net.world == old(net.world).(core := d.core) && net.script == d.script && ok == d.ok
    {
      ok := net.Write(DropClient(clientId));
    }
  }
}
