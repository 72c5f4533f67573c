/** The inductive invariant of the reconciliation protocol: every call boundary of every round, under any
    faults, and every change users make between rounds. */
module Invariant {
  import opened Wrappers
  import opened Keys
  import opened Rotation
  import opened World
  import opened ClientState
  import opened Controller

  ghost predicate ContentOk(app: App, api: Api, c: Content) {
    && c.clientId != "" && Bears(app, api, c.clientId)
    && c.jwks.Some? && Usable(c.jwks.value)
    && c.jwk == Some(c.jwks.value[0])
  }

  ghost predicate SecretOk(app: App, api: Api, s: Secret) {
    s.HasSettings() ==> s.Stored().Some? && ContentOk(app, api, s.Stored().value)
  }

  ghost predicate AtMostOneClient(app: App, api: Api) {
    forall i, j :: Bears(app, api, i) && Bears(app, api, j) ==> i == j
  }

  ghost predicate CoreInv(app: App, core: Core) {
    && core.api.Valid()
    && AtMostOneClient(app, core.api)
    && forall s :: s in core.secrets ==> SecretOk(app, core.api, s)
  }

  ghost predicate Owned(app: App, core: Core) {
    || (exists id :: Bears(app, core.api, id))
    || (exists s :: s in core.secrets && s.HasSettings())
  }

  /** A resource being deleted exists only while it has a finalizer, and a client or content only while
      the resource has one. */
  ghost predicate Guarded(app: App, w: World) {
    && (w.crd.Some? && w.crd.value.deleting ==> w.crd.value.finalizer)
    && (Owned(app, w.core) ==> w.crd.Some? && w.crd.value.finalizer)
  }

  ghost predicate Inv(app: App, w: World) { CoreInv(app, w.core) && Guarded(app, w) }

  // ---- the states a write sequence passes through ----

  ghost predicate Along(core: Core, ws: seq<Write>, P: Core -> bool)
    decreases |ws|
  {
    && P(core)
    && (ws != [] && Effect(core, ws[0]).Some? ==> Along(Effect(core, ws[0]).value, ws[1..], P))
  }

  lemma {:induction false} AlongPrefix(core: Core, ws: seq<Write>, P: Core -> bool, k: nat)
    requires Along(core, ws, P) && k <= |ws|
    ensures P(Play(core, ws[..k]))
    decreases |ws|
  {
    if k > 0 && Effect(core, ws[0]).Some? {
      assert ws[..k][1..] == ws[1..][..k - 1];
      AlongPrefix(Effect(core, ws[0]).value, ws[1..], P, k - 1);
    }
  }

  function WritesOfDecision(env: RoundEnv, d: Decision): seq<Write>
    requires d.Decided?
  {
    AllWrites(env.newId, d.snapshot.manifest, d.cmds)
  }

  lemma CarryOutKeepsExecution(env: RoundEnv, d: Decision)
    requires d.Decided?
    ensures CarryOut(env, d).world.core == Exec(d.world.core, d.script, env.newId, d.snapshot.manifest, d.cmds, []).core
  {
  }

  /** What holds all along the writes a round has decided on holds when the round ends, wherever it is
      cut. */
  lemma RoundEndsAlong(app: App, env: RoundEnv, w: World, P: Core -> bool)
    requires P(w.core)
    requires Decide(app, env, w).Decided? ==> Along(w.core, WritesOfDecision(env, Decide(app, env, w)), P)
    ensures P(Round(app, env, w).world.core)
  {
    var d := Decide(app, env, w);
    if d.Decided? {
      CarryOutKeepsExecution(env, d);
      var k := CutIsAPrefix(d.world.core, d.script, env.newId, d.snapshot.manifest, d.cmds, []);
      AlongPrefix(w.core, WritesOfDecision(env, d), P, k);
    }
  }

  // ---- what a decision knows ----

  /** A round leaves the wanted scopes alone, but for the write that adds the finalizer: it turns a list
      that is present but empty into none. */
  ghost predicate ScopesStep(before: Crd, after: Crd) {
    after.scopes == if after.finalizer && !before.finalizer then Resent(before.scopes) else before.scopes
  }

  /** What a round does to the resource before the commands are known: at most the finalizer appears. */
  ghost predicate CrdPrepared(before: World, after: World) {
    && after.core == before.core
    && after.crd.Some? == before.crd.Some?
    && (before.crd.Some? ==>
          && ScopesStep(before.crd.value, after.crd.value)
          && after.crd.value.deleting == before.crd.value.deleting
          && (before.crd.value.finalizer ==> after.crd.value.finalizer))
  }

  /** The snapshot is accurate. */
  ghost predicate Accurate(app: App, w: World, d: Decision)
    requires d.Decided?
  {
    var s := d.snapshot;
    && CrdPrepared(w, d.world)
    && d.world.crd == Some(s.crd)
    && s.crd.finalizer
    && (d.kind == DeleteKind <==> s.crd.deleting)
    && w.core.secrets == [s.manifest] && s.manifest.opaqueType
    && s.content == s.manifest.Stored()
    && (s.content.None? ==> !s.manifest.HasSettings())
    && (s.api.Some? ==>
          && Bears(app, w.core.api, s.api.value.id)
          && s.api.value == View(s.api.value.id, w.core.api.clients[s.api.value.id]))
    && (s.api.None? ==> s.content.None? && forall id :: !Bears(app, w.core.api, id))
    && (s.content.Some? ==> s.content.value.clientId == s.api.value.id)
  }

  lemma LoadPrepares(w: World, script: seq<Outcome>)
    requires w.crd.Some? && w.crd.value.deleting ==> w.crd.value.finalizer
    ensures var l := LoadInstance(w, script);
            && CrdPrepared(w, l.world)
            && (l.loading.NotFound? ==> w.crd.None?)
            && (l.loading.Loaded? ==>
                  && l.world.crd == Some(l.loading.instance)
                  && l.loading.instance.finalizer
                  && (l.loading.kind == DeleteKind <==> l.loading.instance.deleting))
  {
  }

  lemma FetchIsAccurate(app: App, core: Core, script: seq<Outcome>, instance: Crd)
    requires CoreInv(app, core)
    ensures var f := FetchState(app, core, script, instance);
            f.result.Ok? ==>
              var s := f.result.value;
              && s.crd == instance
              && core.secrets == [s.manifest] && s.manifest.opaqueType
              && s.content == s.manifest.Stored()
              && (s.content.None? ==> !s.manifest.HasSettings())
              && (s.api.Some? ==>
                    && Bears(app, core.api, s.api.value.id)
                    && s.api.value == View(s.api.value.id, core.api.clients[s.api.value.id]))
              && (s.api.None? ==> s.content.None? && forall id :: !Bears(app, core.api, id))
              && (s.content.Some? ==> s.content.value.clientId == s.api.value.id)
  {
    SearchByName(app, core.api);
    if |core.secrets| == 1 {
      assert SecretOk(app, core.api, core.secrets[0]);
    }
  }

  lemma ErrorReportKeepsCrd(w: World, script: seq<Outcome>, instance: Crd, executed: seq<Cmd>)
    requires w.crd == Some(instance)
    ensures CrdPrepared(w, ReportError(w, script, instance, executed).world)
    ensures var z := ReportError(w, script, instance, executed).world;
            z.crd.Some? && z.crd.value.(status := instance.status) == instance
  {
  }

  lemma DecisionIsAccurate(app: App, env: RoundEnv, w: World)
    requires Inv(app, w)
    ensures var d := Decide(app, env, w);
            && (d.Stopped? ==> CrdPrepared(w, d.end.world) && (d.end.reply == Failed || (d.end.reply == Quiet && w.crd.None?)))
            && (d.Decided? ==> Accurate(app, w, d) && Plan(app, env.inputs, d.snapshot) == Ok(d.cmds))
  {
    LoadPrepares(w, env.script);
    var l := LoadInstance(w, env.script);
    if l.loading.Loaded? {
      FetchIsAccurate(app, l.world.core, l.script, l.loading.instance);
      var f := FetchState(app, l.world.core, l.script, l.loading.instance);
      ErrorReportKeepsCrd(l.world, f.script, l.loading.instance, []);
    }
  }

  // ---- what the writes of a round do ----

  ghost predicate SecretsFramed(a: Core, b: Core) {
    && |a.secrets| == |b.secrets|
    && forall i :: 0 <= i < |a.secrets| ==>
                     && b.secrets[i].Others() == a.secrets[i].Others()
                     && b.secrets[i].opaqueType == a.secrets[i].opaqueType
  }

  /** No client of another name is touched. */
  ghost predicate ForeignersFramed(app: App, a: Core, b: Core) {
    && (forall id :: id in a.api.clients && !Bears(app, a.api, id) ==>
                       id in b.api.clients && b.api.clients[id] == a.api.clients[id])
    && (forall id :: id in b.api.clients && id !in a.api.clients ==> Bears(app, b.api, id))
  }

  /** How a round on a living resource changes things. */
  ghost predicate Evolves(app: App, a: Core, b: Core) {
    && CoreInv(app, b)
    && SecretsFramed(a, b) && ForeignersFramed(app, a, b)
    && (forall id :: Bears(app, a.api, id) ==> Bears(app, b.api, id))
    && (forall i :: 0 <= i < |a.secrets| && a.secrets[i].HasSettings() && i < |b.secrets| ==> b.secrets[i].HasSettings())
  }

  /** How a round on a resource that is being deleted does: things only go away. */
  ghost predicate Shrinks(app: App, a: Core, b: Core) {
    && CoreInv(app, b)
    && SecretsFramed(a, b) && ForeignersFramed(app, a, b)
    && (forall id :: id in b.api.clients ==> id in a.api.clients && b.api.clients[id] == a.api.clients[id])
    && (forall i :: 0 <= i < |a.secrets| && i < |b.secrets| ==>
                      b.secrets[i] == a.secrets[i] || b.secrets[i] == a.secrets[i].DeleteContent())
  }

  lemma PostClientStep(app: App, a: Core, b: Core, id: string, scopes: seq<string>)
    requires Evolves(app, a, b) && forall x :: !Bears(app, b.api, x)
    requires id != "" && id !in b.api.clients
    ensures var c := Effect(b, PostClient(id, app.ClientName(), scopes)).value;
            Evolves(app, a, c) && Bears(app, c.api, id) && c.secrets == b.secrets && c.api.clients[id].keys == []
  {
    var c := Effect(b, PostClient(id, app.ClientName(), scopes)).value;
    assert forall x :: x != id ==> (Bears(app, c.api, x) <==> Bears(app, b.api, x));
  }

  lemma PostJwksStep(app: App, a: Core, b: Core, id: string, keys: seq<Jwk>)
    requires Evolves(app, a, b) && Bears(app, b.api, id) && AllPublic(keys)
    ensures var c := Effect(b, PostJwks(id, keys));
            c.Some? && Evolves(app, a, c.value) && Bears(app, c.value.api, id) && c.value.secrets == b.secrets
  {
    var c := Effect(b, PostJwks(id, keys)).value;
    assert forall x :: Bears(app, c.api, x) <==> Bears(app, b.api, x);
  }

  lemma PutClientStep(app: App, a: Core, b: Core, id: string, scopes: seq<string>)
    requires Evolves(app, a, b) && Bears(app, b.api, id)
    ensures var c := Effect(b, PutClient(id, app.ClientName(), scopes));
            c.Some? && Evolves(app, a, c.value) && Bears(app, c.value.api, id) && c.value.secrets == b.secrets
  {
    var c := Effect(b, PutClient(id, app.ClientName(), scopes)).value;
    assert forall x :: Bears(app, c.api, x) <==> Bears(app, b.api, x);
  }

  lemma PutSecretStep(app: App, a: Core, b: Core, m: Secret, content: Content)
    requires Evolves(app, a, b) && a.secrets == b.secrets == [m] && ContentOk(app, b.api, content)
    ensures var c := Effect(b, PutSecret(m.Serialize(content)));
            c.Some? && Evolves(app, a, c.value) && c.value.api == b.api
  {
    SecretRoundTrip(m, content);
  }

  lemma SelfEvolves(app: App, a: Core)
    requires CoreInv(app, a)
    ensures Evolves(app, a, a) && Shrinks(app, a, a)
  {
  }

  lemma CreationAlong(app: App, inputs: Inputs, newId: string, s: Snapshot, a: Core)
    requires CoreInv(app, a) && a.secrets == [s.manifest] && forall id :: !Bears(app, a.api, id)
    requires PlanCreation(app, inputs, s).Ok?
    ensures Along(a, AllWrites(newId, s.manifest, PlanCreation(app, inputs, s).value), c => Evolves(app, a, c))
  {
    var P := c => Evolves(app, a, c);
    var cmds := PlanCreation(app, inputs, s).value;
    NewKeysArePublic(inputs);
    SelfEvolves(app, a);
    var content := cmds[1].content.(clientId := newId);
    var ws := AllWrites(newId, s.manifest, cmds);
    CreationWrites(newId, s.manifest, cmds);
    if Effect(a, ws[0]).Some? {
      PostClientStep(app, a, a, newId, SentScopes(s.crd.scopes));
      var b := Effect(a, ws[0]).value;
      PostJwksStep(app, a, b, newId, cmds[0].newKeys);
      var c := Effect(b, ws[1]).value;
      PutSecretStep(app, a, c, s.manifest, content);
      var d := Effect(c, ws[2]).value;
      assert Along(d, ws[3..], P);
      assert Along(c, ws[2..], P);
      assert Along(b, ws[1..], P);
    }
  }

  lemma CreationWrites(newId: string, manifest: Secret, cmds: seq<Cmd>)
    requires |cmds| == 2 && cmds[0].CreateClient? && cmds[1].UpdateSecret? && cmds[1].content.clientId == ""
    ensures AllWrites(newId, manifest, cmds) ==
            [PostClient(newId, cmds[0].req.name, SentScopes(cmds[0].req.scopes)), PostJwks(newId, cmds[0].newKeys),
             PutSecret(manifest.Serialize(cmds[1].content.(clientId := newId)))]
  {
    var rest := AfterCallback(newId, cmds[0], cmds[1..]);
    assert rest[0] == UpdateSecret(cmds[1].content.(clientId := newId));
    assert AllWrites(newId, manifest, rest) == WritesOf(newId, manifest, rest[0]) + AllWrites(newId, manifest, rest[1..]);
    assert AllWrites(newId, manifest, rest[1..]) == [];
  }

  lemma {:induction false} AlongConcat(core: Core, ws: seq<Write>, more: seq<Write>, P: Core -> bool)
    requires Along(core, ws, P) && Along(Play(core, ws), more, P)
    ensures Along(core, ws + more, P)
    decreases |ws|
  {
    if ws == [] {
      assert ws + more == more;
    } else {
      assert (ws + more)[1..] == ws[1..] + more;
      if Effect(core, ws[0]).Some? {
        AlongConcat(Effect(core, ws[0]).value, ws[1..], more, P);
      }
    }
  }

  predicate NoCreation(cmds: seq<Cmd>) { forall c :: c in cmds ==> !c.CreateClient? }

  lemma {:induction false} WritesConcat(newId: string, m: Secret, cmds: seq<Cmd>, more: seq<Cmd>)
    requires NoCreation(cmds)
    ensures AllWrites(newId, m, cmds + more) == AllWrites(newId, m, cmds) + AllWrites(newId, m, more)
    decreases |cmds|
  {
    if cmds == [] {
      assert cmds + more == more;
    } else {
      assert (cmds + more)[1..] == cmds[1..] + more;
      WritesConcat(newId, m, cmds[1..], more);
    }
  }

  lemma WritesOfOne(newId: string, m: Secret, c: Cmd)
    requires !c.CreateClient?
    ensures AllWrites(newId, m, [c]) == WritesOf(newId, m, c)
  {
    assert AllWrites(newId, m, [c][1..]) == [];
  }

  lemma AlongOne(core: Core, w: Write, P: Core -> bool)
    requires P(core) && (Effect(core, w).Some? ==> P(Effect(core, w).value))
    ensures Along(core, [w], P)
    ensures Play(core, [w]) == if Effect(core, w).Some? then Effect(core, w).value else core
  {
    if Effect(core, w).Some? {
      assert Along(Effect(core, w).value, [w][1..], P);
      assert Play(Effect(core, w).value, [w][1..]) == Effect(core, w).value;
    }
  }

  lemma AlongAtMostOne(core: Core, ws: seq<Write>, P: Core -> bool)
    requires |ws| <= 1 && P(core) && P(Play(core, ws))
    ensures Along(core, ws, P)
  {
    if ws != [] {
      assert ws == [ws[0]];
      if Effect(core, ws[0]).Some? {
        assert Play(Effect(core, ws[0]).value, ws[1..]) == Effect(core, ws[0]).value;
      }
      AlongOne(core, ws[0], P);
    }
  }

  lemma RecoveryWrites(newId: string, m: Secret, cmds: seq<Cmd>)
    requires |cmds| == 2 && cmds[1].UpdateSecret?
    requires cmds[0].UpdateClient? && cmds[0].update.None? && cmds[0].keys.Some?
    ensures AllWrites(newId, m, cmds) ==
            [PostJwks(cmds[0].id, cmds[0].keys.value)] + [PutSecret(m.Serialize(cmds[1].content))]
  {
    WritesConcat(newId, m, cmds[..1], cmds[1..]);
    WritesOfOne(newId, m, cmds[0]);
    WritesOfOne(newId, m, cmds[1]);
    assert cmds == cmds[..1] + cmds[1..] && cmds[..1] == [cmds[0]] && cmds[1..] == [cmds[1]];
  }

  /** Whether the resource in memory still shows a list that its own write has dropped does not matter in a
      round that writes it: nothing is compared, and both are sent as nothing. */
  lemma DroppedScopesDoNotShow(app: App, inputs: Inputs, newId: string, s: Snapshot)
    requires s.crd.deleting || s.api.None? || s.content.None?
    ensures var stored := s.(crd := s.crd.(scopes := Resent(s.crd.scopes)));
            var shown, kept := Plan(app, inputs, s), Plan(app, inputs, stored);
            && shown.Ok? == kept.Ok?
            && (shown.Ok? ==> AllWrites(newId, s.manifest, shown.value) == AllWrites(newId, s.manifest, kept.value))
  {
    var stored := s.(crd := s.crd.(scopes := Resent(s.crd.scopes)));
    if !s.crd.deleting && s.api.None? && PlanCreation(app, inputs, s).Ok? {
      CreationWrites(newId, s.manifest, PlanCreation(app, inputs, s).value);
      CreationWrites(newId, s.manifest, PlanCreation(app, inputs, stored).value);
    }
  }

  lemma RecoveryAlong(app: App, inputs: Inputs, newId: string, s: Snapshot, a: Core)
    requires CoreInv(app, a) && a.secrets == [s.manifest]
    requires s.api.Some? && Bears(app, a.api, s.api.value.id)
    requires PlanRecovery(inputs, s.api.value).Ok?
    ensures Along(a, AllWrites(newId, s.manifest, PlanRecovery(inputs, s.api.value).value), c => Evolves(app, a, c))
  {
    var P := c => Evolves(app, a, c);
    var id := s.api.value.id;
    var cmds := PlanRecovery(inputs, s.api.value).value;
    NewKeysArePublic(inputs);
    SelfEvolves(app, a);
    RecoveryWrites(newId, s.manifest, cmds);
    var post, put := PostJwks(id, cmds[0].keys.value), PutSecret(s.manifest.Serialize(cmds[1].content));
    PostJwksStep(app, a, a, id, cmds[0].keys.value);
    AlongOne(a, post, P);
    var b := Play(a, [post]);
    PutSecretStep(app, a, b, s.manifest, cmds[1].content);
    AlongOne(b, put, P);
    AlongConcat(a, [post], [put], P);
  }

  /** The optional parts of an update, in order. */
  function SecretPart(inputs: Inputs, api: ApiView, content: Content, rotated: Option<seq<Jwk>>): seq<Cmd>
    requires rotated.Some? ==> rotated.value != []
    requires rotated.None? ==> content.jwks.Some? && content.jwks.value != []
  {
    var keys := if rotated.Some? then rotated.value else content.jwks.value;
    if inputs.authority != content.authority || rotated.Some? then [UpdateSecret(NewContent(api.id, inputs, keys))] else []
  }

  function KeysPart(api: ApiView, rotated: Option<seq<Jwk>>): seq<Cmd> {
    if rotated.Some? then [UpdateClient(api.id, None, Some(PublicKeys(rotated.value)))] else []
  }

  function ScopesPart(app: App, crd: Crd, api: ApiView): seq<Cmd> {
    if crd.scopes != api.scopes then [UpdateClient(api.id, Some(BuildApiReq(app, crd)), None)] else []
  }

  lemma UpdateParts(app: App, inputs: Inputs, newId: string, s: Snapshot, api: ApiView, content: Content)
    requires content.jwks.Some? && Usable(content.jwks.value)
    requires PlanUpdate(app, inputs, s, api, content).Ok?
    ensures var r := Rotate(inputs.now, inputs.entropy, content.jwks);
            && r.Ok?
            && (r.value.Some? ==> Usable(r.value.value))
            && PlanUpdate(app, inputs, s, api, content).value
               == SecretPart(inputs, api, content, r.value) + (KeysPart(api, r.value) + ScopesPart(app, s.crd, api))
            && AllWrites(newId, s.manifest, PlanUpdate(app, inputs, s, api, content).value)
               == AllWrites(newId, s.manifest, SecretPart(inputs, api, content, r.value))
                  + (AllWrites(newId, s.manifest, KeysPart(api, r.value))
                     + AllWrites(newId, s.manifest, ScopesPart(app, s.crd, api)))
  {
    RotationKeepsUsable(inputs.now, inputs.entropy, content.jwks.value);
    var r := Rotate(inputs.now, inputs.entropy, content.jwks);
    var A, B, C := SecretPart(inputs, api, content, r.value), KeysPart(api, r.value), ScopesPart(app, s.crd, api);
    assert A + (B + C) == A + B + C;
    WritesConcat(newId, s.manifest, A, B + C);
    WritesConcat(newId, s.manifest, B, C);
  }

  lemma SecretPartAlong(
    app: App, inputs: Inputs, newId: string, m: Secret, api: ApiView, content: Content, rotated: Option<seq<Jwk>>, a: Core)
    requires CoreInv(app, a) && a.secrets == [m] && Bears(app, a.api, api.id)
    requires if rotated.Some? then Usable(rotated.value) else content.jwks.Some? && Usable(content.jwks.value)
    ensures var ws := AllWrites(newId, m, SecretPart(inputs, api, content, rotated));
            Along(a, ws, c => Evolves(app, a, c)) && Evolves(app, a, Play(a, ws)) && Play(a, ws).api == a.api
  {
    var cmds := SecretPart(inputs, api, content, rotated);
    SelfEvolves(app, a);
    if cmds != [] {
      WritesOfOne(newId, m, cmds[0]);
      PutSecretStep(app, a, a, m, cmds[0].content);
      AlongOne(a, PutSecret(m.Serialize(cmds[0].content)), c => Evolves(app, a, c));
    }
  }

  lemma KeysPartAlong(app: App, newId: string, m: Secret, api: ApiView, rotated: Option<seq<Jwk>>, a: Core, b: Core)
    requires Evolves(app, a, b) && Bears(app, b.api, api.id)
    requires rotated.Some? ==> AllPrivate(rotated.value)
    ensures var ws := AllWrites(newId, m, KeysPart(api, rotated));
            && Along(b, ws, c => Evolves(app, a, c))
            && Evolves(app, a, Play(b, ws)) && Bears(app, Play(b, ws).api, api.id) && Play(b, ws).secrets == b.secrets
  {
    var cmds := KeysPart(api, rotated);
    if cmds != [] {
      WritesOfOne(newId, m, cmds[0]);
      ToPublicMeaning(rotated.value);
      PostJwksStep(app, a, b, api.id, PublicKeys(rotated.value));
      AlongOne(b, PostJwks(api.id, PublicKeys(rotated.value)), c => Evolves(app, a, c));
    }
  }

  lemma ScopesPartAlong(app: App, newId: string, m: Secret, crd: Crd, api: ApiView, a: Core, b: Core)
    requires Evolves(app, a, b) && Bears(app, b.api, api.id)
    ensures var ws := AllWrites(newId, m, ScopesPart(app, crd, api));
            Along(b, ws, c => Evolves(app, a, c))
  {
    var cmds := ScopesPart(app, crd, api);
    if cmds != [] {
      WritesOfOne(newId, m, cmds[0]);
      PutClientStep(app, a, b, api.id, SentScopes(crd.scopes));
      AlongOne(b, PutClient(api.id, app.ClientName(), SentScopes(crd.scopes)), c => Evolves(app, a, c));
    }
  }

  lemma PartsAlong(
    app: App, inputs: Inputs, newId: string, m: Secret, crd: Crd, api: ApiView, content: Content,
    rotated: Option<seq<Jwk>>, a: Core)
    requires CoreInv(app, a) && a.secrets == [m] && Bears(app, a.api, api.id)
    requires if rotated.Some? then Usable(rotated.value) else content.jwks.Some? && Usable(content.jwks.value)
    ensures Along(a, AllWrites(newId, m, SecretPart(inputs, api, content, rotated))
                  + (AllWrites(newId, m, KeysPart(api, rotated)) + AllWrites(newId, m, ScopesPart(app, crd, api))),
                  c => Evolves(app, a, c))
  {
    var P := c => Evolves(app, a, c);
    var wa := AllWrites(newId, m, SecretPart(inputs, api, content, rotated));
    var wb, wc := AllWrites(newId, m, KeysPart(api, rotated)), AllWrites(newId, m, ScopesPart(app, crd, api));
    SecretPartAlong(app, inputs, newId, m, api, content, rotated, a);
    var b := Play(a, wa);
    KeysPartAlong(app, newId, m, api, rotated, a, b);
    ScopesPartAlong(app, newId, m, crd, api, a, Play(b, wb));
    AlongConcat(b, wb, wc, P);
    AlongConcat(a, wa, wb + wc, P);
  }

  lemma UpdateAlong(app: App, inputs: Inputs, newId: string, s: Snapshot, a: Core)
    requires CoreInv(app, a) && a.secrets == [s.manifest]
    requires s.api.Some? && Bears(app, a.api, s.api.value.id)
    requires s.content.Some? && s.content == s.manifest.Stored()
    requires PlanUpdate(app, inputs, s, s.api.value, s.content.value).Ok?
    ensures Along(a, AllWrites(newId, s.manifest, PlanUpdate(app, inputs, s, s.api.value, s.content.value).value),
                  c => Evolves(app, a, c))
  {
    assert SecretOk(app, a.api, s.manifest);
    UpdateParts(app, inputs, newId, s, s.api.value, s.content.value);
    var r := Rotate(inputs.now, inputs.entropy, s.content.value.jwks).value;
    PartsAlong(app, inputs, newId, s.manifest, s.crd, s.api.value, s.content.value, r, a);
  }

  lemma DeletionWrites(newId: string, s: Snapshot)
    ensures AllWrites(newId, s.manifest, PlanDeletion(s)) ==
            (if s.content.Some? then [PutSecret(s.manifest.DeleteContent())] else [])
            + (if s.api.Some? then [DropClient(s.api.value.id)] else [])
  {
    WritesConcat(newId, s.manifest, if s.content.Some? then [DeleteSecret] else [],
                 if s.api.Some? then [DeleteClient(s.api.value.id)] else []);
    WritesOfOne(newId, s.manifest, DeleteSecret);
    if s.api.Some? { WritesOfOne(newId, s.manifest, DeleteClient(s.api.value.id)); }
  }

  lemma DeleteSecretStep(app: App, a: Core, m: Secret)
    requires CoreInv(app, a) && a.secrets == [m]
    ensures var c := Effect(a, PutSecret(m.DeleteContent()));
            c.Some? && Shrinks(app, a, c.value) && c.value == a.(secrets := [m.DeleteContent()])
  {
    assert m.DeleteContent().Others() == m.Others();
  }

  lemma DropClientStep(app: App, a: Core, b: Core, id: string)
    requires Shrinks(app, a, b) && Bears(app, b.api, id)
    requires forall s :: s in b.secrets ==> !s.HasSettings()
    ensures var c := Effect(b, DropClient(id));
            c.Some? && Shrinks(app, a, c.value) && c.value.secrets == b.secrets && forall x :: !Bears(app, c.value.api, x)
  {
    var c := Effect(b, DropClient(id)).value;
    assert forall x :: Bears(app, c.api, x) ==> Bears(app, b.api, x) && x != id;
  }

  lemma DeletionAlong(app: App, newId: string, s: Snapshot, a: Core)
    requires CoreInv(app, a) && a.secrets == [s.manifest]
    requires s.content == s.manifest.Stored() && (s.content.None? ==> !s.manifest.HasSettings())
    requires s.api.Some? ==> Bears(app, a.api, s.api.value.id)
    ensures Along(a, AllWrites(newId, s.manifest, PlanDeletion(s)), c => Shrinks(app, a, c))
    ensures var z := Play(a, AllWrites(newId, s.manifest, PlanDeletion(s)));
            && z.secrets == [s.manifest.DeleteContent()] && !z.secrets[0].HasSettings()
            && (s.api.Some? ==> forall x :: !Bears(app, z.api, x))
            && (s.api.None? ==> z.api == a.api)
  {
    var P := c => Shrinks(app, a, c);
    DeletionWrites(newId, s);
    SelfEvolves(app, a);
    var wa := if s.content.Some? then [PutSecret(s.manifest.DeleteContent())] else [];
    var wb := if s.api.Some? then [DropClient(s.api.value.id)] else [];
    if s.content.Some? {
      DeleteSecretStep(app, a, s.manifest);
      AlongOne(a, wa[0], P);
    }
    var b := Play(a, wa);
    if s.api.Some? {
      DropClientStep(app, a, b, s.api.value.id);
      AlongOne(b, wb[0], P);
    }
    AlongConcat(a, wa, wb, P);
    if s.content.Some? {
      PlayJoined(a, [], wa, wb);
    } else {
      assert wa + wb == wb;
      assert s.manifest.data.Some? ==> s.manifest.data.value - {SETTINGS_FILE} == s.manifest.data.value;
    }
  }

  // ---- the executor's assertion ----

  lemma {:induction false} FilledListsPass(
    core: Core, script: seq<Outcome>, newId: string, m: Secret, cmds: seq<Cmd>, executed: seq<Cmd>)
    requires NoCreation(cmds) && forall c :: c in cmds ==> AssertionHolds(c)
    ensures !Exec(core, script, newId, m, cmds, executed).end.AssertionFailed?
    decreases |cmds|
  {
    if cmds != [] {
      var d := SendAll(core, script, WritesOf(newId, m, cmds[0]));
      if d.ok {
        FilledListsPass(d.core, d.script, newId, m, cmds[1..], executed + [Executed(newId, cmds[0])]);
      }
    }
  }

  lemma OtherPlansAreFilled(app: App, inputs: Inputs, s: Snapshot, cmds: seq<Cmd>)
    requires s.api.Some? ==> s.api.value.id != ""
    requires s.crd.deleting || s.api.Some?
    requires Plan(app, inputs, s) == Ok(cmds)
    ensures NoCreation(cmds) && forall c :: c in cmds ==> AssertionHolds(c)
  {
  }

  lemma CreationPasses(core: Core, script: seq<Outcome>, newId: string, m: Secret, cmds: seq<Cmd>)
    requires |cmds| == 2 && cmds[0].CreateClient? && cmds[1].UpdateSecret?
    ensures !Exec(core, script, newId, m, cmds, []).end.AssertionFailed?
  {
    var d := SendAll(core, script, WritesOf(newId, m, cmds[0]));
    if d.ok {
      assert newId != "";
      var rest := AfterCallback(newId, cmds[0], cmds[1..]);
      assert rest == [FillOne(newId, cmds[1])];
      FilledListsPass(d.core, d.script, newId, m, rest, [] + [Executed(newId, cmds[0])]);
    }
  }

  /** Whatever the API answers, an empty id included, no content without an id is ever written: either
      it was built with one, or the create command before it has filled one in. */
  lemma AssertionNeverFires(
    app: App, inputs: Inputs, s: Snapshot, core: Core, script: seq<Outcome>, newId: string, cmds: seq<Cmd>)
    requires s.api.Some? ==> s.api.value.id != ""
    requires Plan(app, inputs, s) == Ok(cmds)
    ensures !Exec(core, script, newId, s.manifest, cmds, []).end.AssertionFailed?
  {
    if !s.crd.deleting && s.api.None? {
      CreationPasses(core, script, newId, s.manifest, cmds);
    } else {
      OtherPlansAreFilled(app, inputs, s, cmds);
      FilledListsPass(core, script, newId, s.manifest, cmds, []);
    }
  }

  // ---- rounds ----

  ghost predicate Deleting(w: World) { w.crd.Some? && w.crd.value.deleting }

  lemma WritesAlong(app: App, env: RoundEnv, w: World)
    requires Inv(app, w)
    ensures var d := Decide(app, env, w);
            d.Decided? ==>
              if Deleting(w) then Along(w.core, WritesOfDecision(env, d), c => Shrinks(app, w.core, c))
              else Along(w.core, WritesOfDecision(env, d), c => Evolves(app, w.core, c))
  {
    DecisionIsAccurate(app, env, w);
    var d := Decide(app, env, w);
    if d.Decided? {
      var s := d.snapshot;
      if s.crd.deleting {
        DeletionAlong(app, env.newId, s, w.core);
      } else if s.api.None? {
        CreationAlong(app, env.inputs, env.newId, s, w.core);
      } else if s.content.None? {
        RecoveryAlong(app, env.inputs, env.newId, s, w.core);
      } else {
        UpdateAlong(app, env.inputs, env.newId, s, w.core);
      }
    }
  }

  /** Every round, cut anywhere, keeps the core invariant and touches nothing that is not the app's: a
      round on a living resource loses neither the client nor content, a deletion only takes away. */
  lemma RoundChange(app: App, env: RoundEnv, w: World)
    requires Inv(app, w)
    ensures var z := Round(app, env, w).world;
            if Deleting(w) then Shrinks(app, w.core, z.core) else Evolves(app, w.core, z.core)
  {
    WritesAlong(app, env, w);
    SelfEvolves(app, w.core);
    if Deleting(w) {
      RoundEndsAlong(app, env, w, c => Shrinks(app, w.core, c));
    } else {
      RoundEndsAlong(app, env, w, c => Evolves(app, w.core, c));
    }
  }

  /** What a round may do to the resource: it gains its finalizer, it keeps its wanted scopes but for
      that write, or it is gone. */
  ghost predicate CrdStep(before: World, after: World) {
    && (before.crd.None? ==> after.crd.None?)
    && (after.crd.Some? && before.crd.Some? ==>
          && ScopesStep(before.crd.value, after.crd.value)
          && after.crd.value.deleting == before.crd.value.deleting
          && (before.crd.value.finalizer ==> after.crd.value.finalizer))
    && (before.crd.Some? && after.crd.None? ==> before.crd.value.deleting)
  }

  lemma FullDeletionLeavesNothing(app: App, env: RoundEnv, w: World)
    requires Inv(app, w) && Deleting(w)
    requires Decide(app, env, w).Decided?
    requires var d := Decide(app, env, w);
             Exec(w.core, d.script, env.newId, d.snapshot.manifest, d.cmds, []).end.AllExecuted?
    ensures !Owned(app, Round(app, env, w).world.core)
  {
    DecisionIsAccurate(app, env, w);
    var d := Decide(app, env, w);
    var s := d.snapshot;
    DeletionAlong(app, env.newId, s, w.core);
    CarryOutKeepsExecution(env, d);
    var ws := WritesOfDecision(env, d);
    var k := CutIsAPrefix(w.core, d.script, env.newId, s.manifest, d.cmds, []);
    assert ws[..k] == ws;
  }

  lemma StatusWriteCrd(
    w: World, script: seq<Outcome>, kind: Option<Kind>, instance: Crd, state: string, executed: seq<Cmd>)
    requires w.crd == Some(instance) && instance.finalizer
    requires kind == Some(DeleteKind) ==> instance.deleting
    ensures var z := UpdateStatus(w, script, kind, instance, state, executed).world;
            && CrdStep(w, z)
            && (z.crd.Some? ==> z.crd.value.finalizer)
            && (z.crd.None? ==> kind == Some(DeleteKind))
  {
  }

  lemma CarryOutCrd(app: App, env: RoundEnv, w: World, d: Decision)
    requires d.Decided? && Accurate(app, w, d)
    ensures var r := CarryOut(env, d);
            && CrdStep(w, r.world)
            && (r.world.crd.Some? ==> r.world.crd.value.finalizer)
            && (r.world.crd.None? ==> Exec(w.core, d.script, env.newId, d.snapshot.manifest, d.cmds, []).end.AllExecuted?)
  {
    var x := Exec(w.core, d.script, env.newId, d.snapshot.manifest, d.cmds, []);
    var after := d.world.(core := x.core);
    StatusWriteCrd(after, x.script, None, d.snapshot.crd, "error", x.executed);
    StatusWriteCrd(after, x.script, Some(d.kind), d.snapshot.crd, "reconciled", x.executed);
  }

  /** The finalizer goes only in a round that leaves neither client nor content behind. */
  lemma RoundCrd(app: App, env: RoundEnv, w: World)
    requires Inv(app, w)
    ensures var r := Round(app, env, w);
            && CrdStep(w, r.world)
            && (w.crd.Some? && r.world.crd.None? ==> !Owned(app, r.world.core))
            && (r.world.core != w.core && r.world.crd.Some? ==> r.world.crd.value.finalizer)
            && r.reply != Crashed
  {
    DecisionIsAccurate(app, env, w);
    var d := Decide(app, env, w);
    if d.Decided? {
      CarryOutCrd(app, env, w, d);
      AssertionNeverFires(app, env.inputs, d.snapshot, w.core, d.script, env.newId, d.cmds);
      if Round(app, env, w).world.crd.None? {
        FullDeletionLeavesNothing(app, env, w);
      }
    }
  }

  lemma RoundKeepsInv(app: App, env: RoundEnv, w: World)
    requires Inv(app, w)
    ensures Inv(app, Round(app, env, w).world)
  {
    RoundChange(app, env, w);
    RoundCrd(app, env, w);
  }

  // ---- runs ----

  /** What users, the cluster and other tenants of the API may do between rounds: create or edit the
      resource, ask for its deletion, add, drop and edit secrets without inventing settings, and manage
      clients of other names. */
  ghost predicate UserStep(app: App, a: World, b: World) {
    && b.core.api.Valid()
    && (forall id :: Bears(app, a.core.api, id) ==>
                       id in b.core.api.clients && b.core.api.clients[id] == a.core.api.clients[id])
    && (forall id :: Bears(app, b.core.api, id) ==> Bears(app, a.core.api, id))
    && (forall s :: s in b.core.secrets && s.HasSettings() ==>
                      exists t :: t in a.core.secrets && t.HasSettings() && t.data.value[SETTINGS_FILE] == s.data.value[SETTINGS_FILE])
    && (a.crd.None? && b.crd.Some? ==> !b.crd.value.deleting && !b.crd.value.finalizer && b.crd.value.status == NO_STATUS)
    && (a.crd.Some? && b.crd.Some? ==>
          && b.crd.value.finalizer == a.crd.value.finalizer && b.crd.value.status == a.crd.value.status
          && (a.crd.value.deleting ==> b.crd.value.deleting)
          && (b.crd.value.deleting ==> b.crd.value.finalizer))
    && (a.crd.Some? && b.crd.None? ==> !a.crd.value.finalizer)
  }

  datatype Event = Reconcile(env: RoundEnv) | Change(to: World)

  ghost function After(app: App, w: World, e: Event): World {
    match e
    case Reconcile(env) => Round(app, env, w).world
    case Change(to) => if UserStep(app, w, to) then to else w
  }

  ghost function Run(app: App, w: World, events: seq<Event>): World {
    if events == [] then w else After(app, Run(app, w, events[..|events| - 1]), events[|events| - 1])
  }

  lemma {:induction false} RunConcat(app: App, w: World, events: seq<Event>, more: seq<Event>)
    ensures Run(app, w, events + more) == Run(app, Run(app, w, events), more)
    decreases |more|
  {
    if more == [] {
      assert events + more == events;
    } else {
      var most := more[..|more| - 1];
      assert (events + more)[..|events + more| - 1] == events + most;
      RunConcat(app, w, events, most);
    }
  }

  /** No resource, no client of the app's name, no settings in any secret. */
  ghost predicate Initial(app: App, w: World) {
    w.crd.None? && w.core.api.Valid() && !Owned(app, w.core)
  }

  lemma UserKeepsInv(app: App, a: World, b: World)
    requires Inv(app, a) && UserStep(app, a, b)
    ensures Inv(app, b)
  {
    forall s | s in b.core.secrets && s.HasSettings()
      ensures SecretOk(app, b.core.api, s) && exists t :: t in a.core.secrets && t.HasSettings()
    {
      var t :| t in a.core.secrets && t.HasSettings() && t.data.value[SETTINGS_FILE] == s.data.value[SETTINGS_FILE];
      assert SecretOk(app, a.core.api, t);
    }
  }

  /** Safety over every run: whatever faults strike at whatever calls and whatever users do in between,
      at most one client bears the app's name, every settings entry names that client by a non-empty id
      and carries usable keys with the first as its signing key, and client or content exist only while
      the resource holds its finalizer. */
  lemma {:induction false} EveryRunIsSafe(app: App, w: World, events: seq<Event>)
    requires Initial(app, w)
    ensures Inv(app, Run(app, w, events))
  {
    if events != [] {
      var front := Run(app, w, events[..|events| - 1]);
      EveryRunIsSafe(app, w, events[..|events| - 1]);
      match events[|events| - 1]
      case Reconcile(env) => RoundKeepsInv(app, env, front);
      case Change(to) => if UserStep(app, front, to) { UserKeepsInv(app, front, to); }
    }
  }

  /** The client keeps its id for as long as the resource lives: nothing but a deletion round parts the
      app from its client. */
  lemma {:induction false} IdIsStable(app: App, w: World, events: seq<Event>, id: string)
    requires Inv(app, w) && Bears(app, w.core.api, id)
    requires forall i :: 0 <= i < |events| ==> !Deleting(Run(app, w, events[..i]))
    ensures Inv(app, Run(app, w, events)) && Bears(app, Run(app, w, events).core.api, id)
    ensures forall x :: Bears(app, Run(app, w, events).core.api, x) ==> x == id
  {
    if events != [] {
      var most := events[..|events| - 1];
      var front := Run(app, w, most);
      assert forall i :: 0 <= i < |most| ==> events[..i] == most[..i];
      IdIsStable(app, w, most, id);
      match events[|events| - 1]
      case Reconcile(env) =>
        RoundChange(app, env, front);
        RoundKeepsInv(app, env, front);
      case Change(to) => if UserStep(app, front, to) { UserKeepsInv(app, front, to); }
    }
  }

  /** Over any run of rounds nothing that is not the app's changes: no entry of any secret but the
      settings, and no client of another name. */
  lemma {:induction false} RoundsTouchNothingElse(app: App, w: World, events: seq<Event>)
    requires Inv(app, w) && forall e :: e in events ==> e.Reconcile?
    ensures Inv(app, Run(app, w, events))
    ensures SecretsFramed(w.core, Run(app, w, events).core) && ForeignersFramed(app, w.core, Run(app, w, events).core)
  {
    if events != [] {
      var front := Run(app, w, events[..|events| - 1]);
      var last := events[|events| - 1];
      RoundsTouchNothingElse(app, w, events[..|events| - 1]);
      assert last in events;
      RoundChange(app, last.env, front);
      RoundKeepsInv(app, last.env, front);
    }
  }

  /** On every reachable state the snapshot can be taken unless a read fails or the app's secret is not
      there to be used, and the decision fails only where a generator does: no client is missing, no
      settings are unreadable, no certificate count, key id or key set is unexpected. */
  lemma NeverStuck(app: App, inputs: Inputs, core: Core, script: seq<Outcome>, instance: Crd)
    requires CoreInv(app, core)
    ensures match FetchState(app, core, script, instance).result
            case Err(x) => x in {ReadFailed, ManySecrets, NotOpaque, NoSecret}
            case Ok(s) =>
              match Plan(app, inputs, s)
              case Err(x) => GenerationError(x)
              case Ok(cmds) => forall c :: c in cmds ==> SendsOnlyPublic(c)
  {
    FetchFailsOnlyOutside(app, core, script, instance);
    FetchIsAccurate(app, core, script, instance);
    var f := FetchState(app, core, script, instance);
    if f.result.Ok? {
      assert SecretOk(app, core.api, f.result.value.manifest);
      PlanFailsOnlyInGeneration(app, inputs, f.result.value);
    }
  }

  lemma FetchFailsOnlyOutside(app: App, core: Core, script: seq<Outcome>, instance: Crd)
    requires CoreInv(app, core)
    ensures var f := FetchState(app, core, script, instance);
            f.result.Err? ==> f.result.error in {ReadFailed, ManySecrets, NotOpaque, NoSecret}
  {
    SearchByName(app, core.api);
    AppNameIsOwn(app);
    if |core.secrets| == 1 {
      assert SecretOk(app, core.api, core.secrets[0]);
    }
  }

  /** A command as it was carried out: as planned, or with the id the API answered filled in. */
  predicate CarriedOutAs(newId: string, c: Cmd, done: Cmd) {
    done == c || done == Executed(newId, c) || done == FillOne(newId, c)
  }

  predicate AllCarriedOutAs(newId: string, cmds: seq<Cmd>, done: seq<Cmd>) {
    |done| <= |cmds| && forall j :: 0 <= j < |done| ==> CarriedOutAs(newId, cmds[j], done[j])
  }

  lemma {:induction false} ExecutedMore(
    core: Core, script: seq<Outcome>, newId: string, m: Secret, cmds: seq<Cmd>, executed: seq<Cmd>)
    returns (done: seq<Cmd>)
    ensures var x := Exec(core, script, newId, m, cmds, executed);
            && x.executed == executed + done && AllCarriedOutAs(newId, cmds, done)
            && (x.end.AllExecuted? <==> |done| == |cmds|)
    decreases |cmds|
  {
    done := [];
    assert executed + [] == executed;
    if cmds != [] && AssertionHolds(cmds[0]) {
      var d := SendAll(core, script, WritesOf(newId, m, cmds[0]));
      if d.ok {
        var first := Executed(newId, cmds[0]);
        var more := ExecutedMore(d.core, d.script, newId, m, AfterCallback(newId, cmds[0], cmds[1..]), executed + [first]);
        Regroup(executed, first, more);
        FilledIsCarriedOut(newId, cmds, more);
        done := [first] + more;
      }
    }
  }

  lemma Regroup(executed: seq<Cmd>, first: Cmd, more: seq<Cmd>)
    ensures executed + [first] + more == executed + ([first] + more)
  {
  }

  lemma FilledIsCarriedOut(newId: string, cmds: seq<Cmd>, more: seq<Cmd>)
    requires cmds != [] && AllCarriedOutAs(newId, AfterCallback(newId, cmds[0], cmds[1..]), more)
    ensures AllCarriedOutAs(newId, cmds, [Executed(newId, cmds[0])] + more)
  {
    var rest, done := AfterCallback(newId, cmds[0], cmds[1..]), [Executed(newId, cmds[0])] + more;
    forall j | 0 <= j < |done| ensures CarriedOutAs(newId, cmds[j], done[j]) {
      if j > 0 {
        assert CarriedOutAs(newId, rest[j - 1], more[j - 1]);
        assert rest[j - 1] == cmds[j] || rest[j - 1] == FillOne(newId, cmds[j]);
      }
    }
  }

  /** The executed commands are the list up to the first that failed, each as planned but for the id that
      the API answered. */
  lemma ExecutedIsThePrefix(
    core: Core, script: seq<Outcome>, newId: string, m: Secret, cmds: seq<Cmd>, executed: seq<Cmd>)
    ensures var x := Exec(core, script, newId, m, cmds, executed);
            && |executed| <= |x.executed| <= |executed| + |cmds|
            && x.executed[..|executed|] == executed
            && (forall i :: |executed| <= i < |x.executed| ==>
                              && CarriedOutAs(newId, cmds[i - |executed|], x.executed[i])
                              && ActionName(x.executed[i]) == ActionName(cmds[i - |executed|]))
            && (x.end.AllExecuted? <==> |x.executed| == |executed| + |cmds|)
  {
    var done := ExecutedMore(core, script, newId, m, cmds, executed);
    forall j | 0 <= j < |done| ensures ActionName(done[j]) == ActionName(cmds[j]) {
      assert CarriedOutAs(newId, cmds[j], done[j]);
    }
  }
}
