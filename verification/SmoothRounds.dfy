/** Rounds in which no call fails: they decide, carry out every command, and end in a known state. */
module SmoothRounds {
  import opened Wrappers
  import opened Keys
  import opened Rotation
  import opened World
  import opened ClientState
  import opened Controller
  import opened Invariant

  ghost predicate Flows(core: Core, ws: seq<Write>)
    decreases |ws|
  {
    ws == [] || (Effect(core, ws[0]).Some? && Flows(Effect(core, ws[0]).value, ws[1..]))
  }

  lemma {:induction false} FlowsConcat(core: Core, ws: seq<Write>, more: seq<Write>)
    ensures Flows(core, ws + more) <==> Flows(core, ws) && Flows(Play(core, ws), more)
    ensures Flows(core, ws) ==> Play(core, ws + more) == Play(Play(core, ws), more)
    decreases |ws|
  {
    if ws == [] {
      assert ws + more == more;
    } else {
      assert (ws + more)[1..] == ws[1..] + more;
      if Effect(core, ws[0]).Some? {
        FlowsConcat(Effect(core, ws[0]).value, ws[1..], more);
      }
    }
  }

  lemma FlowsOne(core: Core, w: Write)
    requires Effect(core, w).Some?
    ensures Flows(core, [w]) && Play(core, [w]) == Effect(core, w).value
  {
    assert Flows(Effect(core, w).value, [w][1..]);
    assert Play(Effect(core, w).value, [w][1..]) == Effect(core, w).value;
  }

  lemma HeadOfFaultless(script: seq<Outcome>)
    requires Faultless(script)
    ensures Head(script) == Succeeds && Faultless(Tail(script))
  {
    if script != [] {
      assert script[0] in script;
      assert forall o :: o in script[1..] ==> o in script;
    }
  }

  lemma {:induction false} FaultlessSend(core: Core, script: seq<Outcome>, ws: seq<Write>)
    requires Faultless(script) && Flows(core, ws)
    ensures var d := SendAll(core, script, ws);
            d.ok && d.core == Play(core, ws) && Faultless(d.script)
    decreases |ws|
  {
    if ws != [] {
      HeadOfFaultless(script);
      var d := Send(core, script, ws[0]);
      FaultlessSend(d.core, d.script, ws[1..]);
    }
  }

  lemma {:induction false} FaultlessExec(
    core: Core, script: seq<Outcome>, newId: string, m: Secret, cmds: seq<Cmd>, executed: seq<Cmd>)
    requires Faultless(script) && Flows(core, AllWrites(newId, m, cmds))
    requires !Exec(core, script, newId, m, cmds, executed).end.AssertionFailed?
    ensures var x := Exec(core, script, newId, m, cmds, executed);
            && x.end.AllExecuted? && Faultless(x.script)
            && x.core == Play(core, AllWrites(newId, m, cmds))
            && |x.executed| == |executed| + |cmds|
    decreases |cmds|
  {
    if cmds != [] {
      var mine := WritesOf(newId, m, cmds[0]);
      var rest := AfterCallback(newId, cmds[0], cmds[1..]);
      FlowsConcat(core, mine, AllWrites(newId, m, rest));
      FaultlessSend(core, script, mine);
      var d := SendAll(core, script, mine);
      FaultlessExec(d.core, d.script, newId, m, rest, executed + [Executed(newId, cmds[0])]);
    }
  }

  // ---- where the writes of each plan lead ----

  lemma CreationResult(app: App, inputs: Inputs, newId: string, s: Snapshot, a: Core)
    requires a.secrets == [s.manifest] && newId != "" && newId !in a.api.clients
    requires PlanCreation(app, inputs, s).Ok?
    ensures var ws := AllWrites(newId, s.manifest, PlanCreation(app, inputs, s).value);
            var (keys, public) := NewKeys(inputs).value;
            && Flows(a, ws)
            && Play(a, ws) == Core(
                                Api(a.api.clients[newId := Client(Some(app.ClientName()), SentScopes(s.crd.scopes), public)],
                                    a.api.listing + [newId]),
                                [s.manifest.Serialize(NewContent(newId, inputs, keys))])
  {
    var cmds := PlanCreation(app, inputs, s).value;
    NewKeysArePublic(inputs);
    CreationWrites(newId, s.manifest, cmds);
    var ws := AllWrites(newId, s.manifest, cmds);
    var b := Effect(a, ws[0]).value;
    var c := Effect(b, ws[1]).value;
    assert c.api.clients == a.api.clients[newId := Client(Some(app.ClientName()), SentScopes(s.crd.scopes), cmds[0].newKeys)];
    FlowsOne(a, ws[0]);
    FlowsOne(b, ws[1]);
    FlowsOne(c, ws[2]);
    FlowsConcat(b, [ws[1]], [ws[2]]);
    FlowsConcat(a, [ws[0]], [ws[1]] + [ws[2]]);
    assert ws == [ws[0]] + ([ws[1]] + [ws[2]]);
  }

  function WithKeys(core: Core, id: string, keys: seq<Jwk>): Core
    requires id in core.api.clients
  {
    core.(api := core.api.(clients := core.api.clients[id := core.api.clients[id].(keys := keys)]))
  }

  function WithScopes(app: App, core: Core, id: string, scopes: seq<string>): Core
    requires id in core.api.clients
  {
    core.(api := core.api.(clients := core.api.clients[id := core.api.clients[id].(name := Some(app.ClientName()), scopes := scopes)]))
  }

  lemma RecoveryResult(inputs: Inputs, newId: string, m: Secret, api: ApiView, a: Core)
    requires a.secrets == [m] && api.id != "" && api.id in a.api.clients
    requires PlanRecovery(inputs, api).Ok?
    ensures var ws := AllWrites(newId, m, PlanRecovery(inputs, api).value);
            var (keys, public) := NewKeys(inputs).value;
            && Flows(a, ws)
            && Play(a, ws) == WithKeys(a, api.id, public).(secrets := [m.Serialize(NewContent(api.id, inputs, keys))])
  {
    var cmds := PlanRecovery(inputs, api).value;
    NewKeysArePublic(inputs);
    RecoveryWrites(newId, m, cmds);
    var post, put := PostJwks(api.id, cmds[0].keys.value), PutSecret(m.Serialize(cmds[1].content));
    FlowsOne(a, post);
    FlowsOne(Play(a, [post]), put);
    FlowsConcat(a, [post], [put]);
  }

  lemma SecretPartResult(inputs: Inputs, newId: string, m: Secret, api: ApiView, content: Content, rotated: Option<seq<Jwk>>, a: Core)
    requires a.secrets == [m]
    requires rotated.Some? ==> rotated.value != []
    requires rotated.None? ==> content.jwks.Some? && content.jwks.value != []
    ensures var ws := AllWrites(newId, m, SecretPart(inputs, api, content, rotated));
            && Flows(a, ws) && |ws| <= 1
            && Play(a, ws) ==
               if inputs.authority != content.authority || rotated.Some? then
                 a.(secrets := [m.Serialize(NewContent(api.id, inputs, if rotated.Some? then rotated.value else content.jwks.value))])
               else a
  {
    var cmds := SecretPart(inputs, api, content, rotated);
    if cmds != [] {
      WritesOfOne(newId, m, cmds[0]);
      FlowsOne(a, PutSecret(m.Serialize(cmds[0].content)));
    }
  }

  lemma KeysPartResult(newId: string, m: Secret, api: ApiView, rotated: Option<seq<Jwk>>, a: Core)
    requires api.id != "" && api.id in a.api.clients
    requires rotated.Some? ==> AllPrivate(rotated.value)
    ensures var ws := AllWrites(newId, m, KeysPart(api, rotated));
            && Flows(a, ws) && |ws| <= 1
            && Play(a, ws) == if rotated.Some? then WithKeys(a, api.id, PublicKeys(rotated.value)) else a
  {
    var cmds := KeysPart(api, rotated);
    if cmds != [] {
      WritesOfOne(newId, m, cmds[0]);
      ToPublicMeaning(rotated.value);
      FlowsOne(a, PostJwks(api.id, PublicKeys(rotated.value)));
    }
  }

  lemma ScopesPartResult(app: App, newId: string, m: Secret, crd: Crd, api: ApiView, a: Core)
    requires api.id != "" && api.id in a.api.clients
    ensures var ws := AllWrites(newId, m, ScopesPart(app, crd, api));
            && Flows(a, ws) && |ws| <= 1
            && Play(a, ws) == if crd.scopes != api.scopes then WithScopes(app, a, api.id, SentScopes(crd.scopes)) else a
  {
    var cmds := ScopesPart(app, crd, api);
    if cmds != [] {
      WritesOfOne(newId, m, cmds[0]);
      FlowsOne(a, PutClient(api.id, app.ClientName(), SentScopes(crd.scopes)));
    }
  }

  lemma UpdateResult(app: App, inputs: Inputs, newId: string, s: Snapshot, api: ApiView, content: Content, a: Core)
    returns (b: Core, c: Core)
    requires a.secrets == [s.manifest] && api.id != "" && api.id in a.api.clients
    requires content.jwks.Some? && Usable(content.jwks.value)
    requires PlanUpdate(app, inputs, s, api, content).Ok?
    ensures var ws := AllWrites(newId, s.manifest, PlanUpdate(app, inputs, s, api, content).value);
            var r := Rotate(inputs.now, inputs.entropy, content.jwks);
            && r.Ok? && (r.value.Some? ==> Usable(r.value.value))
            && b == (if inputs.authority != content.authority || r.value.Some? then
                       a.(secrets := [s.manifest.Serialize(NewContent(api.id, inputs,
                                                                      if r.value.Some? then r.value.value else content.jwks.value))])
                     else a)
            && c == (if r.value.Some? then WithKeys(b, api.id, PublicKeys(r.value.value)) else b)
            && Flows(a, ws)
            && Play(a, ws) == if s.crd.scopes != api.scopes then WithScopes(app, c, api.id, SentScopes(s.crd.scopes)) else c
  {
    UpdateParts(app, inputs, newId, s, api, content);
    var r := Rotate(inputs.now, inputs.entropy, content.jwks).value;
    b, c := PartsResult(app, inputs, newId, s.manifest, s.crd, api, content, r, a);
  }

  lemma PartsResult(
    app: App, inputs: Inputs, newId: string, m: Secret, crd: Crd, api: ApiView, content: Content,
    rotated: Option<seq<Jwk>>, a: Core) returns (b: Core, c: Core)
    requires a.secrets == [m] && api.id != "" && api.id in a.api.clients
    requires if rotated.Some? then Usable(rotated.value) else content.jwks.Some? && Usable(content.jwks.value)
    ensures var ws := AllWrites(newId, m, SecretPart(inputs, api, content, rotated))
                      + (AllWrites(newId, m, KeysPart(api, rotated)) + AllWrites(newId, m, ScopesPart(app, crd, api)));
            && b == (if inputs.authority != content.authority || rotated.Some? then
                       a.(secrets := [m.Serialize(NewContent(api.id, inputs, if rotated.Some? then rotated.value else content.jwks.value))])
                     else a)
            && c == (if rotated.Some? then WithKeys(b, api.id, PublicKeys(rotated.value)) else b)
            && Flows(a, ws)
            && Play(a, ws) == if crd.scopes != api.scopes then WithScopes(app, c, api.id, SentScopes(crd.scopes)) else c
  {
    var wa := AllWrites(newId, m, SecretPart(inputs, api, content, rotated));
    var wb, wc := AllWrites(newId, m, KeysPart(api, rotated)), AllWrites(newId, m, ScopesPart(app, crd, api));
    SecretPartResult(inputs, newId, m, api, content, rotated, a);
    b := Play(a, wa);
    KeysPartResult(newId, m, api, rotated, b);
    c := Play(b, wb);
    ScopesPartResult(app, newId, m, crd, api, c);
    FlowsConcat(b, wb, wc);
    FlowsConcat(a, wa, wb + wc);
  }

  lemma DeletionResult(newId: string, s: Snapshot, a: Core)
    requires a.secrets == [s.manifest] && (s.api.Some? ==> s.api.value.id in a.api.clients)
    ensures Flows(a, AllWrites(newId, s.manifest, PlanDeletion(s)))
  {
    DeletionWrites(newId, s);
    var wa := if s.content.Some? then [PutSecret(s.manifest.DeleteContent())] else [];
    var wb := if s.api.Some? then [DropClient(s.api.value.id)] else [];
    if s.content.Some? { FlowsOne(a, wa[0]); }
    if s.api.Some? { FlowsOne(Play(a, wa), wb[0]); }
    FlowsConcat(a, wa, wb);
  }

  // ---- rounds ----

  /** The app's secret is there, and it is the only one. */
  predicate OneSecret(w: World) { |w.core.secrets| == 1 && w.core.secrets[0].opaqueType }

  /** Key generation works. */
  predicate Capable(inputs: Inputs) {
    inputs.entropy.pair.Some? && inputs.entropy.uuid.Some? && inputs.now.issue < inputs.now.NotAfter()
  }

  /** No call fails, key generation works, and the API has a new id to give. */
  ghost predicate Smooth(env: RoundEnv, w: World) {
    Faultless(env.script) && Capable(env.inputs) && env.newId != "" && env.newId !in w.core.api.clients
  }

  lemma FaultlessFetch(app: App, core: Core, script: seq<Outcome>, instance: Crd)
    requires CoreInv(app, core) && Faultless(script)
    requires |core.secrets| == 1 && core.secrets[0].opaqueType
    ensures var f := FetchState(app, core, script, instance); f.result.Ok? && Faultless(f.script)
  {
    HeadOfFaultless(script);
    HeadOfFaultless(Tail(script));
    HeadOfFaultless(Tail(Tail(script)));
    HeadOfFaultless(Tail(Tail(Tail(script))));
    SearchByName(app, core.api);
    AppNameIsOwn(app);
    assert SecretOk(app, core.api, core.secrets[0]);
  }

  lemma FaultlessLoad(w: World, script: seq<Outcome>)
    requires Faultless(script) && w.crd.Some?
    ensures LoadInstance(w, script).loading.Loaded? && Faultless(LoadInstance(w, script).script)
  {
    HeadOfFaultless(script);
    HeadOfFaultless(Tail(script));
  }

  lemma CapablePlans(app: App, inputs: Inputs, s: Snapshot)
    requires Capable(inputs) || s.crd.deleting
    requires s.content.Some? ==> s.content.value.jwks.Some? && Usable(s.content.value.jwks.value)
    ensures Plan(app, inputs, s).Ok?
  {
    PlanFailsOnlyInGeneration(app, inputs, s);
    if s.content.Some? { RotationKeepsUsable(inputs.now, inputs.entropy, s.content.value.jwks.value); }
    NewKeysArePublic(inputs);
  }

  lemma FaultlessDecision(app: App, env: RoundEnv, w: World)
    requires Inv(app, w) && w.crd.Some? && OneSecret(w) && Faultless(env.script)
    requires Deleting(w) || Capable(env.inputs)
    ensures var d := Decide(app, env, w);
            && d.Decided? && Accurate(app, w, d) && Plan(app, env.inputs, d.snapshot) == Ok(d.cmds)
            && Faultless(d.script)
  {
    DecisionIsAccurate(app, env, w);
    FaultlessLoad(w, env.script);
    LoadPrepares(w, env.script);
    var l := LoadInstance(w, env.script);
    FaultlessFetch(app, w.core, l.script, l.loading.instance);
    FetchIsAccurate(app, w.core, l.script, l.loading.instance);
    var s := FetchState(app, w.core, l.script, l.loading.instance).result.value;
    assert SecretOk(app, w.core.api, s.manifest);
    CapablePlans(app, env.inputs, s);
  }

  lemma DecisionFlows(app: App, env: RoundEnv, w: World, d: Decision)
    requires Inv(app, w) && d.Decided? && Accurate(app, w, d) && Plan(app, env.inputs, d.snapshot) == Ok(d.cmds)
    requires d.snapshot.crd.deleting || Smooth(env, w)
    ensures Flows(w.core, WritesOfDecision(env, d))
  {
    var s := d.snapshot;
    assert SecretOk(app, w.core.api, s.manifest);
    if s.crd.deleting {
      DeletionResult(env.newId, s, w.core);
    } else if s.api.None? {
      CreationResult(app, env.inputs, env.newId, s, w.core);
    } else if s.content.None? {
      RecoveryResult(env.inputs, env.newId, s.manifest, s.api.value, w.core);
    } else {
      var _, _ := UpdateResult(app, env.inputs, env.newId, s, s.api.value, s.content.value, w.core);
    }
  }

  /** Where there is not exactly one opaque secret, no round changes anything but the resource's status and
      finalizer, whatever becomes of its calls: the snapshot cannot be taken, not even for a deletion. */
  lemma WithoutSecret(app: App, env: RoundEnv, w: World)
    requires w.crd.Some? && !OneSecret(w)
    ensures var r := Round(app, env, w);
            && r.reply == Failed && r.world.core == w.core
            && r.world.crd.Some? && Deleting(r.world) == Deleting(w)
  {
    var l := LoadInstance(w, env.script);
    if l.loading.Loaded? {
      assert FetchState(app, l.world.core, l.script, l.loading.instance).result.Err?;
    }
  }

  /** A smooth round carries out everything it decided on, asks to be run again exactly when that was
      something, and ends the resource exactly when that was a deletion; it fails exactly when the secret
      is not there to be used. */
  lemma SmoothRound(app: App, env: RoundEnv, w: World)
    requires Inv(app, w) && w.crd.Some? && Faultless(env.script)
    requires Deleting(w) || Smooth(env, w)
    ensures var d := Decide(app, env, w);
            var r := Round(app, env, w);
            if OneSecret(w) then
              && d.Decided? && Accurate(app, w, d) && Plan(app, env.inputs, d.snapshot) == Ok(d.cmds)
              && r.world.core == Play(w.core, WritesOfDecision(env, d))
              && r.reply == (if d.cmds == [] then Quiet else Requeue(RandomizeDuration(env.requeueAfter, env.offset)))
              && r.world.crd.None? == (Deleting(w) && d.cmds != [])
            else r.reply == Failed && r.world.core == w.core && r.world.crd.Some?
  {
    if OneSecret(w) { SmoothWithSecret(app, env, w); } else { WithoutSecret(app, env, w); }
  }

  lemma SmoothWithSecret(app: App, env: RoundEnv, w: World)
    requires Inv(app, w) && w.crd.Some? && OneSecret(w) && Faultless(env.script)
    requires Deleting(w) || Smooth(env, w)
    ensures var d := Decide(app, env, w);
            var r := Round(app, env, w);
            && d.Decided? && Accurate(app, w, d) && Plan(app, env.inputs, d.snapshot) == Ok(d.cmds)
            && r.world.core == Play(w.core, WritesOfDecision(env, d))
            && r.reply == (if d.cmds == [] then Quiet else Requeue(RandomizeDuration(env.requeueAfter, env.offset)))
            && r.world.crd.None? == (Deleting(w) && d.cmds != [])
  {
    FaultlessDecision(app, env, w);
    var d := Decide(app, env, w);
    DecisionFlows(app, env, w, d);
    AssertionNeverFires(app, env.inputs, d.snapshot, w.core, d.script, env.newId, d.cmds);
    FaultlessExec(w.core, d.script, env.newId, d.snapshot.manifest, d.cmds, []);
    SmoothCarryOut(app, env, w, d);
  }

  lemma SmoothCarryOut(app: App, env: RoundEnv, w: World, d: Decision)
    requires d.Decided? && Accurate(app, w, d)
    requires var x := Exec(w.core, d.script, env.newId, d.snapshot.manifest, d.cmds, []);
             x.end.AllExecuted? && Faultless(x.script) && |x.executed| == |d.cmds|
    ensures var r := CarryOut(env, d);
            && r.world.core == Exec(w.core, d.script, env.newId, d.snapshot.manifest, d.cmds, []).core
            && r.reply == (if d.cmds == [] then Quiet else Requeue(RandomizeDuration(env.requeueAfter, env.offset)))
            && r.world.crd.None? == (d.snapshot.crd.deleting && d.cmds != [])
  {
    var x := Exec(w.core, d.script, env.newId, d.snapshot.manifest, d.cmds, []);
    HeadOfFaultless(x.script);
  }
}
