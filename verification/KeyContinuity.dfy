/** Whether the app can still authenticate: which of the secret's private keys have their public half
    registered, through rotations cut between the write of the secret and the write of the API. */
module KeyContinuity {
  import opened Wrappers
  import opened Text
  import opened Keys
  import opened Rotation
  import opened World
  import opened ClientState
  import opened Controller
  import opened Invariant
  import opened SmoothRounds
  import opened Convergence

  /** The key set registered for the client a content names. */
  function Registered(core: Core, c: Content): seq<Jwk> {
    if c.clientId in core.api.clients then core.api.clients[c.clientId].keys else []
  }

  function PrivateKeys(c: Content): seq<Jwk> { if c.jwks.None? then [] else c.jwks.value }

  /** The API holds exactly the public halves of the secret's keys, in the same order. */
  ghost predicate Agree(core: Core) {
    forall s :: s in core.secrets && s.Stored().Some? ==>
                  Registered(core, s.Stored().value) == PublicKeys(PrivateKeys(s.Stored().value))
  }

  /** The API still holds the public half of the key the last rotation kept. */
  ghost predicate KeptIsKnown(core: Core) {
    forall s :: s in core.secrets && s.Stored().Some? ==>
                  && |PrivateKeys(s.Stored().value)| == 2
                  && Public(PrivateKeys(s.Stored().value)[1]) in Registered(core, s.Stored().value)
  }

  /** Some private key in every settings entry has its public half in the API. */
  ghost predicate InContact(core: Core) {
    forall s :: s in core.secrets && s.Stored().Some? ==>
                  exists k :: k in PrivateKeys(s.Stored().value) && k.isPrivate && Public(k) in Registered(core, s.Stored().value)
  }

  lemma AgreementIsContact(app: App, core: Core)
    requires CoreInv(app, core)
    ensures Agree(core) || KeptIsKnown(core) ==> InContact(core)
  {
    forall s | s in core.secrets && s.Stored().Some? && (Agree(core) || KeptIsKnown(core))
      ensures exists k :: k in PrivateKeys(s.Stored().value) && k.isPrivate && Public(k) in Registered(core, s.Stored().value)
    {
      var c := s.Stored().value;
      assert SecretOk(app, core.api, s);
      var keys := PrivateKeys(c);
      if Agree(core) {
        assert keys[0] in keys && PublicKeys(keys)[0] in Registered(core, c);
      } else {
        assert keys[1] in keys;
      }
    }
  }

  // ---- one round ----

  /** The content of the app's only secret. */
  function TheContent(core: Core): Option<Content> {
    if |core.secrets| == 1 then core.secrets[0].Stored() else None
  }

  /** The four ways a round can leave the keys. */
  ghost predicate KeyStep(a: Core, b: Core) {
    || b == a
    || (|a.secrets| == |b.secrets| == 1 &&
        (|| TheContent(b).None?
         || Agree(b)
         || (TheContent(a).Some?
             && PrivateKeys(TheContent(b).value) == PrivateKeys(TheContent(a).value)
             && Registered(b, TheContent(b).value) == Registered(a, TheContent(a).value))
         || (TheContent(a).Some?
             && |PrivateKeys(TheContent(b).value)| == 2
             && PrivateKeys(TheContent(b).value)[1] in PrivateKeys(TheContent(a).value)
             && Registered(b, TheContent(b).value) == Registered(a, TheContent(a).value))))
  }

  lemma CreationKeys(app: App, inputs: Inputs, newId: string, s: Snapshot, a: Core)
    requires a.secrets == [s.manifest] && s.manifest.Stored().None?
    requires PlanCreation(app, inputs, s).Ok?
    ensures Along(a, AllWrites(newId, s.manifest, PlanCreation(app, inputs, s).value), c => KeyStep(a, c))
  {
    var P := c => KeyStep(a, c);
    var cmds := PlanCreation(app, inputs, s).value;
    NewKeysArePublic(inputs);
    CreationWrites(newId, s.manifest, cmds);
    var ws := AllWrites(newId, s.manifest, cmds);
    if Effect(a, ws[0]).Some? {
      var b := Effect(a, ws[0]).value;
      var c := Effect(b, ws[1]).value;
      var d := Effect(c, ws[2]).value;
      assert P(b) && P(c);
      assert P(d) by {
        SecretRoundTrip(s.manifest, ws[2].secret.Stored().value);
        assert Agree(d);
      }
      assert Along(d, ws[3..], P);
      assert Along(c, ws[2..], P);
      assert Along(b, ws[1..], P);
    }
  }

  lemma RecoveryKeys(inputs: Inputs, newId: string, m: Secret, api: ApiView, a: Core)
    requires a.secrets == [m] && m.Stored().None?
    requires PlanRecovery(inputs, api).Ok?
    ensures Along(a, AllWrites(newId, m, PlanRecovery(inputs, api).value), c => KeyStep(a, c))
  {
    var P := c => KeyStep(a, c);
    var cmds := PlanRecovery(inputs, api).value;
    NewKeysArePublic(inputs);
    RecoveryWrites(newId, m, cmds);
    var ws := AllWrites(newId, m, cmds);
    if Effect(a, ws[0]).Some? {
      var b := Effect(a, ws[0]).value;
      var c := Effect(b, ws[1]).value;
      assert Agree(c);
      assert Along(c, ws[2..], P);
      assert Along(b, ws[1..], P);
    }
  }

  /** The states an update passes through: the secret first, then the API's keys, then its scopes. */
  lemma UpdateStates(
    app: App, inputs: Inputs, m: Secret, api: ApiView, content: Content, rotated: Option<seq<Jwk>>,
    scopes: seq<string>, a: Core, b: Core, c: Core)
    requires a.secrets == [m] && m.Stored() == Some(content) && content.clientId == api.id && api.id in a.api.clients
    requires content.jwks.Some? && content.jwks.value != []
    requires rotated.Some? ==> |rotated.value| == 2 && rotated.value[1] in content.jwks.value
    requires var keys := if rotated.Some? then rotated.value else content.jwks.value;
             b == a || b == a.(secrets := [m.Serialize(NewContent(api.id, inputs, keys))])
    requires rotated.Some? ==> b != a || rotated == content.jwks
    requires c == if rotated.Some? then WithKeys(b, api.id, PublicKeys(rotated.value)) else b
    ensures KeyStep(a, b) && KeyStep(a, c) && KeyStep(a, WithScopes(app, c, api.id, scopes))
  {
    var keys := if rotated.Some? then rotated.value else content.jwks.value;
    SecretRoundTrip(m, NewContent(api.id, inputs, keys));
    var d := WithScopes(app, c, api.id, scopes);
    assert rotated.Some? ==> Agree(c) && Agree(d);
  }

  lemma PartsKeys(
    app: App, inputs: Inputs, newId: string, m: Secret, crd: Crd, api: ApiView, content: Content,
    rotated: Option<seq<Jwk>>, a: Core)
    requires a.secrets == [m] && m.Stored() == Some(content) && content.clientId == api.id && api.id in a.api.clients
    requires api.id != "" && content.jwks.Some? && Usable(content.jwks.value)
    requires rotated.Some? ==> Usable(rotated.value) && |rotated.value| == 2 && rotated.value[1] in content.jwks.value
    ensures Along(a, AllWrites(newId, m, SecretPart(inputs, api, content, rotated))
                  + (AllWrites(newId, m, KeysPart(api, rotated)) + AllWrites(newId, m, ScopesPart(app, crd, api))),
                  c => KeyStep(a, c))
  {
    var P := c => KeyStep(a, c);
    var wa := AllWrites(newId, m, SecretPart(inputs, api, content, rotated));
    var wb, wc := AllWrites(newId, m, KeysPart(api, rotated)), AllWrites(newId, m, ScopesPart(app, crd, api));
    SecretPartResult(inputs, newId, m, api, content, rotated, a);
    var b := Play(a, wa);
    KeysPartResult(newId, m, api, rotated, b);
    var c := Play(b, wb);
    ScopesPartResult(app, newId, m, crd, api, c);
    UpdateStates(app, inputs, m, api, content, rotated, SentScopes(crd.scopes), a, b, c);
    AlongAtMostOne(a, wa, P);
    AlongAtMostOne(b, wb, P);
    AlongAtMostOne(c, wc, P);
    AlongConcat(b, wb, wc, P);
    AlongConcat(a, wa, wb + wc, P);
  }

  lemma DeletionKeys(app: App, newId: string, s: Snapshot, a: Core)
    requires CoreInv(app, a) && a.secrets == [s.manifest]
    requires s.content == s.manifest.Stored() && (s.content.None? ==> !s.manifest.HasSettings())
    ensures Along(a, AllWrites(newId, s.manifest, PlanDeletion(s)), c => KeyStep(a, c))
  {
    var P := c => KeyStep(a, c);
    DeletionWrites(newId, s);
    SecretRoundTrip(s.manifest, Content("", "", None, None));
    var wa := if s.content.Some? then [PutSecret(s.manifest.DeleteContent())] else [];
    var wb := if s.api.Some? then [DropClient(s.api.value.id)] else [];
    if s.content.Some? { AlongOne(a, wa[0], P); }
    var b := Play(a, wa);
    if s.api.Some? { AlongOne(b, wb[0], P); }
    AlongConcat(a, wa, wb, P);
  }

  lemma RotationKeepsOne(inputs: Inputs, content: Content)
    requires content.jwks.Some? && Usable(content.jwks.value)
    requires Rotate(inputs.now, inputs.entropy, content.jwks).Ok?
    ensures var r := Rotate(inputs.now, inputs.entropy, content.jwks).value;
            r.Some? ==> Usable(r.value) && |r.value| == 2 && r.value[1] in content.jwks.value
  {
    RotationKeepsUsable(inputs.now, inputs.entropy, content.jwks.value);
  }

  lemma UpdateKeys(app: App, inputs: Inputs, newId: string, s: Snapshot, a: Core)
    requires CoreInv(app, a) && a.secrets == [s.manifest] && s.api.Some? && s.content.Some?
    requires s.content == s.manifest.Stored() && s.content.value.clientId == s.api.value.id
    requires PlanUpdate(app, inputs, s, s.api.value, s.content.value).Ok?
    ensures Along(a, AllWrites(newId, s.manifest, PlanUpdate(app, inputs, s, s.api.value, s.content.value).value),
                  c => KeyStep(a, c))
  {
    assert SecretOk(app, a.api, s.manifest);
    UpdateParts(app, inputs, newId, s, s.api.value, s.content.value);
    RotationKeepsOne(inputs, s.content.value);
    var r := Rotate(inputs.now, inputs.entropy, s.content.value.jwks).value;
    PartsKeys(app, inputs, newId, s.manifest, s.crd, s.api.value, s.content.value, r, a);
  }

  /** Every round, wherever it is cut. */
  lemma RoundKeyStep(app: App, env: RoundEnv, w: World)
    requires Inv(app, w)
    ensures KeyStep(w.core, Round(app, env, w).world.core)
  {
    DecisionIsAccurate(app, env, w);
    var d := Decide(app, env, w);
    if d.Decided? {
      var s := d.snapshot;
      if s.crd.deleting {
        DeletionKeys(app, env.newId, s, w.core);
      } else if s.api.None? {
        CreationKeys(app, env.inputs, env.newId, s, w.core);
      } else if s.content.None? {
        RecoveryKeys(env.inputs, env.newId, s.manifest, s.api.value, w.core);
      } else {
        UpdateKeys(app, env.inputs, env.newId, s, w.core);
      }
    }
    RoundEndsAlong(app, env, w, c => KeyStep(w.core, c));
  }

  lemma UserKeepsKeys(app: App, a: World, b: World)
    requires Inv(app, a) && Inv(app, b) && UserStep(app, a, b)
    ensures Agree(a.core) ==> Agree(b.core)
    ensures KeptIsKnown(a.core) ==> KeptIsKnown(b.core)
  {
    forall s | s in b.core.secrets && s.Stored().Some?
      ensures exists t :: t in a.core.secrets && t.Stored() == s.Stored() &&
                          Registered(a.core, t.Stored().value) == Registered(b.core, s.Stored().value)
    {
      var t :| t in a.core.secrets && t.HasSettings() && t.data.value[SETTINGS_FILE] == s.data.value[SETTINGS_FILE];
      assert SecretOk(app, a.core.api, t) && SecretOk(app, b.core.api, s);
      assert t.Stored() == s.Stored();
    }
  }

  lemma OneSecretAgrees(core: Core)
    requires |core.secrets| == 1
    ensures Agree(core) <==>
            (TheContent(core).Some? ==>
               Registered(core, TheContent(core).value) == PublicKeys(PrivateKeys(TheContent(core).value)))
    ensures KeptIsKnown(core) <==>
            (TheContent(core).Some? ==>
               && |PrivateKeys(TheContent(core).value)| == 2
               && Public(PrivateKeys(TheContent(core).value)[1]) in Registered(core, TheContent(core).value))
  {
    assert core.secrets[0] in core.secrets;
  }

  lemma PublicHalves(keys: seq<Jwk>)
    ensures forall k :: k in keys ==> Public(k) in PublicKeys(keys)
  {
    forall k | k in keys ensures Public(k) in PublicKeys(keys) {
      var i :| 0 <= i < |keys| && keys[i] == k;
      assert PublicKeys(keys)[i] == Public(k);
    }
  }

  // ---- rounds without faults ----

  /** A smooth round ends with secret and API in agreement exactly when they agreed before or it had a
      rotation to make: nothing ever compares the two, so only the next rotation repairs a cut one. */
  lemma SmoothAgreement(app: App, env: RoundEnv, w: World)
    requires Inv(app, w) && w.crd.Some? && !Deleting(w) && Smooth(env, w)
    ensures var z := Round(app, env, w).world.core;
            && (OneSecret(w) ==> TheContent(z).Some?)
            && (Agree(z) <==>
                || Agree(w.core)
                || (OneSecret(w) && TheContent(w.core).Some? && !KeysLast(TheContent(w.core).value, env.inputs.now)))
  {
    if OneSecret(w) { AgreementWithSecret(app, env, w); } else { WithoutSecret(app, env, w); }
  }

  lemma AgreementWithSecret(app: App, env: RoundEnv, w: World)
    requires Inv(app, w) && w.crd.Some? && !Deleting(w) && OneSecret(w) && Smooth(env, w)
    ensures var z := Round(app, env, w).world.core;
            && TheContent(z).Some?
            && (Agree(z) <==> Agree(w.core) || (TheContent(w.core).Some? && !KeysLast(TheContent(w.core).value, env.inputs.now)))
  {
    SmoothWithSecret(app, env, w);
    var d := Decide(app, env, w);
    var s := d.snapshot;
    var z := Round(app, env, w).world.core;
    OneSecretAgrees(w.core);
    if s.api.None? {
      NewKeysArePublic(env.inputs);
      CreationResult(app, env.inputs, env.newId, s, w.core);
      WrittenKeysAgree(env.inputs, s.manifest, env.newId, NewKeys(env.inputs).value.0, z);
    } else if s.content.None? {
      NewKeysArePublic(env.inputs);
      RecoveryResult(env.inputs, env.newId, s.manifest, s.api.value, w.core);
      WrittenKeysAgree(env.inputs, s.manifest, s.api.value.id, NewKeys(env.inputs).value.0, z);
    } else {
      SmoothUpdateAgreement(app, env.inputs, env.newId, s, w.core);
    }
  }

  lemma WrittenKeysAgree(inputs: Inputs, m: Secret, id: string, keys: seq<Jwk>, z: Core)
    requires keys != [] && id in z.api.clients && z.api.clients[id].keys == PublicKeys(keys)
    requires z.secrets == [m.Serialize(NewContent(id, inputs, keys))]
    ensures TheContent(z).Some? && Agree(z)
  {
    SecretRoundTrip(m, NewContent(id, inputs, keys));
    OneSecretAgrees(z);
  }

  lemma SmoothUpdateAgreement(app: App, inputs: Inputs, newId: string, s: Snapshot, a: Core)
    requires CoreInv(app, a) && a.secrets == [s.manifest] && s.api.Some? && s.content.Some?
    requires s.content == s.manifest.Stored() && s.content.value.clientId == s.api.value.id && Bears(app, a.api, s.api.value.id)
    requires PlanUpdate(app, inputs, s, s.api.value, s.content.value).Ok?
    ensures var z := Play(a, AllWrites(newId, s.manifest, PlanUpdate(app, inputs, s, s.api.value, s.content.value).value));
            && TheContent(z).Some?
            && (Agree(z) <==> Agree(a) || !KeysLast(s.content.value, inputs.now))
  {
    var content, id := s.content.value, s.api.value.id;
    assert SecretOk(app, a.api, s.manifest);
    var b, c := UpdateResult(app, inputs, newId, s, s.api.value, content, a);
    RotationIsNeeded(inputs.now, inputs.entropy, content.jwks.value);
    var r := Rotate(inputs.now, inputs.entropy, content.jwks).value;
    var keys := if r.Some? then r.value else content.jwks.value;
    SecretRoundTrip(s.manifest, NewContent(id, inputs, keys));
    var z := Play(a, AllWrites(newId, s.manifest, PlanUpdate(app, inputs, s, s.api.value, content).value));
    OneSecretAgrees(a);
    OneSecretAgrees(z);
    assert PrivateKeys(TheContent(z).value) == keys;
    assert Registered(z, TheContent(z).value) == if r.Some? then PublicKeys(keys) else Registered(a, content);
  }

  /** Every round finds its resource and secret and no call of it fails, or finds one of them missing. */
  ghost predicate AllSmooth(app: App, w: World, events: seq<Event>) {
    forall i :: 0 <= i < |events| && events[i].Reconcile? ==>
                  var v := Run(app, w, events[..i]);
                  v.crd.Some? && OneSecret(v) ==> Faultless(events[i].env.script) && (Deleting(v) || Smooth(events[i].env, v))
  }

  lemma SmoothRoundKeepsAgreement(app: App, env: RoundEnv, w: World)
    requires Inv(app, w) && Agree(w.core)
    requires w.crd.Some? && OneSecret(w) ==> Faultless(env.script) && (Deleting(w) || Smooth(env, w))
    ensures Agree(Round(app, env, w).world.core)
  {
    DecisionIsAccurate(app, env, w);
    if Decide(app, env, w).Decided? {
      if Deleting(w) {
        SmoothWithSecret(app, env, w);
        FullDeletion(app, env, w);
      } else {
        SmoothAgreement(app, env, w);
      }
    }
  }

  lemma FullDeletion(app: App, env: RoundEnv, w: World)
    requires Inv(app, w) && Deleting(w) && OneSecret(w) && Faultless(env.script)
    ensures forall s :: s in Round(app, env, w).world.core.secrets ==> !s.HasSettings()
  {
    SmoothWithSecret(app, env, w);
    DeletionAlong(app, env.newId, Decide(app, env, w).snapshot, w.core);
  }

  /** Over every run without faults secret and API agree key for key, in the same order, whichever branch
      each round took. */
  lemma {:induction false} SmoothRunsAgree(app: App, w: World, events: seq<Event>)
    requires Initial(app, w) && AllSmooth(app, w, events)
    ensures Agree(Run(app, w, events).core)
  {
    if events == [] {
      assert forall s :: s in w.core.secrets ==> !s.HasSettings();
    } else {
      var most := events[..|events| - 1];
      var front := Run(app, w, most);
      assert forall i :: 0 <= i < |most| ==> most[..i] == events[..i] && most[i] == events[i];
      SmoothRunsAgree(app, w, most);
      EveryRunIsSafe(app, w, most);
      match events[|events| - 1]
      case Reconcile(env) => SmoothRoundKeepsAgreement(app, env, front);
      case Change(to) => if UserStep(app, front, to) { UserKeepsKeys(app, front, to); }
    }
  }
}
