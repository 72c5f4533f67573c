/** What a round can put into the secret, wherever it is cut: one content, of known origin. */
module SecretWrites {
  import opened Wrappers
  import opened Keys
  import opened Rotation
  import opened World
  import opened ClientState
  import opened Controller
  import opened Invariant
  import opened KeyContinuity

  lemma {:induction false} SecretsAlong(core: Core, ws: seq<Write>, P: Core -> bool, base: seq<Secret>, wanted: Secret)
    requires core.secrets == base || core.secrets == [wanted]
    requires forall w :: w in ws && w.PutSecret? ==> w.secret == wanted
    requires forall c: Core :: c.secrets == base || c.secrets == [wanted] ==> P(c)
    ensures Along(core, ws, P)
    decreases |ws|
  {
    if ws != [] && Effect(core, ws[0]).Some? {
      assert ws[0] in ws;
      SecretsAlong(Effect(core, ws[0]).value, ws[1..], P, base, wanted);
    }
  }

  /** Where keys written by a round come from: created where there was no content; otherwise the content's
      own, or rotated from them. */
  ghost predicate Sourced(inputs: Inputs, before: Option<Content>, keys: seq<Jwk>) {
    match before
    case None => CreateJwks(inputs.now.NotAfter(), inputs.now.issue, inputs.entropy) == Ok(keys)
    case Some(c) => c.jwks == Some(keys) || Rotate(inputs.now, inputs.entropy, c.jwks) == Ok(Some(keys))
  }

  ghost predicate PutsOnly(ws: seq<Write>, wanted: Secret) { forall w :: w in ws && w.PutSecret? ==> w.secret == wanted }

  lemma CreationPuts(app: App, inputs: Inputs, newId: string, s: Snapshot) returns (keys: seq<Jwk>)
    requires PlanCreation(app, inputs, s).Ok?
    ensures keys != [] && CreateJwks(inputs.now.NotAfter(), inputs.now.issue, inputs.entropy) == Ok(keys)
    ensures PutsOnly(AllWrites(newId, s.manifest, PlanCreation(app, inputs, s).value),
                     s.manifest.Serialize(NewContent(newId, inputs, keys)))
  {
    keys := NewKeys(inputs).value.0;
    CreationWrites(newId, s.manifest, PlanCreation(app, inputs, s).value);
  }

  lemma RecoveryPuts(inputs: Inputs, newId: string, m: Secret, api: ApiView) returns (keys: seq<Jwk>)
    requires PlanRecovery(inputs, api).Ok?
    ensures keys != [] && CreateJwks(inputs.now.NotAfter(), inputs.now.issue, inputs.entropy) == Ok(keys)
    ensures PutsOnly(AllWrites(newId, m, PlanRecovery(inputs, api).value), m.Serialize(NewContent(api.id, inputs, keys)))
  {
    keys := NewKeys(inputs).value.0;
    RecoveryWrites(newId, m, PlanRecovery(inputs, api).value);
  }

  lemma PartsPut(app: App, inputs: Inputs, newId: string, m: Secret, crd: Crd, api: ApiView, content: Content,
                 rotated: Option<seq<Jwk>>)
    requires if rotated.Some? then rotated.value != [] else content.jwks.Some? && content.jwks.value != []
    ensures var keys := if rotated.Some? then rotated.value else content.jwks.value;
            PutsOnly(AllWrites(newId, m, SecretPart(inputs, api, content, rotated))
                     + (AllWrites(newId, m, KeysPart(api, rotated)) + AllWrites(newId, m, ScopesPart(app, crd, api))),
                     m.Serialize(NewContent(api.id, inputs, keys)))
  {
    var A, B, C := SecretPart(inputs, api, content, rotated), KeysPart(api, rotated), ScopesPart(app, crd, api);
    if A != [] { WritesOfOne(newId, m, A[0]); }
    if B != [] { WritesOfOne(newId, m, B[0]); }
    if C != [] { WritesOfOne(newId, m, C[0]); }
  }

  lemma UpdatePuts(app: App, inputs: Inputs, newId: string, s: Snapshot, api: ApiView, content: Content)
    returns (keys: seq<Jwk>)
    requires content.jwks.Some? && Usable(content.jwks.value) && PlanUpdate(app, inputs, s, api, content).Ok?
    ensures keys != [] && Sourced(inputs, Some(content), keys)
    ensures PutsOnly(AllWrites(newId, s.manifest, PlanUpdate(app, inputs, s, api, content).value),
                     s.manifest.Serialize(NewContent(api.id, inputs, keys)))
  {
    UpdateParts(app, inputs, newId, s, api, content);
    var r := Rotate(inputs.now, inputs.entropy, content.jwks).value;
    keys := if r.Some? then r.value else content.jwks.value;
    PartsPut(app, inputs, newId, s.manifest, s.crd, api, content, r);
  }

  /** Wherever it is cut, a round on a living resource leaves the secrets alone or writes one content, for
      one client, under the configured authority, with its first key as the signing key. */
  lemma RoundWritesOneContent(app: App, env: RoundEnv, w: World) returns (id: string, keys: seq<Jwk>)
    requires Inv(app, w) && !Deleting(w)
    ensures keys != []
    ensures var z := Round(app, env, w).world.core;
            z.secrets != w.core.secrets ==>
              && |w.core.secrets| == 1 && Sourced(env.inputs, TheContent(w.core), keys)
              && z.secrets == [w.core.secrets[0].Serialize(NewContent(id, env.inputs, keys))]
  {
    id, keys := "", [Jwk(0, true, [], "")];
    DecisionIsAccurate(app, env, w);
    var d := Decide(app, env, w);
    if d.Decided? {
      var s := d.snapshot;
      assert SecretOk(app, w.core.api, s.manifest);
      if s.api.None? {
        id := env.newId;
        keys := CreationPuts(app, env.inputs, env.newId, s);
      } else if s.content.None? {
        id := s.api.value.id;
        keys := RecoveryPuts(env.inputs, env.newId, s.manifest, s.api.value);
      } else {
        id := s.api.value.id;
        keys := UpdatePuts(app, env.inputs, env.newId, s, s.api.value, s.content.value);
      }
      var wanted := s.manifest.Serialize(NewContent(id, env.inputs, keys));
      var P := (c: Core) => c.secrets == w.core.secrets || c.secrets == [wanted];
      SecretsAlong(w.core, WritesOfDecision(env, d), P, w.core.secrets, wanted);
      RoundEndsAlong(app, env, w, P);
    }
  }
}
