/** Where fault-free rounds lead a living resource, and how far the keys of the API and of the secret
    agree on the way. */
module Convergence {
  import opened Wrappers
  import opened Keys
  import opened Rotation
  import opened World
  import opened ClientState
  import opened Controller
  import opened Invariant
  import opened SmoothRounds

  /** The resource lives, its secret is there, and client and content are as it wants them. */
  ghost predicate InPlace(app: App, inputs: Inputs, w: World) {
    && w.crd.Some? && !w.crd.value.deleting && OneSecret(w)
    && w.core.secrets[0].Stored().Some?
    && var c := w.core.secrets[0].Stored().value;
    && c.clientId in w.core.api.clients
    && c.authority == inputs.authority
    && ReceivedScopes(w.core.api.clients[c.clientId].scopes) == w.crd.value.scopes
    && KeysLast(c, inputs.now)
  }

  /** How much is left to do. Recovery comes first because it restores the content without looking at
      the scopes. */
  ghost function Rank(app: App, inputs: Inputs, w: World): nat {
    if InPlace(app, inputs, w) then 0
    else if OneSecret(w) && !w.core.secrets[0].HasSettings() && exists id :: Bears(app, w.core.api, id) then 2
    else 1
  }

  lemma DecisionSettledIffInPlace(app: App, inputs: Inputs, w: World, d: Decision)
    requires CoreInv(app, w.core) && d.Decided? && Accurate(app, w, d)
    requires w.crd.Some? && !w.crd.value.deleting && (Owned(app, w.core) ==> w.crd.value.finalizer)
    ensures Settled(inputs, d.snapshot) <==> InPlace(app, inputs, w)
  {
    if d.snapshot.api.Some? {
      assert Owned(app, w.core);
    } else {
      assert d.snapshot.content.None?;
    }
  }

  /** A smooth round changes nothing and schedules nothing exactly when everything is in place. */
  lemma QuietIffInPlace(app: App, env: RoundEnv, w: World)
    requires Inv(app, w) && w.crd.Some? && !Deleting(w) && Smooth(env, w)
    ensures Round(app, env, w).reply == Quiet <==> InPlace(app, env.inputs, w)
    ensures InPlace(app, env.inputs, w) ==> Round(app, env, w).world.core == w.core
  {
    if OneSecret(w) {
      SmoothWithSecret(app, env, w);
      var d := Decide(app, env, w);
      DecisionSettledIffInPlace(app, env.inputs, w, d);
      NothingToDoIffSettled(app, env.inputs, d.snapshot);
    } else {
      WithoutSecret(app, env, w);
    }
  }

  lemma FreshKeysLast(inputs: Inputs, keys: seq<Jwk>, id: string)
    requires inputs.now.Prompt() && keys != [] && OneCertificateEach(keys)
    requires NotAfter(keys[0]) == WholeSeconds(inputs.now.NotAfter())
    ensures KeysLast(NewContent(id, inputs, keys), inputs.now)
  {
    assert keys[0] in keys;
  }

  lemma ScopesRoundTrip(scopes: Option<seq<string>>)
    ensures ReceivedScopes(SentScopes(scopes)) == scopes <==> scopes != Some([])
  {
  }

  /** The resource lives, and its list of scopes is not present and empty, or will not be once it has its
      finalizer. */
  ghost predicate CrdSettles(w: World) {
    w.crd.Some? && !w.crd.value.deleting && (w.crd.value.scopes != Some([]) || !w.crd.value.finalizer)
  }

  lemma AfterCreation(app: App, env: RoundEnv, w: World, s: Snapshot, z: World)
    requires w.core.secrets == [s.manifest] && s.manifest.opaqueType && CrdSettles(z)
    requires Smooth(env, w) && env.inputs.now.Prompt() && s.crd.scopes == z.crd.value.scopes && z.crd.value.finalizer
    requires PlanCreation(app, env.inputs, s).Ok?
    requires z.core == Play(w.core, AllWrites(env.newId, s.manifest, PlanCreation(app, env.inputs, s).value))
    ensures InPlace(app, env.inputs, z)
  {
    CreationResult(app, env.inputs, env.newId, s, w.core);
    CreatedKeysAreUsable(env.inputs.now, env.inputs.entropy);
    NewKeysArePublic(env.inputs);
    FreshKeysLast(env.inputs, NewKeys(env.inputs).value.0, env.newId);
    ScopesRoundTrip(s.crd.scopes);
  }

  lemma AfterUpdate(app: App, env: RoundEnv, w: World, s: Snapshot, z: World)
    requires CoreInv(app, w.core) && w.core.secrets == [s.manifest] && s.manifest.opaqueType && CrdSettles(z)
    requires env.inputs.now.Prompt() && s.crd.scopes == z.crd.value.scopes && z.crd.value.finalizer
    requires s.content.Some? && s.api.Some? && s.content == s.manifest.Stored()
    requires Bears(app, w.core.api, s.api.value.id) && s.api.value == View(s.api.value.id, w.core.api.clients[s.api.value.id])
    requires s.content.value.clientId == s.api.value.id
    requires PlanUpdate(app, env.inputs, s, s.api.value, s.content.value).Ok?
    requires var cmds := PlanUpdate(app, env.inputs, s, s.api.value, s.content.value).value;
             z.core == Play(w.core, AllWrites(env.newId, s.manifest, cmds))
    ensures InPlace(app, env.inputs, z)
  {
    var content, inputs := s.content.value, env.inputs;
    assert SecretOk(app, w.core.api, s.manifest);
    var b, c := UpdateResult(app, inputs, env.newId, s, s.api.value, content, w.core);
    var r := Rotate(inputs.now, inputs.entropy, content.jwks).value;
    RotatedKeysLast(inputs, content.jwks.value);
    ScopesRoundTrip(s.crd.scopes);
    SecretRoundTrip(s.manifest, NewContent(s.api.value.id, inputs, if r.Some? then r.value else content.jwks.value));
  }

  lemma RotatedKeysLast(inputs: Inputs, keys: seq<Jwk>)
    requires Usable(keys) && inputs.now.Prompt()
    requires Rotate(inputs.now, inputs.entropy, Some(keys)).Ok?
    ensures var r := Rotate(inputs.now, inputs.entropy, Some(keys)).value;
            var kept := if r.Some? then r.value else keys;
            OneCertificateEach(kept) && exists k :: k in kept && NotAfter(k) - inputs.now.threshold > 7 * 24 * 3600 * 1_000_000_000
  {
    RotationKeepsUsable(inputs.now, inputs.entropy, keys);
    RotationIsNeeded(inputs.now, inputs.entropy, keys);
    var r := Rotate(inputs.now, inputs.entropy, Some(keys)).value;
    if r.Some? {
      var _ := RotationChoice(inputs.now, inputs.entropy, keys);
      assert r.value[0] in r.value;
    }
  }

  lemma SettlingRound(app: App, env: RoundEnv, w: World)
    requires Inv(app, w) && CrdSettles(w) && OneSecret(w)
    requires Smooth(env, w) && env.inputs.now.Prompt()
    ensures var z := Round(app, env, w).world;
            && CrdSettles(z) && OneSecret(z)
            && (Rank(app, env.inputs, w) <= 1 ==> InPlace(app, env.inputs, z))
  {
    SmoothWithSecret(app, env, w);
    RoundChange(app, env, w);
    RoundCrd(app, env, w);
    var d := Decide(app, env, w);
    var s := d.snapshot;
    var z := Round(app, env, w).world;
    DecisionIsWhatStays(app, env, w);
    if s.api.None? {
      AfterCreation(app, env, w, s, z);
    } else if s.content.None? {
      RecoveryResult(env.inputs, env.newId, s.manifest, s.api.value, w.core);
    } else {
      AfterUpdate(app, env, w, s, z);
    }
  }

  /** A living resource leaves a round that reached a decision as the decision saw it, with its finalizer. */
  lemma DecisionIsWhatStays(app: App, env: RoundEnv, w: World)
    requires Inv(app, w) && w.crd.Some? && !Deleting(w) && Decide(app, env, w).Decided?
    ensures var z := Round(app, env, w).world.crd;
            && z.Some? && z.value.finalizer && !z.value.deleting
            && z.value.scopes == Decide(app, env, w).snapshot.crd.scopes
            && z.value.scopes == if w.crd.value.finalizer then w.crd.value.scopes else Resent(w.crd.value.scopes)
  {
    DecisionIsAccurate(app, env, w);
    var d := Decide(app, env, w);
    CarryOutCrd(app, env, w, d);
  }

  /** A list that is present but empty, on a resource with its finalizer, is there for good and never
      met. */
  lemma EmptyScopesStay(app: App, env: RoundEnv, inputs: Inputs, w: World)
    requires Inv(app, w) && w.crd.Some? && w.crd.value.finalizer && w.crd.value.scopes == Some([]) && !Deleting(w)
    ensures var z := Round(app, env, w).world;
            && Inv(app, z) && z.crd.Some? && z.crd.value.finalizer && z.crd.value.scopes == Some([]) && !Deleting(z)
            && !InPlace(app, inputs, z)
  {
    RoundKeepsInv(app, env, w);
    RoundCrd(app, env, w);
  }

  /** Each smooth round of prompt readings lowers the rank: from recovery to at most an update, whatever
      the next round's inputs; and from anything else to being in place at its own, exactly when the
      secret is there and the list of scopes is not one that never compares equal. */
  lemma RankFalls(app: App, env: RoundEnv, w: World)
    requires Inv(app, w) && w.crd.Some? && !Deleting(w)
    requires Smooth(env, w) && env.inputs.now.Prompt()
    ensures var z := Round(app, env, w).world;
            && (Rank(app, env.inputs, w) == 2 ==> forall later :: Rank(app, later, z) <= 1)
            && (Rank(app, env.inputs, w) <= 1 ==> (Rank(app, env.inputs, z) == 0 <==> OneSecret(w) && CrdSettles(w)))
  {
    var z := Round(app, env, w).world;
    if !OneSecret(w) {
      WithoutSecret(app, env, w);
    } else {
      if Rank(app, env.inputs, w) == 2 { RecoveryRestores(app, env, w); }
      if CrdSettles(w) {
        SettlingRound(app, env, w);
      } else {
        EmptyScopesStay(app, env, env.inputs, w);
      }
    }
  }

  lemma RecoveryRestores(app: App, env: RoundEnv, w: World)
    requires Inv(app, w) && w.crd.Some? && !Deleting(w) && OneSecret(w) && Smooth(env, w)
    requires !w.core.secrets[0].HasSettings() && exists id :: Bears(app, w.core.api, id)
    ensures var z := Round(app, env, w).world.core; |z.secrets| == 1 && z.secrets[0].HasSettings()
  {
    SmoothWithSecret(app, env, w);
    var s := Decide(app, env, w).snapshot;
    RecoveryResult(env.inputs, env.newId, s.manifest, s.api.value, w.core);
  }

  /** Why two: a smooth round that restores the content of a client it found by name puts everything in
      place exactly when that client's scopes were right already. */
  lemma RecoveryLeavesScopes(app: App, env: RoundEnv, w: World, id: string)
    requires Inv(app, w) && w.crd.Some? && !Deleting(w) && OneSecret(w)
    requires !w.core.secrets[0].HasSettings() && Bears(app, w.core.api, id)
    requires Smooth(env, w) && env.inputs.now.Prompt()
    ensures InPlace(app, env.inputs, Round(app, env, w).world)
       <==> ReceivedScopes(w.core.api.clients[id].scopes) == w.crd.value.scopes
  {
    SmoothWithSecret(app, env, w);
    RoundCrd(app, env, w);
    var d := Decide(app, env, w);
    var m, keys := d.snapshot.manifest, NewKeys(env.inputs).value.0;
    RecoveryResult(env.inputs, env.newId, m, d.snapshot.api.value, w.core);
    NewKeysArePublic(env.inputs);
    CreatedKeysAreUsable(env.inputs.now, env.inputs.entropy);
    FreshKeysLast(env.inputs, keys, id);
    SecretRoundTrip(m, NewContent(id, env.inputs, keys));
  }

  lemma TwoRoundsSuffice(app: App, first: RoundEnv, second: RoundEnv, w: World)
    requires Inv(app, w) && CrdSettles(w) && OneSecret(w) && Smooth(first, w) && first.inputs.now.Prompt()
    requires Smooth(second, Round(app, first, w).world) && second.inputs.now.Prompt()
    ensures InPlace(app, second.inputs, Round(app, second, Round(app, first, w).world).world)
  {
    var y := Round(app, first, w).world;
    RoundKeepsInv(app, first, w);
    SettlingRound(app, first, w);
    RankFalls(app, first, w);
    SettlingRound(app, second, y);
  }

  /** From any reachable state of a living resource, two smooth rounds put everything in place, exactly
      when the app's secret is there and the resource does not ask, with its finalizer in place, for a list
      of scopes that is present but empty. That list is sent as nothing, comes back as nil, and never
      compares equal; on a resource without finalizer the first write of the resource drops it. */
  lemma TwoRoundsSettle(app: App, first: RoundEnv, second: RoundEnv, w: World)
    requires Inv(app, w) && w.crd.Some? && !Deleting(w)
    requires Smooth(first, w) && first.inputs.now.Prompt()
    requires Smooth(second, Round(app, first, w).world) && second.inputs.now.Prompt()
    ensures var z := Round(app, second, Round(app, first, w).world).world;
            InPlace(app, second.inputs, z)
            <==> OneSecret(w) && (w.crd.value.scopes != Some([]) || !w.crd.value.finalizer)
  {
    var y := Round(app, first, w).world;
    RoundKeepsInv(app, first, w);
    RoundCrd(app, first, w);
    if !OneSecret(w) {
      WithoutSecret(app, first, w);
      WithoutSecret(app, second, y);
    } else if CrdSettles(w) {
      TwoRoundsSuffice(app, first, second, w);
    } else {
      EmptyScopesStay(app, first, first.inputs, w);
      EmptyScopesStay(app, second, second.inputs, y);
    }
  }
}
