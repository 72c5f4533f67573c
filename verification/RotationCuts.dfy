/** Rotations that are cut between the write of the secret and the write of the API: exactly when a round
    is one, by what can be known before it, and what one and two of them cost. */
module RotationCuts {
  import opened Wrappers
  import opened Text
  import opened Keys
  import opened Rotation
  import opened World
  import opened ClientState
  import opened Controller
  import opened Invariant
  import opened SmoothRounds
  import opened Convergence
  import opened KeyContinuity
  import opened SecretWrites

  // ---- when a round is cut ----

  /** The key generator works, and no key outlives the horizon. */
  ghost predicate RotationDue(inputs: Inputs, c: Content) { Capable(inputs) && !KeysLast(c, inputs.now) }

  /** A living resource with content whose keys are due. */
  ghost predicate Rotates(env: RoundEnv, w: World) {
    && w.crd.Some? && !Deleting(w) && OneSecret(w)
    && TheContent(w.core).Some? && RotationDue(env.inputs, TheContent(w.core).value)
  }

  /** The four reads succeed, the secret is written, and the key set is not: the response to the secret's
      write is lost, or the write of the key set is refused. */
  predicate CutScript(script: seq<Outcome>) {
    && Begins(script, 4)
    && (Nth(script, 4).ResponseLost? || (Nth(script, 4).Succeeds? && Nth(script, 5).Refused?))
  }

  /** The reads succeed, and both writes take effect. */
  predicate LandingScript(script: seq<Outcome>) {
    Begins(script, 4) && Nth(script, 4).Succeeds? && !Nth(script, 5).Refused?
  }

  ghost predicate CutShort(env: RoundEnv, w: World) { Rotates(env, w) && CutScript(env.script) }

  ghost predicate Landed(env: RoundEnv, w: World) { Rotates(env, w) && LandingScript(env.script) }

  // ---- what such a round decides and carries out ----

  lemma RotateFailsIff(inputs: Inputs, c: Content)
    requires c.jwks.Some? && Usable(c.jwks.value)
    ensures Rotate(inputs.now, inputs.entropy, c.jwks).Ok? <==> KeysLast(c, inputs.now) || Capable(inputs)
    ensures Rotate(inputs.now, inputs.entropy, c.jwks) == Ok(None) <==> KeysLast(c, inputs.now)
  {
    RotationIsNeeded(inputs.now, inputs.entropy, c.jwks.value);
    assert c.jwks.value[Latest(c.jwks.value)] in c.jwks.value;
  }

  lemma UpdateFetch(app: App, core: Core, s: seq<Outcome>, instance: Crd, c: Content)
    requires CoreInv(app, core) && |core.secrets| == 1 && core.secrets[0].opaqueType
    requires core.secrets[0].Stored() == Some(c)
    ensures c.clientId in core.api.clients
    ensures var f := FetchState(app, core, From(s, 1), instance);
            && (f.result.Ok? <==> Nth(s, 1).Succeeds? && Nth(s, 2).Succeeds? && Nth(s, 3).Succeeds?)
            && (f.result.Ok? ==> f == Fetch(From(s, 4),
                                            Ok(Snapshot(instance, Some(View(c.clientId, core.api.clients[c.clientId])), core.secrets[0], Some(c)))))
  {
    ScriptUnfolds(s);
    AppNameIsOwn(app);
    assert SecretOk(app, core.api, core.secrets[0]);
  }

  lemma ContentIsSound(app: App, w: World, c: Content)
    requires Inv(app, w) && w.crd.Some? && !Deleting(w) && OneSecret(w) && TheContent(w.core) == Some(c)
    ensures c.jwks.Some? && Usable(c.jwks.value) && c.clientId != "" && c.clientId in w.core.api.clients
    ensures w.crd.value.finalizer
  {
    assert SecretOk(app, w.core.api, w.core.secrets[0]);
    assert Bears(app, w.core.api, c.clientId);
  }

  lemma UpdateLoad(w: World, s: seq<Outcome>)
    requires w.crd.Some? && !Deleting(w) && w.crd.value.finalizer
    ensures LoadInstance(w, s)
         == Load(w, From(s, 1), if Nth(s, 0).Succeeds? then Loaded(UpdateKind, w.crd.value) else LoadFailed)
  {
    ScriptUnfolds(s);
  }

  lemma UpdateDecision(app: App, env: RoundEnv, w: World, c: Content)
    requires Inv(app, w) && w.crd.Some? && !Deleting(w) && OneSecret(w) && TheContent(w.core) == Some(c)
    requires c.jwks.Some? && Usable(c.jwks.value) && w.crd.value.finalizer
    ensures var d := Decide(app, env, w);
            && (d.Decided? <==> Begins(env.script, 4) && (KeysLast(c, env.inputs.now) || Capable(env.inputs)))
            && (d.Decided? ==>
                  && d.script == From(env.script, 4) && d.world == w
                  && d.snapshot.manifest == w.core.secrets[0]
                  && d.snapshot.api.Some? && d.snapshot.api.value.id == c.clientId
                  && PlanUpdate(app, env.inputs, d.snapshot, d.snapshot.api.value, c) == Ok(d.cmds))
  {
    var s := env.script;
    ScriptUnfolds(s);
    UpdateLoad(w, s);
    UpdateFetch(app, w.core, s, w.crd.value, c);
    RotateFailsIff(env.inputs, c);
    var f := FetchState(app, w.core, From(s, 1), w.crd.value);
    if f.result.Ok? {
      PlanUpdateFailsIff(app, env.inputs, f.result.value, f.result.value.api.value, c);
    }
  }

  lemma PlanUpdateFailsIff(app: App, inputs: Inputs, s: Snapshot, api: ApiView, c: Content)
    requires c.jwks.Some? && Usable(c.jwks.value)
    ensures PlanUpdate(app, inputs, s, api, c).Ok? <==> Rotate(inputs.now, inputs.entropy, c.jwks).Ok?
  {
    RotationKeepsUsable(inputs.now, inputs.entropy, c.jwks.value);
  }

  /** A rotation's commands: the secret, the key set, and at most the scopes. */
  ghost predicate RotationList(cmds: seq<Cmd>, id: string, content: Content, public: seq<Jwk>) {
    && 2 <= |cmds| <= 3
    && cmds[0] == UpdateSecret(content) && cmds[1] == UpdateClient(id, None, Some(public))
    && (|cmds| == 3 ==> cmds[2].UpdateClient? && cmds[2].id == id && cmds[2].update.Some? && cmds[2].keys.None?)
  }

  lemma RotationPlan(app: App, inputs: Inputs, s: Snapshot, api: ApiView, c: Content) returns (rotated: seq<Jwk>)
    requires c.jwks.Some? && Usable(c.jwks.value) && RotationDue(inputs, c)
    ensures Rotate(inputs.now, inputs.entropy, c.jwks) == Ok(Some(rotated)) && Usable(rotated) && |rotated| == 2
    ensures rotated[1] == c.jwks.value[Latest(c.jwks.value)] && rotated[1] in c.jwks.value
    ensures inputs.entropy.pair.Some? && rotated[0].pair == inputs.entropy.pair.value
    ensures PlanUpdate(app, inputs, s, api, c).Ok?
    ensures RotationList(PlanUpdate(app, inputs, s, api, c).value, api.id, NewContent(api.id, inputs, rotated), PublicKeys(rotated))
  {
    RotateFailsIff(inputs, c);
    RotationKeepsUsable(inputs.now, inputs.entropy, c.jwks.value);
    rotated := Rotate(inputs.now, inputs.entropy, c.jwks).value.value;
    ToPublicMeaning(rotated);
  }

  lemma ExecuteSecretPart(core: Core, script: seq<Outcome>, newId: string, m: Secret, cmds: seq<Cmd>)
    requires |core.secrets| == 1 && cmds != [] && cmds[0].UpdateSecret? && cmds[0].content.clientId != ""
    ensures var x := Exec(core, script, newId, m, cmds, []);
            var b := core.(secrets := [m.Serialize(cmds[0].content)]);
            if Head(script).Succeeds? then x == Exec(b, Tail(script), newId, m, cmds[1..], [cmds[0]])
            else x.end.CommandFailed? && x.core == if Head(script).Refused? then core else b
  {
    SendOne(core, script, PutSecret(m.Serialize(cmds[0].content)));
    assert [] + [cmds[0]] == [cmds[0]];
  }

  lemma ExecuteKeysPart(
    core: Core, script: seq<Outcome>, newId: string, m: Secret, cmds: seq<Cmd>, executed: seq<Cmd>,
    id: string, public: seq<Jwk>)
    requires cmds != [] && cmds[0] == UpdateClient(id, None, Some(public))
    requires id != "" && id in core.api.clients && AllPublic(public)
    ensures var x := Exec(core, script, newId, m, cmds, executed);
            var b := Effect(core, PostJwks(id, public)).value;
            if Head(script).Succeeds? then x == Exec(b, Tail(script), newId, m, cmds[1..], executed + [cmds[0]])
            else x.end.CommandFailed? && x.core == if Head(script).Refused? then core else b
  {
    SendOne(core, script, PostJwks(id, public));
    assert WritesOf(newId, m, cmds[0]) == [PostJwks(id, public)];
  }

  lemma ExecuteScopesPart(
    core: Core, script: seq<Outcome>, newId: string, m: Secret, cmds: seq<Cmd>, executed: seq<Cmd>, id: string)
    requires |cmds| <= 1 && id != "" && id in core.api.clients
    requires cmds != [] ==> cmds[0].UpdateClient? && cmds[0].id == id && cmds[0].update.Some? && cmds[0].keys.None?
    ensures var x := Exec(core, script, newId, m, cmds, executed);
            x.core.secrets == core.secrets && id in x.core.api.clients
            && x.core.api.clients[id].keys == core.api.clients[id].keys
  {
    if cmds != [] {
      var put := PutClient(id, cmds[0].update.value.name, SentScopes(cmds[0].update.value.scopes));
      SendOne(core, script, put);
      assert WritesOf(newId, m, cmds[0]) == [put];
      assert cmds[1..] == [];
    }
  }

  /** Where the rotation's writes leave secret and key set. */
  lemma RotationExecution(
    core: Core, script: seq<Outcome>, newId: string, m: Secret, cmds: seq<Cmd>, id: string, content: Content,
    public: seq<Jwk>)
    requires core.secrets == [m] && id != "" && id in core.api.clients && AllPublic(public)
    requires RotationList(cmds, id, content, public) && content.clientId == id
    ensures var x := Exec(core, script, newId, m, cmds, []);
            var first, second := Head(script), Head(Tail(script));
            if first.Refused? then x.core == core
            else if first.ResponseLost? || second.Refused? then
              x.end.CommandFailed? && x.core == core.(secrets := [m.Serialize(content)])
            else
              && x.core.secrets == [m.Serialize(content)]
              && id in x.core.api.clients && x.core.api.clients[id].keys == public
  {
    ExecuteSecretPart(core, script, newId, m, cmds);
    var b := core.(secrets := [m.Serialize(content)]);
    if Head(script).Succeeds? {
      ExecuteKeysPart(b, Tail(script), newId, m, cmds[1..], [cmds[0]], id, public);
      if Head(Tail(script)).Succeeds? {
        var c := Effect(b, PostJwks(id, public)).value;
        assert cmds[1..][1..] == cmds[2..];
        ExecuteScopesPart(c, Tail(Tail(script)), newId, m, cmds[2..], [cmds[0]] + [cmds[1]], id);
      }
    }
  }

  // ---- what a round makes of the keys ----

  lemma CarriedOutCore(env: RoundEnv, d: Decision)
    requires d.Decided?
    ensures var x := Exec(d.world.core, d.script, env.newId, d.snapshot.manifest, d.cmds, []);
            CarryOut(env, d).world.core == x.core && (x.end.CommandFailed? ==> CarryOut(env, d).reply == Failed)
  {
  }

  /** A round with a rotation to make, for every fate of its calls. */
  lemma RotatingRound(app: App, env: RoundEnv, w: World) returns (m: Secret, c: Content, rotated: seq<Jwk>)
    requires Inv(app, w) && Rotates(env, w)
    ensures w.core.secrets == [m] && m.Stored() == Some(c) && c.jwks.Some? && Usable(c.jwks.value)
    ensures Rotate(env.inputs.now, env.inputs.entropy, c.jwks) == Ok(Some(rotated)) && |rotated| == 2
    ensures rotated[1] == c.jwks.value[Latest(c.jwks.value)] && rotated[1] in c.jwks.value
    ensures env.inputs.entropy.pair.Some? && rotated[0].pair == env.inputs.entropy.pair.value
    ensures var z := Round(app, env, w);
            var written := [m.Serialize(NewContent(c.clientId, env.inputs, rotated))];
            if CutScript(env.script) then z.world.core == w.core.(secrets := written) && z.reply == Failed
            else if LandingScript(env.script) then
              && z.world.core.secrets == written && c.clientId in z.world.core.api.clients
              && z.world.core.api.clients[c.clientId].keys == PublicKeys(rotated)
            else z.world.core == w.core
  {
    m := w.core.secrets[0];
    c := m.Stored().value;
    ScriptUnfolds(env.script);
    ContentIsSound(app, w, c);
    UpdateDecision(app, env, w, c);
    var d := Decide(app, env, w);
    if d.Decided? {
      rotated := RotationPlan(app, env.inputs, d.snapshot, d.snapshot.api.value, c);
      ToPublicMeaning(rotated);
      RotationExecution(w.core, d.script, env.newId, m, d.cmds, c.clientId,
                        NewContent(c.clientId, env.inputs, rotated), PublicKeys(rotated));
      CarriedOutCore(env, d);
    } else {
      rotated := RotationPlan(app, env.inputs, Snapshot(w.crd.value, None, m, None), ApiView(c.clientId, None, []), c);
    }
  }

  lemma ShrinkKeepsKeys(app: App, a: Core, b: Core)
    requires CoreInv(app, a) && Shrinks(app, a, b)
    ensures Agree(a) ==> Agree(b)
    ensures KeptIsKnown(a) ==> KeptIsKnown(b)
  {
    forall s | s in b.secrets && s.Stored().Some?
      ensures s in a.secrets && Registered(a, s.Stored().value) == Registered(b, s.Stored().value)
    {
      var i :| 0 <= i < |b.secrets| && b.secrets[i] == s;
      SecretRoundTrip(a.secrets[i], Content("", "", None, None));
      assert SecretOk(app, b.api, s);
    }
  }

  /** A round with content and no rotation to make leaves the keys in the secret as they are. */
  lemma UnrotatedKeys(app: App, env: RoundEnv, w: World)
    requires Inv(app, w) && !Deleting(w) && !Rotates(env, w) && TheContent(w.core).Some?
    ensures var z := Round(app, env, w).world.core;
            TheContent(z).Some? && PrivateKeys(TheContent(z).value) == PrivateKeys(TheContent(w.core).value)
  {
    var m := w.core.secrets[0];
    var c := m.Stored().value;
    assert SecretOk(app, w.core.api, m);
    RotateFailsIff(env.inputs, c);
    var id, keys := RoundWritesOneContent(app, env, w);
    SecretRoundTrip(m, NewContent(id, env.inputs, keys));
    if w.crd.Some? && !OneSecret(w) { WithoutSecret(app, env, w); }
  }

  /** A round that is no cut rotation costs no agreement: whoever agreed agrees, and a kept key that was
      known stays so. */
  lemma UncutRound(app: App, env: RoundEnv, w: World)
    requires Inv(app, w) && !CutShort(env, w)
    ensures var z := Round(app, env, w).world.core;
            && (Agree(w.core) ==> Agree(z))
            && (KeptIsKnown(w.core) ==> KeptIsKnown(z) || Agree(z))
            && (Landed(env, w) || NoContent(w.core) ==> Agree(z))
  {
    var z := Round(app, env, w).world.core;
    if Deleting(w) {
      RoundChange(app, env, w);
      ShrinkKeepsKeys(app, w.core, z);
    } else if Rotates(env, w) {
      var m, c, rotated := RotatingRound(app, env, w);
      SecretRoundTrip(m, NewContent(c.clientId, env.inputs, rotated));
      if Landed(env, w) { OneSecretAgrees(z); }
    } else {
      RoundKeyStep(app, env, w);
      if z != w.core {
        OneSecretAgrees(w.core);
        OneSecretAgrees(z);
        if TheContent(w.core).Some? {
          UnrotatedKeys(app, env, w);
          assert w.core.secrets[0] in w.core.secrets;
        }
      }
    }
  }

  /** A cut rotation leaves the key it kept known, if there was agreement. */
  lemma CutLeavesKeptKey(app: App, env: RoundEnv, w: World)
    requires Inv(app, w) && CutShort(env, w) && Agree(w.core)
    ensures KeptIsKnown(Round(app, env, w).world.core)
  {
    var m, c, rotated := RotatingRound(app, env, w);
    var z := Round(app, env, w).world.core;
    SecretRoundTrip(m, NewContent(c.clientId, env.inputs, rotated));
    OneSecretAgrees(w.core);
    OneSecretAgrees(z);
    PublicHalves(c.jwks.value);
  }

  // ---- over runs ----

  ghost predicate NoContent(core: Core) { forall s :: s in core.secrets ==> s.Stored().None? }

  /** The number of rotations cut since the keys were last renewed on both sides, told by the state before
      each round and the fate of its calls. */
  ghost function CutsInARow(app: App, w: World, events: seq<Event>): nat {
    if events == [] then 0
    else
      var most := events[..|events| - 1];
      var front := Run(app, w, most);
      match events[|events| - 1]
      case Change(_) => CutsInARow(app, w, most)
      case Reconcile(env) =>
        if CutShort(env, front) then CutsInARow(app, w, most) + 1
        else if Landed(env, front) || NoContent(front.core) then 0
        else CutsInARow(app, w, most)
  }

  /** Over every run: while no rotation has been cut since keys were last renewed, secret and API agree
      key for key; after one cut the API still knows the kept key; so until two rotations in a row have
      been cut, every content has a key the app can authenticate with. */
  lemma {:induction false} KeysStayInContact(app: App, w: World, events: seq<Event>)
    requires Initial(app, w)
    ensures var z := Run(app, w, events).core;
            && (CutsInARow(app, w, events) == 0 ==> Agree(z))
            && (CutsInARow(app, w, events) == 1 ==> Agree(z) || KeptIsKnown(z))
            && (CutsInARow(app, w, events) <= 1 ==> InContact(z))
  {
    EveryRunIsSafe(app, w, events);
    AgreementIsContact(app, Run(app, w, events).core);
    if events == [] {
      assert forall s :: s in w.core.secrets ==> !s.HasSettings();
    } else {
      var front := Run(app, w, events[..|events| - 1]);
      KeysStayInContact(app, w, events[..|events| - 1]);
      EveryRunIsSafe(app, w, events[..|events| - 1]);
      match events[|events| - 1]
      case Reconcile(env) =>
        if CutShort(env, front) {
          if Agree(front.core) { CutLeavesKeptKey(app, env, front); }
        } else {
          UncutRound(app, env, front);
        }
      case Change(to) => if UserStep(app, front, to) { UserKeepsKeys(app, front, to); }
    }
  }

  // ---- what a cut costs ----

  /** None of the given keys is of the pair. */
  ghost predicate Unknown(pair: nat, keys: seq<Jwk>) { forall k :: k in keys ==> k.pair != pair }

  /** Should the round create a pair, the API has never been told about it. */
  ghost predicate NewPair(env: RoundEnv, core: Core) {
    env.inputs.entropy.pair.Some? && TheContent(core).Some? ==>
      Unknown(env.inputs.entropy.pair.value, Registered(core, TheContent(core).value))
  }

  /** The app signs with a key that the API does not know. */
  ghost predicate Silenced(core: Core) {
    && TheContent(core).Some? && TheContent(core).value.jwk.Some?
    && Public(TheContent(core).value.jwk.value) !in Registered(core, TheContent(core).value)
  }

  lemma AgreementIsNoSilence(app: App, core: Core)
    requires CoreInv(app, core) && Agree(core)
    ensures !Silenced(core)
  {
    if TheContent(core).Some? {
      OneSecretAgrees(core);
      assert SecretOk(app, core.api, core.secrets[0]);
      PublicHalves(PrivateKeys(TheContent(core).value));
    }
  }

  /** Exactly which rounds silence the signing key, of all rounds under all fates of their calls: those
      that have a rotation to make, succeed in their four reads and write the secret, but not the key
      set. */
  lemma SilencedIffCutShort(app: App, env: RoundEnv, w: World)
    requires Inv(app, w) && Agree(w.core) && NewPair(env, w.core)
    ensures Silenced(Round(app, env, w).world.core) <==> CutShort(env, w)
  {
    var z := Round(app, env, w).world.core;
    RoundKeepsInv(app, env, w);
    if CutShort(env, w) {
      var m, c, rotated := RotatingRound(app, env, w);
      SecretRoundTrip(m, NewContent(c.clientId, env.inputs, rotated));
      assert Public(rotated[0]).pair == env.inputs.entropy.pair.value;
    } else {
      UncutRound(app, env, w);
      AgreementIsNoSilence(app, z);
    }
  }

  /** After one cut the app signs with a key the API does not know, although the kept key would still do.
      Rounds without faults then see everything in place until the new key comes up for rotation, and
      change nothing. */
  lemma OneCutSilencesTheSigningKey(app: App, env: RoundEnv, w: World)
    requires Inv(app, w) && Agree(w.core) && NewPair(env, w.core) && CutShort(env, w)
    ensures var z := Round(app, env, w).world;
            && InContact(z.core) && Silenced(z.core)
            && forall later :: Smooth(later, z) && InPlace(app, later.inputs, z) ==>
                                 Round(app, later, z).world.core == z.core && Round(app, later, z).reply == Quiet
  {
    var z := Round(app, env, w).world;
    RoundKeepsInv(app, env, w);
    RoundCrd(app, env, w);
    SilencedIffCutShort(app, env, w);
    CutLeavesKeptKey(app, env, w);
    AgreementIsContact(app, z.core);
    forall later | Smooth(later, z) && InPlace(app, later.inputs, z)
      ensures Round(app, later, z).world.core == z.core && Round(app, later, z).reply == Quiet
    {
      QuietIffInPlace(app, later, z);
    }
  }

  /** Two rotations cut in a row, whatever came before. */
  lemma TwoCuts(app: App, first: RoundEnv, second: RoundEnv, w: World)
    requires Inv(app, w) && NewPair(first, w.core) && NewPair(second, w.core) && first.inputs.now.Prompt()
    requires CutShort(first, w) && CutShort(second, Round(app, first, w).world)
    ensures !InContact(Round(app, second, Round(app, first, w).world).world.core)
  {
    var y := Round(app, first, w).world;
    var m, c, rotated := RotatingRound(app, first, w);
    RoundKeepsInv(app, first, w);
    SecretRoundTrip(m, NewContent(c.clientId, first.inputs, rotated));
    RotationDescends(first.inputs.now, first.inputs.entropy, c.jwks.value);
    var m', c', again := RotatingRound(app, second, y);
    NoHalfIsKnown(app, second, y, m', c', again, first.inputs.entropy.pair.value);
  }

  lemma NoHalfIsKnown(
    app: App, env: RoundEnv, y: World, m: Secret, c: Content, again: seq<Jwk>, pair: nat)
    requires y.core.secrets == [m] && m.Stored() == Some(c) && c.jwks.Some? && |again| == 2
    requires Round(app, env, y).world.core == y.core.(secrets := [m.Serialize(NewContent(c.clientId, env.inputs, again))])
    requires again[1].pair == pair && Unknown(pair, Registered(y.core, c)) && Unknown(again[0].pair, Registered(y.core, c))
    ensures !InContact(Round(app, env, y).world.core)
  {
    var z := Round(app, env, y).world.core;
    SecretRoundTrip(m, NewContent(c.clientId, env.inputs, again));
    assert z.secrets[0] in z.secrets;
    assert Registered(z, z.secrets[0].Stored().value) == Registered(y.core, c);
  }

  /** The bound of `KeysStayInContact` is sharp. From agreement, two rounds under any fates of their calls
      leave the app without any key the API knows exactly when each of them is a rotation cut short. */
  lemma TwoCutsLoseContact(app: App, first: RoundEnv, second: RoundEnv, w: World)
    requires Inv(app, w) && Agree(w.core) && NewPair(first, w.core) && NewPair(second, w.core)
    requires first.inputs.now.Prompt()
    ensures var y := Round(app, first, w).world;
            !InContact(Round(app, second, y).world.core) <==> CutShort(first, w) && CutShort(second, y)
  {
    var y := Round(app, first, w).world;
    var z := Round(app, second, y).world;
    RoundKeepsInv(app, first, w);
    RoundKeepsInv(app, second, y);
    AgreementIsContact(app, z.core);
    if CutShort(first, w) {
      CutLeavesKeptKey(app, first, w);
      if CutShort(second, y) { TwoCuts(app, first, second, w); } else { UncutRound(app, second, y); }
    } else {
      UncutRound(app, first, w);
      if CutShort(second, y) { CutLeavesKeptKey(app, second, y); } else { UncutRound(app, second, y); }
    }
  }
}
