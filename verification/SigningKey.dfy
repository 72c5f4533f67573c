/** The key the app signs with: over every run it is the one in the secret that expires last. */
module SigningKey {
  import opened Wrappers
  import opened Keys
  import opened Rotation
  import opened World
  import opened ClientState
  import opened Controller
  import opened Invariant
  import opened KeyContinuity
  import opened SecretWrites
  import opened Expiry

  ghost predicate SignsWithTheLatest(c: Content) {
    && c.jwks.Some? && Usable(c.jwks.value) && Descending(c.jwks.value)
    && c.jwk == Some(c.jwks.value[Latest(c.jwks.value)])
  }

  ghost predicate InOrder(core: Core) {
    forall s :: s in core.secrets && s.Stored().Some? ==> SignsWithTheLatest(s.Stored().value)
  }

  lemma SourcedInOrder(inputs: Inputs, before: Option<Content>, id: string, keys: seq<Jwk>)
    requires inputs.now.Prompt() && keys != [] && Sourced(inputs, before, keys)
    requires before.Some? ==> SignsWithTheLatest(before.value)
    ensures SignsWithTheLatest(NewContent(id, inputs, keys))
  {
    CreatedKeysAreUsable(inputs.now, inputs.entropy);
    if before.Some? && before.value.jwks != Some(keys) {
      RotationDescends(inputs.now, inputs.entropy, before.value.jwks.value);
    }
    LatestOfDescending(keys);
  }

  lemma RoundKeepsOrder(app: App, env: RoundEnv, w: World)
    requires Inv(app, w) && InOrder(w.core) && env.inputs.now.Prompt()
    ensures InOrder(Round(app, env, w).world.core)
  {
    var z := Round(app, env, w).world.core;
    if Deleting(w) {
      RoundChange(app, env, w);
      forall s | s in z.secrets && s.Stored().Some? ensures SignsWithTheLatest(s.Stored().value) {
        var i :| 0 <= i < |z.secrets| && z.secrets[i] == s;
        SecretRoundTrip(w.core.secrets[i], Content("", "", None, None));
        assert w.core.secrets[i] in w.core.secrets;
      }
    } else {
      var id, keys := RoundWritesOneContent(app, env, w);
      if z.secrets != w.core.secrets {
        SecretRoundTrip(w.core.secrets[0], NewContent(id, env.inputs, keys));
        assert w.core.secrets[0] in w.core.secrets;
        SourcedInOrder(env.inputs, TheContent(w.core), id, keys);
      }
    }
  }

  ghost predicate AllPrompt(events: seq<Event>) { forall e :: e in events && e.Reconcile? ==> e.env.inputs.now.Prompt() }

  /** Over every run whose rounds read the clock promptly, every content in a secret names as its signing
      key the one that expires last, in a set that is usable and strictly descending: through creation,
      recovery, rotations cut anywhere and deletion. */
  lemma {:induction false} SecretsSignWithTheLatest(app: App, w: World, events: seq<Event>)
    requires Initial(app, w) && AllPrompt(events)
    ensures InOrder(Run(app, w, events).core)
  {
    EveryRunIsSafe(app, w, events);
    if events == [] {
      assert forall s :: s in w.core.secrets ==> !s.HasSettings();
    } else {
      var most, last := events[..|events| - 1], events[|events| - 1];
      var front := Run(app, w, most);
      SecretsSignWithTheLatest(app, w, most);
      EveryRunIsSafe(app, w, most);
      assert last in events;
      match last
      case Reconcile(env) => RoundKeepsOrder(app, env, front);
      case Change(to) => if UserStep(app, front, to) { UserKeepsOrder(app, front, to); }
    }
  }

  lemma UserKeepsOrder(app: App, a: World, b: World)
    requires Inv(app, a) && UserStep(app, a, b) && InOrder(a.core)
    ensures InOrder(b.core)
  {
    forall s | s in b.core.secrets && s.Stored().Some? ensures SignsWithTheLatest(s.Stored().value) {
      var t :| t in a.core.secrets && t.HasSettings() && t.data.value[SETTINGS_FILE] == s.data.value[SETTINGS_FILE];
      assert t.Stored() == s.Stored();
    }
  }

  /** So it is the signing key itself that does not expire: from one successful round of any run until
      seven days after it, whatever fails or is cut in between. */
  lemma SigningKeyNeverLapses(app: App, w: World, past: seq<Event>, env: RoundEnv, events: seq<Event>, instant: int)
    requires Initial(app, w) && AllPrompt(past) && env.inputs.now.Prompt() && AllPrompt(events)
    requires var v := Run(app, w, past);
             && v.crd.Some? && !Deleting(v) && Succeeded(Round(app, env, v)) && Calm(app, Round(app, env, v).world, events)
    requires instant <= env.inputs.now.threshold + 7 * 24 * 3600 * 1_000_000_000
    ensures var c := TheContent(Run(app, Round(app, env, Run(app, w, past)).world, events).core);
            && c.Some? && c.value.jwk.Some? && |c.value.jwk.value.certificates| == 1
            && NotAfter(c.value.jwk.value) > instant
  {
    var v := Run(app, w, past);
    EveryRunIsSafe(app, w, past);
    KeysNeverLapse(app, env, v, events, instant);
    var whole := (past + [Reconcile(env)]) + events;
    RunConcat(app, w, past + [Reconcile(env)], events);
    assert (past + [Reconcile(env)])[..|past|] == past;
    SecretsSignWithTheLatest(app, w, whole);
    var z := Run(app, w, whole).core;
    assert z.secrets[0] in z.secrets;
    LatestOutlives(TheContent(z).value, instant);
  }

  lemma LatestOutlives(c: Content, t: int)
    requires SignsWithTheLatest(c) && exists k :: k in PrivateKeys(c) && |k.certificates| == 1 && NotAfter(k) > t
    ensures c.jwk.Some? && |c.jwk.value.certificates| == 1 && NotAfter(c.jwk.value) > t
  {
    var keys := c.jwks.value;
    var k :| k in keys && |k.certificates| == 1 && NotAfter(k) > t;
    var i :| 0 <= i < |keys| && keys[i] == k;
    assert NotAfter(keys[i]) <= NotAfter(keys[Latest(keys)]);
    assert keys[Latest(keys)] in keys;
  }

  /** With successful rounds at most seven days apart it does not expire at any instant from the first of
      them on. */
  lemma SigningKeyValidThroughout(
    app: App, w: World, past: seq<Event>, events: seq<Event>, times: seq<int>, k: nat, instant: int)
    requires Initial(app, w) && AllPrompt(past) && AllPrompt(events)
    requires Calm(app, Run(app, w, past), events) && |events| < |times|
    requires Attended(app, Run(app, w, past), events, times)
    requires k <= |events| && LastSuccess(app, Run(app, w, past), events[..k], times).Some? && instant <= times[k]
    ensures var c := TheContent(Run(app, Run(app, w, past), events[..k]).core);
            && c.Some? && c.value.jwk.Some? && |c.value.jwk.value.certificates| == 1
            && NotAfter(c.value.jwk.value) > instant
  {
    var v := Run(app, w, past);
    EveryRunIsSafe(app, w, past);
    KeysValidThroughout(app, v, events, times);
    RunConcat(app, w, past, events[..k]);
    SecretsSignWithTheLatest(app, w, past + events[..k]);
    var z := Run(app, v, events[..k]).core;
    assert ValidAt(z, instant);
    assert z.secrets[0] in z.secrets;
    LatestOutlives(TheContent(z).value, instant);
  }
}
