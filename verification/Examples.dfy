/** Concrete runs and inputs on which the properties that do not hold unconditionally fail. */
module Examples {
  import opened Wrappers
  import opened Keys
  import opened Rotation
  import opened World
  import opened ClientState
  import opened Controller
  import opened Invariant
  import opened SmoothRounds
  import opened Convergence
  import opened Deletion
  import opened KeyContinuity
  import opened RotationCuts
  import opened Expiry
  import DB = FakeDb
  import CA = CachedAtom
  import TX = Text

  const APP := App("ttd", "tt02", "app")

  const EMPTY := World(None, Core(Api(map[], []), []))

  /** A new resource and the app's secret, still without content. */
  const REQUESTED :=
    World(Some(Crd(Some(["altinn:resource"]), false, false, NO_STATUS)), Core(Api(map[], []), [Secret(true, None)]))

  function InputsAt(t: int, pair: nat): Inputs {
    Inputs("https://maskinporten.no", Readings(t, t, t), Entropy(Some(pair), Some("uuid")))
  }

  function EnvAt(t: int, pair: nat, script: seq<Outcome>): RoundEnv {
    RoundEnv(InputsAt(t, pair), "client", 8 * HOUR, 0, script)
  }

  lemma RunMore(app: App, w: World, events: seq<Event>, e: Event)
    ensures Run(app, w, events + [e]) == After(app, Run(app, w, events), e)
  {
    assert (events + [e])[..|events|] == events;
  }

  lemma FirstChange(to: World)
    requires UserStep(APP, EMPTY, to)
    ensures Run(APP, EMPTY, [Change(to)]) == to
  {
    RunMore(APP, EMPTY, [], Change(to));
    assert [] + [Change(to)] == [Change(to)];
  }

  const CREATED := [Change(REQUESTED)] + [Reconcile(EnvAt(0, 0, []))]

  lemma Requested()
    ensures Initial(APP, EMPTY) && Inv(APP, REQUESTED)
    ensures Run(APP, EMPTY, CREATED) == Round(APP, EnvAt(0, 0, []), REQUESTED).world
  {
    assert UserStep(APP, EMPTY, REQUESTED);
    UserKeepsInv(APP, EMPTY, REQUESTED);
    FirstChange(REQUESTED);
    RunMore(APP, EMPTY, [Change(REQUESTED)], Reconcile(EnvAt(0, 0, [])));
  }

  lemma FirstRound() returns (w: World, key: Jwk)
    requires Inv(APP, REQUESTED)
    ensures w == Round(APP, EnvAt(0, 0, []), REQUESTED).world
    ensures w.core.api.clients == map["client" := Client(Some(APP.ClientName()), ["altinn:resource"], [Public(key)])]
    ensures w.core.secrets == [Secret(true, None).Serialize(NewContent("client", InputsAt(0, 0), [key]))]
    ensures key.pair == 0 && key.isPrivate && |key.certificates| == 1 && NotAfter(key) <= 30 * 24 * 3600 * 1_000_000_000
  {
    var env := EnvAt(0, 0, []);
    w := Round(APP, env, REQUESTED).world;
    SmoothWithSecret(APP, env, REQUESTED);
    CreationResult(APP, env.inputs, "client", Decide(APP, env, REQUESTED).snapshot, REQUESTED.core);
    NewKeysArePublic(env.inputs);
    CreatedKeysAreUsable(env.inputs.now, env.inputs.entropy);
    var keys := NewKeys(env.inputs).value.0;
    key := keys[0];
    assert keys == [key] && key in keys;
    assert PublicKeys(keys) == [Public(key)];
  }

  /** The first round creates everything: a client with one registered key, and its private half in the
      secret. */
  lemma Created() returns (w: World, key: Jwk)
    ensures w == Run(APP, EMPTY, CREATED) && Initial(APP, EMPTY) && Inv(APP, w)
    ensures w.crd.Some? && !Deleting(w) && w.crd.value.finalizer && OneSecret(w)
    ensures TheContent(w.core) == Some(NewContent("client", InputsAt(0, 0), [key]))
    ensures Registered(w.core, TheContent(w.core).value) == [Public(key)]
    ensures key.pair == 0 && key.isPrivate && |key.certificates| == 1 && NotAfter(key) <= 30 * 24 * 3600 * 1_000_000_000
  {
    Requested();
    w, key := FirstRound();
    RoundKeepsInv(APP, EnvAt(0, 0, []), REQUESTED);
    RoundCrd(APP, EnvAt(0, 0, []), REQUESTED);
    SecretRoundTrip(Secret(true, None), NewContent("client", InputsAt(0, 0), [key]));
  }

  /** The four reads succeed, and so does the write of the secret; the key set is refused. */
  const KEYS_REFUSED := [Succeeds, Succeeds, Succeeds, Succeeds, Succeeds, Refused]

  /** The same with the response to the secret's write lost. */
  const SECRET_UNANSWERED := [Succeeds, Succeeds, Succeeds, Succeeds, ResponseLost]

  lemma BothCut()
    ensures CutScript(KEYS_REFUSED) && CutScript(SECRET_UNANSWERED)
  {
    ScriptUnfolds(KEYS_REFUSED);
    ScriptUnfolds(SECRET_UNANSWERED);
  }

  lemma CreatedAgrees() returns (w: World, key: Jwk)
    ensures w == Run(APP, EMPTY, CREATED) && Initial(APP, EMPTY) && Inv(APP, w)
    ensures w.crd.Some? && !Deleting(w) && OneSecret(w) && Agree(w.core)
    ensures TheContent(w.core) == Some(NewContent("client", InputsAt(0, 0), [key]))
    ensures Registered(w.core, TheContent(w.core).value) == [Public(key)] && key.pair == 0
    ensures |key.certificates| == 1 && NotAfter(key) <= 30 * 24 * 3600 * 1_000_000_000
  {
    w, key := Created();
    OneSecretAgrees(w.core);
    assert PublicKeys([key]) == [Public(key)];
  }

  lemma FirstIsDue(w: World, key: Jwk, env: RoundEnv)
    requires w.crd.Some? && !Deleting(w) && OneSecret(w) && env == EnvAt(40 * DAY, 1, KEYS_REFUSED)
    requires TheContent(w.core) == Some(NewContent("client", InputsAt(0, 0), [key]))
    requires Registered(w.core, TheContent(w.core).value) == [Public(key)] && key.pair == 0
    requires |key.certificates| == 1 && NotAfter(key) <= 30 * 24 * 3600 * 1_000_000_000
    ensures CutShort(env, w) && NewPair(env, w.core)
  {
    BothCut();
  }

  lemma TwoDueRotations(w: World, key: Jwk, first: RoundEnv, second: RoundEnv)
    requires Inv(APP, w) && Agree(w.core) && w.crd.Some? && !Deleting(w) && OneSecret(w)
    requires first == EnvAt(40 * DAY, 1, KEYS_REFUSED) && second == EnvAt(70 * DAY, 2, SECRET_UNANSWERED)
    requires TheContent(w.core) == Some(NewContent("client", InputsAt(0, 0), [key]))
    requires Registered(w.core, TheContent(w.core).value) == [Public(key)] && key.pair == 0
    requires |key.certificates| == 1 && NotAfter(key) <= 30 * 24 * 3600 * 1_000_000_000
    ensures !InContact(Round(APP, second, Round(APP, first, w).world).world.core)
  {
    BothCut();
    FirstIsDue(w, key, first);
    SecondIsDue(first, second, w);
    TwoCutsLoseContact(APP, first, second, w);
  }

  /** Two rotations cut in a row, from the empty world: no key of the secret is registered any more. */
  lemma ContactIsLost()
    ensures var first, second := EnvAt(40 * DAY, 1, KEYS_REFUSED), EnvAt(70 * DAY, 2, SECRET_UNANSWERED);
            var events := CREATED + [Reconcile(first)] + [Reconcile(second)];
            Initial(APP, EMPTY) && !InContact(Run(APP, EMPTY, events).core)
  {
    var first, second := EnvAt(40 * DAY, 1, KEYS_REFUSED), EnvAt(70 * DAY, 2, SECRET_UNANSWERED);
    var w, key := CreatedAgrees();
    TwoDueRotations(w, key, first, second);
    RunMore(APP, EMPTY, CREATED, Reconcile(first));
    RunMore(APP, EMPTY, CREATED + [Reconcile(first)], Reconcile(second));
  }

  lemma SecondIsDue(first: RoundEnv, second: RoundEnv, w: World)
    requires first == EnvAt(40 * DAY, 1, KEYS_REFUSED) && second == EnvAt(70 * DAY, 2, SECRET_UNANSWERED)
    requires Inv(APP, w) && CutShort(first, w)
    ensures Rotates(second, Round(APP, first, w).world)
  {
    var m, c, rotated := RotatingRound(APP, first, w);
    RoundCrd(APP, first, w);
    SecretRoundTrip(m, NewContent(c.clientId, first.inputs, rotated));
    var i := RotationChoice(first.inputs.now, first.inputs.entropy, c.jwks.value);
    assert rotated == [rotated[0], rotated[1]];
  }

  /** After the first of those two the signing key is unknown to the API. */
  lemma SigningKeyIsSilenced()
    ensures Silenced(Run(APP, EMPTY, CREATED + [Reconcile(EnvAt(40 * DAY, 1, KEYS_REFUSED))]).core)
  {
    var env := EnvAt(40 * DAY, 1, KEYS_REFUSED);
    var w, key := CreatedAgrees();
    FirstIsDue(w, key, env);
    RunMore(APP, EMPTY, CREATED, Reconcile(env));
    SilencedIffCutShort(APP, env, w);
  }

  /** From creation to a deletion that no run can end: content and client are deleted, and the write of the
      finalizer is refused. */
  lemma DeletionNeverEnds(more: seq<Event>)
    ensures var w := Run(APP, EMPTY, CREATED);
            var env := EnvAt(DAY, 1, REFUSED_AT_THE_END);
            && w.crd.Some?
            && var asked := w.(crd := Some(w.crd.value.(deleting := true)));
            var events := CREATED + [Change(asked)] + [Reconcile(env)];
            Stranded(APP, Run(APP, Run(APP, EMPTY, events), more))
  {
    var env := EnvAt(DAY, 1, REFUSED_AT_THE_END);
    var w, key := Created();
    var asked := w.(crd := Some(w.crd.value.(deleting := true)));
    assert UserStep(APP, w, asked);
    UserKeepsInv(APP, w, asked);
    RunMore(APP, EMPTY, CREATED, Change(asked));
    RunMore(APP, EMPTY, CREATED + [Change(asked)], Reconcile(env));
    RefusalAtTheEndStrands(APP, env, asked);
    StrandedForever(APP, Round(APP, env, asked).world, more);
  }

  const UNMADE := REQUESTED.(core := EMPTY.core)

  lemma SeenWithoutSecret() returns (seen: World)
    ensures seen == Run(APP, EMPTY, [Change(UNMADE)] + [Reconcile(EnvAt(0, 0, []))]) && Inv(APP, seen)
    ensures seen.crd.Some? && !Deleting(seen) && seen.crd.value.finalizer && seen.core == EMPTY.core
  {
    var env := EnvAt(0, 0, []);
    assert UserStep(APP, EMPTY, UNMADE);
    UserKeepsInv(APP, EMPTY, UNMADE);
    FirstChange(UNMADE);
    RunMore(APP, EMPTY, [Change(UNMADE)], Reconcile(env));
    seen := Round(APP, env, UNMADE).world;
    WithoutSecret(APP, env, UNMADE);
    RoundKeepsInv(APP, env, UNMADE);
  }

  /** The resource is seen before the secret is there, and then asked to go: no fault, nothing to delete,
      and no run that ends it. */
  lemma DeletionOfNothingNeverEnds(more: seq<Event>)
    ensures var first := [Change(UNMADE)] + [Reconcile(EnvAt(0, 0, []))];
            var seen := Run(APP, EMPTY, first);
            && seen.crd.Some?
            && var asked := seen.(crd := Some(seen.crd.value.(deleting := true)));
            Stranded(APP, Run(APP, Run(APP, EMPTY, first + [Change(asked)]), more))
  {
    var seen := SeenWithoutSecret();
    var asked := seen.(crd := Some(seen.crd.value.(deleting := true)));
    assert UserStep(APP, seen, asked);
    RunMore(APP, EMPTY, [Change(UNMADE)] + [Reconcile(EnvAt(0, 0, []))], Change(asked));
    RequestStrandsIff(APP, seen, asked);
    StrandedForever(APP, asked, more);
  }

  /** An uninstall that takes the secret along with the request to delete: whatever rounds follow, the
      client stays registered and the resource stays. */
  lemma UninstallLeavesTheClient(more: seq<Event>)
    requires forall e :: e in more ==> e.Reconcile?
    ensures var w := Run(APP, EMPTY, CREATED);
            && w.crd.Some?
            && var asked := World(Some(w.crd.value.(deleting := true)), w.core.(secrets := []));
            var z := Run(APP, Run(APP, EMPTY, CREATED + [Change(asked)]), more);
            Deleting(z) && Bears(APP, z.core.api, "client")
  {
    var w, key := Created();
    var asked := World(Some(w.crd.value.(deleting := true)), w.core.(secrets := []));
    assert SecretOk(APP, w.core.api, w.core.secrets[0]);
    assert UserStep(APP, w, asked);
    RunMore(APP, EMPTY, CREATED, Change(asked));
    DeletionNeedsTheSecret(APP, asked, more);
  }

  /** The round after creation, three days later, is the last the operator asks for. */
  lemma ScheduleStops()
    ensures var w := Run(APP, EMPTY, CREATED);
            && Round(APP, EnvAt(0, 0, []), REQUESTED).reply.Requeue?
            && Round(APP, EnvAt(3 * DAY, 1, []).(newId := "other"), w).reply == Quiet
  {
    var first, second := EnvAt(0, 0, []), EnvAt(3 * DAY, 1, []).(newId := "other");
    Requested();
    var w, key := FirstRound();
    OwnScheduleStopsBeforeRotation(APP, first, second, REQUESTED);
  }

  /** Of two records the first is deleted; the index then points the second past the end. */
  lemma IndexBreaks()
    ensures var a, b := DB.Record("a", "one", None, None), DB.Record("b", "two", None, None);
            var s := DB.Store([a, b], map["a" := 0, "b" := 1]);
            && DB.Indexed(s) && !DB.Indexed(DB.Removed(s, "a"))
            && DB.Lookup(DB.Removed(s, "a"), "b") == Err(DB.OutOfRange)
  {
    var a, b := DB.Record("a", "one", None, None), DB.Record("b", "two", None, None);
    var s := DB.Store([a, b], map["a" := 0, "b" := 1]);
    assert "a" != "b";
    DB.DeleteKeepsIndexedIffLast(s, "a");
    DB.DeleteStrandsTheLast(s, "a");
  }

  /** A resource that has its finalizer and is then asked for a list of no scopes: two rounds without
      faults, of whatever prompt inputs, leave it unsettled. */
  lemma EmptyScopesNeverSettle(first: RoundEnv, second: RoundEnv)
    requires var w := Run(APP, EMPTY, CREATED);
             w.crd.Some? ==>
               var edited := w.(crd := Some(w.crd.value.(scopes := Some([]))));
               && Smooth(first, edited) && first.inputs.now.Prompt()
               && Smooth(second, Round(APP, first, edited).world) && second.inputs.now.Prompt()
    ensures var w := Run(APP, EMPTY, CREATED);
            && w.crd.Some?
            && var edited := w.(crd := Some(w.crd.value.(scopes := Some([]))));
            && Run(APP, EMPTY, CREATED + [Change(edited)]) == edited
            && !InPlace(APP, second.inputs, Round(APP, second, Round(APP, first, edited).world).world)
  {
    var w, key := Created();
    var edited := w.(crd := Some(w.crd.value.(scopes := Some([]))));
    assert UserStep(APP, w, edited);
    UserKeepsInv(APP, w, edited);
    RunMore(APP, EMPTY, CREATED, Change(edited));
    TwoRoundsSettle(APP, first, second, edited);
  }

  /** On a resource that is still without finalizer the same list does settle. */
  lemma EmptyScopesOfANewResourceSettle(second: RoundEnv)
    requires var w := REQUESTED.(crd := Some(Crd(Some([]), false, false, NO_STATUS)));
             Smooth(second, Round(APP, EnvAt(0, 0, []), w).world) && second.inputs.now.Prompt()
    ensures var w := REQUESTED.(crd := Some(Crd(Some([]), false, false, NO_STATUS)));
            InPlace(APP, second.inputs, Round(APP, second, Round(APP, EnvAt(0, 0, []), w).world).world)
  {
    var w := REQUESTED.(crd := Some(Crd(Some([]), false, false, NO_STATUS)));
    assert UserStep(APP, EMPTY, w);
    UserKeepsInv(APP, EMPTY, w);
    TwoRoundsSettle(APP, EnvAt(0, 0, []), second, w);
  }

  /** A cache of one minute on a clock at Go's zero time: the first call retrieves nothing and returns
      nothing. */
  lemma CacheReturnsNothing()
    ensures var s: CA.State<int> := CA.State(0, None, CA.UNSET, map[], [], []);
            var actions := [CA.RLock(0), CA.CheckShared(0)] + [CA.Lock(0), CA.CheckExclusive(0)];
            CA.Initial(s) && CA.Run(60 * SECOND, s, actions).answers == [CA.Return(0, None, 0)]
  {
    var s: CA.State<int> := CA.State(0, None, CA.UNSET, map[], [], []);
    CA.SharedHalf(60 * SECOND, s, 0);
    CA.RunConcat(60 * SECOND, s, [CA.RLock(0), CA.CheckShared(0)], [CA.Lock(0), CA.CheckExclusive(0)]);
    var half := CA.Run(60 * SECOND, s, [CA.RLock(0), CA.CheckShared(0)]);
    CA.TwoSteps(60 * SECOND, half, CA.Lock(0), CA.CheckExclusive(0));
  }

  /** Two callers find the cache empty and wait for the write lock together; the one that comes second does
      not retrieve again, but gives back what the first has retrieved. */
  lemma SecondWaiterFindsItDone(now: int, value: int)
    requires 60 * SECOND < now < TX.MAX_INT64
    ensures var s: CA.State<int> := CA.State(now, None, CA.UNSET, map[], [], []);
            var actions := [CA.RLock(0), CA.RLock(1), CA.CheckShared(0), CA.CheckShared(1)]
                           + [CA.Lock(0), CA.CheckExclusive(0), CA.Retrieved(0, value)]
                           + [CA.Lock(1), CA.CheckExclusive(1)];
            var z := CA.Run(60 * SECOND, s, actions);
            && z.fetches == [CA.Fetch(now, value)]
            && z.answers == [CA.Return(now, Some(value), 1), CA.Return(now, Some(value), 1)]
  {
    var s: CA.State<int> := CA.State(now, None, CA.UNSET, map[], [], []);
    var a, b, c := [CA.RLock(0), CA.RLock(1), CA.CheckShared(0), CA.CheckShared(1)],
                   [CA.Lock(0), CA.CheckExclusive(0), CA.Retrieved(0, value)], [CA.Lock(1), CA.CheckExclusive(1)];
    CA.RunConcat(60 * SECOND, s, a + b, c);
    CA.RunConcat(60 * SECOND, s, a, b);
    var x := BothWait(now);
    var y := FirstRetrieves(x, now, value);
    CA.TwoSteps(60 * SECOND, y, CA.Lock(1), CA.CheckExclusive(1));
  }

  lemma BothWait(now: int) returns (x: CA.State<int>)
    requires 60 * SECOND < now < TX.MAX_INT64
    ensures x == CA.Run(60 * SECOND, CA.State<int>.State(now, None, CA.UNSET, map[], [], []),
                        [CA.RLock(0), CA.RLock(1), CA.CheckShared(0), CA.CheckShared(1)])
    ensures x == CA.State(now, None, CA.UNSET, map[0 := CA.Upgrading, 1 := CA.Upgrading], [], [])
  {
    var s: CA.State<int> := CA.State(now, None, CA.UNSET, map[], [], []);
    CA.RunConcat(60 * SECOND, s, [CA.RLock(0), CA.RLock(1)], [CA.CheckShared(0), CA.CheckShared(1)]);
    assert [CA.Action<int>.RLock(0), CA.RLock(1)] + [CA.CheckShared(0), CA.CheckShared(1)]
        == [CA.RLock(0), CA.RLock(1), CA.CheckShared(0), CA.CheckShared(1)];
    CA.TwoSteps(60 * SECOND, s, CA.RLock(0), CA.RLock(1));
    x := CA.Run(60 * SECOND, s, [CA.RLock(0), CA.RLock(1)]);
    CA.TwoSteps(60 * SECOND, x, CA.CheckShared(0), CA.CheckShared(1));
    x := CA.Run(60 * SECOND, x, [CA.CheckShared(0), CA.CheckShared(1)]);
  }

  lemma FirstRetrieves(x: CA.State<int>, now: int, value: int) returns (y: CA.State<int>)
    requires 60 * SECOND < now < TX.MAX_INT64
    requires x == CA.State(now, None, CA.UNSET, map[0 := CA.Upgrading, 1 := CA.Upgrading], [], [])
    ensures y == CA.Run(60 * SECOND, x, [CA.Lock(0), CA.CheckExclusive(0), CA.Retrieved(0, value)])
    ensures y == CA.State(now, Some(value), now, map[0 := CA.Outside, 1 := CA.Upgrading],
                          [CA.Fetch(now, value)], [CA.Return(now, Some(value), 1)])
  {
    CA.RunConcat(60 * SECOND, x, [CA.Lock(0)], [CA.CheckExclusive(0), CA.Retrieved(0, value)]);
    assert [CA.Action<int>.Lock(0)] + [CA.CheckExclusive(0), CA.Retrieved(0, value)]
        == [CA.Lock(0), CA.CheckExclusive(0), CA.Retrieved(0, value)];
    assert [CA.Action<int>.Lock(0)][1..] == [];
    y := CA.Step(60 * SECOND, x, CA.Lock(0));
    assert CA.Run(60 * SECOND, x, [CA.Lock(0)]) == y;
    CA.TwoSteps(60 * SECOND, y, CA.CheckExclusive(0), CA.Retrieved(0, value));
    y := CA.Step(60 * SECOND, CA.Step(60 * SECOND, y, CA.CheckExclusive(0)), CA.Retrieved(0, value));
  }

  lemma DashedAppIsCutShort()
    ensures AppIdOf("ttd-my-app").Some? && AppIdOf("ttd-my-app") != Some("my-app")
  {
    assert "ttd" + "-" + "my-app" == "ttd-my-app";
    assert "my-app"[2] == '-';
    AppIdIsWholeUnlessDashed("ttd", "my-app");
  }
}
