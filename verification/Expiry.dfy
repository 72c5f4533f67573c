/** Time: how long keys last between rounds, how far apart requeued rounds are, and when the operator
    stops asking for rounds at all. */
module Expiry {
  import opened Wrappers
  import opened Keys
  import opened Rotation
  import opened World
  import opened ClientState
  import opened Controller
  import opened Invariant
  import opened SmoothRounds
  import opened Convergence
  import opened KeyContinuity
  import opened StatusRecord
  import opened SecretWrites

  /** Some key in the secret is still valid at the given time. */
  ghost predicate ValidAt(core: Core, t: int) {
    && TheContent(core).Some?
    && exists k :: k in PrivateKeys(TheContent(core).value) && |k.certificates| == 1 && NotAfter(k) > t
  }

  // ---- requeue delay ----

  const LONGEST_REQUEUE: int := 72 * 3600 * 1_000_000_000

  /** The delay strays by less than a tenth to either side, and from the longest configurable delay by
      less than eight hours. */
  lemma RequeueDelay(d: nat, draw: nat)
    requires draw < 2 * MaxOffset(d)
    ensures d - MaxOffset(d) <= RandomizeDuration(d, draw) < d + MaxOffset(d)
    ensures 10 * MaxOffset(d) <= d < 10 * (MaxOffset(d) + 1)
    ensures d <= LONGEST_REQUEUE ==> 0 < RandomizeDuration(d, draw) < 80 * 3600 * 1_000_000_000
  {
    var tenth := d as real * 0.1;
    assert tenth.Floor as real <= tenth < tenth.Floor as real + 1.0;
    assert 10.0 * tenth == d as real;
    assert (10 * MaxOffset(d)) as real <= d as real;
    assert (d as real) < (10 * (MaxOffset(d) + 1)) as real;
  }

  /** The number a 64-bit floating-point tenth is. */
  const FLOAT_TENTH: real := 0.1000000000000000055511151231257827021181583404541015625

  /** What 64-bit rounding does to the numbers that occur here: it keeps order, keeps whole numbers, and is
      off by much less than a hundredth. */
  ghost predicate RoundsLikeFloat64(round: real -> real) {
    && (forall x, y :: x <= y ==> round(x) <= round(y))
    && (forall x :: 0.0 <= x < 9007199254740992.0 && x == x.Floor as real ==> round(x) == x)
    && (forall x :: 0.0 <= x < 140737488355328.0 ==> x - 0.01 <= round(x) <= x + 0.01)
  }

  /** Computed in floating point, as it is, the largest offset is the same for every delay that can be
      configured. */
  lemma FloatingOffset(d: nat, round: real -> real)
    requires d <= LONGEST_REQUEUE && RoundsLikeFloat64(round)
    ensures round(round(d as real) * FLOAT_TENTH).Floor == MaxOffset(d)
  {
    var q := MaxOffset(d);
    RequeueBounds(d);
    var exact := d as real * FLOAT_TENTH;
    assert round(d as real) == d as real;
    assert (10 * q) as real <= d as real <= (10 * q + 9) as real;
    assert d as real * 0.1 <= exact <= d as real * 0.1 + 0.01;
    assert q as real <= exact <= q as real + 0.91;
    assert round(q as real) == q as real && round(q as real) <= round(exact);
  }

  lemma RequeueBounds(d: nat)
    ensures 10 * MaxOffset(d) <= d <= 10 * MaxOffset(d) + 9
  {
    if 0 < MaxOffset(d) { RequeueDelay(d, 0); } else {
      var tenth := d as real * 0.1;
      assert tenth < 1.0 && 10.0 * tenth == d as real;
    }
  }

  // ---- what a successful round guarantees ----

  predicate Succeeded(r: RoundResult) { r.reply == Quiet || r.reply.Requeue? }

  lemma SuccessfulRound(app: App, env: RoundEnv, w: World)
    requires Inv(app, w) && w.crd.Some? && Succeeded(Round(app, env, w))
    ensures var d := Decide(app, env, w);
            && d.Decided? && Accurate(app, w, d) && Plan(app, env.inputs, d.snapshot) == Ok(d.cmds)
            && Exec(w.core, d.script, env.newId, d.snapshot.manifest, d.cmds, []).end.AllExecuted?
            && Round(app, env, w).world.core == Play(w.core, WritesOfDecision(env, d))
  {
    DecisionIsAccurate(app, env, w);
    var d := Decide(app, env, w);
    if d.Decided? {
      SuccessMeansAllExecuted(env, d);
      CarryOutKeepsExecution(env, d);
      var ws := WritesOfDecision(env, d);
      var k := CutIsAPrefix(w.core, d.script, env.newId, d.snapshot.manifest, d.cmds, []);
      assert ws[..k] == ws;
    }
  }

  lemma SuccessMeansAllExecuted(env: RoundEnv, d: Decision)
    requires d.Decided? && Succeeded(CarryOut(env, d))
    ensures Exec(d.world.core, d.script, env.newId, d.snapshot.manifest, d.cmds, []).end.AllExecuted?
  {
  }

  lemma ExecutedCreationIsFresh(core: Core, script: seq<Outcome>, newId: string, m: Secret, cmds: seq<Cmd>)
    requires cmds != [] && cmds[0].CreateClient?
    requires Exec(core, script, newId, m, cmds, []).end.AllExecuted?
    ensures newId != "" && newId !in core.api.clients
  {
  }

  lemma ContentLasts(inputs: Inputs, id: string, keys: seq<Jwk>, m: Secret, z: Core)
    requires keys != [] && z.secrets == [m.Serialize(NewContent(id, inputs, keys))]
    requires OneCertificateEach(keys) && exists k :: k in keys && NotAfter(k) - inputs.now.threshold > 7 * 24 * 3600 * 1_000_000_000
    ensures ValidAt(z, inputs.now.threshold + 7 * 24 * 3600 * 1_000_000_000)
  {
    SecretRoundTrip(m, NewContent(id, inputs, keys));
    var k :| k in keys && NotAfter(k) - inputs.now.threshold > 7 * 24 * 3600 * 1_000_000_000;
    assert k in PrivateKeys(TheContent(z).value);
  }

  /** Every round on a living resource that reports success leaves a key valid for more than seven days
      after its threshold reading, whichever branch it took. */
  lemma SuccessLeavesValidKeys(app: App, env: RoundEnv, w: World)
    requires Inv(app, w) && w.crd.Some? && !Deleting(w) && env.inputs.now.Prompt()
    requires Succeeded(Round(app, env, w))
    ensures ValidAt(Round(app, env, w).world.core, env.inputs.now.threshold + 7 * 24 * 3600 * 1_000_000_000)
  {
    SuccessfulRound(app, env, w);
    var d := Decide(app, env, w);
    var s, z := d.snapshot, Round(app, env, w).world.core;
    if s.api.None? || s.content.None? {
      NewKeysArePublic(env.inputs);
      CreatedKeysAreUsable(env.inputs.now, env.inputs.entropy);
      var keys := NewKeys(env.inputs).value.0;
      assert keys[0] in keys && NotAfter(keys[0]) > env.inputs.now.threshold + 7 * 24 * 3600 * 1_000_000_000;
      if s.api.None? {
        ExecutedCreationIsFresh(w.core, d.script, env.newId, s.manifest, d.cmds);
        CreationResult(app, env.inputs, env.newId, s, w.core);
        ContentLasts(env.inputs, env.newId, keys, s.manifest, z);
      } else {
        RecoveryResult(env.inputs, env.newId, s.manifest, s.api.value, w.core);
        ContentLasts(env.inputs, s.api.value.id, keys, s.manifest, z);
      }
    } else {
      UpdateLeavesValidKeys(app, env.inputs, env.newId, s, w.core);
    }
  }

  lemma UpdateLeavesValidKeys(app: App, inputs: Inputs, newId: string, s: Snapshot, a: Core)
    requires CoreInv(app, a) && a.secrets == [s.manifest] && s.api.Some? && s.content.Some?
    requires s.content == s.manifest.Stored() && s.content.value.clientId == s.api.value.id && Bears(app, a.api, s.api.value.id)
    requires PlanUpdate(app, inputs, s, s.api.value, s.content.value).Ok? && inputs.now.Prompt()
    ensures ValidAt(Play(a, AllWrites(newId, s.manifest, PlanUpdate(app, inputs, s, s.api.value, s.content.value).value)),
                    inputs.now.threshold + 7 * 24 * 3600 * 1_000_000_000)
  {
    var content, id := s.content.value, s.api.value.id;
    assert SecretOk(app, a.api, s.manifest);
    var b, c := UpdateResult(app, inputs, newId, s, s.api.value, content, a);
    RotatedKeysLast(inputs, content.jwks.value);
    var z := Play(a, AllWrites(newId, s.manifest, PlanUpdate(app, inputs, s, s.api.value, content).value));
    assert z.secrets == b.secrets;
    if b != a {
      var r := Rotate(inputs.now, inputs.entropy, content.jwks).value;
      ContentLasts(inputs, id, if r.Some? then r.value else content.jwks.value, s.manifest, z);
    } else {
      assert TheContent(z) == Some(content);
    }
  }

  // ---- what later rounds cannot undo ----

  lemma LatestStays(inputs: Inputs, before: Content, keys: seq<Jwk>, t: int)
    requires before.jwks.Some? && Usable(before.jwks.value) && Sourced(inputs, Some(before), keys)
    requires exists k :: k in before.jwks.value && NotAfter(k) > t
    ensures exists k :: k in keys && |k.certificates| == 1 && NotAfter(k) > t
  {
    var kept := before.jwks.value;
    RotationKeepsUsable(inputs.now, inputs.entropy, kept);
    var k :| k in kept && NotAfter(k) > t;
    var i :| 0 <= i < |kept| && kept[i] == k;
    assert NotAfter(kept[i]) <= NotAfter(kept[Latest(kept)]);
    if keys != kept { assert keys[1] in keys; }
  }

  /** No round on a living resource, cut anywhere and under any clock, shortens the time for which some
      key is valid: a rotation keeps the key that lasts longest. */
  lemma RoundKeepsValidity(app: App, env: RoundEnv, w: World, t: int)
    requires Inv(app, w) && w.crd.Some? && !Deleting(w) && ValidAt(w.core, t)
    ensures ValidAt(Round(app, env, w).world.core, t)
  {
    var id, keys := RoundWritesOneContent(app, env, w);
    var z := Round(app, env, w).world.core;
    if z.secrets != w.core.secrets {
      assert SecretOk(app, w.core.api, w.core.secrets[0]);
      SecretRoundTrip(w.core.secrets[0], NewContent(id, env.inputs, keys));
      LatestStays(env.inputs, TheContent(w.core).value, keys, t);
      var k :| k in keys && |k.certificates| == 1 && NotAfter(k) > t;
      assert k in PrivateKeys(TheContent(z).value);
    }
  }

  /** The run keeps the resource alive, and users leave the settings alone. */
  ghost predicate Calm(app: App, w: World, events: seq<Event>) {
    forall i :: 0 <= i < |events| ==>
                  && Run(app, w, events[..i]).crd.Some? && !Deleting(Run(app, w, events[..i]))
                  && (events[i].Change? ==> LeavesSettings(Run(app, w, events[..i]), events[i].to))
  }

  lemma CalmPrefix(app: App, w: World, events: seq<Event>)
    requires events != [] && Calm(app, w, events)
    ensures Calm(app, w, events[..|events| - 1])
    ensures var front := Run(app, w, events[..|events| - 1]);
            && front.crd.Some? && !Deleting(front)
            && (events[|events| - 1].Change? ==> LeavesSettings(front, events[|events| - 1].to))
  {
    var most := events[..|events| - 1];
    assert forall i :: 0 <= i < |most| ==> most[..i] == events[..i] && most[i] == events[i];
  }

  lemma {:induction false} ValidityLasts(app: App, w: World, events: seq<Event>, t: int)
    requires Inv(app, w) && ValidAt(w.core, t) && Calm(app, w, events)
    ensures Inv(app, Run(app, w, events)) && ValidAt(Run(app, w, events).core, t)
  {
    if events != [] {
      var most := events[..|events| - 1];
      var front := Run(app, w, most);
      CalmPrefix(app, w, events);
      ValidityLasts(app, w, most, t);
      match events[|events| - 1]
      case Reconcile(env) =>
        RoundKeepsValidity(app, env, front, t);
        RoundKeepsInv(app, env, front);
      case Change(to) => if UserStep(app, front, to) { UserKeepsInv(app, front, to); }
    }
  }

  /** From one successful round until seven days after it, whatever rounds fail or are cut in between,
      the secret holds a key that has not expired. */
  lemma KeysNeverLapse(app: App, env: RoundEnv, w: World, events: seq<Event>, instant: int)
    requires Inv(app, w) && w.crd.Some? && !Deleting(w) && env.inputs.now.Prompt()
    requires Succeeded(Round(app, env, w)) && Calm(app, Round(app, env, w).world, events)
    requires instant <= env.inputs.now.threshold + 7 * 24 * 3600 * 1_000_000_000
    ensures ValidAt(Run(app, Round(app, env, w).world, events).core, instant)
  {
    SuccessLeavesValidKeys(app, env, w);
    RoundKeepsInv(app, env, w);
    ValidityLasts(app, Round(app, env, w).world, events, env.inputs.now.threshold + 7 * 24 * 3600 * 1_000_000_000);
  }

  /** A round that reports success, on prompt readings. */
  ghost predicate ServesApp(app: App, w: World, e: Event) {
    e.Reconcile? && e.env.inputs.now.Prompt() && Succeeded(Round(app, e.env, w))
  }

  /** The time of the last such round, where the i-th event happens at `times[i]`. */
  ghost function LastSuccess(app: App, w: World, events: seq<Event>, times: seq<int>): Option<int>
    requires |events| <= |times|
  {
    if events == [] then None
    else
      var most := events[..|events| - 1];
      if ServesApp(app, Run(app, w, most), events[|events| - 1]) then Some(times[|most|])
      else LastSuccess(app, w, most, times)
  }

  /** Time goes on from event to event, a successful round reads the clock no earlier than it starts, and
      from the first of them on, neither the next event nor the end of the run comes more than seven days
      after the last of them. */
  ghost predicate Attended(app: App, w: World, events: seq<Event>, times: seq<int>)
    requires |events| < |times|
  {
    events != [] ==>
      var n := |events| - 1;
      var most := events[..n];
      var last := LastSuccess(app, w, events, times);
      && Attended(app, w, most, times)
      && times[n] <= times[n + 1]
      && (ServesApp(app, Run(app, w, most), events[n]) ==> times[n] <= events[n].env.inputs.now.threshold)
      && (last.Some? ==> times[n + 1] <= last.value + 7 * 24 * 3600 * 1_000_000_000)
  }

  /** At the end of a run some key is valid until seven days after its last successful round. */
  lemma {:induction false} ValidSinceLastSuccess(app: App, w: World, events: seq<Event>, times: seq<int>)
    requires Inv(app, w) && Calm(app, w, events) && |events| < |times| && Attended(app, w, events, times)
    ensures Inv(app, Run(app, w, events))
    ensures var last := LastSuccess(app, w, events, times);
            last.Some? ==> ValidAt(Run(app, w, events).core, last.value + 7 * 24 * 3600 * 1_000_000_000)
  {
    if events != [] {
      var most := events[..|events| - 1];
      var front := Run(app, w, most);
      CalmPrefix(app, w, events);
      ValidSinceLastSuccess(app, w, most, times);
      var before := LastSuccess(app, w, most, times);
      match events[|events| - 1]
      case Reconcile(env) =>
        RoundKeepsInv(app, env, front);
        if ServesApp(app, front, events[|events| - 1]) {
          SuccessLeavesValidKeys(app, env, front);
        } else if before.Some? {
          RoundKeepsValidity(app, env, front, before.value + 7 * 24 * 3600 * 1_000_000_000);
        }
      case Change(to) => if UserStep(app, front, to) { UserKeepsInv(app, front, to); }
    }
  }

  lemma {:induction false} ValidAfter(app: App, w: World, events: seq<Event>, times: seq<int>, k: nat)
    requires Inv(app, w) && Calm(app, w, events) && |events| < |times| && Attended(app, w, events, times)
    requires k <= |events| && LastSuccess(app, w, events[..k], times).Some?
    ensures ValidAt(Run(app, w, events[..k]).core, times[k])
  {
    if k == |events| {
      assert events[..k] == events;
      ValidSinceLastSuccess(app, w, events, times);
    } else {
      var most := events[..|events| - 1];
      CalmPrefix(app, w, events);
      assert most[..k] == events[..k];
      ValidAfter(app, w, most, times, k);
    }
  }

  /** With successful rounds at most seven days apart, whatever rounds fail or are cut in between, the
      secret holds an unexpired key at every instant from the first of them on: in the state after each
      event, until the next. */
  lemma KeysValidThroughout(app: App, w: World, events: seq<Event>, times: seq<int>)
    requires Inv(app, w) && Calm(app, w, events) && |events| < |times| && Attended(app, w, events, times)
    ensures forall k, t :: 0 <= k <= |events| && LastSuccess(app, w, events[..k], times).Some? && t <= times[k] ==>
                             ValidAt(Run(app, w, events[..k]).core, t)
  {
    forall k, t | 0 <= k <= |events| && LastSuccess(app, w, events[..k], times).Some? && t <= times[k]
      ensures ValidAt(Run(app, w, events[..k]).core, t)
    {
      ValidAfter(app, w, events, times, k);
    }
  }

  /** When a key set is rotated at most `gap` after a successful round, the key it keeps is valid for more
      than seven days less `gap` from then on. */
  lemma KeptKeyOutlivesTheGap(
    app: App, env: RoundEnv, w: World, events: seq<Event>, now: Readings, e: Entropy, gap: nat)
    requires Inv(app, w) && w.crd.Some? && !Deleting(w) && env.inputs.now.Prompt()
    requires Succeeded(Round(app, env, w)) && Calm(app, Round(app, env, w).world, events)
    requires now.threshold <= env.inputs.now.threshold + gap
    ensures var c := TheContent(Run(app, Round(app, env, w).world, events).core);
            && c.Some? && c.value.jwks.Some? && Usable(c.value.jwks.value)
            && var r := Rotate(now, e, c.value.jwks);
            r.Ok? && r.value.Some? ==>
              |r.value.value| == 2 && |r.value.value[1].certificates| == 1
              && NotAfter(r.value.value[1]) > now.threshold + 7 * 24 * 3600 * 1_000_000_000 - gap
  {
    KeysNeverLapse(app, env, w, events, env.inputs.now.threshold + 7 * 24 * 3600 * 1_000_000_000);
    RoundKeepsInv(app, env, w);
    SuccessLeavesValidKeys(app, env, w);
    ValidityLasts(app, Round(app, env, w).world, events, env.inputs.now.threshold + 7 * 24 * 3600 * 1_000_000_000);
    var z := Run(app, Round(app, env, w).world, events).core;
    assert SecretOk(app, z.api, z.secrets[0]);
    var keys := TheContent(z).value.jwks.value;
    if Rotate(now, e, Some(keys)).Ok? && Rotate(now, e, Some(keys)).value.Some? {
      KeptKeyLasts(now, e, keys, env.inputs.now.threshold + 7 * 24 * 3600 * 1_000_000_000);
    }
  }

  lemma KeptKeyLasts(now: Readings, e: Entropy, keys: seq<Jwk>, t: int)
    requires Usable(keys) && exists k :: k in keys && NotAfter(k) > t
    requires Rotate(now, e, Some(keys)).Ok? && Rotate(now, e, Some(keys)).value.Some?
    ensures var r := Rotate(now, e, Some(keys)).value.value;
            |r| == 2 && |r[1].certificates| == 1 && NotAfter(r[1]) > t
  {
    RotationKeepsUsable(now, e, keys);
    var k :| k in keys && NotAfter(k) > t;
    var i :| 0 <= i < |keys| && keys[i] == k;
    assert NotAfter(keys[i]) <= NotAfter(keys[Latest(keys)]);
  }

  // ---- what the operator schedules by itself ----

  lemma CreatedKeyLasts(app: App, first: RoundEnv, w: World, now: Readings)
    requires Inv(app, w) && w.crd.Some? && !Deleting(w) && OneSecret(w) && !Owned(app, w.core) && Smooth(first, w)
    requires now.threshold - first.inputs.now.deadline < 23 * 24 * 3600 * 1_000_000_000 - 1_000_000_000
    ensures Round(app, first, w).reply.Requeue?
    ensures var z := Round(app, first, w).world.core; TheContent(z).Some? && KeysLast(TheContent(z).value, now)
  {
    SmoothWithSecret(app, first, w);
    var s := Decide(app, first, w).snapshot;
    CreationResult(app, first.inputs, first.newId, s, w.core);
    CreatedKeysAreUsable(first.inputs.now, first.inputs.entropy);
    var keys := NewKeys(first.inputs).value.0;
    SecretRoundTrip(s.manifest, NewContent(first.newId, first.inputs, keys));
    assert keys[0] in keys && NotAfter(keys[0]) - now.threshold > 7 * 24 * 3600 * 1_000_000_000;
  }

  /** The requeues stop before the first rotation: where the secret is there, the round that creates
      everything asks for another, and that one, any time before the new key comes up for rotation, finds
      everything in place, does nothing and asks for no more, exactly when the scopes can settle. Later
      rotations depend on somebody else starting a round. */
  lemma OwnScheduleStopsBeforeRotation(app: App, first: RoundEnv, second: RoundEnv, w: World)
    requires Inv(app, w) && w.crd.Some? && !Deleting(w) && !Owned(app, w.core)
    requires Smooth(first, w) && first.inputs.now.Prompt()
    requires Smooth(second, Round(app, first, w).world) && second.inputs.authority == first.inputs.authority
    requires second.inputs.now.threshold - first.inputs.now.deadline < 23 * 24 * 3600 * 1_000_000_000 - 1_000_000_000
    ensures Round(app, first, w).reply.Requeue? <==> OneSecret(w)
    ensures Round(app, second, Round(app, first, w).world).reply == Quiet <==> OneSecret(w) && CrdSettles(w)
  {
    var z := Round(app, first, w).world;
    RoundKeepsInv(app, first, w);
    RoundCrd(app, first, w);
    QuietIffInPlace(app, second, z);
    RankFalls(app, first, w);
    if OneSecret(w) {
      CreatedKeyLasts(app, first, w, second.inputs.now);
      assert InPlace(app, second.inputs, z) <==> InPlace(app, first.inputs, z) by {
        CreatedKeyLasts(app, first, w, first.inputs.now);
      }
    } else {
      WithoutSecret(app, first, w);
    }
  }
}
