/** Deletion of the resource: what a deletion round achieves, and where it stops short. */
module Deletion {
  import opened Wrappers
  import opened World
  import opened ClientState
  import opened Controller
  import opened Invariant
  import opened SmoothRounds

  lemma SnapshotShowsOwned(app: App, w: World, d: Decision)
    requires CoreInv(app, w.core) && d.Decided? && Accurate(app, w, d)
    ensures Owned(app, w.core) <==> d.snapshot.content.Some? || d.snapshot.api.Some?
  {
    assert SecretOk(app, w.core.api, d.snapshot.manifest);
  }

  // ---- what becomes of a deletion round, call by call ----

  /** The round reads resource, secret and, by its id, the client with its keys; or, where there is no
      content, the listing before them. */
  lemma OwnedDecision(app: App, env: RoundEnv, w: World) returns (id: string)
    requires Inv(app, w) && Deleting(w) && OneSecret(w) && Owned(app, w.core)
    ensures Bears(app, w.core.api, id)
    ensures var d := Decide(app, env, w);
            var known := w.core.secrets[0].Stored().Some?;
            && (d.Decided? <==> Begins(env.script, if known then 4 else 5))
            && (d.Decided? ==>
                  && Accurate(app, w, d)
                  && d.script == From(env.script, if known then 4 else 5)
                  && d.cmds == if known then [DeleteSecret, DeleteClient(id)] else [DeleteClient(id)])
  {
    var s := env.script;
    ScriptUnfolds(s);
    DecisionIsAccurate(app, env, w);
    AppNameIsOwn(app);
    assert SecretOk(app, w.core.api, w.core.secrets[0]);
    var l := LoadInstance(w, s);
    assert l == Load(w, From(s, 1), if Nth(s, 0).Succeeds? then Loaded(DeleteKind, w.crd.value) else LoadFailed);
    if w.core.secrets[0].Stored().Some? {
      id := w.core.secrets[0].Stored().value.clientId;
    } else {
      SearchByName(app, w.core.api);
      id := FirstNamed(app, w.core.api, OwnClients(app, w.core.api, w.core.api.listing)).value;
    }
    OwnedFetch(app, w.core, s, w.crd.value, id);
  }

  lemma OwnedFetch(app: App, core: Core, s: seq<Outcome>, instance: Crd, id: string)
    requires CoreInv(app, core) && |core.secrets| == 1 && core.secrets[0].opaqueType && Bears(app, core.api, id)
    ensures var f := FetchState(app, core, From(s, 1), instance);
            var known := core.secrets[0].Stored().Some?;
            && (f.result.Ok? <==> Nth(s, 1).Succeeds? && Nth(s, 2).Succeeds? && Nth(s, 3).Succeeds? && (known || Nth(s, 4).Succeeds?))
            && (f.result.Ok? ==>
                  && f.script == From(s, if known then 4 else 5)
                  && f.result.value.crd == instance && f.result.value.content.Some? == known
                  && f.result.value.api.Some? && f.result.value.api.value.id == id)
  {
    ScriptUnfolds(s);
    AppNameIsOwn(app);
    SearchByName(app, core.api);
    assert SecretOk(app, core.api, core.secrets[0]);
  }

  lemma ExecuteDrop(core: Core, script: seq<Outcome>, newId: string, m: Secret, id: string, executed: seq<Cmd>)
    requires id in core.api.clients
    ensures var x := Exec(core, script, newId, m, [DeleteClient(id)], executed);
            && x.core == (if Head(script).Refused? then core else Effect(core, DropClient(id)).value)
            && x.script == Tail(script)
            && x.end == (if Head(script).Succeeds? then AllExecuted else CommandFailed)
            && (x.end.AllExecuted? ==> x.executed != [])
  {
    SendOne(core, script, DropClient(id));
    assert [DeleteClient(id)][1..] == [];
  }

  lemma ExecuteBoth(core: Core, script: seq<Outcome>, newId: string, m: Secret, id: string)
    requires |core.secrets| == 1 && id in core.api.clients
    ensures var x := Exec(core, script, newId, m, [DeleteSecret, DeleteClient(id)], []);
            var b := core.(secrets := [m.DeleteContent()]);
            if !Head(script).Succeeds? then
              x.end.CommandFailed? && x.core == if Head(script).Refused? then core else b
            else
              x == Exec(b, Tail(script), newId, m, [DeleteClient(id)], [DeleteSecret])
  {
    SendOne(core, script, PutSecret(m.DeleteContent()));
    assert [DeleteSecret, DeleteClient(id)][1..] == [DeleteClient(id)];
    assert [] + [DeleteSecret] == [DeleteSecret];
  }

  /** What is left when both, or the one that is there, have been deleted, and when the client has not. */
  lemma DeletedCore(app: App, core: Core, m: Secret, id: string)
    requires CoreInv(app, core) && core.secrets == [m] && Bears(app, core.api, id)
    ensures var b := core.(secrets := [m.DeleteContent()]);
            && Owned(app, core) && Owned(app, b)
            && !Owned(app, Effect(b, DropClient(id)).value)
            && (!m.HasSettings() ==> !Owned(app, Effect(core, DropClient(id)).value))
  {
    var b := core.(secrets := [m.DeleteContent()]);
    assert Bears(app, b.api, id);
    var z := Effect(core, DropClient(id)).value;
    assert forall x :: Bears(app, z.api, x) ==> Bears(app, core.api, x);
    SecretRoundTrip(m, Content("", "", None, None));
  }

  lemma CarriedOut(app: App, env: RoundEnv, w: World, d: Decision)
    requires d.Decided? && Accurate(app, w, d) && Deleting(w)
    requires var x := Exec(w.core, d.script, env.newId, d.snapshot.manifest, d.cmds, []);
             !x.end.AssertionFailed? && (x.end.AllExecuted? ==> x.executed != [])
    ensures var x := Exec(w.core, d.script, env.newId, d.snapshot.manifest, d.cmds, []);
            var z := CarryOut(env, d).world;
            z.core == x.core && (z.crd.None? <==> x.end.AllExecuted? && !Head(x.script).Refused?)
  {
  }

  lemma DeletionExecution(app: App, env: RoundEnv, w: World, d: Decision, id: string)
    requires CoreInv(app, w.core) && OneSecret(w) && Bears(app, w.core.api, id) && d.Decided?
    requires w.core.secrets == [d.snapshot.manifest]
    requires var m := d.snapshot.manifest;
             d.cmds == if m.Stored().Some? then [DeleteSecret, DeleteClient(id)] else [DeleteClient(id)]
    ensures var m := d.snapshot.manifest;
            var x := Exec(w.core, d.script, env.newId, m, d.cmds, []);
            var last := if m.Stored().Some? then Tail(d.script) else d.script;
            var first := m.Stored().Some? ==> Head(d.script).Succeeds?;
            && !x.end.AssertionFailed? && (x.end.AllExecuted? ==> x.executed != [])
            && (!Owned(app, x.core) <==> first && !Head(last).Refused?)
            && (x.end.AllExecuted? <==> first && Head(last).Succeeds?)
            && (x.end.AllExecuted? ==> x.script == Tail(last))
  {
    var m := d.snapshot.manifest;
    assert SecretOk(app, w.core.api, m);
    DeletedCore(app, w.core, m, id);
    if m.Stored().Some? {
      ExecuteBoth(w.core, d.script, env.newId, m, id);
      ExecuteDrop(w.core.(secrets := [m.DeleteContent()]), Tail(d.script), env.newId, m, id, [DeleteSecret]);
    } else {
      ExecuteDrop(w.core, d.script, env.newId, m, id, []);
    }
  }

  lemma DecidedDeletion(app: App, env: RoundEnv, w: World, d: Decision, id: string)
    requires CoreInv(app, w.core) && OneSecret(w) && Deleting(w) && Bears(app, w.core.api, id)
    requires d.Decided? && Accurate(app, w, d)
    requires var m := d.snapshot.manifest;
             d.cmds == if m.Stored().Some? then [DeleteSecret, DeleteClient(id)] else [DeleteClient(id)]
    ensures var known := d.snapshot.manifest.Stored().Some?;
            var last := if known then Tail(d.script) else d.script;
            var first := known ==> Head(d.script).Succeeds?;
            var z := CarryOut(env, d).world;
            && (!Owned(app, z.core) <==> first && !Head(last).Refused?)
            && (z.crd.None? <==> first && Head(last).Succeeds? && !Head(Tail(last)).Refused?)
  {
    DeletionExecution(app, env, w, d, id);
    CarriedOut(app, env, w, d);
  }

  lemma UndecidedDeletion(app: App, env: RoundEnv, w: World)
    requires Inv(app, w) && Deleting(w) && Decide(app, env, w).Stopped?
    ensures var z := Round(app, env, w).world; z.core == w.core && z.crd.Some?
  {
    DecisionIsAccurate(app, env, w);
  }

  /** A deletion round in full. It reads and, where there is content, deletes that within its first five
      calls; the sixth deletes the client, and the seventh takes the finalizer. Nothing is left exactly
      when the secret is there, those five succeed and the sixth takes effect; the resource is gone exactly
      when the sixth also reports so and the seventh takes effect. */
  lemma DeletionRound(app: App, env: RoundEnv, w: World)
    requires Inv(app, w) && Deleting(w) && Owned(app, w.core)
    ensures var z := Round(app, env, w).world;
            && (!Owned(app, z.core) <==> OneSecret(w) && Begins(env.script, 5) && !Nth(env.script, 5).Refused?)
            && (z.crd.None? <==> OneSecret(w) && Begins(env.script, 6) && !Nth(env.script, 6).Refused?)
  {
    if !OneSecret(w) {
      WithoutSecret(app, env, w);
    } else {
      ScriptUnfolds(env.script);
      var id := OwnedDecision(app, env, w);
      var d := Decide(app, env, w);
      if d.Decided? {
        DecidedDeletion(app, env, w, d, id);
      } else {
        UndecidedDeletion(app, env, w);
      }
    }
  }

  // ---- deletion without faults ----

  lemma {:induction false} FaultlessBegins(script: seq<Outcome>, n: nat)
    requires Faultless(script)
    ensures Begins(script, n) && Nth(script, n).Succeeds?
  {
    if n > 0 { FaultlessBegins(script, n - 1); }
    if n < |script| { assert script[n] in script; }
  }

  /** One deletion round without faults leaves neither content nor client, exactly when the app's secret is
      there or there was nothing to delete; and it takes the resource with it exactly when the secret is
      there and there was something. It comes after any number of rounds cut anywhere: `Inv` is all it
      asks of the state. */
  lemma SmoothDeletion(app: App, env: RoundEnv, w: World)
    requires Inv(app, w) && Deleting(w) && Faultless(env.script)
    ensures var r := Round(app, env, w);
            && (!Owned(app, r.world.core) <==> OneSecret(w) || !Owned(app, w.core))
            && (r.world.crd.None? <==> OneSecret(w) && Owned(app, w.core))
            && (r.reply == Quiet <==> OneSecret(w) && !Owned(app, w.core))
  {
    if Owned(app, w.core) {
      FaultlessBegins(env.script, 5);
      FaultlessBegins(env.script, 6);
      DeletionRound(app, env, w);
    } else {
      StrandedRound(app, env, w);
    }
    if OneSecret(w) {
      SmoothWithSecret(app, env, w);
      SnapshotShowsOwned(app, w, Decide(app, env, w));
    } else {
      WithoutSecret(app, env, w);
    }
  }

  /** Deletion as a whole: any number of rounds cut at any call and any user changes, then one round
      without faults. */
  lemma DeletionSurvivesCuts(app: App, w: World, events: seq<Event>, env: RoundEnv)
    requires Initial(app, w) && Deleting(Run(app, w, events)) && Faultless(env.script)
    ensures !Owned(app, Run(app, w, events + [Reconcile(env)]).core)
       <==> OneSecret(Run(app, w, events)) || !Owned(app, Run(app, w, events).core)
  {
    EveryRunIsSafe(app, w, events);
    SmoothDeletion(app, env, Run(app, w, events));
    assert (events + [Reconcile(env)])[..|events|] == events;
  }

  /** Without its secret a deletion never gets anywhere: whatever rounds follow, and whatever becomes of
      their calls, client and resource stay. */
  lemma {:induction false} DeletionNeedsTheSecret(app: App, w: World, events: seq<Event>)
    requires Deleting(w) && !OneSecret(w) && forall e :: e in events ==> e.Reconcile?
    ensures Deleting(Run(app, w, events)) && Run(app, w, events).core == w.core
    ensures forall env :: Round(app, env, Run(app, w, events)).reply == Failed
  {
    if events != [] {
      DeletionNeedsTheSecret(app, w, events[..|events| - 1]);
      assert events[|events| - 1] in events;
      WithoutSecret(app, events[|events| - 1].env, Run(app, w, events[..|events| - 1]));
    }
    forall env ensures Round(app, env, Run(app, w, events)).reply == Failed {
      WithoutSecret(app, env, Run(app, w, events));
    }
  }

  // ---- deletions that do not end ----

  /** The resource has been asked to go, nothing is left to delete, and the finalizer is still there. */
  ghost predicate Stranded(app: App, w: World) { Inv(app, w) && Deleting(w) && !Owned(app, w.core) }

  /** A round that finds nothing to delete writes nothing but the status, and keeps the finalizer. */
  lemma StrandedRound(app: App, env: RoundEnv, w: World)
    requires Stranded(app, w)
    ensures var r := Round(app, env, w);
            && Stranded(app, r.world)
            && r.world.core == w.core
            && (r.reply == Quiet || r.reply == Failed)
            && (r.reply == Quiet ==> r.world == w)
            && (Faultless(env.script) ==> (r.reply == Quiet <==> OneSecret(w)))
  {
    DecisionIsAccurate(app, env, w);
    RoundKeepsInv(app, env, w);
    RoundCrd(app, env, w);
    var d := Decide(app, env, w);
    if d.Decided? {
      SnapshotShowsOwned(app, w, d);
      assert d.cmds == [];
      assert w.crd.value.deleting;
      assert d.world == w;
    } else {
      assert d.end.world.crd.Some?;
    }
    if Faultless(env.script) {
      if OneSecret(w) { SmoothWithSecret(app, env, w); } else { WithoutSecret(app, env, w); }
    }
  }

  /** The deletion that never ends: once nothing is left but the finalizer, no run whatever removes it. */
  lemma {:induction false} StrandedForever(app: App, w: World, events: seq<Event>)
    requires Stranded(app, w)
    ensures Stranded(app, Run(app, w, events))
  {
    if events != [] {
      var front := Run(app, w, events[..|events| - 1]);
      StrandedForever(app, w, events[..|events| - 1]);
      match events[|events| - 1]
      case Reconcile(env) => StrandedRound(app, env, front);
      case Change(to) =>
        if UserStep(app, front, to) {
          UserKeepsInv(app, front, to);
        }
    }
  }

  /** When a deletion round ends so, for every fate of its calls: there was nothing left to begin with; or
      the secret is there, the first five calls succeed, and either the deletion of the client takes effect
      and its response is lost, or it succeeds and the write of the finalizer is refused. */
  lemma RoundStrandsIff(app: App, env: RoundEnv, w: World)
    requires Inv(app, w) && Deleting(w)
    ensures Stranded(app, Round(app, env, w).world)
       <==> !Owned(app, w.core) || (OneSecret(w) && StrandingScript(env.script))
  {
    RoundKeepsInv(app, env, w);
    if Owned(app, w.core) {
      RoundCrd(app, env, w);
      DeletionRound(app, env, w);
      ScriptUnfolds(env.script);
    } else {
      StrandedRound(app, env, w);
    }
  }

  predicate StrandingScript(script: seq<Outcome>) {
    && Begins(script, 5)
    && (Nth(script, 5).ResponseLost? || (Nth(script, 5).Succeeds? && Nth(script, 6).Refused?))
  }

  /** One refused write is enough: a deletion round whose commands all succeed and whose last write, of the
      finalizer, is refused. */
  lemma OneRefusedWriteStrands(app: App, env: RoundEnv, w: World)
    requires Inv(app, w) && Deleting(w) && Decide(app, env, w).Decided?
    requires var d := Decide(app, env, w);
             var x := Exec(w.core, d.script, env.newId, d.snapshot.manifest, d.cmds, []);
             x.end.AllExecuted? && Head(x.script).Refused?
    ensures Stranded(app, Round(app, env, w).world)
  {
    RoundKeepsInv(app, env, w);
    FullDeletionLeavesNothing(app, env, w);
    DecisionIsAccurate(app, env, w);
    RoundCrd(app, env, w);
    RefusedStatusWrite(app, env, w, Decide(app, env, w));
  }

  lemma RefusedStatusWrite(app: App, env: RoundEnv, w: World, d: Decision)
    requires d.Decided? && Accurate(app, w, d)
    requires var x := Exec(w.core, d.script, env.newId, d.snapshot.manifest, d.cmds, []);
             x.end.AllExecuted? && Head(x.script).Refused?
    ensures CarryOut(env, d).world.crd == d.world.crd
  {
  }

  const REFUSED_AT_THE_END := [Succeeds, Succeeds, Succeeds, Succeeds, Succeeds, Succeeds, Refused]

  lemma RefusalAtTheEndStrands(app: App, env: RoundEnv, w: World)
    requires Inv(app, w) && Deleting(w) && OneSecret(w)
    requires env.script == REFUSED_AT_THE_END
    ensures Stranded(app, Round(app, env, w).world)
  {
    ScriptUnfolds(env.script);
    RoundStrandsIff(app, env, w);
  }

  /** And it takes no fault at all: a request to delete a resource that has its finalizer, but for which
      nothing was ever made, strands it, and a request strands it in no other case. */
  lemma RequestStrandsIff(app: App, a: World, b: World)
    requires Inv(app, a) && UserStep(app, a, b) && a.crd.Some? && !Deleting(a) && Deleting(b)
    ensures Stranded(app, b) <==> !Owned(app, b.core)
  {
    UserKeepsInv(app, a, b);
  }
}
