/** The status of the resource as a record of what is in the secret. */
module StatusRecord {
  import opened Wrappers
  import opened Keys
  import opened World
  import opened ClientState
  import opened Controller
  import opened Invariant
  import opened KeyContinuity

  /** The status names the client, the authority and the key ids of the secret's content; without content
      there is no authority and no key id. */
  ghost predicate Records(status: Status, core: Core) {
    match TheContent(core)
    case Some(c) =>
      status.clientId == c.clientId && status.authority == c.authority && status.keyIds == KeyIds(PrivateKeys(c))
    case None => status.authority == "" && status.keyIds == []
  }

  lemma FoldOneMore(s: Status, executed: seq<Cmd>, c: Cmd)
    ensures FoldStatus(s, executed + [c]) == StatusAfter(FoldStatus(s, executed), c)
  {
    assert (executed + [c])[..|executed|] == executed;
  }

  lemma {:induction false} OtherWritesKeepSecrets(core: Core, script: seq<Outcome>, ws: seq<Write>)
    requires forall w :: w in ws ==> !w.PutSecret?
    ensures SendAll(core, script, ws).core.secrets == core.secrets
    decreases |ws|
  {
    if ws != [] {
      assert ws[0] in ws;
      var d := Send(core, script, ws[0]);
      OtherWritesKeepSecrets(d.core, d.script, ws[1..]);
    }
  }

  lemma {:induction false} NothingLostInRest(core: Core, script: seq<Outcome>, ws: seq<Write>)
    requires NothingLost(script)
    ensures NothingLost(SendAll(core, script, ws).script)
    decreases |ws|
  {
    if ws != [] {
      assert forall o :: o in Tail(script) ==> o in script;
      var d := Send(core, script, ws[0]);
      if d.ok { NothingLostInRest(d.core, d.script, ws[1..]); }
    }
  }

  // ---- the ids a command list carries ----

  /** A command names the client the status and the content name. */
  ghost predicate Fits(status: Status, content: Option<Content>, c: Cmd) {
    match c
    case CreateClient(_, _, _) => content.None?
    case UpdateSecret(written) => status.clientId == written.clientId
    case UpdateClient(id, _, _) => content.Some? ==> content.value.clientId == id
    case DeleteClient(_) => content.None?
    case DeleteSecret => true
  }

  function ContentAfter(content: Option<Content>, c: Cmd): Option<Content> {
    match c
    case UpdateSecret(written) => Some(written)
    case DeleteSecret => None
    case _ => content
  }

  ghost predicate AllFit(status: Status, content: Option<Content>, newId: string, cmds: seq<Cmd>)
    decreases |cmds|
  {
    cmds != [] ==>
      && Fits(status, content, cmds[0])
      && AllFit(StatusAfter(status, Executed(newId, cmds[0])), ContentAfter(content, cmds[0]), newId,
                AfterCallback(newId, cmds[0], cmds[1..]))
  }

  lemma CreationFits(status: Status, newId: string, create: Cmd, update: Cmd)
    requires create.CreateClient? && update.UpdateSecret? && update.content.clientId == ""
    ensures AllFit(status, None, newId, [create, update])
  {
    assert [create, update][1..] == [update];
    var rest := AfterCallback(newId, create, [update]);
    assert rest == [FillOne(newId, update)];
    assert AfterCallback(newId, rest[0], rest[1..]) == [];
  }

  lemma FitOne(status: Status, content: Option<Content>, newId: string, c: Cmd)
    requires Fits(status, content, c) && !c.CreateClient?
    ensures AllFit(status, content, newId, [c])
  {
    assert AfterCallback(newId, c, [c][1..]) == [];
  }

  lemma FitMore(status: Status, content: Option<Content>, newId: string, c: Cmd, more: seq<Cmd>)
    requires Fits(status, content, c) && !c.CreateClient?
    requires AllFit(StatusAfter(status, c), ContentAfter(content, c), newId, more)
    ensures AllFit(status, content, newId, [c] + more)
  {
    assert ([c] + more)[1..] == more;
  }

  lemma DeletionFits(status: Status, newId: string, s: Snapshot)
    ensures AllFit(status, s.content, newId, PlanDeletion(s))
  {
    if s.content.None? {
      if s.api.Some? { FitOne(status, None, newId, DeleteClient(s.api.value.id)); }
    } else if s.api.None? {
      FitOne(status, s.content, newId, DeleteSecret);
    } else {
      FitOne(StatusAfter(status, DeleteSecret), None, newId, DeleteClient(s.api.value.id));
      FitMore(status, s.content, newId, DeleteSecret, [DeleteClient(s.api.value.id)]);
    }
  }

  lemma RecoveryFits(status: Status, newId: string, inputs: Inputs, api: ApiView)
    requires PlanRecovery(inputs, api).Ok?
    ensures AllFit(status, None, newId, PlanRecovery(inputs, api).value)
  {
    var cmds := PlanRecovery(inputs, api).value;
    FitOne(StatusAfter(status, cmds[0]), None, newId, cmds[1]);
    FitMore(status, None, newId, cmds[0], [cmds[1]]);
    assert cmds == [cmds[0]] + [cmds[1]];
  }

  lemma {:induction false} UpdatesFit(status: Status, content: Content, newId: string, cmds: seq<Cmd>)
    requires status.clientId == content.clientId
    requires forall c :: c in cmds ==>
                           (c.UpdateSecret? && c.content.clientId == content.clientId) || (c.UpdateClient? && c.id == content.clientId)
    ensures AllFit(status, Some(content), newId, cmds)
    decreases |cmds|
  {
    if cmds != [] {
      assert cmds[0] in cmds && cmds == [cmds[0]] + cmds[1..];
      var after := ContentAfter(Some(content), cmds[0]).value;
      UpdatesFit(StatusAfter(status, cmds[0]), after, newId, cmds[1..]);
      FitMore(status, Some(content), newId, cmds[0], cmds[1..]);
    }
  }

  /** Every plan carries the ids of what it finds. */
  lemma PlanFits(app: App, inputs: Inputs, newId: string, s: Snapshot, status: Status)
    requires Plan(app, inputs, s).Ok?
    requires s.api.None? ==> s.content.None?
    requires s.content.Some? ==> s.content.value.clientId == s.api.value.id == status.clientId
    ensures AllFit(status, s.content, newId, Plan(app, inputs, s).value)
  {
    var cmds := Plan(app, inputs, s).value;
    if s.crd.deleting {
      DeletionFits(status, newId, s);
    } else if s.api.None? {
      CreationFits(status, newId, cmds[0], cmds[1]);
      assert cmds == [cmds[0], cmds[1]];
    } else if s.content.None? {
      RecoveryFits(status, newId, inputs, s.api.value);
    } else {
      UpdatesFit(status, s.content.value, newId, cmds);
    }
  }

  // ---- executing ----

  /** One command that fits, executed or not, keeps the record. */
  lemma CommandIsRecorded(core: Core, script: seq<Outcome>, newId: string, m: Secret, c: Cmd, status: Status)
    requires NothingLost(script) && |core.secrets| == 1
    requires Records(status, core) && Fits(status, TheContent(core), c)
    ensures var d := SendAll(core, script, WritesOf(newId, m, c));
            && |d.core.secrets| == 1
            && Records(if d.ok then StatusAfter(status, Executed(newId, c)) else status, d.core)
            && (d.ok ==> TheContent(d.core) == ContentAfter(TheContent(core), c))
  {
    var ws := WritesOf(newId, m, c);
    if c.UpdateSecret? || c.DeleteSecret? {
      assert script != [] ==> script[0] in script;
      assert SendAll(core, script, ws) == Send(core, script, ws[0]) by {
        assert ws[1..] == [];
      }
      SecretRoundTrip(m, if c.UpdateSecret? then c.content else Content("", "", None, None));
    } else {
      OtherWritesKeepSecrets(core, script, ws);
    }
  }

  /** Folding the executed commands over the status simulates what they do to the secret. */
  lemma {:induction false} StatusSimulatesSecret(
    core: Core, script: seq<Outcome>, newId: string, m: Secret, cmds: seq<Cmd>, executed: seq<Cmd>, s: Status)
    requires NothingLost(script) && |core.secrets| == 1 && Records(FoldStatus(s, executed), core)
    requires AllFit(FoldStatus(s, executed), TheContent(core), newId, cmds)
    ensures var x := Exec(core, script, newId, m, cmds, executed);
            Records(FoldStatus(s, x.executed), x.core)
    decreases |cmds|
  {
    if cmds != [] && AssertionHolds(cmds[0]) {
      CommandIsRecorded(core, script, newId, m, cmds[0], FoldStatus(s, executed));
      NothingLostInRest(core, script, WritesOf(newId, m, cmds[0]));
      FoldOneMore(s, executed, Executed(newId, cmds[0]));
      var d := SendAll(core, script, WritesOf(newId, m, cmds[0]));
      if d.ok {
        StatusSimulatesSecret(d.core, d.script, newId, m, AfterCallback(newId, cmds[0], cmds[1..]),
                              executed + [Executed(newId, cmds[0])], s);
      }
    }
  }

  ghost predicate UpToDate(w: World) { w.crd.Some? ==> Records(w.crd.value.status, w.core) }

  /** No response is lost, and the status write at the end goes through. */
  ghost predicate Recorded(app: App, env: RoundEnv, w: World) {
    && NothingLost(env.script)
    && var d := Decide(app, env, w);
    d.Decided? ==> Head(Exec(w.core, d.script, env.newId, d.snapshot.manifest, d.cmds, []).script).Succeeds?
  }

  lemma {:induction false} FoldIgnoresBookkeeping(s: Status, t: Status, cmds: seq<Cmd>)
    requires s.authority == t.authority && s.keyIds == t.keyIds && s.clientId == t.clientId
    ensures FoldStatus(s, cmds).authority == FoldStatus(t, cmds).authority
    ensures FoldStatus(s, cmds).keyIds == FoldStatus(t, cmds).keyIds
    ensures FoldStatus(s, cmds).clientId == FoldStatus(t, cmds).clientId
  {
    if cmds != [] { FoldIgnoresBookkeeping(s, t, cmds[..|cmds| - 1]); }
  }

  lemma StatusWriteRecords(
    w: World, script: seq<Outcome>, kind: Option<Kind>, instance: Crd, state: string, executed: seq<Cmd>)
    requires w.crd == Some(instance) && instance.finalizer && Head(script).Succeeds?
    requires kind == Some(DeleteKind) ==> instance.deleting
    requires Records(FoldStatus(instance.status, executed), w.core)
    ensures UpToDate(UpdateStatus(w, script, kind, instance, state, executed).world)
  {
    FoldIgnoresBookkeeping(instance.status, instance.status.(state := state, lastActions := ActionNames(executed)), executed);
  }

  lemma DecisionKeepsStatus(app: App, env: RoundEnv, w: World)
    requires Inv(app, w) && UpToDate(w)
    ensures var d := Decide(app, env, w);
            UpToDate(if d.Stopped? then d.end.world else d.world)
    ensures NothingLost(env.script) && Decide(app, env, w).Decided? ==> NothingLost(Decide(app, env, w).script)
  {
    RestIsPart(env.script);
    var l := LoadInstance(w, env.script);
    LoadPrepares(w, env.script);
    if l.loading.Loaded? {
      RestIsPart(l.script);
      FetchConsumes(app, l.world.core, l.script, l.loading.instance);
      var f := FetchState(app, l.world.core, l.script, l.loading.instance);
      var status := l.loading.instance.status;
      FoldIgnoresBookkeeping(status, status.(state := "error", lastActions := ActionNames([])), []);
    }
  }

  lemma RestIsPart(script: seq<Outcome>)
    ensures NothingLost(script) ==> NothingLost(Tail(script)) && NothingLost(Tail(Tail(script)))
  {
    assert forall o :: o in Tail(script) ==> o in script;
    assert forall o :: o in Tail(Tail(script)) ==> o in Tail(script);
  }

  lemma FetchConsumes(app: App, core: Core, script: seq<Outcome>, instance: Crd)
    ensures NothingLost(script) ==> NothingLost(FetchState(app, core, script, instance).script)
  {
    RestIsPart(script);
    RestIsPart(Tail(script));
    RestIsPart(Tail(Tail(script)));
  }

  lemma RoundKeepsRecord(app: App, env: RoundEnv, w: World)
    requires Inv(app, w) && UpToDate(w) && Recorded(app, env, w)
    ensures UpToDate(Round(app, env, w).world)
  {
    DecisionKeepsStatus(app, env, w);
    DecisionIsAccurate(app, env, w);
    var d := Decide(app, env, w);
    if d.Decided? {
      PlanFits(app, env.inputs, env.newId, d.snapshot, d.snapshot.crd.status);
      StatusSimulatesSecret(w.core, d.script, env.newId, d.snapshot.manifest, d.cmds, [], d.snapshot.crd.status);
      AssertionNeverFires(app, env.inputs, d.snapshot, w.core, d.script, env.newId, d.cmds);
      CarryOutRecords(app, env, w, d);
    }
  }

  lemma CarryOutRecords(app: App, env: RoundEnv, w: World, d: Decision)
    requires d.Decided? && Accurate(app, w, d)
    requires var x := Exec(w.core, d.script, env.newId, d.snapshot.manifest, d.cmds, []);
             && !x.end.AssertionFailed? && Head(x.script).Succeeds?
             && Records(FoldStatus(d.snapshot.crd.status, x.executed), x.core)
    ensures UpToDate(CarryOut(env, d).world)
  {
    var x := Exec(w.core, d.script, env.newId, d.snapshot.manifest, d.cmds, []);
    var after := d.world.(core := x.core);
    StatusWriteRecords(after, x.script, None, d.snapshot.crd, "error", x.executed);
    StatusWriteRecords(after, x.script, Some(d.kind), d.snapshot.crd, "reconciled", x.executed);
  }

  /** A user change that leaves the secret's settings as they are. */
  ghost predicate LeavesSettings(a: World, b: World) { TheContent(b.core) == TheContent(a.core) }

  ghost predicate AllRecorded(app: App, w: World, events: seq<Event>) {
    forall i :: 0 <= i < |events| ==>
                  match events[i]
                  case Reconcile(env) => Recorded(app, env, Run(app, w, events[..i]))
                  case Change(to) => LeavesSettings(Run(app, w, events[..i]), to)
  }

  /** Over every run in which no response and no status write is lost and users leave the settings alone,
      the status records the secret: through creation, recovery, rotation, failed commands and
      deletion. */
  lemma {:induction false} StatusFollowsSecret(app: App, w: World, events: seq<Event>)
    requires Initial(app, w) && AllRecorded(app, w, events)
    ensures UpToDate(Run(app, w, events))
  {
    if events != [] {
      var most := events[..|events| - 1];
      var front := Run(app, w, most);
      forall i | 0 <= i < |most|
        ensures match most[i]
                case Reconcile(env) => Recorded(app, env, Run(app, w, most[..i]))
                case Change(to) => LeavesSettings(Run(app, w, most[..i]), to)
      {
        assert most[..i] == events[..i] && most[i] == events[i];
      }
      StatusFollowsSecret(app, w, most);
      EveryRunIsSafe(app, w, most);
      match events[|events| - 1]
      case Reconcile(env) => RoundKeepsRecord(app, env, front);
      case Change(to) =>
        if UserStep(app, front, to) && front.crd.None? {
          assert front.core.secrets != [] ==> front.core.secrets[0] in front.core.secrets;
        }
    }
  }
}
