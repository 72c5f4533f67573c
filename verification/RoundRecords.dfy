/** What a round answers, and what it leaves in the status of the resource. */
module RoundRecords {
  import opened Wrappers
  import opened Text
  import opened Keys
  import opened World
  import opened ClientState
  import opened Controller
  import opened Invariant
  import opened SmoothRounds

  // ---- the status fields ----

  /** The type names of the commands, in order. */
  ghost predicate NamedInOrder(names: seq<string>, cmds: seq<Cmd>) {
    && |names| == |cmds|
    && forall i :: 0 <= i < |cmds| ==>
                     && (cmds[i].CreateClient? ==> names[i] == "CreateClientInApiCommand")
                     && (cmds[i].UpdateSecret? ==> names[i] == "UpdateSecretContentCommand")
                     && (cmds[i].UpdateClient? ==> names[i] == "UpdateClientInApiCommand")
                     && (cmds[i].DeleteClient? ==> names[i] == "DeleteClientInApiCommand")
                     && (cmds[i].DeleteSecret? ==> names[i] == "DeleteSecretContentCommand")
  }

  predicate OnClient(c: Cmd) { c.CreateClient? || c.UpdateClient? || c.DeleteClient? }

  predicate OnSecret(c: Cmd) { c.UpdateSecret? || c.DeleteSecret? }

  /** The client id a status has after a command on the client. */
  ghost predicate ClientIdAfter(clientId: string, c: Cmd) {
    && (c.CreateClient? ==> clientId == c.clientId)
    && (c.UpdateClient? ==> clientId == c.id)
    && (c.DeleteClient? ==> clientId == "")
  }

  /** The authority and key ids a status has after a command on the secret. */
  ghost predicate SecretAfter(authority: string, keyIds: seq<string>, c: Cmd) {
    && (c.DeleteSecret? ==> authority == "" && keyIds == [])
    && (c.UpdateSecret? ==>
          && authority == c.content.authority
          && (c.content.jwks.Some? ==>
                && |keyIds| == |c.content.jwks.value|
                && forall i :: 0 <= i < |keyIds| ==> keyIds[i] == c.content.jwks.value[i].kid))
  }

  predicate IsLastOf(cmds: seq<Cmd>, i: int, on: Cmd -> bool) {
    0 <= i < |cmds| && on(cmds[i]) && forall j :: i < j < |cmds| ==> !on(cmds[j])
  }

  lemma LastOfMore(cmds: seq<Cmd>, on: Cmd -> bool)
    requires cmds != []
    ensures var n := |cmds| - 1;
            if on(cmds[n]) then forall i :: IsLastOf(cmds, i, on) <==> i == n
            else forall i :: IsLastOf(cmds, i, on) <==> IsLastOf(cmds[..n], i, on)
    ensures (forall c :: c in cmds ==> !on(c)) <==> !on(cmds[|cmds| - 1]) && forall c :: c in cmds[..|cmds| - 1] ==> !on(c)
  {
    var n := |cmds| - 1;
    assert cmds == cmds[..n] + [cmds[n]];
    assert forall i :: 0 <= i < n ==> cmds[..n][i] == cmds[i];
  }

  lemma {:induction false} FoldClient(s: Status, cmds: seq<Cmd>)
    ensures var z := FoldStatus(s, cmds);
            && z.state == s.state && z.lastActions == s.lastActions
            && (forall i :: IsLastOf(cmds, i, OnClient) ==> ClientIdAfter(z.clientId, cmds[i]))
            && ((forall c :: c in cmds ==> !OnClient(c)) ==> z.clientId == s.clientId)
  {
    if cmds != [] {
      FoldClient(s, cmds[..|cmds| - 1]);
      LastOfMore(cmds, OnClient);
    }
  }

  lemma SecretStep(s: Status, c: Cmd)
    ensures var z := StatusAfter(s, c);
            if OnSecret(c) then SecretAfter(z.authority, z.keyIds, c)
            else z.authority == s.authority && z.keyIds == s.keyIds
  {
  }

  lemma {:induction false} FoldSecret(s: Status, cmds: seq<Cmd>)
    ensures var z := FoldStatus(s, cmds);
            && (forall i :: IsLastOf(cmds, i, OnSecret) ==> SecretAfter(z.authority, z.keyIds, cmds[i]))
            && ((forall c :: c in cmds ==> !OnSecret(c)) ==> z.authority == s.authority && z.keyIds == s.keyIds)
  {
    if cmds != [] {
      FoldSecret(s, cmds[..|cmds| - 1]);
      SecretStep(FoldStatus(s, cmds[..|cmds| - 1]), cmds[|cmds| - 1]);
      LastOfMore(cmds, OnSecret);
    }
  }

  /** Each part of the status is what the last command on it says, and what it was where there is none. */
  ghost predicate Reflects(before: Status, after: Status, cmds: seq<Cmd>) {
    && (forall i :: IsLastOf(cmds, i, OnClient) ==> ClientIdAfter(after.clientId, cmds[i]))
    && ((forall c :: c in cmds ==> !OnClient(c)) ==> after.clientId == before.clientId)
    && (forall i :: IsLastOf(cmds, i, OnSecret) ==> SecretAfter(after.authority, after.keyIds, cmds[i]))
    && ((forall c :: c in cmds ==> !OnSecret(c)) ==>
          after.authority == before.authority && after.keyIds == before.keyIds)
  }

  lemma FoldMeaning(s: Status, cmds: seq<Cmd>)
    ensures var z := FoldStatus(s, cmds);
            z.state == s.state && z.lastActions == s.lastActions && Reflects(s, z, cmds)
  {
    FoldClient(s, cmds);
    FoldSecret(s, cmds);
  }

  // ---- loading ----

  /** Loading fails where the read does, and where the write that adds the finalizer does not report success;
      that write leaves the status alone. */
  lemma LoadMeaning(w: World, script: seq<Outcome>)
    ensures var l := LoadInstance(w, script);
            var adds := w.crd.Some? && !w.crd.value.deleting && !w.crd.value.finalizer;
            && (l.loading.LoadFailed? <==> !Nth(script, 0).Succeeds? || (adds && !Nth(script, 1).Succeeds?))
            && (l.loading.NotFound? <==> Nth(script, 0).Succeeds? && w.crd.None?)
            && (l.loading.Loaded? ==>
                  && l.world.crd == Some(l.loading.instance)
                  && (l.loading.kind == DeleteKind <==> w.crd.value.deleting) && (l.loading.kind == CreateKind <==> adds)
                  && l.script == From(script, if adds then 2 else 1))
            && l.world == (if adds && Nth(script, 0).Succeeds? && !Nth(script, 1).Refused?
                           then w.(crd := Some(w.crd.value.(finalizer := true, scopes := Resent(w.crd.value.scopes))))
                           else w)
  {
    ScriptUnfolds(script);
  }

  // ---- the last write of a round ----

  /** The status was written with this state, the names of these commands and what they say, unless the write
      was refused. */
  ghost predicate Recorded(before: Crd, after: World, write: Outcome, state: string, cmds: seq<Cmd>) {
    && after.crd.Some?
    && after.crd.value.(status := before.status) == before
    && if write.Refused? then after.crd.value == before
       else
         && after.crd.value.status.state == state && NamedInOrder(after.crd.value.status.lastActions, cmds)
         && Reflects(before.status, after.crd.value.status, cmds)
  }

  lemma ErrorIsRecorded(w: World, script: seq<Outcome>, instance: Crd, executed: seq<Cmd>)
    requires w.crd == Some(instance)
    ensures var r := ReportError(w, script, instance, executed);
            && r.reply == Failed && r.world.core == w.core
            && Recorded(instance, r.world, Head(script), "error", executed)
  {
    FoldMeaning(instance.status.(state := "error", lastActions := ActionNames(executed)), executed);
  }

  lemma SuccessIsRecorded(w: World, script: seq<Outcome>, kind: Kind, instance: Crd, executed: seq<Cmd>)
    requires w.crd == Some(instance) && (instance.deleting || instance.finalizer) && (kind == DeleteKind <==> instance.deleting)
    ensures var u := UpdateStatus(w, script, Some(kind), instance, "reconciled", executed);
            && u.ok == Head(script).Succeeds? && u.world.core == w.core
            && if instance.deleting && instance.finalizer then u.world.crd == if Head(script).Refused? then Some(instance) else None
               else Recorded(instance, u.world, Head(script), "reconciled", executed)
  {
    FoldMeaning(instance.status.(state := "reconciled", lastActions := ActionNames(executed)), executed);
  }

  /** How a round ends, for every world, all inputs and every fate of its calls. Where the resource cannot be loaded, it fails, or there is none. Where the snapshot cannot
      be taken, the decision not be made, or a command not be carried out, it fails, and records "error" with
      the commands that were carried out. Where all are, it records "reconciled" with their names and asks to
      be repeated, or ends the resource; and where there were none, it records nothing and asks for
      nothing. */
  lemma RoundEnds(app: App, env: RoundEnv, w: World)
    ensures
      var l, r := LoadInstance(w, env.script), Round(app, env, w);
      match l.loading
      case LoadFailed => r == RoundResult(l.world, Failed)
      case NotFound => r == RoundResult(w, Quiet)
      case Loaded(kind, instance) =>
        var f := FetchState(app, w.core, l.script, instance);
        if f.result.Err? then
          r.reply == Failed && r.world.core == w.core && Recorded(instance, r.world, Head(f.script), "error", [])
        else
          var plan := Plan(app, env.inputs, f.result.value);
          if plan.Err? then
            r.reply == Failed && r.world.core == w.core && Recorded(instance, r.world, Head(f.script), "error", [])
          else
            var x := Exec(w.core, f.script, env.newId, f.result.value.manifest, plan.value, []);
            && r.world.core == x.core
            && match x.end
               case AssertionFailed => r.reply == Crashed && r.world.crd == Some(instance)
               case CommandFailed => r.reply == Failed && Recorded(instance, r.world, Head(x.script), "error", x.executed)
               case AllExecuted =>
                 if plan.value == [] then r.reply == Quiet && r.world.crd == Some(instance)
                 else
                   && r.reply == (if Head(x.script).Succeeds?
                                  then Requeue(RandomizeDuration(env.requeueAfter, env.offset)) else Failed)
                   && if instance.deleting && instance.finalizer then r.world.crd == if Head(x.script).Refused? then Some(instance) else None
                      else Recorded(instance, r.world, Head(x.script), "reconciled", x.executed)
  {
    LoadMeaning(w, env.script);
    var l := LoadInstance(w, env.script);
    if l.loading.Loaded? {
      var instance := l.loading.instance;
      var f := FetchState(app, w.core, l.script, instance);
      ErrorIsRecorded(l.world, f.script, instance, []);
      if f.result.Ok? {
        var plan := Plan(app, env.inputs, f.result.value);
        if plan.Ok? {
          DecidedEnds(app, env, l.world, f.script, l.loading.kind, f.result.value, plan.value);
        }
      }
    }
  }

  lemma DecidedEnds(
    app: App, env: RoundEnv, w: World, script: seq<Outcome>, kind: Kind, s: Snapshot, cmds: seq<Cmd>)
    requires w.crd == Some(s.crd) && (s.crd.deleting || s.crd.finalizer) && (kind == DeleteKind <==> s.crd.deleting)
    ensures var r := CarryOut(env, Decided(w, script, kind, s, cmds));
            var x := Exec(w.core, script, env.newId, s.manifest, cmds, []);
            && r.world.core == x.core
            && match x.end
               case AssertionFailed => r.reply == Crashed && r.world.crd == Some(s.crd)
               case CommandFailed => r.reply == Failed && Recorded(s.crd, r.world, Head(x.script), "error", x.executed)
               case AllExecuted =>
                 if cmds == [] then r.reply == Quiet && r.world.crd == Some(s.crd)
                 else
                   && r.reply == (if Head(x.script).Succeeds?
                                  then Requeue(RandomizeDuration(env.requeueAfter, env.offset)) else Failed)
                   && if s.crd.deleting && s.crd.finalizer then r.world.crd == if Head(x.script).Refused? then Some(s.crd) else None
                      else Recorded(s.crd, r.world, Head(x.script), "reconciled", x.executed)
  {
    var x := Exec(w.core, script, env.newId, s.manifest, cmds, []);
    ExecutedIsThePrefix(w.core, script, env.newId, s.manifest, cmds, []);
    var after := w.(core := x.core);
    ErrorIsRecorded(after, x.script, s.crd, x.executed);
    SuccessIsRecorded(after, x.script, kind, s.crd, x.executed);
  }

  // ---- the request and the delay ----

  /** A request whose name has no dash fails, and nothing is read or written. */
  lemma UndashedRequestFails(owner: string, environment: string, name: string, env: RoundEnv, w: World)
    requires '-' !in name
    ensures Requested(owner, environment, name, env, w) == RoundResult(w, Failed)
  {
    PartsCount(name, '-');
  }

  /** Any other is served as the app between its first two dashes, or behind its only one. */
  lemma RequestIsForTheSecondPart(
    owner: string, environment: string, first: string, appId: string, more: string, env: RoundEnv, w: World)
    requires '-' !in first && '-' !in appId
    ensures Requested(owner, environment, first + "-" + appId, env, w) == Round(App(owner, environment, appId), env, w)
    ensures Requested(owner, environment, first + "-" + appId + "-" + more, env, w)
         == Round(App(owner, environment, appId), env, w)
  {
    AppIdEndsAtTheSecondDash(first, appId, more);
  }

  /** Each draw is another delay, a nanosecond after that of the draw before, from the tenth below on. */
  lemma DelayFollowsDraw(d: nat, draw: nat)
    ensures RandomizeDuration(d, 0) == d - MaxOffset(d)
    ensures RandomizeDuration(d, draw + 1) == RandomizeDuration(d, draw) + 1
  {
  }

  /** A command that carries both a request and keys changes the client first, and its keys only if that
      succeeded. */
  lemma ClientBeforeKeys(core: Core, script: seq<Outcome>, newId: string, m: Secret, id: string, req: Request, keys: seq<Jwk>)
    ensures var c := UpdateClient(id, Some(req), Some(keys));
            var first := Send(core, script, PutClient(id, req.name, SentScopes(req.scopes)));
            SendAll(core, script, WritesOf(newId, m, c))
            == if first.ok then Send(first.core, first.script, PostJwks(id, keys)) else first
  {
    var put, post := PutClient(id, req.name, SentScopes(req.scopes)), PostJwks(id, keys);
    SendFirst(core, script, put, [post]);
    var first := Send(core, script, put);
    SendOne(first.core, first.script, post);
    assert WritesOf(newId, m, UpdateClient(id, Some(req), Some(keys))) == [put] + [post];
  }
}
