/** All apps of one operator at once: they share the API, and each has its own resource and secrets. */
module Neighbours {
  import opened Wrappers
  import opened World
  import opened ClientState
  import opened Controller
  import opened Invariant

  datatype Local = Local(crd: Option<Crd>, secrets: seq<Secret>)

  datatype System = System(api: Api, apps: map<App, Local>)

  /** The system as one app sees it. */
  function Seen(s: System, app: App): World
    requires app in s.apps
  {
    World(s.apps[app].crd, Core(s.api, s.apps[app].secrets))
  }

  ghost predicate OneOperator(s: System, owner: string, environment: string) {
    forall app :: app in s.apps ==> app.owner == owner && app.environment == environment
  }

  lemma NamesDiffer(a: App, b: App)
    requires a.owner == b.owner && a.environment == b.environment && a.appId != b.appId
    ensures a.ClientName() != b.ClientName()
  {
    var prefix := a.NamePrefix();
    assert a.ClientName()[|prefix|..] == a.appId && b.ClientName()[|prefix|..] == b.appId;
  }

  lemma FramedIsAUserStep(app: App, a: Core, b: Core, other: App, v: World)
    requires ForeignersFramed(app, a, b) && b.api.Valid() && app.ClientName() != other.ClientName()
    requires forall id :: Bears(app, a.api, id) && id in b.api.clients ==> Bears(app, b.api, id)
    requires Guarded(other, v) && v.core.api == a.api
    ensures UserStep(other, v, v.(core := v.core.(api := b.api)))
  {
  }

  /** To its neighbours, a round of one app is a change that users might have made: it keeps the API in
      order, leaves their clients as they are, and makes none that bears their names. */
  lemma RoundIsAUserStep(app: App, env: RoundEnv, w: World, other: App, v: World)
    requires Inv(app, w) && Guarded(other, v) && v.core.api == w.core.api
    requires app.owner == other.owner && app.environment == other.environment && app.appId != other.appId
    ensures UserStep(other, v, v.(core := v.core.(api := Round(app, env, w).world.core.api)))
  {
    NamesDiffer(app, other);
    RoundChange(app, env, w);
    FramedIsAUserStep(app, w.core, Round(app, env, w).world.core, other, v);
  }

  datatype Move = RoundOf(app: App, env: RoundEnv) | ChangeTo(to: System)

  /** Users may change everything at once, as long as no app's part is changed in a way it must not be. */
  ghost predicate Admissible(a: System, b: System) {
    a.apps.Keys == b.apps.Keys && forall app :: app in a.apps ==> UserStep(app, Seen(a, app), Seen(b, app))
  }

  ghost function Moved(s: System, m: Move): System {
    match m
    case ChangeTo(to) => if Admissible(s, to) then to else s
    case RoundOf(app, env) =>
      if app !in s.apps then s
      else
        var z := Round(app, env, Seen(s, app)).world;
        System(z.core.api, s.apps[app := Local(z.crd, z.core.secrets)])
  }

  ghost function Moves(s: System, moves: seq<Move>): System {
    if moves == [] then s else Moved(Moves(s, moves[..|moves| - 1]), moves[|moves| - 1])
  }

  ghost predicate AllSafe(s: System) { forall app :: app in s.apps ==> Inv(app, Seen(s, app)) }

  lemma MoveKeepsAll(s: System, m: Move, owner: string, environment: string)
    requires AllSafe(s) && OneOperator(s, owner, environment)
    ensures AllSafe(Moved(s, m)) && OneOperator(Moved(s, m), owner, environment)
  {
    var z := Moved(s, m);
    match m
    case ChangeTo(to) =>
      if Admissible(s, to) {
        forall app | app in z.apps ensures Inv(app, Seen(z, app)) {
          UserKeepsInv(app, Seen(s, app), Seen(z, app));
        }
      }
    case RoundOf(app, env) =>
      if app in s.apps {
        RoundKeepsInv(app, env, Seen(s, app));
        forall other | other in z.apps ensures Inv(other, Seen(z, other)) {
          if other != app {
            RoundIsAUserStep(app, env, Seen(s, app), other, Seen(s, other));
            UserKeepsInv(other, Seen(s, other), Seen(z, other));
          }
        }
      }
  }

  /** Safety of all apps together: whichever of them have their rounds, in whatever order, cut wherever, and
      whatever users change in between, each app keeps what `EveryRunIsSafe` says of one alone. */
  lemma {:induction false} EverySystemRunIsSafe(s: System, moves: seq<Move>, owner: string, environment: string)
    requires OneOperator(s, owner, environment) && forall app :: app in s.apps ==> Initial(app, Seen(s, app))
    ensures AllSafe(Moves(s, moves)) && OneOperator(Moves(s, moves), owner, environment)
  {
    if moves != [] {
      var most := moves[..|moves| - 1];
      EverySystemRunIsSafe(s, most, owner, environment);
      MoveKeepsAll(Moves(s, most), moves[|moves| - 1], owner, environment);
    }
  }

  /** And none touches another's resource, secrets or client. */
  lemma RoundLeavesOthers(s: System, app: App, env: RoundEnv, other: App, id: string)
    requires AllSafe(s) && app in s.apps && other in s.apps && other != app
    requires app.owner == other.owner && app.environment == other.environment
    ensures var z := Moved(s, RoundOf(app, env));
            && other in z.apps && z.apps[other] == s.apps[other]
            && (Bears(other, s.api, id) ==> id in z.api.clients && z.api.clients[id] == s.api.clients[id])
            && (Bears(other, z.api, id) ==> Bears(other, s.api, id))
  {
    RoundIsAUserStep(app, env, Seen(s, app), other, Seen(s, other));
  }
}
