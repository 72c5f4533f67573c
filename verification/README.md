# Reconciliation of Maskinporten clients, verified

The operator keeps three things in step for every app: the `MaskinportenClient` resource in Kubernetes, a
client registered in the Maskinporten self-service API, and a settings entry with private keys in the app's
secret. It does so in rounds. A round reads the three, decides on a list of commands, sends them one call at a
time, stops at the first that fails, folds what was carried out into the resource's status, and adds or removes
the resource's finalizer. Any call may be refused, or may take effect and lose its response.

This project models that protocol, the rotation of keys inside it, the cache in front of the API and the
in-memory store of the fakes, and proves what they keep. `dafny verify dfyconfig.toml` checks everything.

## How it is built

| Module | Part of the system |
|---|---|
| `Text`, `Keys` | key ids as they are printed, split and parsed; JSON Web Keys reduced to key pair, private half, certificates and key id |
| `Rotation`, `KeyService` | key creation and rotation, as functions and as the loops of the crypto service tied to them |
| `World` | the API, the secrets, the resource; a call and what becomes of it |
| `ClientState`, `ClientObjects` | the decision, as a function of a snapshot, and as code that builds commands over shared objects |
| `Controller`, `Reconciler`, `HttpApiClient` | one round, as a function of world, inputs and the fate of each call, and as the code that changes objects call by call |
| `RoundRecords` | what a round answers, and what it leaves in the status of the resource |
| `Invariant` | what every call of every round keeps, under any faults and any changes users make in between |
| `SmoothRounds`, `Convergence`, `Deletion` | what rounds without faults achieve, and where deletion stops short |
| `KeyContinuity`, `RotationCuts`, `SecretWrites`, `SigningKey`, `StatusRecord`, `Expiry` | keys registered with the API, interrupted rotations, what reaches the secret, the signing key, the status, time |
| `Neighbours` | all apps of one operator at once, sharing the API |
| `CachedAtom` | the cache under any interleaving of any number of threads |
| `FakeDb` | the record slice and its index, one operation at a time and over sequences of them |
| `Examples` | concrete runs, from a world without anything, and inputs on which the failures below occur |

Code that changes things in place is written as classes and loops, and each method is tied to a function:
`Reconciler.MaskinportenClientReconciler.Reconcile` leaves the world and gives the answer that
`Controller.Round` says, for every world and every sequence of outcomes. The properties are then proved about
the functions, over runs of any length.

The network is a script of outcomes, one for each call in turn: it succeeds, it is refused, or it takes effect
and the response is lost. An unfinished script goes on without faults. `Invariant.Run` is a run: rounds with
arbitrary inputs and scripts, and user changes (`Invariant.UserStep`) between them.

## What turned out not to hold

Each of these is stated with the condition under which it does hold, and `Examples` has a concrete case of it.

* **A deletion can fail to end.** A round without commands returns before it touches the finalizer, so a
  resource under deletion for which nothing is left, or nothing was ever made, keeps its finalizer in every run
  (`Deletion.StrandedForever`). It takes no fault: a resource that was seen once before its secret existed has
  its finalizer and nothing else (`Deletion.RequestStrandsIff`, `Examples.DeletionOfNothingNeverEnds`). A
  deletion round that has something to delete leads there exactly when the secret is there, the first five calls
  succeed, and either the response to the sixth, which deletes the client, is lost, or it succeeds and the
  seventh, which writes the finalizer, is refused (`Deletion.RoundStrandsIff`, `Examples.DeletionNeverEnds`).
* **A deletion needs the app's secret.** The snapshot cannot be taken without it, not even for a deletion. When
  the secret goes first, as it may in an uninstall, every round fails, and client and resource stay for good
  (`Deletion.DeletionNeedsTheSecret`, `Examples.UninstallLeavesTheClient`). A round without faults leaves nothing
  exactly when the secret is there or there was nothing to delete (`Deletion.SmoothDeletion`).
* **An interrupted rotation silences the signing key.** The secret is written before the API, and nothing ever
  compares the two. From agreement, and with a key pair that is new, a round leaves the app signing with a key
  the API does not know exactly when a rotation was due, its four reads succeed, the secret is written and the
  key set is not (`RotationCuts.SilencedIffCutShort`, `Examples.SigningKeyIsSilenced`); rounds without faults
  change nothing until the next rotation (`RotationCuts.OneCutSilencesTheSigningKey`). The key the rotation kept
  is still known. Two rounds lose contact altogether exactly when both are cut so
  (`RotationCuts.TwoCutsLoseContact`, `Examples.ContactIsLost`). A round without faults ends in agreement exactly
  when there was agreement before or a rotation was due (`KeyContinuity.SmoothAgreement`).
* **The operator's own schedule stops before the first rotation.** The round after the one that created
  everything finds nothing to do and asks for no further round (`Expiry.OwnScheduleStopsBeforeRotation`,
  `Examples.ScheduleStops`). Expiry is therefore proved relative to rounds that somebody starts.
* **An empty, non-nil scope list never settles once the resource has its finalizer.** It is sent to the API as
  nothing, read back as nil, and compared as different. On a resource without finalizer the operator's own write
  of the resource drops the list (api/v1alpha1/maskinportenclient_types.go:16), and it settles. Two rounds
  without faults settle a living resource exactly when its secret is there and its list is not of that kind, or
  the finalizer is still to be written (`Convergence.TwoRoundsSettle`, `Examples.EmptyScopesNeverSettle`,
  `Examples.EmptyScopesOfANewResourceSettle`).
* **Removing a record from the fake store breaks its index** exactly when the record is not the last
  (`FakeDb.DeleteKeepsIndexedIffLast`, and over sequences `FakeDb.IndexedThroughoutIff`); the moved record can
  then no longer be looked up (`FakeDb.DeleteStrandsTheLast`), and after one insertion its id overwrites the keys
  of the new record (`FakeDb.StaleEntryHitsTheNext`).
* **The cache can return nothing and no error** on a clock within one expiry period of Go's zero time, because
  the second check takes the unset time for a time (`CachedAtom.EmptyReturnIffEarlyClock`).
* **An app whose name contains a dash gets a shortened app id** (`World.AppIdIsWholeUnlessDashed`).

Comments in the source give the order "update API before secret" as an intention
(internal/maskinporten/client_state.go:312-313); the code does the reverse, and the model follows the code.

## Model

| member | source | states |
|---|---|---|
| Invariant.EveryRunIsSafe | internal/controller/maskinportenclient_controller.go:66-145 | over every run, whatever calls fail or lose their response and whatever users do in between: at most one client bears the app's name, every settings entry names that client by a non-empty id and holds usable keys with the first as signing key, and client or content exist only while the resource holds its finalizer |
| Invariant.RoundKeepsInv | internal/controller/maskinportenclient_controller.go:348-432 | one round, cut at any call, keeps that invariant |
| Invariant.RoundChange | internal/controller/maskinportenclient_controller.go:348-432 | wherever it is cut, a round on a living resource loses neither client nor content, a deletion round only takes away, and neither touches another secret entry or another client |
| Invariant.WritesAlong | internal/maskinporten/client_state.go:195-357 | the same at every single state the round's writes pass through, the one between the two calls of a client's creation included |
| Invariant.RoundCrd | internal/controller/maskinportenclient_controller.go:202-224 | a resource disappears only in a round that leaves neither client nor content, whenever something was changed and the resource remains its finalizer is there, the wanted scopes are kept except that the write that adds the finalizer drops a list that is present but empty, and no round ends in a failed assertion |
| Invariant.ErrorReportKeepsCrd | internal/controller/maskinportenclient_controller.go:227-242 | reporting an error changes at most the status |
| Invariant.LoadPrepares | internal/controller/maskinportenclient_controller.go:244-272 | loading touches nothing outside the resource, never takes its finalizer, and keeps the wanted scopes except that the write that adds the finalizer drops a list that is present but empty; a loaded resource has its finalizer, and is handled as a deletion exactly when it is being deleted |
| Invariant.DroppedScopesDoNotShow | internal/controller/maskinportenclient_controller.go:205-213 | whether the object in memory still shows the dropped list makes no difference to what the round writes |
| Invariant.FetchIsAccurate | internal/controller/maskinportenclient_controller.go:274-346 | in any state of the invariant a successful fetch shows the app's secret, its content and the client that bears the app's name, and misses none of them |
| Invariant.FetchFailsOnlyOutside | internal/controller/maskinportenclient_controller.go:274-346 | in any state of the invariant a fetch fails only where a read does or where there is not one opaque secret |
| Invariant.FullDeletionLeavesNothing | internal/maskinporten/client_state.go:196-211 | a deletion round that carries out all its commands leaves neither content nor client |
| Invariant.AssertionNeverFires | internal/controller/maskinportenclient_controller.go:401-405 | whatever the API answers, a content that is about to be written already has its client id |
| Invariant.ExecutedIsThePrefix | internal/controller/maskinportenclient_controller.go:361-431 | the commands reported as carried out are those before the first that failed, each as planned but for the id that the API answered, and all of them exactly when none failed |
| Invariant.NeverStuck | internal/maskinporten/client_state.go:157-357 | in any state of the invariant the decision fails only where key generation does, and every key set it sends is public |
| Invariant.IdIsStable | internal/maskinporten/client_state.go:254-289 | over any run without a deletion the app keeps the client it has, and gets no other |
| Invariant.RoundsTouchNothingElse | internal/controller/maskinportenclient_controller.go:401-422 | over any run of rounds no other entry of any secret and no client of another name changes |
| Invariant.UserKeepsInv | internal/controller/maskinportenclient_controller.go:258-269 | what users and the cluster may do between rounds keeps the invariant, since a resource with a finalizer cannot vanish |
| Neighbours.EverySystemRunIsSafe | internal/controller/maskinportenclient_controller.go:66-145 | all apps of one operator, sharing the API: over every run of their rounds in any order, cut anywhere, and of user changes, every app keeps the invariant |
| Neighbours.RoundIsAUserStep | internal/maskinporten/http_api_client.go:157-169 | to any other app of the operator a round is a change that users might have made |
| Neighbours.RoundLeavesOthers | internal/controller/maskinportenclient_controller.go:274-431 | a round leaves resource, secrets and client of every other app as they are |
| Controller.CutIsAPrefix | internal/controller/maskinportenclient_controller.go:361-431 | under any outcomes the commands leave the state that some prefix of their writes leaves, and the whole of it when all succeed |
| World.DeliveredPrefix | internal/maskinporten/http_api_client.go:262-312 | the same for the two calls inside one command |
| Controller.SearchByName | internal/controller/maskinportenclient_controller.go:320-337 | looking for the app's name in the filtered listing finds a client exactly when one bears it |
| Controller.OwnClientsMeaning | internal/maskinporten/http_api_client.go:157-169 | of every listing, kept are exactly the listed clients whose names begin with altinnoperator-, the owner, a dash, the environment and a dash |
| Controller.OwnClientsOneMore | internal/maskinporten/http_api_client.go:157-169 | they are kept in the order of the listing, each as often as it is listed |
| Controller.GetClientMeaning | internal/maskinporten/http_api_client.go:176-222 | a client is got by two calls, the second only for one that is there and has such a name; exactly which error is reported where, and what a success shows |
| Controller.FirstNamedMeaning | internal/controller/maskinportenclient_controller.go:328-336 | the client taken is the first in the list that bears the app's name |
| Controller.FetchRejectsSecrets | internal/controller/maskinportenclient_controller.go:282-308 | several secrets, one of another type and settings that do not decode end the fetch, each with its own error and in no other case |
| Controller.FetchWithContent | internal/controller/maskinportenclient_controller.go:310-316 | with content the client is the one of its id; content without an id shows none and asks for none |
| Controller.FetchWithoutContent | internal/controller/maskinportenclient_controller.go:317-345 | without content the client is the first listed that bears the app's name, and a failure to list or get it is reported |
| Controller.FetchWithoutSecret | internal/controller/maskinportenclient_controller.go:317-343 | without a secret the API is still asked, its errors are reported, and otherwise the missing secret is |
| World.SecretRoundTrip | internal/maskinporten/client_state.go:64-103 | after a write the content reads back as written, after a delete there is none, and neither touches another entry |
| World.AppIdIsWholeUnlessDashed | internal/controller/request.go:44-66 | the app id read from the name `owner-app` is `app` exactly when that has no dash |
| World.AppIdEndsAtTheSecondDash | internal/controller/request.go:50-54 | the id is what stands between the first two dashes, or behind the only one; without a dash there is none |
| World.ClientNamesDiffer | internal/maskinporten/client_state.go:359-365 | with owners and environments without dashes no two apps have the same client name |
| RoundRecords.UndashedRequestFails | internal/controller/request.go:50-53 | a request whose name has no dash fails, and nothing is read or written |
| RoundRecords.RequestIsForTheSecondPart | internal/controller/request.go:50-54 | any other is served as the app between the first two dashes, or behind the only one |
| ClientState.NothingToDoIffSettled | internal/maskinporten/client_state.go:195-357 | the decision is to do nothing exactly when client and content exist, authority and scopes match and some key has more than seven days to go, or, on deletion, when neither exists |
| ClientState.PlanDirection | internal/maskinporten/client_state.go:196-211 | a deletion never creates or updates, and deletes the content before the client; nothing else ever deletes |
| ClientState.PlanFailsOnlyInGeneration | internal/maskinporten/client_state.go:212-352 | on usable keys the decision fails only where key generation does, and sends only public keys |
| ClientState.NoClientMeansCreation | internal/maskinporten/client_state.go:212-252 | where no client shows, a client of the app's literal name and scopes and new content are made, whatever content there is |
| ClientState.UpdateFailure | internal/maskinporten/client_state.go:293-324 | exactly when an update cannot be decided, on any content, and with which error |
| Convergence.QuietIffInPlace | internal/controller/maskinportenclient_controller.go:120-130 | a round without faults on a living resource does nothing and asks for nothing exactly when its secret is there and content and client are in place |
| Convergence.RankFalls | internal/maskinporten/client_state.go:212-352 | each round without faults and with prompt readings lowers an explicit rank from recovery to at most one update; and from anything else to being in place, exactly when the secret is there and the scope list is not one that never compares equal |
| Convergence.TwoRoundsSettle | internal/maskinporten/client_state.go:212-352 | from any reachable state of a living resource two rounds without faults and with prompt readings put everything in place, if and only if the app's secret is there and the scope list is not present and empty on a resource with its finalizer |
| Convergence.RecoveryLeavesScopes | internal/maskinporten/client_state.go:254-289 | one round that restores lost content is enough exactly when the client's scopes were right already |
| Convergence.ScopesRoundTrip | internal/maskinporten/client_request.go:30 | a scope list comes back from the API as it was sent, unless it is present and empty |
| SmoothRounds.SmoothRound | internal/controller/maskinportenclient_controller.go:66-145 | a round without faults carries out everything it decided on, asks to be repeated exactly when that was something, and ends a resource exactly when it deleted something; without the app's secret it fails and changes neither API nor secrets |
| SmoothRounds.WithoutSecret | internal/maskinporten/client_state.go:115-117 | where there is not exactly one opaque secret, every round fails and changes neither API nor secrets, whatever becomes of its calls, on a deletion too |
| SmoothRounds.CreationResult | internal/maskinporten/client_state.go:212-252 | creation registers one client under the app's name with the resource's scopes and the public halves of the keys it puts into the secret, under the id the API answered |
| SmoothRounds.RecoveryResult | internal/maskinporten/client_state.go:254-289 | recovery replaces the keys of the client found by name and writes content for it, leaving its scopes alone |
| SmoothRounds.UpdateResult | internal/maskinporten/client_state.go:290-352 | an update ends with the content, registered keys and scopes that it wants, each changed only where it differs |
| Deletion.SmoothDeletion | internal/maskinporten/client_state.go:196-211 | one deletion round without faults leaves neither content nor client if and only if the app's secret is there or there was nothing to delete, and ends the resource if and only if the secret is there and there was something |
| Deletion.DeletionSurvivesCuts | internal/controller/maskinportenclient_controller.go:318-338 | that round may come after any run, of any deletion rounds cut at any call; the same condition decides |
| Deletion.DeletionRound | internal/controller/maskinportenclient_controller.go:274-431 | every deletion round with something to delete, for every fate of its calls: nothing is left exactly when the secret is there, five calls succeed and the sixth takes effect; the resource is gone exactly when the sixth also succeeds and the seventh takes effect |
| Deletion.DeletionNeedsTheSecret | internal/maskinporten/client_state.go:115-117 | over any run of rounds a deletion without the app's secret changes neither API nor secrets, keeps the resource, and fails |
| Deletion.StrandedForever | internal/controller/maskinportenclient_controller.go:126-130 | once nothing but the finalizer is left of a deletion, no run removes it |
| Deletion.StrandedRound | internal/controller/maskinportenclient_controller.go:126-130 | a round in that state changes nothing, and without faults asks for nothing |
| Deletion.RoundStrandsIff | internal/controller/maskinportenclient_controller.go:126-130 | for every fate of its calls, exactly which deletion rounds end with nothing but the finalizer left |
| Deletion.RequestStrandsIff | internal/controller/maskinportenclient_controller.go:126-130 | a request to delete leads to that state at once exactly when neither client nor content is there |
| Deletion.OneRefusedWriteStrands | internal/controller/maskinportenclient_controller.go:202-216 | refusing the last write of a complete deletion round leads to that state |
| Deletion.RefusalAtTheEndStrands | internal/controller/maskinportenclient_controller.go:202-216 | so every deletion round whose six calls succeed and whose seventh is refused leaves the resource stuck |
| RotationCuts.KeysStayInContact | internal/maskinporten/client_state.go:299-337 | over every run, counting the rounds that are cut rotations by the state before them and the fate of their calls: without one since keys were last renewed, secret and API agree key for key in order; after one the API knows the kept key; until two in a row, some private key of every content is registered |
| RotationCuts.SilencedIffCutShort | internal/maskinporten/client_state.go:310-337 | of all rounds from agreement, under all fates of their calls, the signing key is unregistered afterwards if and only if a rotation was due, the reads succeed, the secret is written and the key set is not |
| RotationCuts.RotatingRound | internal/maskinporten/client_state.go:299-337 | a round with a rotation due, for every fate of its calls: secret written alone, both written, or nothing |
| RotationCuts.UncutRound | internal/maskinporten/client_state.go:290-352 | every other round, cut anywhere, keeps agreement and keeps a known kept key known |
| KeyContinuity.RoundKeyStep | internal/maskinporten/client_state.go:299-337 | the four ways in which a round, wherever it is cut, can leave the keys of secret and API |
| KeyContinuity.SmoothAgreement | internal/maskinporten/client_state.go:290-352 | a round without faults ends in agreement if and only if there was agreement before, or the secret is there and no key had more than seven days to go |
| KeyContinuity.SmoothRunsAgree | internal/maskinporten/client_state.go:212-352 | over every run without faults from the empty world the API's keys are the public halves of the secret's, in the same order, whichever branch each round took |
| RotationCuts.OneCutSilencesTheSigningKey | internal/maskinporten/client_state.go:310-337 | after any such round from agreement the kept key is still registered, and rounds without faults leave the signing key unregistered while everything else is in place |
| RotationCuts.TwoCutsLoseContact | internal/maskinporten/client_state.go:310-337 | from agreement, two rounds under any fates of their calls leave no private key of the secret registered if and only if each is a rotation cut short |
| SecretWrites.RoundWritesOneContent | internal/maskinporten/client_state.go:299-318 | wherever it is cut, a round on a living resource leaves the secrets alone or writes one content under the configured authority, whose keys were created where there was none, or are the old ones, or are rotated from those |
| SigningKey.SecretsSignWithTheLatest | internal/maskinporten/client_state.go:299-310 | over every run whose rounds read the clock promptly, every content names as signing key the key that expires last, in a usable and strictly descending set |
| SigningKey.SigningKeyNeverLapses | internal/crypto/crypto.go:193-212 | from one successful round of any run until seven days after it, whatever fails or is cut in between while the resource lives and its settings are left alone, the signing key has not expired |
| SigningKey.SigningKeyValidThroughout | internal/crypto/crypto.go:193-212 | over a run with successful rounds at most seven days apart the signing key is unexpired at every instant from the first of them on |
| StatusRecord.StatusFollowsSecret | internal/controller/maskinportenclient_controller.go:181-200 | over every run in which no response and no status write is lost and users leave the settings alone, the status has the client id, authority and key ids of the secret's content, and neither authority nor key ids where there is none |
| StatusRecord.StatusSimulatesSecret | internal/controller/maskinportenclient_controller.go:364-430 | folding the carried-out commands over the status follows step by step what they do to the secret, through failed commands too |
| StatusRecord.PlanFits | internal/maskinporten/client_state.go:195-357 | every command of every plan names the client that status and content name at that point |
| RoundRecords.RoundEnds | internal/controller/maskinportenclient_controller.go:66-145 | how a round ends, for all worlds, inputs and fates of its calls: a failed fetch, decision or command is answered by failure and recorded as error with the literal names of the commands carried out; a round that carried out all of some commands records reconciled with theirs, or ends the resource, and asks to be repeated if that write succeeded; a round without commands, and one that could not load the resource, records nothing |
| RoundRecords.LoadMeaning | internal/controller/maskinportenclient_controller.go:244-272 | exactly when loading fails, when there is nothing to load, which kind of request it makes, and what it writes |
| RoundRecords.FoldMeaning | internal/controller/maskinportenclient_controller.go:181-200 | client id, authority and key ids of the status are what the last command on client or secret says, and what they were where there is none |
| RoundRecords.ClientBeforeKeys | internal/controller/maskinportenclient_controller.go:384-399 | a command that carries a request and keys changes the client first, and its keys only if that succeeded |
| Expiry.RequeueDelay | internal/controller/maskinportenclient_controller.go:151-155 | the delay lies less than a tenth around the configured one, and below 80 hours for the longest that can be configured |
| RoundRecords.DelayFollowsDraw | internal/controller/maskinportenclient_controller.go:151-155 | each draw gives another delay, a nanosecond after that of the draw before |
| Expiry.FloatingOffset | internal/controller/maskinportenclient_controller.go:152 | for every delay that can be configured, the tenth computed in 64-bit floating point and truncated is the exact one |
| Expiry.SuccessLeavesValidKeys | internal/crypto/crypto.go:193-212 | every successful round with prompt readings leaves a key valid for more than seven days from its threshold reading, counted in nanoseconds, whichever branch it took |
| Expiry.RoundKeepsValidity | internal/crypto/crypto.go:196-212 | no round, cut anywhere and under any clock, shortens the time for which some key is valid |
| Expiry.KeysNeverLapse | internal/crypto/crypto.go:193-212 | from a successful round until seven days after it the secret holds an unexpired key, whatever fails or is cut in between while the resource lives and its settings are left alone |
| Expiry.KeysValidThroughout | internal/crypto/crypto.go:193-212 | over a run with any number of successful rounds, at most seven days apart, the secret holds an unexpired key at every instant from the first of them on, in the state after each event until the next |
| Expiry.KeptKeyOutlivesTheGap | internal/crypto/crypto.go:207-212 | a key kept by a rotation at most a gap after a successful round stays valid for more than seven days less that gap |
| Expiry.OwnScheduleStopsBeforeRotation | internal/controller/maskinportenclient_controller.go:126-130 | the creating round asks for another exactly when the secret is there; and at any time before the key comes up for rotation that one does nothing and asks for no other, exactly when the scopes can settle |
| Rotation.RotationIsNeeded | internal/crypto/crypto.go:161-196 | on any set with one certificate per key, rotation declines exactly when some key has more than seven days to go after the threshold reading, counted in nanoseconds |
| Rotation.RotationChoice | internal/crypto/crypto.go:161-213 | otherwise it answers a new key, numbered one above, before the first of the keys that expire last; it fails with that key's id if it does not end in a number, and else only where generation does |
| Rotation.Latest | internal/crypto/crypto.go:161-191 | the chosen key is the first among those with the greatest expiry |
| Rotation.FirstBad | internal/crypto/crypto.go:161-184 | the key complained about is the first without exactly one certificate |
| Rotation.CreatedKey | internal/crypto/crypto.go:77-148 | a created key is private, of the drawn pair, carries one certificate that expires at the requested time rounded down to a second, and its id gives the drawn UUID and its number back |
| Rotation.CreatedIdsDiffer | internal/crypto/crypto.go:82-86 | two created keys share an id exactly when they have the same UUID and the same number |
| Rotation.CreationFailure | internal/crypto/crypto.go:106-121 | exactly which failure of key generator, time or UUID creation reports |
| Rotation.CreatedKeysAreUsable | internal/crypto/crypto.go:68-75 | the first key set has one key, numbered zero, that expires thirty days after the reading, to the second, or creation fails where a generator does |
| Rotation.RotationRejects | internal/crypto/crypto.go:157-191 | a missing set, an empty one, and one with a key of other than one certificate, of which the first is named, are errors, whatever the rest |
| Rotation.RotationKeepsUsable | internal/crypto/crypto.go:152-215 | on a usable set rotation fails only where generation does and answers a usable pair that keeps the key that expires last |
| Rotation.RotationDescends | internal/crypto/crypto.go:207-212 | under prompt clock readings the new key expires strictly later than the kept one and has more than seven days to go |
| Rotation.ReachableKeySets | internal/crypto/crypto.go:68-215 | from creation through any number of rotations at any clock values a set has one or two private keys with one certificate each and consecutive numbers; under prompt readings it is strictly descending |
| Keys.ToPublicMeaning | internal/crypto/jwks.go:66-113 | the public set exists exactly when every key is private, has the same pairs and ids in the same order, no private half and no certificate, and cannot be made public again |
| Keys.KidRoundTrip | internal/crypto/crypto.go:86 | the number printed into a key id is the number read back from it, for any UUID text and any 64-bit number |
| Keys.KidTakenApart | internal/crypto/crypto.go:86 | before the last dot of a key id stands the UUID, behind it the printed number |
| Keys.KidIsUnique | internal/crypto/crypto.go:86 | two key ids are the same exactly when UUID and number are |
| Keys.KidIndexMeaning | internal/crypto/crypto.go:199-204 | a key id has an index exactly when it ends, behind its last dot, in digits with at most one sign, of a value that fits 64 bits, and the index is that value |
| Keys.WholeSeconds | internal/crypto/crypto.go:141-145 | a certificate holds the greatest whole second not after the requested time (section 4.1.2.5 of RFC 5280) |
| Text.AtoiOfItoa | internal/crypto/crypto.go:199-201 | parsing a printed 64-bit integer gives it back |
| Text.ItoaIsCanonical | internal/crypto/crypto.go:86 | a number is printed in decimal digits without leading zeros, with a minus where it is negative and no other sign |
| Text.AtoiMeaning | internal/crypto/crypto.go:201 | what text is a 64-bit integer, and which |
| Text.LastPartOfJoin | internal/crypto/crypto.go:199-200 | the last part after a separator is the text behind the last separator, whatever stands before it |
| KeyService.RotateIfNeeded | internal/crypto/crypto.go:152-215 | the loop over the keys computes the rotation whose choice, failures and result the lemmas of `Rotation` state |
| KeyService.Publish | internal/crypto/jwks.go:97-113 | the appending loop computes the public set, or fails at the first key without a private half |
| ClientObjects.Reconcile | internal/maskinporten/client_state.go:157-357 | the appended commands, over fresh objects, show exactly the decided plan; only a creation has a callback, and it reaches the object of the command behind it |
| ClientObjects.ReconcileCreation | internal/maskinporten/client_state.go:212-252 | the two commands share the content that the callback fills |
| ClientObjects.ReconcileRecovery | internal/maskinporten/client_state.go:254-289 | the commands show the recovery plan |
| ClientObjects.ReconcileUpdate | internal/maskinporten/client_state.go:290-352 | the commands show the update plan |
| ClientObjects.FillIn | internal/maskinporten/client_state.go:240-245 | the callback changes the id in both objects it shares, and nothing else |
| ClientObjects.SecretStateContent.SerializeTo | internal/maskinporten/client_state.go:64-78 | the secret's map is changed in place to hold the content and otherwise what it held |
| ClientObjects.DeleteSecretStateContent | internal/maskinporten/client_state.go:80-82 | the secret's map is changed in place to lose the settings entry and nothing else |
| ClientObjects.K8sSecret.DeepCopy | internal/controller/maskinportenclient_controller.go:406 | a copy of equal value shares no object with the manifest |
| ClientObjects.Strings | internal/maskinporten/client_state.go:399-406 | the names of the commands, in order |
| HttpApiClient.ApiClient.CreateClient | internal/maskinporten/http_api_client.go:262-312 | two calls in order, the second only after the first succeeded; an id is answered exactly when both did, and otherwise the client may be left without keys |
| HttpApiClient.ApiClient.CreateClientJwks | internal/maskinporten/http_api_client.go:367-411 | no call is made for an empty id or a missing set, nor for a set with a private key in it; otherwise the set replaces the client's keys |
| HttpApiClient.ApiClient.GetAllClients | internal/maskinporten/http_api_client.go:127-172 | the loop keeps the clients that `Controller.OwnClientsMeaning` and `Controller.OwnClientsOneMore` say |
| HttpApiClient.ApiClient.GetClient | internal/maskinporten/http_api_client.go:176-222 | the two reads of `Controller.GetClientMeaning`, made one by one, with its errors and its answer |
| HttpApiClient.ApiClient.UpdateClient | internal/maskinporten/http_api_client.go:314-365 | name and scopes of the client are replaced, its keys left alone; no call is made for an empty id |
| HttpApiClient.ApiClient.DeleteClient | internal/maskinporten/http_api_client.go:413-440 | the client is gone, or the call failed |
| Reconciler.MaskinportenClientReconciler.Reconcile | internal/controller/maskinportenclient_controller.go:66-145 | for every world, every input and every outcome of every call, the round carried out object by object and call by call ends in the world and with the answer that `RoundRecords.RoundEnds` is about; from a state of the invariant it ends in one, and no assertion fails |
| Reconciler.HandleRequest | internal/controller/request.go:44-66 | a request whose name has no dash fails before any call; any other runs the round of the app id between the first two dashes |
| Reconciler.MaskinportenClientReconciler.ExecuteAll | internal/controller/maskinportenclient_controller.go:348-432 | the executor's loop leaves the world, stops where, and reports what the plan read as values says, though the callback changes objects under it; the returned list is a prefix of the commands |
| Reconciler.MaskinportenClientReconciler.Execute | internal/controller/maskinportenclient_controller.go:367-428 | one command makes exactly its calls, up to the first that fails; only a successful creation changes an object |
| Reconciler.MaskinportenClientReconciler.FetchCurrentState | internal/controller/maskinportenclient_controller.go:274-346 | the reads, made one by one, give the snapshot that `Invariant.FetchIsAccurate` is about |
| Reconciler.MaskinportenClientReconciler.FindClient | internal/controller/maskinportenclient_controller.go:320-337 | the loop over the listing asks for the first client of the app's name and for no other |
| Reconciler.MaskinportenClientReconciler.LoadInstance | internal/controller/maskinportenclient_controller.go:244-272 | fills kind and instance into the request, in step with what the server stored |
| Reconciler.MaskinportenClientReconciler.UpdateStatus | internal/controller/maskinportenclient_controller.go:157-224 | the status fields assigned in the loop are the fold that `StatusRecord` is about; the resource is written where its finalizer changed, and its status otherwise |
| Reconciler.MaskinportenClientReconciler.UpdateStatusWithError | internal/controller/maskinportenclient_controller.go:227-242 | writes the status that `RoundRecords.RoundEnds` says a failed round records, and never the finalizer |
| CachedAtom.RetrievalsAreSpaced | internal/caching/cached_atom.go:33-58 | for any number of threads and any interleaving two successive successful retrievals lie more than the expiry period apart |
| CachedAtom.ReturnsAreFresh | internal/caching/cached_atom.go:33-58 | every return without error, at whatever action of whatever run, is of the latest retrieval that had succeeded by then; and unless it is that retrieval's own, no more than the expiry period has gone by on the clock since before its retriever was asked |
| CachedAtom.RetrievalIsStampedBefore | internal/caching/cached_atom.go:41-54 | a retrieval is stored and logged with its value and with the clock as it was when the thread decided to retrieve, however long the retriever takes and whatever others do meanwhile |
| CachedAtom.EntryIsARetrieval | internal/caching/cached_atom.go:41-54 | every entry of the log is such a retrieval, in order |
| CachedAtom.SharedCheck | internal/caching/cached_atom.go:34-39 | under the read lock a thread gives back the last retrieval's value exactly when there was one and no more than the expiry period has gone by since before it, and otherwise lets go of the lock |
| CachedAtom.ExclusiveCheck | internal/caching/cached_atom.go:41-47 | under the write lock a thread gives back the last retrieval's value exactly when no more than the expiry period has gone by since before it, and otherwise retrieves; before the first retrieval it is the zero time that counts |
| CachedAtom.DecisionsAreSpaced | internal/caching/cached_atom.go:41-47 | of two retrievals of which one directly follows the other, the clock read more than the expiry period later when the second was decided on |
| CachedAtom.ValueIffTime | internal/caching/cached_atom.go:52-53 | a value is there exactly when its time is |
| CachedAtom.EveryRunKeepsInv | internal/caching/cached_atom.go:33-58 | write holders exclude everybody, whoever is retrieving found the cache expired and nobody has refreshed it since |
| CachedAtom.FailureLeavesCache | internal/caching/cached_atom.go:47-50 | a failed retrieval changes neither value nor time |
| CachedAtom.EmptyReturnIffEarlyClock | internal/caching/cached_atom.go:42-45 | nothing and no error is returned exactly when nothing was ever retrieved and the clock reads at most one expiry period past the zero time |
| CachedAtom.LateClockNeverReturnsNothing | internal/caching/cached_atom.go:33-58 | on a later clock every return without error has a value |
| CachedAtom.AloneIsAnInterleaving | internal/caching/cached_atom.go:33-58 | a call that meets no other takes the cache, and answers, as the sequential method does |
| CachedAtom.Atom.Get | internal/caching/cached_atom.go:33-58 | the sequential method: what one call makes of value and time for its two clock readings and the retriever's answer |
| FakeDb.LookupIsScan | internal/fakes/db.go:122-134 | while index and slice describe each other, looking an id up is scanning for it |
| FakeDb.InsertKeepsIndexed | internal/fakes/db.go:93-96 | inserting keeps them in step, makes the record found, and changes no other lookup |
| FakeDb.UpdateKeepsIndexed | internal/fakes/db.go:99-107 | replacing a key set keeps them in step and changes that one record |
| FakeDb.DeleteKeepsIndexedIffLast | internal/fakes/db.go:109-120 | deleting keeps them in step if and only if the record is the last |
| FakeDb.DeleteKeepsRecords | internal/fakes/db.go:115-118 | the slice alone is right either way: exactly the deleted record is no longer found by scanning |
| FakeDb.DeleteStrandsTheLast | internal/fakes/db.go:115-118 | after any other deletion the moved record is in the slice, but its lookup runs past the end |
| FakeDb.IndexedThroughoutIff | internal/fakes/db.go:35-120 | over any sequence of operations index and slice stay in step throughout if and only if every deletion that finds its record finds it last |
| FakeDb.StoreIsAMap | internal/fakes/db.go:35-134 | from the empty store, while that is so, every lookup answers what a map from ids to records would |
| FakeDb.StaleEntryHitsTheNext | internal/fakes/db.go:99-134 | after a deletion and an insertion an id reaches another client's record exactly when the deleted record was not last and the id is the moved one's; looking it up then panics, and updating it overwrites the new record's keys |
| FakeDb.Matching | internal/fakes/db.go:136-145 | a query answers the records that match and no others |
| FakeDb.MatchingOneMore | internal/fakes/db.go:136-145 | they are answered in the order of the slice, each as often as it is there |
| FakeDb.Db.Insert | internal/fakes/db.go:35-97 | what becomes of slice and index, and of neither where name or id is refused |
| FakeDb.Db.UpdateJwks | internal/fakes/db.go:99-107 | what becomes of slice and index, and where the original would run past the slice |
| FakeDb.Db.Delete | internal/fakes/db.go:109-120 | what becomes of slice and index: the last record moves, its index entry does not |
| FakeDb.Db.Get | internal/fakes/db.go:122-134 | the lookup that `FakeDb.LookupIsScan` is about, panics included |
| FakeDb.Db.Query | internal/fakes/db.go:136-145 | the appending loop answers the matching records in order |
| Examples.ContactIsLost | internal/maskinporten/client_state.go:310-337 | a run of creation and two rotations, each cut between secret and API, after which no private key of the secret is registered |
| Examples.SigningKeyIsSilenced | internal/maskinporten/client_state.go:310-337 | after the first of those rotations, refused the write of the key set, the key the app signs with is not registered |
| Examples.DeletionNeverEnds | internal/controller/maskinportenclient_controller.go:126-130 | a run of creation, request for deletion and one round with a refused last write, after which no further run removes the finalizer |
| Examples.DeletionOfNothingNeverEnds | internal/controller/maskinportenclient_controller.go:126-130 | a run without any fault, of a resource seen before its secret is there, with the same end |
| Examples.UninstallLeavesTheClient | internal/maskinporten/client_state.go:115-117 | a run in which the secret goes along with the request to delete, after which no round deletes the client |
| Examples.ScheduleStops | internal/controller/maskinportenclient_controller.go:126-143 | the round three days after creation asks for no other, twenty days before the key comes up for rotation |
| Examples.EmptyScopesNeverSettle | internal/maskinporten/client_state.go:292 | a resource that is edited to an empty, non-nil scope list after creation, and that two rounds without faults leave unsettled, whatever their prompt inputs |
| Examples.EmptyScopesOfANewResourceSettle | internal/controller/maskinportenclient_controller.go:205-213 | the same list on a resource without finalizer settles |
| Examples.CacheReturnsNothing | internal/caching/cached_atom.go:42-45 | a call that returns neither value nor error |
| Examples.SecondWaiterFindsItDone | internal/caching/cached_atom.go:34-47 | two callers that wait for the write lock together, of which the second does not retrieve again |
| Examples.IndexBreaks | internal/fakes/db.go:115-118 | of two records the first is removed, and the index points the second past the end |
| Examples.DashedAppIsCutShort | internal/controller/request.go:50-54 | the resource `ttd-my-app` does not give the app id `my-app` |

## Assumptions

* One resource per app id, and rounds for one resource come one after another. Users change the resource only
  between rounds: within a round Kubernetes refuses a write made from a stale object, which is a refused call.
* Users and other tenants do not edit the settings entry by hand (they may remove it, or its secret), create or
  change clients of the app's name, or remove the operator's finalizer. `Invariant.UserStep` says what they may
  do.
* Reads are current. The operator reads Kubernetes through a cache; a stale read that shows the secret without its
  content would start a recovery, which replaces the API's keys before its own write of the secret is refused.
* The resource has no finalizer but the operator's.
* A call takes effect at most once. The API lists exactly the clients it has, never gives out an empty id or
  one in use, replaces all keys when a key set is posted (schemas/spec.json:919), leaves keys alone when a
  client is put, and answers an empty key set for a client that has none. An empty scope list reads back as nil.
* Fresh key pairs and UUIDs come from the random source as inputs; that they are new is a hypothesis where it
  matters (`RotationCuts.SilencedIffCutShort`, `RotationCuts.TwoCutsLoseContact`).
* The JSON codec is invertible. An entry it cannot decode is a value of its own.
* A smooth round has no failing call, working key generation, and a new id from the API. Clock readings are
  prompt when the second reading within a round comes less than 23 days and a second after the first.

## Left out

- HTTP, URLs, headers, retries and error bodies: a call is one step that succeeds, fails, or loses its response.
- RSA, X.509, JOSE and JWT encoding: a key is its pair, private flag, certificates' expiry and id.
- The request fields other than name and scopes: they are constants of the operator, or copied.
- Reconciler.MaskinportenClientReconciler.UpdateStatus: reason, time of last sync and observed generation are not modelled, because no later decision reads them.
- HttpApiClient.ApiClient.GetAllClients: an answer of null in place of a list, which the source reports as an error, is a failed read.
- The nil-pointer panics of unreachable states: rotation of an empty set is an error value, and a content without keys folds to no key ids.
- The work queue, leader election and event filters: when rounds happen is an assumption of each theorem.
- Kubernetes conflicts within a round, other than as refused calls.
- CachedAtom.Atom.Get: takes no locks; the class is the call as one thread sees it; the locks are the steps of the state machine, whose readers and writers may also overtake each other where Go's lock would queue them. A retriever that answers nil without an error, which no caller has, is not among the steps.
- Expiry.RequeueDelay: the tenth is taken in real arithmetic; that 64-bit floating point gives the same is `Expiry.FloatingOffset`, for delays up to the longest that can be configured.
- Expiry.KeysNeverLapse: about some key of the secret and one stretch of seven days; over many successful rounds it is `Expiry.KeysValidThroughout`, and for the signing key the same needs prompt clock readings in every earlier round, which is `SigningKey.SigningKeyNeverLapses`.
- CachedAtom.RetrievalsAreSpaced: successive failed retrievals may follow each other at once, as in the source.
- FakeDb.Db.Insert: the client fields that are copied or constant are reduced to name and scopes.
- The rest of the repository: configuration, key vault, telemetry, command-line tools, the fake HTTP server, generated code and manifests.
