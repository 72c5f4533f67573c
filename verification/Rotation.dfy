/** Key creation and rotation of internal/crypto/crypto.go, as functions of the key set, the clock
    readings and what the random source yields. */
module Rotation {
  import opened Wrappers
  import opened Text
  import opened Keys

  const KEY_LIFETIME: int := 30 * DAY
  const ROTATION_THRESHOLD: int := 7 * DAY

  /** The clock is read three times on the way through one reconciliation: for the expiry of a new
      key, for the rotation threshold, and when the certificate is issued. */
  datatype Readings = Readings(deadline: int, threshold: int, issue: int) {
    function NotAfter(): int { deadline + KEY_LIFETIME }

    /** A key that expires later than this is not rotated. */
    function Horizon(): int { threshold + ROTATION_THRESHOLD }

    /** The second reading comes less than 23 days (and at least a second) after the first. */
    predicate Prompt() { threshold - deadline < 23 * 24 * 3600 * 1_000_000_000 - 1_000_000_000 }
  }

  /** What one key creation draws; `None` where the generator fails. */
  datatype Entropy = Entropy(pair: Option<nat>, uuid: Option<string>)

  function CreateKey(notAfter: int, issue: int, e: Entropy, index: int): Result<Jwk, CryptoError> {
    if e.pair.None? then Err(KeyGeneration)
    else if issue >= notAfter then Err(NotAfterPassed)
    else if e.uuid.None? then Err(UuidGeneration)
    else Ok(Jwk(e.pair.value, true, [Cert(WholeSeconds(notAfter))], Kid(e.uuid.value, index)))
  }

  function CreateJwks(notAfter: int, issue: int, e: Entropy): Result<seq<Jwk>, CryptoError> {
    match CreateKey(notAfter, issue, e, 0)
    case Err(x) => Err(x)
    case Ok(k) => Ok([k])
  }

  predicate GenerationError(x: CryptoError) { x.KeyGeneration? || x.NotAfterPassed? || x.UuidGeneration? }

  predicate OneCertificateEach(keys: seq<Jwk>) { forall k :: k in keys ==> |k.certificates| == 1 }

  function NotAfter(k: Jwk): int
    requires |k.certificates| == 1
  {
    k.certificates[0].notAfter
  }

  /** The first key that does not carry exactly one certificate. */
  function FirstBad(keys: seq<Jwk>): (r: Option<nat>)
    ensures r.None? <==> OneCertificateEach(keys)
    ensures r.Some? ==> r.value < |keys| && |keys[r.value].certificates| != 1 && OneCertificateEach(keys[..r.value])
  {
    if keys == [] then None
    else
      assert keys == keys[..|keys| - 1] + [keys[|keys| - 1]];
      match FirstBad(keys[..|keys| - 1])
      case Some(i) => assert keys[..|keys| - 1][..i] == keys[..i]; Some(i)
      case None => if |keys[|keys| - 1].certificates| != 1 then Some(|keys| - 1) else None
  }

  /** The key that expires last, and the first such key where several do. */
  ghost predicate IsLatest(keys: seq<Jwk>, i: int)
    requires OneCertificateEach(keys)
  {
    && 0 <= i < |keys|
    && (forall j :: 0 <= j < |keys| ==> NotAfter(keys[j]) <= NotAfter(keys[i]))
    && (forall j :: 0 <= j < i ==> NotAfter(keys[j]) < NotAfter(keys[i]))
  }

  function Latest(keys: seq<Jwk>): (i: nat)
    requires keys != [] && OneCertificateEach(keys)
    ensures IsLatest(keys, i)
  {
    if |keys| == 1 then 0
    else
      var front := keys[..|keys| - 1];
      var i := Latest(front);
      if NotAfter(keys[|keys| - 1]) > NotAfter(front[i]) then |keys| - 1 else i
  }

  lemma LatestIsUnique(keys: seq<Jwk>, i: int, j: int)
    requires OneCertificateEach(keys) && IsLatest(keys, i) && IsLatest(keys, j)
    ensures i == j
  {
    var a, b := NotAfter(keys[i]), NotAfter(keys[j]);
  }

  /** A created key is private, carries the one certificate it was issued with, and its id gives back
      its number. */
  lemma CreatedKey(notAfter: int, issue: int, e: Entropy, index: int)
    requires IsInt64(index)
    ensures var r := CreateKey(notAfter, issue, e, index);
            && (r.Err? ==> GenerationError(r.error))
            && (r.Ok? ==> r.value.isPrivate && |r.value.certificates| == 1 && KidIndex(r.value.kid) == Some(index)
                          && NotAfter(r.value) == WholeSeconds(notAfter) && issue < notAfter)
            && (r.Ok? ==> e.uuid == Some(KidStem(r.value.kid)) && e.pair == Some(r.value.pair))
  {
    if e.uuid.Some? {
      KidRoundTrip(e.uuid.value, index);
      KidTakenApart(e.uuid.value, index);
    }
  }

  /** Creation fails with the first thing that is missing: the key, then the time, then the id. */
  lemma CreationFailure(notAfter: int, issue: int, e: Entropy, index: int)
    ensures var r := CreateKey(notAfter, issue, e, index);
            && (r == Err(KeyGeneration) <==> e.pair.None?)
            && (r == Err(NotAfterPassed) <==> e.pair.Some? && issue >= notAfter)
            && (r == Err(UuidGeneration) <==> e.pair.Some? && issue < notAfter && e.uuid.None?)
            && (r.Ok? <==> e.pair.Some? && issue < notAfter && e.uuid.Some?)
  {
  }

  /** Keys created from different UUIDs never share an id, whatever their numbers, and neither do keys of
      different numbers. */
  lemma CreatedIdsDiffer(
    notAfter: int, issue: int, e: Entropy, index: int, notAfter': int, issue': int, e': Entropy, index': int)
    requires IsInt64(index) && IsInt64(index')
    requires CreateKey(notAfter, issue, e, index).Ok? && CreateKey(notAfter', issue', e', index').Ok?
    ensures CreateKey(notAfter, issue, e, index).value.kid == CreateKey(notAfter', issue', e', index').value.kid
       <==> e.uuid == e'.uuid && index == index'
  {
    KidIsUnique(e.uuid.value, index, e'.uuid.value, index');
  }

  /** The key that is to be replaced gets a successor numbered one above. */
  function Replace(now: Readings, e: Entropy, active: Jwk): Result<Option<seq<Jwk>>, CryptoError> {
    match KidIndex(active.kid)
    case None => Err(KidFormat(active.kid))
    case Some(index) =>
      match CreateKey(now.NotAfter(), now.issue, e, Increment64(index))
      case Err(x) => Err(x)
      case Ok(renewed) => Ok(Some([renewed, active]))
  }

  lemma ReplacedKey(now: Readings, e: Entropy, active: Jwk)
    ensures match Replace(now, e, active)
            case Ok(rotated) =>
              && rotated.Some? && |rotated.value| == 2
              && rotated.value[1] == active
              && KidIndex(active.kid).Some?
              && KidIndex(rotated.value[0].kid) == Some(Increment64(KidIndex(active.kid).value))
              && rotated.value[0].isPrivate && |rotated.value[0].certificates| == 1
              && NotAfter(rotated.value[0]) == WholeSeconds(now.NotAfter()) && now.issue < now.NotAfter()
            case Err(x) =>
              if KidIndex(active.kid).None? then x == KidFormat(active.kid) else GenerationError(x)
  {
    var index := KidIndex(active.kid);
    if index.Some? {
      CreatedKey(now.NotAfter(), now.issue, e, Increment64(index.value));
    }
  }

  function Rotate(now: Readings, e: Entropy, current: Option<seq<Jwk>>): Result<Option<seq<Jwk>>, CryptoError> {
    if current.None? then Err(JwksNull)
    else
      var keys := current.value;
      match FirstBad(keys)
      case Some(i) => Err(CertificateCount(keys[i].kid, |keys[i].certificates|))
      case None =>
        if keys == [] then Err(NoKeys)
        else
          var active := keys[Latest(keys)];
          if NotAfter(active) > now.Horizon() then Ok(None) else Replace(now, e, active)
  }

  /** On any set with one certificate per key, rotation keeps its hands off exactly when some key has
      more than seven days to go, in nanoseconds. */
  lemma RotationIsNeeded(now: Readings, e: Entropy, keys: seq<Jwk>)
    requires keys != [] && OneCertificateEach(keys)
    ensures Rotate(now, e, Some(keys)) == Ok(None) <==>
            exists k :: k in keys && NotAfter(k) - now.threshold > 7 * 24 * 3600 * 1_000_000_000
    ensures Rotate(now, e, Some(keys)) == Ok(None) <==>
            NotAfter(keys[Latest(keys)]) - now.threshold > 7 * 24 * 3600 * 1_000_000_000
  {
    var i := Latest(keys);
    assert keys[i] in keys;
    if k :| k in keys && NotAfter(k) > now.Horizon() {
      var j :| 0 <= j < |keys| && keys[j] == k;
      assert NotAfter(keys[j]) <= NotAfter(keys[i]);
    }
  }

  ghost predicate IsFirstBad(keys: seq<Jwk>, i: int) {
    && 0 <= i < |keys| && |keys[i].certificates| != 1
    && forall j :: 0 <= j < i ==> |keys[j].certificates| == 1
  }

  /** Sets that rotation does not accept: none at all, one that holds a key with other than one certificate,
      of which the first is named, and an empty one, where the original panics. */
  lemma RotationRejects(now: Readings, e: Entropy, current: Option<seq<Jwk>>)
    ensures current.None? <==> Rotate(now, e, current) == Err(JwksNull)
    ensures current == Some([]) <==> Rotate(now, e, current) == Err(NoKeys)
    ensures forall i :: current.Some? && IsFirstBad(current.value, i) ==>
                          Rotate(now, e, current) == Err(CertificateCount(current.value[i].kid, |current.value[i].certificates|))
    ensures Rotate(now, e, current).Err? && Rotate(now, e, current).error.CertificateCount? ==>
              current.Some? && exists i :: 0 <= i < |current.value| && |current.value[i].certificates| != 1
  {
    if current.Some? {
      var keys := current.value;
      forall i | IsFirstBad(keys, i)
        ensures FirstBad(keys) == Some(i)
      {
        assert keys[i] in keys;
        var b := FirstBad(keys).value;
        assert forall k :: 0 <= k < b ==> keys[k] in keys[..b];
      }
      if FirstBad(keys).None? && keys != [] { ReplacedKey(now, e, keys[Latest(keys)]); }
    }
  }

  /** When it is needed, rotation answers a new key, numbered one above, before the first key that
      expires last, and drops the rest; it fails only where a generator does or where that key's id
      does not end in a number. */
  lemma RotationChoice(now: Readings, e: Entropy, keys: seq<Jwk>) returns (i: nat)
    requires keys != [] && OneCertificateEach(keys)
    requires Rotate(now, e, Some(keys)) != Ok(None)
    ensures IsLatest(keys, i)
    ensures match Rotate(now, e, Some(keys))
            case Ok(rotated) =>
              && rotated.Some? && |rotated.value| == 2
              && rotated.value[1] == keys[i]
              && KidIndex(keys[i].kid).Some?
              && KidIndex(rotated.value[0].kid) == Some(Increment64(KidIndex(keys[i].kid).value))
              && rotated.value[0].isPrivate && |rotated.value[0].certificates| == 1
              && NotAfter(rotated.value[0]) == WholeSeconds(now.NotAfter()) && now.issue < now.NotAfter()
            case Err(x) =>
              if KidIndex(keys[i].kid).None? then x == KidFormat(keys[i].kid) else GenerationError(x)
  {
    i := Latest(keys);
    ReplacedKey(now, e, keys[i]);
  }

  /** What a key set in the secret always is: one or two private keys, each with one certificate and a
      readable index, the first numbered one above the second. */
  ghost predicate Usable(keys: seq<Jwk>) {
    && 1 <= |keys| <= 2
    && AllPrivate(keys)
    && OneCertificateEach(keys)
    && (forall k :: k in keys ==> KidIndex(k.kid).Some?)
    && (|keys| == 2 ==> KidIndex(keys[0].kid).value == Increment64(KidIndex(keys[1].kid).value))
  }

  ghost predicate Descending(keys: seq<Jwk>)
    requires OneCertificateEach(keys)
  {
    |keys| == 2 ==> NotAfter(keys[0]) > NotAfter(keys[1])
  }

  lemma CreatedKeysAreUsable(now: Readings, e: Entropy)
    ensures var r := CreateJwks(now.NotAfter(), now.issue, e);
            && (r.Err? ==> GenerationError(r.error))
            && (r.Ok? ==> |r.value| == 1 && Usable(r.value) && KidIndex(r.value[0].kid) == Some(0)
                          && NotAfter(r.value[0]) == WholeSeconds(now.deadline + 30 * 24 * 3600 * 1_000_000_000))
  {
    CreatedKey(now.NotAfter(), now.issue, e, 0);
  }

  lemma PairIsUsable(renewed: Jwk, kept: Jwk, index: int)
    requires renewed.isPrivate && kept.isPrivate && |renewed.certificates| == |kept.certificates| == 1
    requires KidIndex(kept.kid) == Some(index) && KidIndex(renewed.kid) == Some(Increment64(index))
    ensures Usable([renewed, kept])
  {
  }

  /** On a usable set rotation fails only where a generator does, and answers a usable set. */
  lemma RotationKeepsUsable(now: Readings, e: Entropy, keys: seq<Jwk>)
    requires Usable(keys)
    ensures var r := Rotate(now, e, Some(keys));
            && (r.Err? ==> GenerationError(r.error))
            && (r.Ok? && r.value.Some? ==>
                  Usable(r.value.value) && |r.value.value| == 2 && r.value.value[1] in keys
                  && r.value.value[1] == keys[Latest(keys)])
  {
    var active := keys[Latest(keys)];
    assert active in keys;
    ReplacedKey(now, e, active);
    var r := Replace(now, e, active);
    if r.Ok? {
      PairIsUsable(r.value.value[0], active, KidIndex(active.kid).value);
    }
  }

  lemma LatestOfDescending(keys: seq<Jwk>)
    requires keys != [] && |keys| <= 2 && OneCertificateEach(keys) && Descending(keys)
    ensures Latest(keys) == 0
  {
    LatestIsUnique(keys, Latest(keys), 0);
  }

  /** With prompt clock readings the new key expires strictly later than the kept one, and outlives the
      horizon of its own round. */
  lemma RotationDescends(now: Readings, e: Entropy, keys: seq<Jwk>)
    requires Usable(keys) && now.Prompt()
    requires Rotate(now, e, Some(keys)).Ok? && Rotate(now, e, Some(keys)).value.Some?
    ensures var r := Rotate(now, e, Some(keys)).value.value;
            && Usable(r) && Descending(r) && Latest(r) == 0
            && NotAfter(r[0]) - now.threshold > 7 * 24 * 3600 * 1_000_000_000
  {
    RotationKeepsUsable(now, e, keys);
    var active := keys[Latest(keys)];
    assert active in keys;
    ReplacedKey(now, e, active);
    LatestOfDescending(Rotate(now, e, Some(keys)).value.value);
  }

  /** A key set after its creation and any number of rounds that each rotate it or leave it alone;
      a round whose rotation fails keeps the set it had. */
  datatype Turn = Turn(now: Readings, e: Entropy)

  function Lineage(first: Turn, rounds: seq<Turn>): Option<seq<Jwk>> {
    if rounds == [] then
      match CreateJwks(first.now.NotAfter(), first.now.issue, first.e)
      case Ok(keys) => Some(keys)
      case Err(_) => None
    else
      match Lineage(first, rounds[..|rounds| - 1])
      case None => None
      case Some(keys) =>
        match Rotate(rounds[|rounds| - 1].now, rounds[|rounds| - 1].e, Some(keys))
        case Ok(Some(rotated)) => Some(rotated)
        case _ => Some(keys)
  }

  /** Every reachable key set is usable whatever the clock does; while the readings of each round are
      prompt it is also strictly descending, so its first key is the one that expires last. */
  lemma {:induction false} ReachableKeySets(first: Turn, rounds: seq<Turn>)
    requires Lineage(first, rounds).Some?
    ensures Usable(Lineage(first, rounds).value)
    ensures (forall r :: r in rounds ==> r.now.Prompt()) ==>
              Descending(Lineage(first, rounds).value) && Latest(Lineage(first, rounds).value) == 0
  {
    if rounds == [] {
      CreatedKeysAreUsable(first.now, first.e);
    } else {
      var front, last := rounds[..|rounds| - 1], rounds[|rounds| - 1];
      ReachableKeySets(first, front);
      var keys := Lineage(first, front).value;
      RotationKeepsUsable(last.now, last.e, keys);
      if forall r :: r in rounds ==> r.now.Prompt() {
        assert last in rounds;
        if Rotate(last.now, last.e, Some(keys)).Ok? && Rotate(last.now, last.e, Some(keys)).value.Some? {
          RotationDescends(last.now, last.e, keys);
        }
      }
    }
    if Descending(Lineage(first, rounds).value) {
      LatestOfDescending(Lineage(first, rounds).value);
    }
  }
}
