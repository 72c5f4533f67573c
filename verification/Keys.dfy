/** JSON Web Keys as internal/crypto/jwks.go holds them. Key material is an identity: two keys
    are halves of one pair exactly when their `pair` fields are equal. */
module Keys {
  import opened Wrappers
  import opened Text

  /** Times are nanoseconds. A certificate stores whole seconds (section 4.1.2.5 of RFC 5280). */
  const SECOND: int := 1_000_000_000
  const HOUR: int := 3600 * SECOND
  const DAY: int := 24 * HOUR

  datatype Cert = Cert(notAfter: int)

  datatype Jwk = Jwk(pair: nat, isPrivate: bool, certificates: seq<Cert>, kid: string)

  datatype CryptoError =
    | JwksNull
    | NoKeys                                          // indexing the certificates of a nil key panics
    | CertificateCount(kid: string, count: nat)
    | KidFormat(kid: string)
    | AlreadyPublic
    | KeyGeneration
    | NotAfterPassed
    | UuidGeneration

  function WholeSeconds(t: int): (r: int)
    ensures r <= t < r + 1_000_000_000 && r % 1_000_000_000 == 0
  {
    t - t % SECOND
  }

  /** The certificates leave with the private half: Maskinporten must not see `x5c`. */
  function Public(k: Jwk): Jwk {
    if k.isPrivate then k.(isPrivate := false, certificates := []) else k
  }

  function PublicKeys(keys: seq<Jwk>): (r: seq<Jwk>)
    ensures |r| == |keys|
    ensures forall i :: 0 <= i < |keys| ==> r[i] == Public(keys[i])
  {
    seq(|keys|, i requires 0 <= i < |keys| => Public(keys[i]))
  }

  predicate AllPrivate(keys: seq<Jwk>) { forall k :: k in keys ==> k.isPrivate }

  predicate AllPublic(keys: seq<Jwk>) { forall k :: k in keys ==> !k.isPrivate }

  function ToPublic(keys: seq<Jwk>): Result<seq<Jwk>, CryptoError> {
    if AllPrivate(keys) then Ok(PublicKeys(keys)) else Err(AlreadyPublic)
  }

  function KeyIds(keys: seq<Jwk>): (ids: seq<string>)
    ensures |ids| == |keys|
    ensures forall i :: 0 <= i < |keys| ==> ids[i] == keys[i].kid
  {
    seq(|keys|, i requires 0 <= i < |keys| => keys[i].kid)
  }

  /** What leaves for the API: the same pairs under the same ids in the same order, no private half
      and no certificate, and nothing at all once one key is already public. */
  lemma ToPublicMeaning(keys: seq<Jwk>)
    ensures ToPublic(keys).Ok? <==> forall k :: k in keys ==> k.isPrivate
    ensures ToPublic(keys).Ok? ==>
              var r := ToPublic(keys).value;
              && |r| == |keys|
              && AllPublic(r)
              && KeyIds(r) == KeyIds(keys)
              && forall i :: 0 <= i < |r| ==> r[i].pair == keys[i].pair && r[i].certificates == []
    ensures keys != [] && ToPublic(keys).Ok? ==> ToPublic(ToPublic(keys).value) == Err(AlreadyPublic)
    ensures ToPublic(keys).Err? ==> ToPublic(keys) == Err(AlreadyPublic)
    ensures forall k :: k in keys && !k.isPrivate ==> Public(k) == k
  {
    if keys != [] {
      assert Public(keys[0]) in PublicKeys(keys);
    }
  }

  /** `uuid.index` */
  function Kid(uuid: string, index: int): string { uuid + "." + Itoa(index) }

  /** The index is what stands behind the last dot. */
  function KidIndex(kid: string): (r: Option<int>)
    ensures r.Some? ==> IsInt64(r.value)
  {
    Atoi(LastPart(kid, '.'))
  }

  lemma KidRoundTrip(uuid: string, index: int)
    requires IsInt64(index)
    ensures KidIndex(Kid(uuid, index)) == Some(index)
  {
    AtoiOfItoa(index);
    LastPartOfJoin(uuid, '.', Itoa(index));
    assert uuid + "." + Itoa(index) == uuid + ['.'] + Itoa(index);
  }

  /** What stands before the last dot. */
  function KidStem(kid: string): string {
    var index := LastPart(kid, '.');
    if |index| < |kid| then kid[..|kid| - |index| - 1] else []
  }

  lemma KidTakenApart(uuid: string, index: int)
    requires IsInt64(index)
    ensures KidStem(Kid(uuid, index)) == uuid && LastPart(Kid(uuid, index), '.') == Itoa(index)
  {
    AtoiOfItoa(index);
    LastPartOfJoin(uuid, '.', Itoa(index));
    assert uuid + "." + Itoa(index) == uuid + ['.'] + Itoa(index);
    assert (uuid + "." + Itoa(index))[..|uuid|] == uuid;
  }

  /** No two draws or numbers share an id. */
  lemma KidIsUnique(u: string, i: int, v: string, j: int)
    requires IsInt64(i) && IsInt64(j)
    ensures Kid(u, i) == Kid(v, j) <==> u == v && i == j
  {
    KidTakenApart(u, i);
    KidTakenApart(v, j);
    KidRoundTrip(u, i);
    KidRoundTrip(v, j);
  }

  /** A key id has an index exactly when, behind its last dot, it ends in decimal digits with at most one sign
      before them, of a value that fits 64 bits; leading zeros do not matter. */
  lemma KidIndexMeaning(kid: string)
    ensures KidIndex(kid).Some? <==>
            var index := LastPart(kid, '.');
            var digits := if index != [] && index[0] in "+-" then index[1..] else index;
            && digits != [] && (forall c :: c in digits ==> '0' <= c <= '9')
            && IsInt64(if index[0] == '-' then -DecimalValue(digits) else DecimalValue(digits))
    ensures KidIndex(kid).Some? ==>
              var index := LastPart(kid, '.');
              var digits := if index != [] && index[0] in "+-" then index[1..] else index;
              KidIndex(kid).value == if index[0] == '-' then -DecimalValue(digits) else DecimalValue(digits)
  {
    AtoiMeaning(LastPart(kid, '.'));
  }
}
