/** The loops of internal/crypto: choosing the key to keep in a rotation, and publishing a key set. */
module KeyService {
  import opened Wrappers
  import opened Text
  import opened Keys
  import opened Rotation

  /** `CryptoService.RotateIfNeeded` */
  method RotateIfNeeded(now: Readings, e: Entropy, currentJwks: Option<seq<Jwk>>)
    returns (r: Result<Option<seq<Jwk>>, CryptoError>)
    ensures r == Rotate(now, e, currentJwks)
  {
    if currentJwks.None? {
      return Err(JwksNull);
    }
    var keys := currentJwks.value;
    var activeKey: Option<Jwk> := None;
    var i := 0;
    while i < |keys|
      invariant i <= |keys| && OneCertificateEach(keys[..i])
      invariant i == 0 ==> activeKey.None?
      invariant i > 0 ==> activeKey == Some(keys[Latest(keys[..i])])
    {
      var key := keys[i];
      if |key.certificates| != 1 {
        FirstBadIs(keys, i);
        return Err(CertificateCount(key.kid, |key.certificates|));
      }
      LatestOfMore(keys, i);
      if activeKey.None? {
        activeKey := Some(key);
      } else if key.certificates[0].notAfter > activeKey.value.certificates[0].notAfter {
        activeKey := Some(key);
      }
      i := i + 1;
    }
    assert keys[..i] == keys;
    if activeKey.None? {
      return Err(NoKeys);
    }
    if activeKey.value.certificates[0].notAfter > now.Horizon() {
      return Ok(None);
    }
    var index := Atoi(LastPart(activeKey.value.kid, '.'));
    if index.None? {
      return Err(KidFormat(activeKey.value.kid));
    }
    var renewed := CreateKey(now.NotAfter(), now.issue, e, Increment64(index.value));
    if renewed.Err? {
      return Err(renewed.error);
    }
    var newKeys := [renewed.value];
    newKeys := newKeys + [activeKey.value];
    assert newKeys == [renewed.value, activeKey.value];
    return Ok(Some(newKeys));
  }

  lemma FirstBadIs(keys: seq<Jwk>, i: nat)
    requires i < |keys| && OneCertificateEach(keys[..i]) && |keys[i].certificates| != 1
    ensures FirstBad(keys) == Some(i)
  {
    assert keys[i] in keys;
    var j := FirstBad(keys).value;
    assert forall k :: 0 <= k < i ==> keys[k] in keys[..i];
    assert forall k :: 0 <= k < j ==> keys[k] in keys[..j];
  }

  lemma LatestOfMore(keys: seq<Jwk>, i: nat)
    requires i < |keys| && OneCertificateEach(keys[..i]) && |keys[i].certificates| == 1
    ensures OneCertificateEach(keys[..i + 1])
    ensures i == 0 ==> Latest(keys[..i + 1]) == 0
    ensures i > 0 ==> Latest(keys[..i + 1]) == if NotAfter(keys[i]) > NotAfter(keys[Latest(keys[..i])]) then i else Latest(keys[..i])
  {
    assert keys[..i + 1] == keys[..i] + [keys[i]];
    assert keys[..i + 1][..i] == keys[..i];
  }

  /** `Jwks.ToPublic` */
  method Publish(jwks: Option<seq<Jwk>>) returns (r: Result<seq<Jwk>, CryptoError>)
    ensures r == if jwks.None? then Err(JwksNull) else ToPublic(jwks.value)
  {
    if jwks.None? {
      return Err(JwksNull);
    }
    var keys := jwks.value;
    var result := [];
    var i := 0;
    while i < |keys|
      invariant i <= |keys| && AllPrivate(keys[..i])
      invariant result == PublicKeys(keys[..i])
    {
      if !keys[i].isPrivate {
        assert keys[i] in keys;
        return Err(AlreadyPublic);
      }
      assert keys[..i + 1] == keys[..i] + [keys[i]];
      result := result + [Public(keys[i])];
      i := i + 1;
    }
    assert keys[..i] == keys;
    return Ok(result);
  }
}
