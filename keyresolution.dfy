/**
 * `getRSAPublicKey` (token.go:49-60): choose the verification key for a token
 * by the `kid` of its header (section 4.1.4 of RFC 7515, section 4.5 of
 * RFC 7517), scanning the key set in document order.
 */
module KeyResolution {
  import opened Json
  import opened Jose
  import opened Wrappers

  /** The errors of the key function; KeyNotFound is "unable to find appropriate key". */
  datatype KeyError =
    | UnexpectedSigningMethod(alg: Option<JsonValue>)
    | KeyNotFound

  /** An entry the scan accepts: its `kid` matches and its material is an RSA public key. */
  predicate Qualifies(k: JsonWebKey, kid: string) {
    k.keyId == kid && k.key.RsaPublic?
  }

  /** Reference definition: the key of the first qualifying entry, in set order. */
  function FirstRsaKey(kid: string, keys: seq<JsonWebKey>): Option<RsaPublicKey>
    decreases |keys|
  {
    if keys == [] then None
    else if Qualifies(keys[0], kid) then Some(keys[0].key.rsa)
    else FirstRsaKey(kid, keys[1..])
  }

  /** The result `getRSAPublicKey` is specified to return. */
  function ResolveKey(header: Object, jwks: KeySet): Result<RsaPublicKey, KeyError> {
    match KeyIdOf(header)
    case None => Failure(KeyNotFound)
    case Some(kid) =>
      match FirstRsaKey(kid, jwks.keys)
      case None => Failure(KeyNotFound)
      case Some(key) => Success(key)
  }

  /**
   * `getRSAPublicKey`: a `kid` that is a string, then a scan that returns at the
   * first entry with that `kid` and an RSA public key, skipping entries whose
   * `kid` matches but whose material is of another kind.
   */
  method GetRsaPublicKey(header: Object, jwks: KeySet) returns (r: Result<RsaPublicKey, KeyError>)
    ensures r == ResolveKey(header, jwks)
    ensures r.Failure? ==> r.error == KeyNotFound
    ensures r.Success? <==>
      KeyIdOf(header).Some? && exists i :: 0 <= i < |jwks.keys| && Qualifies(jwks.keys[i], KeyIdOf(header).value)
  {
    var kid := KeyIdOf(header);
    if kid.Some? {
      var keys := jwks.keys;
      for i := 0 to |keys|
        invariant forall j :: 0 <= j < i ==> !Qualifies(keys[j], kid.value)
        invariant FirstRsaKey(kid.value, keys) == FirstRsaKey(kid.value, keys[i..])
      {
        if keys[i].keyId == kid.value {
          if keys[i].key.RsaPublic? {
            FirstQualifyingIndex(kid.value, keys, i);
            return Success(keys[i].key.rsa);
          }
        }
        assert keys[i..][1..] == keys[i + 1..];
      }
      NoneQualify(kid.value, keys);
    }
    return Failure(KeyNotFound);
  }

  /** The reference result is empty exactly when no entry qualifies. */
  lemma {:induction false} FirstRsaKeyNone(kid: string, keys: seq<JsonWebKey>)
    ensures FirstRsaKey(kid, keys).None? <==> forall i :: 0 <= i < |keys| ==> !Qualifies(keys[i], kid)
    decreases |keys|
  {
    if keys != [] {
      FirstRsaKeyNone(kid, keys[1..]);
      assert forall i :: 1 <= i < |keys| ==> keys[i] == keys[1..][i - 1];
    }
  }

  /** When entry `i` qualifies and none before it does, the reference result is entry `i`'s key. */
  lemma {:induction false} FirstQualifyingIndex(kid: string, keys: seq<JsonWebKey>, i: nat)
    requires i < |keys| && Qualifies(keys[i], kid)
    requires forall j :: 0 <= j < i ==> !Qualifies(keys[j], kid)
    ensures FirstRsaKey(kid, keys) == Some(keys[i].key.rsa)
    decreases i
  {
    if i > 0 {
      FirstQualifyingIndex(kid, keys[1..], i - 1);
    }
  }

  /** Nothing qualifies, so the reference result is empty. */
  lemma NoneQualify(kid: string, keys: seq<JsonWebKey>)
    requires forall j :: 0 <= j < |keys| ==> !Qualifies(keys[j], kid)
    ensures FirstRsaKey(kid, keys) == None
  {
    FirstRsaKeyNone(kid, keys);
  }

  /** A found key is that of a qualifying entry with no qualifying entry before it. */
  lemma {:induction false} FirstRsaKeyIsFirst(kid: string, keys: seq<JsonWebKey>)
    requires FirstRsaKey(kid, keys).Some?
    ensures exists i :: 0 <= i < |keys| && Qualifies(keys[i], kid) && keys[i].key.rsa == FirstRsaKey(kid, keys).value
                        && (forall j :: 0 <= j < i ==> !Qualifies(keys[j], kid))
    decreases |keys|
  {
    if !Qualifies(keys[0], kid) {
      FirstRsaKeyIsFirst(kid, keys[1..]);
      var i :| 0 <= i < |keys[1..]| && Qualifies(keys[1..][i], kid) && keys[1..][i].key.rsa == FirstRsaKey(kid, keys[1..]).value &&
        forall j :: 0 <= j < i ==> !Qualifies(keys[1..][j], kid);
      assert Qualifies(keys[i + 1], kid);
      assert forall j :: 0 <= j < i + 1 ==> !Qualifies(keys[j], kid) by {
        forall j | 0 <= j < i + 1 ensures !Qualifies(keys[j], kid) {
          if j > 0 { assert keys[j] == keys[1..][j - 1]; }
        }
      }
    }
  }

  /**
   * Entries in front that do not qualify (another `kid`, or the right `kid` with
   * non-RSA material) do not change the result: the scan passes over them.
   */
  lemma {:induction false} SkipUnqualified(kid: string, skipped: seq<JsonWebKey>, keys: seq<JsonWebKey>)
    requires forall j :: 0 <= j < |skipped| ==> !Qualifies(skipped[j], kid)
    ensures FirstRsaKey(kid, skipped + keys) == FirstRsaKey(kid, keys)
    decreases |skipped|
  {
    if skipped != [] {
      assert (skipped + keys)[0] == skipped[0];
      assert (skipped + keys)[1..] == skipped[1..] + keys;
      assert forall j :: 0 <= j < |skipped[1..]| ==> skipped[1..][j] == skipped[j + 1];
      SkipUnqualified(kid, skipped[1..], keys);
    } else {
      assert skipped + keys == keys;
    }
  }

  /** A qualifying entry wins over every later entry, qualifying or not. */
  lemma {:induction false} FirstMatchWins(kid: string, skipped: seq<JsonWebKey>, k: JsonWebKey, rest: seq<JsonWebKey>)
    requires forall j :: 0 <= j < |skipped| ==> !Qualifies(skipped[j], kid)
    requires Qualifies(k, kid)
    ensures FirstRsaKey(kid, skipped + [k] + rest) == Some(k.key.rsa)
  {
    assert skipped + [k] + rest == skipped + ([k] + rest);
    SkipUnqualified(kid, skipped, [k] + rest);
  }

  /** A header without a string `kid`, or an empty key set, always gives KeyNotFound. */
  lemma NoKidOrNoKeys(header: Object, jwks: KeySet)
    requires KeyIdOf(header).None? || jwks.keys == []
    ensures ResolveKey(header, jwks) == Failure(KeyNotFound)
  {
  }

  /** Key resolution depends on the header only through its string `kid`. */
  lemma OnlyKidMatters(h1: Object, h2: Object, jwks: KeySet)
    requires KeyIdOf(h1) == KeyIdOf(h2)
    ensures ResolveKey(h1, jwks) == ResolveKey(h2, jwks)
  {
  }

  /** A `kid` that is not a JSON string fails the `.(string)` assertion and counts as no `kid`. */
  lemma NonStringKidIsAbsent(header: Object, value: JsonValue, jwks: KeySet)
    requires !value.JString?
    ensures ResolveKey(header["kid" := value], jwks) == ResolveKey(header - {"kid"}, jwks) == Failure(KeyNotFound)
  {
  }
}
