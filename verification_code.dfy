/**
 * VerificationCodeService: six-digit e-mail codes kept in the cache for five
 * minutes under "verify_code:" + scene + ":" + email, and consumed by the
 * first successful check.
 */
module VerificationCodes {
  import opened Wrappers
  import opened Text
  import opened Entities
  import opened RedisCache
  import CacheConstants

  const CODE_PREFIX := "verify_code:"
  const EXPIRE_MINUTES := 5

  /** The scenes the account service uses. */
  const SCENE_REGISTER := 1
  const SCENE_LOGIN := 2
  const SCENE_RESET := 3

  /** getCacheKey: string concatenation renders null as "null". */
  function CacheKey(email: Option<string>, scene: Option<int>): string {
    CODE_PREFIX + LongText(scene) + ":" + NullableText(email)
  }

  /** The code generateCode stores under the key of (email, scene). */
  function Generated(s: Store, email: Option<string>, scene: Option<int>, random: nat): Store
    requires random < 1000000
  {
    s[CacheKey(email, scene) := Entry(Some(TextValue(Pad6(random))), EXPIRE_MINUTES * 60)]
  }

  /** The text stored for (email, scene), if any. */
  function StoredCode(s: Store, email: Option<string>, scene: Option<int>): Option<string> {
    AsText(Read(s, Some(CacheKey(email, scene))).value)
  }

  /** verifyCode: whether the check passes, and the store afterwards. */
  function Verified(s: Store, email: Option<string>, scene: Option<int>, code: Option<string>): (bool, Store) {
    if code.Some? && StoredCode(s, email, scene) == code then (true, s - {CacheKey(email, scene)})
    else (false, s)
  }

  class VerificationCodeService {
    const cache: CacheService

    constructor(cache: CacheService)
      ensures this.cache == cache
    {
      this.cache := cache;
    }

    /** `random` is Random.nextInt(1000000). */
    method GenerateCode(email: Option<string>, scene: Option<int>, random: nat) returns (code: string)
      requires random < 1000000
      modifies cache
      ensures code == Pad6(random)
      ensures cache.store == Generated(old(cache.store), email, scene, random)
    {
      code := Pad6(random);
      var key := CacheKey(email, scene);
      cache.Set(key, code, EXPIRE_MINUTES * 60);
    }

    method VerifyCode(email: Option<string>, scene: Option<int>, code: Option<string>) returns (ok: bool)
      modifies cache
      ensures (ok, cache.store) == Verified(old(cache.store), email, scene, code)
    {
      var key := CacheKey(email, scene);
      var cachedCode := cache.GetText(key);
      if code.Some? && cachedCode == code {
        var _ := cache.Delete(Some(key));
        return true;
      }
      return false;
    }
  }

  // ---------------------------------------------------------------------
  // Properties

  /** A generated code is six decimal digits that read back as the random
      number it came from. */
  lemma GeneratedCodeShape(random: nat)
    requires random < 1000000
    ensures |Pad6(random)| == 6 && AllDigits(Pad6(random))
    ensures DigitsValue(Pad6(random)) == random
  {
    Pad6RoundTrip(random);
  }

  /** The code is stored under the key of its e-mail and scene, for 300 s. */
  lemma GeneratedCodeStored(s: Store, email: Option<string>, scene: Option<int>, random: nat)
    requires random < 1000000
    ensures StoredCode(Generated(s, email, scene, random), email, scene) == Some(Pad6(random))
    ensures LifetimeOf(Generated(s, email, scene, random), Some(CacheKey(email, scene))) == Some(300)
  {
  }

  /** The check passes exactly when a code was submitted and it equals the
      stored one. */
  lemma VerifyPassesIff(s: Store, email: Option<string>, scene: Option<int>, code: Option<string>)
    ensures Verified(s, email, scene, code).0 <==> code.Some? && StoredCode(s, email, scene) == code
  {
  }

  /** A passing check consumes the code: checking again fails, whatever is
      submitted. */
  lemma CodeIsConsumed(s: Store, email: Option<string>, scene: Option<int>, code: Option<string>, again: Option<string>)
    requires Verified(s, email, scene, code).0
    ensures !Verified(Verified(s, email, scene, code).1, email, scene, again).0
  {
  }

  /** A failing check leaves the store, and so the stored code, unchanged. */
  lemma FailedCheckKeepsCode(s: Store, email: Option<string>, scene: Option<int>, code: Option<string>)
    requires !Verified(s, email, scene, code).0
    ensures Verified(s, email, scene, code).1 == s
  {
  }

  /** The code just generated passes, once. */
  lemma GenerateThenVerify(s: Store, email: Option<string>, scene: Option<int>, random: nat)
    requires random < 1000000
    ensures var s' := Generated(s, email, scene, random);
      Verified(s', email, scene, Some(Pad6(random))).0 &&
      !Verified(Verified(s', email, scene, Some(Pad6(random))).1, email, scene, Some(Pad6(random))).0
  {
  }

  /** The text of a nullable Long never holds a ':'. */
  lemma LongTextColonFree(n: Option<int>)
    ensures ':' !in LongText(n)
  {
    if n.Some? {
      IntToStringChars(n.value);
    }
  }

  /** Distinct nullable Longs have distinct texts. */
  lemma LongTextInjective(a: Option<int>, b: Option<int>)
    requires LongText(a) == LongText(b)
    ensures a == b
  {
    if a.Some? && b.Some? {
      IntToStringInjective(a.value, b.value);
    } else if a.Some? {
      assert IntToString(a.value)[0] == 'n';
      IntToStringChars(a.value);
    } else if b.Some? {
      assert IntToString(b.value)[0] == 'n';
      IntToStringChars(b.value);
    }
  }

  /** Codes of different scenes, or of different e-mails, live under
      different keys. */
  lemma KeysSeparateScenesAndEmails(e1: string, s1: Option<int>, e2: string, s2: Option<int>)
    requires (e1, s1) != (e2, s2)
    ensures CacheKey(Some(e1), s1) != CacheKey(Some(e2), s2)
  {
    LongTextColonFree(s1);
    LongTextColonFree(s2);
    CacheConstants.PrefixedColonSplitUnique(CODE_PREFIX, LongText(s1), e1, LongText(s2), e2);
    if LongText(s1) == LongText(s2) {
      LongTextInjective(s1, s2);
    }
  }

  /** A code key is never one of the keys the cache service builds from
      its templates, so the two kinds of entry cannot overwrite each other. */
  lemma CodeKeyIsNoTemplateKey(kind: CacheConstants.KeyKind, params: seq<string>, email: Option<string>, scene: Option<int>)
    ensures CacheConstants.FormatKeySpec(CacheConstants.Template(kind), params) != Some(CacheKey(email, scene))
  {
    CacheConstants.KeyStartsWithPrefix(kind, params);
    var p := CacheConstants.Prefix(kind);
    var f := CacheConstants.FormatKeySpec(CacheConstants.Template(kind), params);
    assert CacheKey(email, scene)[0] == 'v';
    assert p[0] != 'v';
    if f.Some? {
      assert f.value[..|p|][0] == f.value[0];
    }
  }

  /** A null e-mail and the e-mail "null" share a key. */
  lemma NullEmailCollides(scene: Option<int>)
    ensures CacheKey(None, scene) == CacheKey(Some("null"), scene)
  {
  }

  /** Generating or consuming one (e-mail, scene) code leaves every other
      pair's check as it was. */
  lemma PairsDoNotInterfere(s: Store, e1: string, s1: Option<int>, random: nat, code: Option<string>,
                            e2: string, s2: Option<int>, other: Option<string>)
    requires random < 1000000 && (e1, s1) != (e2, s2)
    ensures Verified(Generated(s, Some(e1), s1, random), Some(e2), s2, other).0 == Verified(s, Some(e2), s2, other).0
    ensures Verified(Verified(s, Some(e1), s1, code).1, Some(e2), s2, other).0 == Verified(s, Some(e2), s2, other).0
  {
    KeysSeparateScenesAndEmails(e1, s1, e2, s2);
  }
}
