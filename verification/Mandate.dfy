/**
 Mandate verification: a freshness window on `issued_at` combined with a replay key in Redis that
 expires by itself.  Verifications run one at a time and read a whole-second clock that does not
 run backwards; the signature hash is taken as injective, so keys are signatures.
 */
module Mandate {
  import opened Outcomes

  type Time = int

  /** How long Redis keeps a replay key. */
  const KEY_TTL := 300

  datatype Claims = Claims(issuer: string, issuedAt: Time, signature: string)

  datatype Error = IssuersMissing | IssuerNotTrusted | IssuedInFuture | TooOld | SignatureEmpty | ReplayDetected

  datatype Settings = Settings(globalIssuers: seq<string>, fallbackAllowed: bool, maxAge: int)

  /** Key -> the second from which Redis no longer has it. */
  type ReplayKeys = map<string, Time>

  predicate Present(keys: ReplayKeys, signature: string, now: Time)
  {
    signature in keys && now < keys[signature]
  }

  /** `str.strip` leaves nothing. */
  predicate Blank(s: string)
  {
    forall k :: 0 <= k < |s| ==> s[k] in {' ', '\t', '\n', '\r'}
  }

  /** Merchant issuers win; without any, the global list counts only if the fallback is allowed. */
  function TrustedIssuers(settings: Settings, merchant: Option<seq<string>>): Option<seq<string>>
  {
    match merchant
    case None => Some(settings.globalIssuers)
    case Some(issuers) =>
      if issuers != [] then Some(issuers)
      else if settings.fallbackAllowed then Some(settings.globalIssuers) else None
  }

  /** The issuer is on the list that counts for this merchant, and there is such a list. */
  predicate Trusted(settings: Settings, merchant: Option<seq<string>>, issuer: string)
  {
    if merchant.Some? && merchant.value != [] then issuer in merchant.value
    else (merchant.None? || settings.fallbackAllowed) && issuer in settings.globalIssuers
  }

  /** Everything that is checked before Redis is asked. */
  function Objection(settings: Settings, merchant: Option<seq<string>>, claims: Claims, now: Time): Option<Error>
  {
    var trusted := TrustedIssuers(settings, merchant);
    if trusted.None? then Some(IssuersMissing)
    else if claims.issuer !in trusted.value then Some(IssuerNotTrusted)
    else if claims.issuedAt > now then Some(IssuedInFuture)
    else if now - claims.issuedAt > settings.maxAge then Some(TooOld)
    else if Blank(claims.signature) then Some(SignatureEmpty)
    else None
  }

  /** What each refusal says is so. */
  ghost predicate Wrong(settings: Settings, keys: ReplayKeys, merchant: Option<seq<string>>, claims: Claims, now: Time, error: Error)
  {
    match error
    case IssuersMissing => merchant == Some([]) && !settings.fallbackAllowed
    case IssuerNotTrusted => !Trusted(settings, merchant, claims.issuer)
    case IssuedInFuture => now < claims.issuedAt
    case TooOld => claims.issuedAt + settings.maxAge < now
    case SignatureEmpty => forall k :: 0 <= k < |claims.signature| ==> claims.signature[k] in {' ', '\t', '\n', '\r'}
    case ReplayDetected => claims.signature in keys && now < keys[claims.signature]
  }

  class Verifier {
    var keys: ReplayKeys
    const settings: Settings

    constructor (settings: Settings)
      ensures this.settings == settings && keys == map[]
    {
      this.settings, this.keys := settings, map[];
    }

    method VerifyMandate(merchant: Option<seq<string>>, claims: Claims, now: Time) returns (r: Result<Claims, Error>)
      modifies this
      ensures r.Ok? <==>
                && Trusted(settings, merchant, claims.issuer) && claims.issuedAt <= now <= claims.issuedAt + settings.maxAge
                && (exists k :: 0 <= k < |claims.signature| && claims.signature[k] !in {' ', '\t', '\n', '\r'})
                && !(claims.signature in old(keys) && now < old(keys)[claims.signature])
      ensures r.Ok? ==> r.value == claims
      ensures r.Err? ==> keys == old(keys)
      ensures r.Ok? ==> keys == old(keys)[claims.signature := now + 300]
      ensures r.Err? ==> Wrong(settings, old(keys), merchant, claims, now, r.error)
      ensures forall other, at: Time :: other != claims.signature ==>
                (Present(keys, other, at) <==> Present(old(keys), other, at))
      ensures (r, keys) == Verify(settings, old(keys), merchant, claims, now)
    {
      var objection := Objection(settings, merchant, claims, now);
      if objection.Some? {
        return Err(objection.value);
      }
      if Present(keys, claims.signature, now) {
        return Err(ReplayDetected);
      }
      keys := keys[claims.signature := now + KEY_TTL];
      return Ok(claims);
    }
  }

  function Verify(settings: Settings, keys: ReplayKeys, merchant: Option<seq<string>>, claims: Claims, now: Time)
    : (Result<Claims, Error>, ReplayKeys)
  {
    var objection := Objection(settings, merchant, claims, now);
    if objection.Some? then (Err(objection.value), keys)
    else if Present(keys, claims.signature, now) then (Err(ReplayDetected), keys)
    else (Ok(claims), keys[claims.signature := now + KEY_TTL])
  }

  /** One verification request of a run. */
  datatype Attempt = Attempt(merchant: Option<seq<string>>, claims: Claims, now: Time)

  predicate ClockForward(run: seq<Attempt>, from: Time)
  {
    (run != [] ==> from <= run[0].now) && forall k :: 0 <= k < |run| - 1 ==> run[k].now <= run[k + 1].now
  }

  function KeysAfter(settings: Settings, keys: ReplayKeys, run: seq<Attempt>): ReplayKeys
  {
    if run == [] then keys
    else
      var n := |run| - 1;
      Verify(settings, KeysAfter(settings, keys, run[..n]), run[n].merchant, run[n].claims, run[n].now).1
  }

  predicate Accepts(settings: Settings, keys: ReplayKeys, attempt: Attempt)
  {
    Verify(settings, keys, attempt.merchant, attempt.claims, attempt.now).0.Ok?
  }

  /** A key set by an accepted attempt is never shortened afterwards. */
  lemma {:induction false} KeyStays(settings: Settings, keys: ReplayKeys, run: seq<Attempt>, signature: string, until: Time)
    requires signature in keys && until <= keys[signature]
    requires forall k :: 0 <= k < |run| ==> until - KEY_TTL <= run[k].now
    ensures var after := KeysAfter(settings, keys, run); signature in after && until <= after[signature]
  {
    if run != [] {
      var n := |run| - 1;
      KeyStays(settings, keys, run[..n], signature, until);
      assert until - KEY_TTL <= run[n].now;
    }
  }

  lemma {:induction false} LaterInRun(run: seq<Attempt>, from: Time, k: nat)
    requires ClockForward(run, from) && k < |run|
    ensures from <= run[k].now
  {
    if k > 0 {
      LaterInRun(run, from, k - 1);
    }
  }

  /**
   A mandate accepted strictly after its `issued_at` second is not accepted again, whatever else is
   verified in between, from any earlier state of the keys.
   */
  lemma NoReplay(settings: Settings, keys: ReplayKeys, first: Attempt, between: seq<Attempt>, again: Attempt)
    requires settings.maxAge <= KEY_TTL && Accepts(settings, keys, first) && first.claims.issuedAt < first.now
    requires again.claims == first.claims && ClockForward(between + [again], first.now)
    ensures var set1 := Verify(settings, keys, first.merchant, first.claims, first.now).1;
            !Accepts(settings, KeysAfter(settings, set1, between), again)
  {
    var set1 := Verify(settings, keys, first.merchant, first.claims, first.now).1;
    LaterInRun(between + [again], first.now, |between|);
    forall k | 0 <= k < |between| ensures first.now <= between[k].now {
      LaterInRun(between + [again], first.now, k);
      assert (between + [again])[k] == between[k];
    }
    KeyStays(settings, set1, between, first.claims.signature, first.now + KEY_TTL);
  }

  /**
   Exactly when a replay gets through: the mandate must still be fresh in the second its key expires.
   With a maximum age of at most the key's life that leaves one case, a mandate first presented in
   the very second it was issued and again when the key has just gone.
   */
  lemma ReplayableExactlyWhen(settings: Settings, keys: ReplayKeys, first: Attempt)
    requires Accepts(settings, keys, first)
    ensures var set1 := Verify(settings, keys, first.merchant, first.claims, first.now).1;
            (exists later: Time :: first.now <= later && Accepts(settings, set1, first.(now := later)))
            <==> first.claims.issuedAt + settings.maxAge >= first.now + KEY_TTL
  {
    var set1 := Verify(settings, keys, first.merchant, first.claims, first.now).1;
    if first.claims.issuedAt + settings.maxAge >= first.now + KEY_TTL {
      assert Accepts(settings, set1, first.(now := first.now + KEY_TTL));
    }
  }
}
