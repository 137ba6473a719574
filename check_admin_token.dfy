/**
 * `isAdminTokenValid`: whether the admin token kept in browser storage is
 * unexpired and carries the admin role.  `decode` stands for `jwtDecode`
 * (`None` when it throws); `nowMillis` is `Date.now()`.
 */
module CheckAdminToken {
  import opened Wrappers
  import opened Js

  /** The decoded payload fields the check reads; `exp` is in seconds. */
  datatype Payload = Payload(exp: Option<real>, role: Option<string>)

  /** `decoded.exp && decoded.exp < currentTime`: a missing or zero `exp` never expires. */
  predicate Expired(exp: Option<real>, now: real)
    ensures exp.None? || exp == Some(0.0) ==> !Expired(exp, now)
    ensures exp.Some? && exp.value != 0.0 ==> (Expired(exp, now) <==> exp.value < now)
  {
    exp.Some? && exp.value != 0.0 && exp.value < now
  }

  function IsAdminTokenValid(stored: Option<string>, decode: string -> Option<Payload>, nowMillis: int): (ok: bool)
    ensures ok <==>
      && Truthy(stored)
      && decode(stored.value).Some?
      && !Expired(decode(stored.value).value.exp, nowMillis as real / 1000.0)
      && decode(stored.value).value.role == Some("admin")
  {
    if !Truthy(stored) then false
    else
      match decode(stored.value)
      case None => false
      case Some(p) =>
        var currentTime := nowMillis as real / 1000.0;
        if p.exp.Some? && p.exp.value != 0.0 && p.exp.value < currentTime then false
        else p.role == Some("admin")
  }

  /** A token expiring exactly now is still accepted; one second earlier it is not. */
  lemma ExpiryBoundary(token: string, decode: string -> Option<Payload>, seconds: int)
    requires token != ""
    requires decode(token) == Some(Payload(Some(seconds as real), Some("admin")))
    requires seconds != 0
    ensures IsAdminTokenValid(Some(token), decode, seconds * 1000)
    ensures !IsAdminTokenValid(Some(token), decode, (seconds + 1) * 1000)
  {
    assert (seconds * 1000) as real / 1000.0 == seconds as real;
    assert ((seconds + 1) * 1000) as real / 1000.0 == seconds as real + 1.0;
  }

  /** Without `exp` (or with `exp` 0) only the role decides, at any time. */
  lemma NoExpiryOnlyRole(token: string, decode: string -> Option<Payload>, nowMillis: int)
    requires token != "" && decode(token).Some?
    requires decode(token).value.exp.None? || decode(token).value.exp == Some(0.0)
    ensures IsAdminTokenValid(Some(token), decode, nowMillis) <==> decode(token).value.role == Some("admin")
  {
  }
}
