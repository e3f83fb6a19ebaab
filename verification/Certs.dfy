/** Certificate rows and the store's revocation rules. */
module Certs {
  import opened Text

  // Status 0 is valid, 1 expired, 2 pending confirmation, -1 revoked.
  datatype Cert = Cert(status: int, reason: int, owner: string, ca: string)

  const HOLD := 6
  const SUPERSEDED := 4
  const REMOVE_FROM_CRL := 8

  // revoke_cert's UPDATE: None when its predicate does not match.
  function Revoked(c: Cert, reason: int): Option<Cert>
  {
    if c.status != -1 || (c.reason == HOLD && reason != HOLD)
    then Some(c.(status := -1, reason := reason)) else None
  }

  // release_hold's UPDATE; `expired` when the certificate ran out while held.
  function Released(c: Cert, expired: bool): Option<Cert>
  {
    if c.status == -1 && c.reason == HOLD
    then Some(c.(status := if expired then 1 else 0, reason := REMOVE_FROM_CRL)) else None
  }

  // revocation_reason_refusal.
  predicate ReasonAllowed(reason: int)
  {
    0 <= reason <= 9 && reason != 7 && reason != 8
  }

  // Revoked for good.
  predicate Final(c: Cert) { c.status == -1 && c.reason != HOLD }

  // A revocation is final, a hold is not: any other reason makes a held or live row final, and
  // nothing the store offers touches a final one.
  lemma RevocationFinal(c: Cert, reason: int, expired: bool)
    ensures Final(c) ==> Revoked(c, reason).None? && Released(c, expired).None?
    ensures reason != HOLD ==> Final(if Revoked(c, reason).Some? then Revoked(c, reason).value else c)
  {
  }
}
