/**
 * Token payloads: who the token is for and when it expires. Time is an
 * integer instant (nanoseconds) and a duration an integer difference; the
 * clock reading and the random token identifier are parameters.
 */
module Token {
  import opened Wrappers

  /** A random (version 4) UUID: sixteen bytes. */
  type Uuid = b: seq<bv8> | |b| == 16 witness seq(16, _ => 0)

  datatype Payload = Payload(id: Uuid, username: string, issuedAt: int, expireAt: int)

  datatype TokenError = ErrExpiredToken | ErrInvalidToken

  /**
   * `NewPayload(username, duration)` at clock reading `now`, given the
   * outcome `tokenId` of generating the random identifier.
   */
  function NewPayload(username: string, duration: int, now: int, tokenId: Result<Uuid, string>): (r: Result<Payload, string>)
    ensures r.Success? <==> tokenId.Success?
    ensures r.Failure? ==> r.error == tokenId.error
    ensures r.Success? ==> r.value.id == tokenId.value && r.value.username == username
    ensures r.Success? ==> r.value.issuedAt == now && r.value.expireAt - r.value.issuedAt == duration
  {
    match tokenId
    case Failure(e) => Failure(e)
    case Success(id) => Success(Payload(id, username, now, now + duration))
  }

  /** `payload.Valid()` at clock reading `now`: None is Go's nil error. */
  function Valid(p: Payload, now: int): (err: Option<TokenError>)
    ensures err.Some? <==> now > p.expireAt
    ensures err.Some? ==> err.value == ErrExpiredToken
  {
    if now > p.expireAt then Some(ErrExpiredToken) else None
  }

  /**
   * A payload made at `now` for `duration` is valid at every instant up to
   * and including `now + duration`, and expired at every later instant.
   */
  lemma FreshPayloadLifetime(username: string, duration: int, now: int, id: Uuid, later: int)
    ensures var p := NewPayload(username, duration, now, Success(id)).value;
      (Valid(p, later).None? <==> later <= now + duration)
  {
  }
}
