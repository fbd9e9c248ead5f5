/**
 * The shared key-value store the bid pipeline talks to, reduced to the four
 * commands it uses. Each command takes its outcome from the caller. An error
 * the client reports does not tell whether the server ran the command (a
 * reply lost to a timeout after the write, say), so a writing command's
 * outcome says both what the caller is told and whether the write happened.
 * TTL expiry itself is the server's business: the model only remembers the
 * last TTL set on a key.
 */
module Redis {
  import opened Wrappers

  /**
   * What a writing command reports and does: `Ok` ran and answered
   * normally; `Err(message, applied)` returned the error `message`, and
   * `applied` says whether the server had carried the command out all the same.
   */
  datatype Outcome = Ok | Err(message: string, applied: bool)

  /** Whether the command took effect on the server. */
  predicate Applied(outcome: Outcome)
  {
    outcome.Ok? || outcome.applied
  }

  /** The error the caller sees. */
  function Reported(outcome: Outcome): Option<string>
  {
    if outcome.Ok? then None else Some(outcome.message)
  }

  class Client {
    /** List values by key (RPUSH / LRANGE). */
    var lists: map<string, seq<string>>
    /** The TTL in seconds that the last successful EXPIRE set on a key. */
    var ttl: map<string, nat>
    /** Messages published on each channel, in publication order. */
    var published: map<string, seq<string>>

    /** The list at `key`; a missing key reads as the empty list, as LRANGE answers. */
    function List(key: string): seq<string>
      reads this
    {
      if key in lists then lists[key] else []
    }

    function Published(channel: string): seq<string>
      reads this
    {
      if channel in published then published[channel] else []
    }

    constructor ()
      ensures lists == map[] && ttl == map[] && published == map[]
    {
      lists, ttl, published := map[], map[], map[];
    }

    /** RPUSH key value: append at the tail. */
    method RPush(key: string, value: string, outcome: Outcome) returns (err: Option<string>)
      modifies this
      ensures err == Reported(outcome)
      ensures lists == if Applied(outcome) then old(lists)[key := old(List(key)) + [value]] else old(lists)
      ensures ttl == old(ttl) && published == old(published)
    {
      err := Reported(outcome);
      if Applied(outcome) {
        lists := lists[key := List(key) + [value]];
      }
    }

    /** EXPIRE key seconds: only an existing key gets a TTL. */
    method Expire(key: string, seconds: nat, outcome: Outcome) returns (err: Option<string>)
      modifies this
      ensures err == Reported(outcome)
      ensures ttl == if Applied(outcome) && key in lists then old(ttl)[key := seconds] else old(ttl)
      ensures lists == old(lists) && published == old(published)
    {
      err := Reported(outcome);
      if Applied(outcome) && key in lists {
        ttl := ttl[key := seconds];
      }
    }

    /** LRANGE key 0 -1: the whole list, or the error `fault` names; reading changes nothing. */
    method LRange(key: string, fault: Option<string>) returns (r: Result<seq<string>, string>)
      ensures r == if fault.None? then Success(List(key)) else Failure(fault.value)
    {
      if fault.None? {
        r := Success(List(key));
      } else {
        r := Failure(fault.value);
      }
    }

    /** PUBLISH channel message. */
    method Publish(channel: string, message: string, outcome: Outcome) returns (err: Option<string>)
      modifies this
      ensures err == Reported(outcome)
      ensures published == if Applied(outcome) then old(published)[channel := old(Published(channel)) + [message]] else old(published)
      ensures lists == old(lists) && ttl == old(ttl)
    {
      err := Reported(outcome);
      if Applied(outcome) {
        published := published[channel := Published(channel) + [message]];
      }
    }
  }
}
