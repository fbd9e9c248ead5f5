/**
 * The bid pipeline: the per-booking bid ledger kept in the store, bid
 * submission (validate, store, publish), the viewer websocket handshake with
 * its once-per-channel listener start, and the listener that turns published
 * payloads into registry broadcasts.
 *
 * JSON is abstract: a `Codec` pairs an encoder with a decoder that may reject
 * its input, and the round-trip properties assume `Inverts(codec)`.
 */
module BidApi {
  import opened Wrappers
  import opened Ints
  import Redis
  import Token
  import opened WebSocketManager

  datatype Bid = Bid(
    id: string,
    bookingId: string,
    bidAmount: int64,
    driverId: int64,
    driverName: string,
    driverRating: int64,
    driverMobile: string,
    carId: int64,
    carType: string,
    carImage: string)

  /** `json.Marshal` and `json.Unmarshal` on bids; decoding fails on malformed text. */
  datatype Codec = Codec(encode: Bid -> string, decode: string -> Option<Bid>)

  /** Decoding recovers every encoded bid. */
  ghost predicate Inverts(codec: Codec)
  {
    forall b :: codec.decode(codec.encode(b)) == Some(b)
  }

  /** The TTL, in seconds, each successful append sets on a booking's ledger list. */
  const BidTtlSeconds: nat := 15 * 60

  /** The store key of a booking's ledger list: the booking id behind the "bids:" prefix. */
  function LedgerKey(bookingId: string): (key: string)
    ensures |key| == 5 + |bookingId| && key[..5] == "bids:" && key[5..] == bookingId
  {
    "bids:" + bookingId
  }

  /**
   * The broker channel of a booking, used both to publish and to register
   * viewers: the booking id behind the "bids_channel:" prefix.
   */
  function ChannelName(bookingId: string): (channel: string)
    ensures |channel| == 13 + |bookingId| && channel[..13] == "bids_channel:" && channel[13..] == bookingId
  {
    "bids_channel:" + bookingId
  }

  /** Different bookings never share a ledger key or a channel, and no ledger key is a channel name. */
  lemma KeyNamesDistinct(a: string, b: string)
    ensures LedgerKey(a) == LedgerKey(b) ==> a == b
    ensures ChannelName(a) == ChannelName(b) ==> a == b
    ensures LedgerKey(a) != ChannelName(b)
  {
    assert LedgerKey(a)[..5][4] == ':' && ChannelName(b)[..13][4] == '_';
  }

  // ---------------------------------------------------------------------------
  // Ledger contents
  // ---------------------------------------------------------------------------

  /** The bids of the entries that decode, in stored order; the others are dropped. */
  function DecodeAll(codec: Codec, entries: seq<string>): (bids: seq<Bid>)
    ensures |bids| <= |entries|
  {
    if entries == [] then []
    else
      var last := codec.decode(entries[|entries| - 1]);
      DecodeAll(codec, entries[..|entries| - 1]) + (if last.Some? then [last.value] else [])
  }

  /** The encodings of a list of bids, in order. */
  function EncodeAll(codec: Codec, bids: seq<Bid>): (entries: seq<string>)
    ensures |entries| == |bids|
  {
    if bids == [] then [] else EncodeAll(codec, bids[..|bids| - 1]) + [codec.encode(bids[|bids| - 1])]
  }

  lemma {:induction false} DecodeAllAppend(codec: Codec, xs: seq<string>, ys: seq<string>)
    ensures DecodeAll(codec, xs + ys) == DecodeAll(codec, xs) + DecodeAll(codec, ys)
    decreases |ys|
  {
    if ys != [] {
      assert (xs + ys)[..|xs + ys| - 1] == xs + ys[..|ys| - 1];
      DecodeAllAppend(codec, xs, ys[..|ys| - 1]);
    } else {
      assert xs + ys == xs;
    }
  }

  /** A malformed entry contributes nothing: the entries around it read as if it were not there. */
  lemma DecodeAllSkipsMalformed(codec: Codec, xs: seq<string>, s: string, ys: seq<string>)
    requires codec.decode(s).None?
    ensures DecodeAll(codec, xs + [s] + ys) == DecodeAll(codec, xs + ys)
  {
    DecodeAllAppend(codec, xs + [s], ys);
    DecodeAllAppend(codec, xs, [s]);
    DecodeAllAppend(codec, xs, ys);
    assert [s][..0] == [];
  }

  /** A well-formed entry contributes its bid exactly once, at its own position. */
  lemma DecodeAllKeepsWellFormed(codec: Codec, xs: seq<string>, s: string, ys: seq<string>)
    requires codec.decode(s).Some?
    ensures DecodeAll(codec, xs + [s] + ys) == DecodeAll(codec, xs) + [codec.decode(s).value] + DecodeAll(codec, ys)
  {
    DecodeAllAppend(codec, xs + [s], ys);
    DecodeAllAppend(codec, xs, [s]);
    assert [s][..0] == [];
  }

  /** Every bid read back comes from some stored entry that decodes to it, and every such entry is read back. */
  lemma {:induction false} DecodeAllMembers(codec: Codec, entries: seq<string>, b: Bid)
    ensures b in DecodeAll(codec, entries) <==> exists i :: 0 <= i < |entries| && codec.decode(entries[i]) == Some(b)
  {
    if entries != [] {
      var init := entries[..|entries| - 1];
      DecodeAllMembers(codec, init, b);
      if exists i :: 0 <= i < |entries| && codec.decode(entries[i]) == Some(b) {
        var i :| 0 <= i < |entries| && codec.decode(entries[i]) == Some(b);
        if i < |init| {
          assert init[i] == entries[i];
        }
      }
      if exists i :: 0 <= i < |init| && codec.decode(init[i]) == Some(b) {
        var i :| 0 <= i < |init| && codec.decode(init[i]) == Some(b);
        assert entries[i] == init[i];
      }
    }
  }

  /** A ledger written only through the codec reads back exactly the bids written, in order. */
  lemma {:induction false} DecodeAllOfEncoded(codec: Codec, bids: seq<Bid>)
    requires Inverts(codec)
    ensures DecodeAll(codec, EncodeAll(codec, bids)) == bids
  {
    if bids != [] {
      var init := bids[..|bids| - 1];
      var last := bids[|bids| - 1];
      var e := codec.encode(last);
      DecodeAllOfEncoded(codec, init);
      assert EncodeAll(codec, bids) == EncodeAll(codec, init) + [e];
      DecodeAllAppend(codec, EncodeAll(codec, init), [e]);
      assert codec.decode(e) == Some(last);
      assert DecodeAll(codec, [e]) == [last] by {
        assert [e][..0] == [];
      }
      assert bids == init + [last];
    }
  }

  /** Reading after a successful append gives the earlier bids followed by the new one. */
  lemma AppendThenRead(codec: Codec, stored: seq<string>, b: Bid)
    requires Inverts(codec)
    ensures DecodeAll(codec, stored + [codec.encode(b)]) == DecodeAll(codec, stored) + [b]
  {
    DecodeAllAppend(codec, stored, [codec.encode(b)]);
    assert [codec.encode(b)][..0] == [];
  }

  // ---------------------------------------------------------------------------
  // Ledger and broker operations
  // ---------------------------------------------------------------------------

  /**
   * Appends the encoded bid to the booking's list. Only after the push
   * reported success is the 15-minute TTL requested, and that request's own
   * error is ignored: the result is the push's error. A push that reports an
   * error may still have appended the bid.
   */
  method AddBid(client: Redis.Client, codec: Codec, bookingId: string, bid: Bid,
                push: Redis.Outcome, expire: Redis.Outcome) returns (err: Option<string>)
    modifies client
    ensures err == Redis.Reported(push)
    ensures client.lists ==
      if Redis.Applied(push)
      then old(client.lists)[LedgerKey(bookingId) := old(client.List(LedgerKey(bookingId))) + [codec.encode(bid)]]
      else old(client.lists)
    ensures client.ttl ==
      if push.Ok? && Redis.Applied(expire) then old(client.ttl)[LedgerKey(bookingId) := BidTtlSeconds] else old(client.ttl)
    ensures client.published == old(client.published)
  {
    var key := LedgerKey(bookingId);
    var bidJson := codec.encode(bid);
    err := client.RPush(key, bidJson, push);
    if err.None? {
      var _ := client.Expire(key, BidTtlSeconds, expire);
    }
  }

  /** Reads the booking's list and keeps, in stored order, the bids of the entries that decode. */
  method GetBids(client: Redis.Client, codec: Codec, bookingId: string, fault: Option<string>)
    returns (r: Result<seq<Bid>, string>)
    ensures fault.Some? ==> r == Failure(fault.value)
    ensures fault.None? ==> r == Success(DecodeAll(codec, client.List(LedgerKey(bookingId))))
  {
    var key := LedgerKey(bookingId);
    var range := client.LRange(key, fault);
    if range.Failure? {
      return Failure(range.error);
    }
    var bidStrings := range.value;
    var bids: seq<Bid> := [];
    for i := 0 to |bidStrings|
      invariant bids == DecodeAll(codec, bidStrings[..i])
    {
      assert bidStrings[..i + 1][..i] == bidStrings[..i];
      var bid := codec.decode(bidStrings[i]);
      if bid.Some? {
        bids := bids + [bid.value];
      }
    }
    assert bidStrings[..|bidStrings|] == bidStrings;
    return Success(bids);
  }

  /** Publishes the encoded bid on the booking's channel. */
  method PublishBid(client: Redis.Client, codec: Codec, bookingId: string, bid: Bid, outcome: Redis.Outcome)
    returns (err: Option<string>)
    modifies client
    ensures err == Redis.Reported(outcome)
    ensures client.published == if Redis.Applied(outcome) then old(client.published)[ChannelName(bookingId) := old(client.Published(ChannelName(bookingId))) + [codec.encode(bid)]] else old(client.published)
    ensures client.lists == old(client.lists) && client.ttl == old(client.ttl)
  {
    var channel := ChannelName(bookingId);
    var msg := codec.encode(bid);
    err := client.Publish(channel, msg, outcome);
  }

  // ---------------------------------------------------------------------------
  // Listener start: check-and-mark on the subscriber flags
  // ---------------------------------------------------------------------------

  /** A channel's flag; a channel without an entry reads as false, Go's zero value. */
  function Marked(subs: map<string, bool>, channel: string): bool
  {
    channel in subs && subs[channel]
  }

  /**
   * One atomic check-and-mark: the new flags and whether the listener is
   * started now. It starts exactly when the channel was not yet marked, and
   * afterwards the channel is marked and no other flag has moved.
   */
  function CheckAndMark(subs: map<string, bool>, channel: string): (r: (map<string, bool>, bool))
    ensures r.1 <==> !Marked(subs, channel)
    ensures Marked(r.0, channel)
    ensures forall ch :: ch != channel ==> Marked(r.0, ch) == Marked(subs, ch)
  {
    if Marked(subs, channel) then (subs, false) else (subs[channel := true], true)
  }

  /** The flags after viewers connected, one after the other, on `channels`. */
  function MarkAll(subs: map<string, bool>, channels: seq<string>): map<string, bool>
  {
    if channels == [] then subs
    else CheckAndMark(MarkAll(subs, channels[..|channels| - 1]), channels[|channels| - 1]).0
  }

  /** The listener starts those connections cause, in order. */
  function Starts(subs: map<string, bool>, channels: seq<string>): seq<string>
  {
    if channels == [] then []
    else
      var last := channels[|channels| - 1];
      Starts(subs, channels[..|channels| - 1])
        + (if CheckAndMark(MarkAll(subs, channels[..|channels| - 1]), last).1 then [last] else [])
  }

  /**
   * Over any run of viewer connections, each channel's listener is started
   * at most once, it is started iff some viewer came for a channel not
   * marked beforehand, and a flag once set stays set.
   */
  lemma {:induction false} StartsAtMostOnce(subs: map<string, bool>, channels: seq<string>)
    ensures forall i, j :: 0 <= i < j < |Starts(subs, channels)| ==> Starts(subs, channels)[i] != Starts(subs, channels)[j]
    ensures forall ch :: ch in Starts(subs, channels) <==> ch in channels && !Marked(subs, ch)
    ensures forall ch :: Marked(MarkAll(subs, channels), ch) <==> Marked(subs, ch) || ch in channels
  {
    if channels != [] {
      var init := channels[..|channels| - 1];
      var last := channels[|channels| - 1];
      StartsAtMostOnce(subs, init);
      var before := Starts(subs, init);
      var now := CheckAndMark(MarkAll(subs, init), last);
      assert channels == init + [last];
      if now.1 {
        assert last !in before;
        assert Starts(subs, channels) == before + [last];
      } else {
        assert Starts(subs, channels) == before;
      }
    }
  }

  // ---------------------------------------------------------------------------
  // Listener: payloads received on a channel become broadcasts
  // ---------------------------------------------------------------------------

  /**
   * The channel's connection list after the listener handled `payloads`,
   * the k-th payload's broadcast failing on the connections `failing(k)`.
   */
  function ListenConns(codec: Codec, conns: seq<Conn>, payloads: seq<string>, failing: nat -> set<Conn>): seq<Conn>
  {
    if payloads == [] then conns
    else
      var prev := ListenConns(codec, conns, payloads[..|payloads| - 1], failing);
      if codec.decode(payloads[|payloads| - 1]).Some? then Survivors(prev, failing(|payloads| - 1)) else prev
  }

  /** The registry after the listener on `channel` handled `payloads`: one broadcast per payload that decodes. */
  function ListenClients(codec: Codec, clients: map<string, seq<Conn>>, channel: string,
                         payloads: seq<string>, failing: nat -> set<Conn>): map<string, seq<Conn>>
  {
    if payloads == [] then clients
    else
      var init := payloads[..|payloads| - 1];
      var prev := ListenClients(codec, clients, channel, init, failing);
      if codec.decode(payloads[|payloads| - 1]).Some?
      then prev[channel := Survivors(Lookup(prev, channel), failing(|init|))]
      else prev
  }

  /** The writes and closes the listener's broadcasts perform, in order. */
  function ListenTrace(codec: Codec, clients: map<string, seq<Conn>>, channel: string,
                       payloads: seq<string>, failing: nat -> set<Conn>): seq<Event<Bid>>
  {
    if payloads == [] then []
    else
      var init := payloads[..|payloads| - 1];
      var bid := codec.decode(payloads[|payloads| - 1]);
      var conns := Lookup(ListenClients(codec, clients, channel, init, failing), channel);
      ListenTrace(codec, clients, channel, init, failing)
        + (if bid.Some? then BroadcastTrace(conns, bid.value, failing(|init|)) else [])
  }

  /** One broadcast call per bid, to the given channel, in order. */
  function CallsTo(channel: string, bids: seq<Bid>): (calls: seq<Call<Bid>>)
    ensures |calls| == |bids|
  {
    if bids == [] then [] else CallsTo(channel, bids[..|bids| - 1]) + [Call(channel, bids[|bids| - 1])]
  }

  /** The connections some decodable payload's broadcast failed on. */
  function Dead(codec: Codec, payloads: seq<string>, failing: nat -> set<Conn>): set<Conn>
  {
    if payloads == [] then {}
    else
      Dead(codec, payloads[..|payloads| - 1], failing)
        + (if codec.decode(payloads[|payloads| - 1]).Some? then failing(|payloads| - 1) else {})
  }

  /**
   * After the listener ran, the channel keeps, in registration order, exactly
   * the connections no broadcast failed on: a connection that failed once is
   * not written to again, and the others are unaffected.
   */
  lemma {:induction false} ListenConnsSurvivors(codec: Codec, conns: seq<Conn>, payloads: seq<string>, failing: nat -> set<Conn>)
    ensures ListenConns(codec, conns, payloads, failing) == Survivors(conns, Dead(codec, payloads, failing))
  {
    if payloads == [] {
      SurvivorsAll(conns, {});
    } else {
      var init := payloads[..|payloads| - 1];
      ListenConnsSurvivors(codec, conns, init, failing);
      var prev := ListenConns(codec, conns, init, failing);
      if codec.decode(payloads[|payloads| - 1]).Some? {
        SurvivorsTwice(conns, Dead(codec, init, failing), failing(|payloads| - 1));
        assert ListenConns(codec, conns, payloads, failing) == Survivors(prev, failing(|payloads| - 1));
        assert Dead(codec, payloads, failing) == Dead(codec, init, failing) + failing(|payloads| - 1);
      } else {
        assert ListenConns(codec, conns, payloads, failing) == prev;
        assert Dead(codec, payloads, failing) == Dead(codec, init, failing);
      }
    }
  }

  /** Before any payload decodes, the listener has not changed the channel's list. */
  lemma {:induction false} ListenConnsUntouched(codec: Codec, conns: seq<Conn>, payloads: seq<string>, failing: nat -> set<Conn>)
    requires DecodeAll(codec, payloads) == []
    ensures ListenConns(codec, conns, payloads, failing) == conns
  {
    if payloads != [] {
      ListenConnsUntouched(codec, conns, payloads[..|payloads| - 1], failing);
    }
  }

  /**
   * The listener only ever touches its own channel: the registry is left as
   * it was until some payload decodes, and from then on the channel holds
   * `ListenConns` of its original list while every other channel is untouched.
   */
  lemma {:induction false} ListenClientsConns(codec: Codec, clients: map<string, seq<Conn>>, channel: string,
                                              payloads: seq<string>, failing: nat -> set<Conn>)
    ensures ListenClients(codec, clients, channel, payloads, failing) ==
      if DecodeAll(codec, payloads) == [] then clients
      else clients[channel := ListenConns(codec, Lookup(clients, channel), payloads, failing)]
  {
    if payloads != [] {
      var init := payloads[..|payloads| - 1];
      var conns := Lookup(clients, channel);
      var f := failing(|init|);
      ListenClientsConns(codec, clients, channel, init, failing);
      var prev := ListenClients(codec, clients, channel, init, failing);
      var before := ListenConns(codec, conns, init, failing);
      assert Lookup(prev, channel) == before by {
        if DecodeAll(codec, init) == [] {
          ListenConnsUntouched(codec, conns, init, failing);
        }
      }
      if codec.decode(payloads[|payloads| - 1]).Some? {
        assert ListenClients(codec, clients, channel, payloads, failing) == prev[channel := Survivors(before, f)];
        assert ListenConns(codec, conns, payloads, failing) == Survivors(before, f);
        assert DecodeAll(codec, payloads) != [];
        assert prev[channel := Survivors(before, f)] == clients[channel := Survivors(before, f)];
      } else {
        assert ListenClients(codec, clients, channel, payloads, failing) == prev;
        assert ListenConns(codec, conns, payloads, failing) == before;
        assert DecodeAll(codec, payloads) == DecodeAll(codec, init);
      }
    }
  }

  /** One more payload: a bid is broadcast over the channel's current list, anything else changes nothing. */
  lemma ListenStep(codec: Codec, clients: map<string, seq<Conn>>, channel: string,
                   payloads: seq<string>, i: nat, failing: nat -> set<Conn>)
    requires i < |payloads|
    ensures var prev := ListenClients(codec, clients, channel, payloads[..i], failing);
      var bid := codec.decode(payloads[i]);
      && ListenClients(codec, clients, channel, payloads[..i + 1], failing) ==
           (if bid.Some? then prev[channel := Survivors(Lookup(prev, channel), failing(i))] else prev)
      && ListenTrace(codec, clients, channel, payloads[..i + 1], failing) ==
           ListenTrace(codec, clients, channel, payloads[..i], failing)
             + (if bid.Some? then BroadcastTrace(Lookup(prev, channel), bid.value, failing(i)) else [])
  {
    assert payloads[..i + 1][..i] == payloads[..i];
  }

  /** One more payload adds one broadcast call exactly when it decodes. */
  lemma CallsStep(codec: Codec, channel: string, payloads: seq<string>, i: nat)
    requires i < |payloads|
    ensures var bid := codec.decode(payloads[i]);
      CallsTo(channel, DecodeAll(codec, payloads[..i + 1])) ==
        CallsTo(channel, DecodeAll(codec, payloads[..i])) + (if bid.Some? then [Call(channel, bid.value)] else [])
  {
    assert payloads[..i + 1][..i] == payloads[..i];
    var bids := DecodeAll(codec, payloads[..i]);
    var bid := codec.decode(payloads[i]);
    if bid.Some? {
      assert DecodeAll(codec, payloads[..i + 1]) == bids + [bid.value];
      assert (bids + [bid.value])[..|bids|] == bids;
    } else {
      assert DecodeAll(codec, payloads[..i + 1]) == bids;
    }
  }

  /** The registry state `OnMessage` leaves behind when it starts from `clients`, `trace` and `calls`. */
  ghost predicate Handled(codec: Codec, channel: string, payload: string, failing: set<Conn>,
                          clients: map<string, seq<Conn>>, trace: seq<Event<Bid>>, calls: seq<Call<Bid>>,
                          clients': map<string, seq<Conn>>, trace': seq<Event<Bid>>, calls': seq<Call<Bid>>)
  {
    var bid := codec.decode(payload);
    var conns := Lookup(clients, channel);
    && clients' == (if bid.Some? then clients[channel := Survivors(conns, failing)] else clients)
    && trace' == trace + (if bid.Some? then BroadcastTrace(conns, bid.value, failing) else [])
    && calls' == calls + (if bid.Some? then [Call(channel, bid.value)] else [])
  }

  /** Handling the next payload extends the listener's state by that payload. */
  lemma ListenAdvance(codec: Codec, channel: string, payloads: seq<string>, i: nat, failing: nat -> set<Conn>,
                      clients0: map<string, seq<Conn>>, trace0: seq<Event<Bid>>, calls0: seq<Call<Bid>>,
                      clients: map<string, seq<Conn>>, trace: seq<Event<Bid>>, calls: seq<Call<Bid>>,
                      clients': map<string, seq<Conn>>, trace': seq<Event<Bid>>, calls': seq<Call<Bid>>)
    requires i < |payloads|
    requires clients == ListenClients(codec, clients0, channel, payloads[..i], failing)
    requires trace == trace0 + ListenTrace(codec, clients0, channel, payloads[..i], failing)
    requires calls == calls0 + CallsTo(channel, DecodeAll(codec, payloads[..i]))
    requires Handled(codec, channel, payloads[i], failing(i), clients, trace, calls, clients', trace', calls')
    ensures clients' == ListenClients(codec, clients0, channel, payloads[..i + 1], failing)
    ensures trace' == trace0 + ListenTrace(codec, clients0, channel, payloads[..i + 1], failing)
    ensures calls' == calls0 + CallsTo(channel, DecodeAll(codec, payloads[..i + 1]))
  {
    ListenStep(codec, clients0, channel, payloads, i, failing);
    CallsStep(codec, channel, payloads, i);
    var bid := codec.decode(payloads[i]);
    var events := if bid.Some? then BroadcastTrace(Lookup(clients, channel), bid.value, failing(i)) else [];
    var call := if bid.Some? then [Call(channel, bid.value)] else [];
    var listened := ListenTrace(codec, clients0, channel, payloads[..i], failing);
    var called := CallsTo(channel, DecodeAll(codec, payloads[..i]));
    AppendAssoc(trace0, listened, events);
    AppendAssoc(calls0, called, call);
  }

  // ---------------------------------------------------------------------------
  // The server
  // ---------------------------------------------------------------------------

  /** An HTTP answer: status code and the message of its JSON body. */
  datatype Reply = Reply(status: int, message: string)

  /** How a viewer's websocket request ended up. */
  datatype ViewerOutcome =
    | Rejected(status: int, message: string)
    | UpgradeFailed
    | Registered(channel: string, conn: Conn)

  class Server {
    /** Channels whose listener has been started by this process. */
    var redisSubscribers: map<string, bool>
    const webSocketManager: Manager<Bid>
    /** Every listener start, in order. */
    ghost var listenersStarted: seq<string>

    /** Listeners are started once per channel, and exactly for the marked channels. */
    ghost predicate Valid()
      reads this
    {
      && (forall i, j :: 0 <= i < j < |listenersStarted| ==> listenersStarted[i] != listenersStarted[j])
      && (forall ch :: ch in listenersStarted <==> Marked(redisSubscribers, ch))
    }

    /** `NewServer`: no subscriber flags and an empty registry. */
    constructor ()
      ensures Valid()
      ensures redisSubscribers == map[] && listenersStarted == []
      ensures fresh(webSocketManager)
      ensures webSocketManager.clients == map[] && webSocketManager.trace == [] && webSocketManager.calls == []
    {
      redisSubscribers := map[];
      webSocketManager := new Manager<Bid>();
      listenersStarted := [];
    }

    /**
     * `bidSubmit`: bind the body, store the bid under its booking, publish it.
     * `bind` is the request binding, which may accept a body that the codec's
     * decoder would refuse. A body that does not bind is answered 400 and
     * touches nothing; a push that reports an error is answered 500 before
     * anything is published, although the push may have stored the bid; the
     * publish result is discarded.
     */
    method BidSubmit(client: Redis.Client, codec: Codec, bind: string -> Option<Bid>, body: string,
                     push: Redis.Outcome, expire: Redis.Outcome, publish: Redis.Outcome)
      returns (reply: Reply)
      modifies client
      ensures bind(body).None? ==>
        && reply == Reply(400, "invalid bid")
        && client.lists == old(client.lists) && client.ttl == old(client.ttl) && client.published == old(client.published)
      ensures bind(body).Some? ==>
        var bid := bind(body).value;
        var key := LedgerKey(bid.bookingId);
        var channel := ChannelName(bid.bookingId);
        && reply == (if push.Ok? then Reply(200, "bid placed") else Reply(500, "failed to save bid"))
        && client.lists ==
             (if Redis.Applied(push) then old(client.lists)[key := old(client.List(key)) + [codec.encode(bid)]] else old(client.lists))
        && client.ttl == (if push.Ok? && Redis.Applied(expire) then old(client.ttl)[key := BidTtlSeconds] else old(client.ttl))
        && client.published ==
             if push.Ok? && Redis.Applied(publish)
             then old(client.published)[channel := old(client.Published(channel)) + [codec.encode(bid)]]
             else old(client.published)
    {
      var bound := bind(body);
      if bound.None? {
        return Reply(400, "invalid bid");
      }
      var bid := bound.value;
      var err := AddBid(client, codec, bid.bookingId, bid, push, expire);
      if err.Some? {
        return Reply(500, "failed to save bid");
      }
      var _ := PublishBid(client, codec, bid.bookingId, bid, publish);
      return Reply(200, "bid placed");
    }

    /** `StartBidChannelListener`: the listener task for the booking's channel is spawned. */
    method StartBidChannelListener(bookingId: string)
      modifies this`listenersStarted
      ensures listenersStarted == old(listenersStarted) + [ChannelName(bookingId)]
    {
      listenersStarted := listenersStarted + [ChannelName(bookingId)];
    }

    /**
     * `bidWebSocket` up to its read pump. A missing token or one the verifier
     * rejects is answered 401 before any upgrade, and a failed upgrade ends
     * the request; in all three cases no state changes. Otherwise the new
     * connection (`upgrade`) is registered on the booking's channel and the
     * channel's listener is started if, and only if, it was not yet marked.
     */
    method BidWebSocket(bookingId: string, token: string, verify: string -> Result<Token.Payload, string>,
                        upgrade: Option<Conn>) returns (r: ViewerOutcome)
      requires Valid()
      modifies this, webSocketManager
      ensures Valid()
      ensures token == "" ==> r == Rejected(401, "Missing token")
      ensures token != "" && verify(token).Failure? ==> r == Rejected(401, verify(token).error)
      ensures token != "" && verify(token).Success? && upgrade.None? ==> r == UpgradeFailed
      ensures r.Registered? <==> token != "" && verify(token).Success? && upgrade.Some?
      ensures !r.Registered? ==>
        && redisSubscribers == old(redisSubscribers) && listenersStarted == old(listenersStarted)
        && webSocketManager.clients == old(webSocketManager.clients)
      ensures r.Registered? ==>
        var channel := ChannelName(bookingId);
        var (subs, started) := CheckAndMark(old(redisSubscribers), channel);
        && r == Registered(channel, upgrade.value)
        && webSocketManager.clients == old(webSocketManager.clients)[channel := old(webSocketManager.Conns(channel)) + [upgrade.value]]
        && redisSubscribers == subs
        && listenersStarted == old(listenersStarted) + (if started then [channel] else [])
      ensures webSocketManager.trace == old(webSocketManager.trace) && webSocketManager.calls == old(webSocketManager.calls)
    {
      if token == "" {
        return Rejected(401, "Missing token");
      }
      var verified := verify(token);
      if verified.Failure? {
        return Rejected(401, verified.error);
      }
      if upgrade.None? {
        return UpgradeFailed;
      }
      var conn := upgrade.value;
      var channel := ChannelName(bookingId);
      webSocketManager.AddClient(channel, conn);
      var (subs, start) := CheckAndMark(redisSubscribers, channel);
      redisSubscribers := subs;
      if start {
        StartBidChannelListener(bookingId);
      }
      return Registered(channel, conn);
    }

    /** The deferred teardown of `bidWebSocket` once its read pump fails: unregister, then close. */
    method CloseViewer(bookingId: string, conn: Conn)
      modifies webSocketManager
      ensures var channel := ChannelName(bookingId);
        webSocketManager.clients ==
          if conn in old(webSocketManager.Conns(channel))
          then old(webSocketManager.clients)[channel := RemoveFirst(old(webSocketManager.Conns(channel)), conn)]
          else old(webSocketManager.clients)
      ensures webSocketManager.trace == old(webSocketManager.trace) + [Close(conn)]
      ensures webSocketManager.calls == old(webSocketManager.calls)
    {
      webSocketManager.RemoveClient(ChannelName(bookingId), conn);
      webSocketManager.trace := webSocketManager.trace + [Close(conn)];
    }

    /**
     * One iteration of the listener loop: a payload that does not decode is
     * skipped, a bid is broadcast on the booking's channel (the connections in
     * `failing` fail their write).
     */
    method OnMessage(codec: Codec, bookingId: string, payload: string, failing: set<Conn>)
      modifies webSocketManager
      ensures Handled(codec, ChannelName(bookingId), payload, failing,
                      old(webSocketManager.clients), old(webSocketManager.trace), old(webSocketManager.calls),
                      webSocketManager.clients, webSocketManager.trace, webSocketManager.calls)
    {
      var bid := codec.decode(payload);
      if bid.None? {
        return;
      }
      webSocketManager.Broadcast(ChannelName(bookingId), bid.value, failing);
    }

    /**
     * The listener task over the payloads its subscription delivers, in
     * arrival order: every decodable payload is broadcast exactly once, in
     * order, on the booking's channel, and malformed ones are skipped.
     */
    method ListenerLoop(codec: Codec, bookingId: string, payloads: seq<string>, failing: nat -> set<Conn>)
      modifies webSocketManager
      ensures var channel := ChannelName(bookingId);
        && webSocketManager.calls == old(webSocketManager.calls) + CallsTo(channel, DecodeAll(codec, payloads))
        && webSocketManager.trace == old(webSocketManager.trace) + ListenTrace(codec, old(webSocketManager.clients), channel, payloads, failing)
        && webSocketManager.clients == ListenClients(codec, old(webSocketManager.clients), channel, payloads, failing)
    {
      var channel := ChannelName(bookingId);
      var m := webSocketManager;
      ghost var clients, trace, calls := m.clients, m.trace, m.calls;
      for i := 0 to |payloads|
        invariant m.calls == calls + CallsTo(channel, DecodeAll(codec, payloads[..i]))
        invariant m.trace == trace + ListenTrace(codec, clients, channel, payloads[..i], failing)
        invariant m.clients == ListenClients(codec, clients, channel, payloads[..i], failing)
      {
        ghost var clients0, trace0, calls0 := m.clients, m.trace, m.calls;
        OnMessage(codec, bookingId, payloads[i], failing(i));
        ListenAdvance(codec, channel, payloads, i, failing, clients, trace, calls,
                      clients0, trace0, calls0, m.clients, m.trace, m.calls);
      }
      assert payloads[..|payloads|] == payloads;
    }
  }
}
