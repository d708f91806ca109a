/**
 * The request-correlation table of the rosbridge client: service calls get
 * ids `call_service:<name>:<counter>` from a counter, wait in a table until a
 * `service_response` with their id arrives, and are rejected when the
 * transport closes. `publish` messages become `message` events. The
 * transport is abstract: what the client sends is an outgoing log, what it
 * emits an event log.
 */
module RosbridgeClient {
  import opened Wrappers
  import opened JsValues

  /** The decimal digit for `d`. */
  function DigitChar(d: nat): char
    requires d < 10
  {
    ['0', '1', '2', '3', '4', '5', '6', '7', '8', '9'][d]
  }

  /** `${n}`: the decimal numeral of `n`. */
  function NatToString(n: nat): (s: string)
    ensures |s| > 0
    ensures forall i :: 0 <= i < |s| ==> '0' <= s[i] <= '9'
    ensures n >= 10 ==> |s| >= 2
  {
    if n < 10 then [DigitChar(n)] else NatToString(n / 10) + [DigitChar(n % 10)]
  }

  lemma DigitCharInjective(a: nat, b: nat)
    requires a < 10 && b < 10
    ensures DigitChar(a) == DigitChar(b) ==> a == b
  {
  }

  /** Different counters have different numerals. */
  lemma {:induction false} NatToStringInjective(a: nat, b: nat)
    ensures NatToString(a) == NatToString(b) ==> a == b
  {
    var sa, sb := NatToString(a), NatToString(b);
    if sa == sb {
      if a < 10 && b < 10 {
        DigitCharInjective(a, b);
      } else if a >= 10 && b >= 10 {
        assert sa[|sa| - 1] == DigitChar(a % 10) && sb[|sb| - 1] == DigitChar(b % 10);
        DigitCharInjective(a % 10, b % 10);
        assert sa[..|sa| - 1] == NatToString(a / 10) && sb[..|sb| - 1] == NatToString(b / 10);
        NatToStringInjective(a / 10, b / 10);
      }
    }
  }

  /** The id of the `counter`-th service call, made to service `name`. */
  function CallId(name: string, counter: nat): string {
    "call_service:" + name + ":" + NatToString(counter)
  }

  /** The position of the last ':' in `s`, -1 when there is none. */
  function LastColon(s: string): int {
    if s == [] then -1
    else if s[|s| - 1] == ':' then |s| - 1
    else LastColon(s[..|s| - 1])
  }

  lemma {:induction false} LastColonBeforeDigits(p: string, d: string)
    requires forall i :: 0 <= i < |d| ==> d[i] != ':'
    ensures LastColon(p + ":" + d) == |p|
    decreases |d|
  {
    var s := p + ":" + d;
    if d != [] {
      assert s[|s| - 1] == d[|d| - 1];
      assert s[..|s| - 1] == p + ":" + d[..|d| - 1];
      LastColonBeforeDigits(p, d[..|d| - 1]);
    } else {
      assert s[|s| - 1] == ':';
    }
  }

  /** A string `p + ":" + d` with a colon-free `d` determines `p` and `d`. */
  lemma SplitAtLastColon(p1: string, d1: string, p2: string, d2: string)
    requires forall i :: 0 <= i < |d1| ==> d1[i] != ':'
    requires forall i :: 0 <= i < |d2| ==> d2[i] != ':'
    requires p1 + ":" + d1 == p2 + ":" + d2
    ensures d1 == d2 && p1 == p2
  {
    var s := p1 + ":" + d1;
    LastColonBeforeDigits(p1, d1);
    LastColonBeforeDigits(p2, d2);
    assert d1 == s[|s| - |d1|..] == d2;
    assert p1 == s[..|p1|] == p2;
  }

  /** Service-call ids are unique: an id determines both the service name and the counter. */
  lemma CallIdInjective(n1: string, c1: nat, n2: string, c2: nat)
    ensures CallId(n1, c1) == CallId(n2, c2) ==> n1 == n2 && c1 == c2
  {
    if CallId(n1, c1) == CallId(n2, c2) {
      var d1, d2 := NatToString(c1), NatToString(c2);
      SplitAtLastColon("call_service:" + n1, d1, "call_service:" + n2, d2);
      NatToStringInjective(c1, c2);
      assert n1 == ("call_service:" + n1)[13..] == ("call_service:" + n2)[13..] == n2;
    }
  }

  /** A message the client hands to the transport. */
  datatype Outgoing =
    | CallService(id: string, service: string, serviceType: string, args: Val)
    | Subscribe(messageType: Option<string>, topic: string, compression: string,
                throttleRate: nat, queueLength: nat)

  /** A message the transport delivers, by its `op`. */
  datatype Incoming =
    | ServiceResponse(id: string, result: bool, values: Val)
    | Publish(topic: string, msg: Val)
    | OtherOp(op: string)

  /** An event the client emits to its own listeners. */
  datatype Event = Open | Error(err: Val) | Close | Message(topic: string, data: Val)

  /** How a service call's promise settled. */
  datatype Settlement = Resolved(values: Val) | Rejected(message: Val)

  const ConnectionClosed: string := "connection closed"

  /** The settled promises after every id of `ids` not yet settled is rejected with "connection closed". */
  function RejectAll(settled: map<string, Settlement>, ids: set<string>): map<string, Settlement> {
    map id | id in settled.Keys + ids :: if id in settled then settled[id] else Rejected(Str(ConnectionClosed))
  }

  /**
   * Closing settles every waiting request: exactly the pending and settled
   * ids are settled afterwards, a promise settled before keeps its
   * settlement, and every other one is rejected with "connection closed".
   */
  lemma RejectAllSpec(settled: map<string, Settlement>, ids: set<string>, id: string)
    ensures id in RejectAll(settled, ids) <==> id in settled || id in ids
    ensures id in settled ==> RejectAll(settled, ids)[id] == settled[id]
    ensures id in ids && id !in settled ==> RejectAll(settled, ids)[id] == Rejected(Str(ConnectionClosed))
  {
  }

  /** Rejecting one more id extends the rejections. */
  lemma RejectOneMore(settled: map<string, Settlement>, ids: set<string>, id: string)
    ensures var m := RejectAll(settled, ids);
            (if id in m then m else m[id := Rejected(Str(ConnectionClosed))]) == RejectAll(settled, ids + {id})
  {
  }

  class RosbridgeClient {
    var idCounter: nat
    /** The ids of `waitingServiceRequests`. */
    var waiting: set<string>
    /** The promises of service calls that have settled; a promise settles once. */
    var settled: map<string, Settlement>
    var sent: seq<Outgoing>
    var events: seq<Event>
    var warnings: nat
    var transportClosed: bool
    /** The service name of each call made so far, by counter - 1. */
    ghost var calledNames: seq<string>

    ghost predicate IssuedId(id: string)
      reads this
    {
      exists i :: 0 <= i < |calledNames| && id == CallId(calledNames[i], i + 1)
    }

    /** Every pending or settled id was issued by a call made so far. */
    ghost predicate Valid()
      reads this
    {
      && |calledNames| == idCounter
      && (forall id :: id in waiting ==> IssuedId(id))
      && (forall id :: id in settled ==> IssuedId(id))
    }

    constructor ()
      ensures Valid()
      ensures idCounter == 0 && waiting == {} && settled == map[]
      ensures sent == [] && events == [] && warnings == 0 && !transportClosed
    {
      idCounter := 0;
      waiting := {};
      settled := map[];
      sent := [];
      events := [];
      warnings := 0;
      transportClosed := false;
      calledNames := [];
    }

    /**
     * callService: takes the next counter value, registers the request under a
     * new id, and sends the call. The id was never used before.
     */
    method CallServiceRequest(name: string, serviceType: string, payload: Val) returns (id: string)
      requires Valid()
      modifies this
      ensures Valid()
      ensures idCounter == old(idCounter) + 1
      ensures id == CallId(name, idCounter)
      ensures id !in old(waiting) && id !in old(settled)
      ensures waiting == old(waiting) + {id}
      ensures sent == old(sent) + [CallService(id, name, serviceType, payload)]
      ensures settled == old(settled) && events == old(events)
      ensures warnings == old(warnings) && transportClosed == old(transportClosed)
    {
      idCounter := idCounter + 1;
      id := CallId(name, idCounter);
      forall i | 0 <= i < |calledNames| ensures id != CallId(calledNames[i], i + 1) {
        CallIdInjective(name, idCounter, calledNames[i], i + 1);
      }
      assert !IssuedId(id);
      ghost var before := calledNames;
      calledNames := calledNames + [name];
      assert IssuedId(id) by {
        assert id == CallId(calledNames[|before|], |before| + 1);
      }
      forall k | k in waiting || k in settled ensures IssuedId(k) {
        var i :| 0 <= i < |before| && k == CallId(before[i], i + 1);
        assert calledNames[i] == before[i];
      }
      waiting := waiting + {id};
      sent := sent + [CallService(id, name, serviceType, payload)];
    }

    /** Settles the promise of `id` unless it has settled already. */
    method Settle(id: string, s: Settlement)
      requires Valid() && IssuedId(id)
      modifies this
      ensures Valid()
      ensures settled == if id in old(settled) then old(settled) else old(settled)[id := s]
      ensures idCounter == old(idCounter) && waiting == old(waiting) && sent == old(sent)
      ensures events == old(events) && warnings == old(warnings) && transportClosed == old(transportClosed)
      ensures calledNames == old(calledNames)
    {
      if id !in settled {
        settled := settled[id := s];
      }
    }

    /**
     * The transport's `message` handler. A `service_response` removes its id
     * from the table, then resolves the promise with the values when `result`
     * holds and rejects it otherwise; an unknown id only warns. A `publish`
     * becomes a `message` event. Other ops are ignored.
     */
    method OnMessage(msg: Incoming)
      requires Valid()
      modifies this
      ensures Valid()
      ensures msg.ServiceResponse? ==>
                && waiting == old(waiting) - {msg.id}
                && (msg.id !in old(waiting) ==> settled == old(settled) && warnings == old(warnings) + 1)
                && (msg.id in old(waiting) ==>
                      var s := if msg.result then Resolved(msg.values) else Rejected(msg.values);
                      settled == (if msg.id in old(settled) then old(settled) else old(settled)[msg.id := s])
                      && warnings == old(warnings))
                && events == old(events)
      ensures msg.Publish? ==>
                events == old(events) + [Message(msg.topic, msg.msg)]
                && waiting == old(waiting) && settled == old(settled) && warnings == old(warnings)
      ensures msg.OtherOp? ==>
                events == old(events) && waiting == old(waiting) && settled == old(settled) && warnings == old(warnings)
      ensures idCounter == old(idCounter) && sent == old(sent) && transportClosed == old(transportClosed)
    {
      match msg
      case ServiceResponse(id, result, values) =>
        var wasWaiting := id in waiting;
        waiting := waiting - {id};
        if !wasWaiting {
          warnings := warnings + 1;
        } else {
          Settle(id, if result then Resolved(values) else Rejected(values));
        }
      case Publish(topic, data) =>
        events := events + [Message(topic, data)];
      case OtherOp(_) =>
    }

    /**
     * The transport's `close` handler: rejects every request still in the
     * table with "connection closed" (the table itself is kept), then emits
     * `close`.
     */
    method OnClose()
      requires Valid()
      modifies this
      ensures Valid()
      ensures settled == RejectAll(old(settled), old(waiting))
      ensures events == old(events) + [Close]
      ensures waiting == old(waiting) && idCounter == old(idCounter) && sent == old(sent)
      ensures warnings == old(warnings) && transportClosed == old(transportClosed)
    {
      var pending := waiting;
      while pending != {}
        invariant Valid()
        invariant pending <= waiting
        invariant settled == RejectAll(old(settled), old(waiting) - pending)
        invariant waiting == old(waiting) && idCounter == old(idCounter) && sent == old(sent)
        invariant events == old(events) && warnings == old(warnings)
        invariant transportClosed == old(transportClosed)
        decreases pending
      {
        var id :| id in pending;
        Settle(id, Rejected(Str(ConnectionClosed)));
        RejectOneMore(old(settled), old(waiting) - pending, id);
        assert old(waiting) - (pending - {id}) == (old(waiting) - pending) + {id};
        pending := pending - {id};
      }
      events := events + [Close];
    }

    /** The transport's `open` handler. */
    method OnOpen()
      modifies this
      ensures events == old(events) + [Open]
      ensures idCounter == old(idCounter) && waiting == old(waiting) && settled == old(settled)
      ensures sent == old(sent) && warnings == old(warnings) && transportClosed == old(transportClosed)
      ensures calledNames == old(calledNames)
    {
      events := events + [Open];
    }

    /** The transport's `error` handler. */
    method OnError(err: Val)
      modifies this
      ensures events == old(events) + [Error(err)]
      ensures idCounter == old(idCounter) && waiting == old(waiting) && settled == old(settled)
      ensures sent == old(sent) && warnings == old(warnings) && transportClosed == old(transportClosed)
      ensures calledNames == old(calledNames)
    {
      events := events + [Error(err)];
    }

    /**
     * subscribe: sends a subscribe request; compression defaults to "none",
     * throttle rate and queue length are 0.
     */
    method SubscribeTopic(topic: string, serialization: Option<string>, messageType: Option<string>)
      modifies this
      ensures sent == old(sent) + [Subscribe(messageType, topic, serialization.GetOr("none"), 0, 0)]
      ensures idCounter == old(idCounter) && waiting == old(waiting) && settled == old(settled)
      ensures events == old(events) && warnings == old(warnings) && transportClosed == old(transportClosed)
      ensures calledNames == old(calledNames)
    {
      sent := sent + [Subscribe(messageType, topic, serialization.GetOr("none"), 0, 0)];
    }

    /** close: closes the transport. */
    method CloseClient()
      modifies this
      ensures transportClosed
      ensures idCounter == old(idCounter) && waiting == old(waiting) && settled == old(settled)
      ensures sent == old(sent) && events == old(events) && warnings == old(warnings)
      ensures calledNames == old(calledNames)
    {
      transportClosed := true;
    }
  }

  /** The outgoing subscribe message for given options, compression defaulting to "none". */
  function SubscribeMessage(topic: string, serialization: Option<string>, messageType: Option<string>): (m: Outgoing)
    ensures m.Subscribe? && m.topic == topic && m.messageType == messageType
    ensures serialization.None? ==> m.compression == "none"
    ensures serialization.Some? ==> m.compression == serialization.value
    ensures m.throttleRate == 0 && m.queueLength == 0
  {
    Subscribe(messageType, topic, serialization.GetOr("none"), 0, 0)
  }

  /**
   * Two calls in a row to the same service get different ids, and a response
   * to the first settles only the first.
   */
  method ResponseSettlesOnlyItsCall(c: RosbridgeClient) returns (id1: string, id2: string)
    requires c.Valid()
    modifies c
    ensures id1 != id2
    ensures c.waiting == old(c.waiting) + {id2}
    ensures id1 in c.settled && c.settled[id1] == Resolved(Num(1.0))
  {
    id1 := c.CallServiceRequest("/rosapi/topics", "rosapi/Topics", Undefined);
    id2 := c.CallServiceRequest("/rosapi/topics", "rosapi/Topics", Undefined);
    c.OnMessage(ServiceResponse(id1, true, Num(1.0)));
  }
}
