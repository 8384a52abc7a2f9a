/**
 * The topology registry of the message bus: the closed sets of exchanges,
 * routing keys and queues the application knows about, each variant with its
 * fixed wire name, the decoder for routing keys, and the "all known values"
 * accessors. Everything here is pure data and pure functions.
 */
module MessageBus {

  /** Outcome of decoding a wire string: a variant, or the reason it failed. */
  datatype Result<+T, +E> = Ok(value: T) | Err(error: E)

  /** The one way decoding fails: the string names no known routing key
      (where the Rust decoder panics with "Invalid routing key"). */
  datatype DecodeError = InvalidRoutingKey

  /** Exchanges messages are published into. */
  datatype MessageBrokerExchanges = TestExchange
  {
    /** Position of the variant in the declaration (its discriminant). */
    function Ordinal(): nat
    {
      match this
      case TestExchange => 0
    }

    /** Wire name under which the exchange is declared. */
    function AsStr(): string
    {
      match this
      case TestExchange => "test_exchange"
    }

    /** Wire names of every known exchange, in declaration order. */
    static function All(): (r: seq<string>)
      ensures forall e: MessageBrokerExchanges :: e.Ordinal() < |r| && r[e.Ordinal()] == e.AsStr()
      ensures forall i :: 0 <= i < |r| ==> exists e: MessageBrokerExchanges :: e.Ordinal() == i && r[i] == e.AsStr()
    {
      [TestExchange.AsStr()]
    }
  }

  /** Topic tokens that match published messages to bound queues. */
  datatype MessageBrokerRoutingKeys = TestTopic | TestTopicTwo
  {
    /** Position of the variant in the declaration (its discriminant). */
    function Ordinal(): nat
    {
      match this
      case TestTopic => 0
      case TestTopicTwo => 1
    }

    /** Wire string of the routing key. */
    function AsStr(): string
    {
      match this
      case TestTopic => "test.topic"
      case TestTopicTwo => "test.topic_two"
    }

    /** Decodes a wire string; any string that is not exactly the wire string
        of a variant is an error, never a default variant. */
    static function FromStr(routingKey: string): (r: Result<MessageBrokerRoutingKeys, DecodeError>)
      ensures r.Ok? ==> r.value.AsStr() == routingKey
      ensures r.Err? <==> forall k: MessageBrokerRoutingKeys :: k.AsStr() != routingKey
    {
      match routingKey
      case "test.topic" => Ok(TestTopic)
      case "test.topic_two" => Ok(TestTopicTwo)
      case _ => Err(InvalidRoutingKey)
    }

    /** Wire strings of every known routing key, in declaration order. */
    static function All(): (r: seq<string>)
      ensures forall k: MessageBrokerRoutingKeys :: k.Ordinal() < |r| && r[k.Ordinal()] == k.AsStr()
      ensures forall i :: 0 <= i < |r| ==> FromStr(r[i]).Ok? && FromStr(r[i]).value.Ordinal() == i
    {
      [TestTopic.AsStr(), TestTopicTwo.AsStr()]
    }
  }

  /** Queues that consumers are bound to. */
  datatype MessageBrokerQueues = TestQueue
  {
    /** Wire name under which the queue is declared. */
    function AsStr(): string
    {
      match this
      case TestQueue => "test_queue"
    }
  }

  /** Encoding a routing key and decoding the result gives the key back. */
  lemma RoutingKeyRoundTrip(k: MessageBrokerRoutingKeys)
    ensures MessageBrokerRoutingKeys.FromStr(k.AsStr()) == Ok(k)
  {
  }

  /** The decoder accepts exactly the two known wire strings, and accepts a
      string exactly when it is listed by All(). */
  lemma RoutingKeyAcceptedStrings(s: string)
    ensures MessageBrokerRoutingKeys.FromStr(s).Ok? <==> s == "test.topic" || s == "test.topic_two"
    ensures MessageBrokerRoutingKeys.FromStr(s).Ok? <==> s in MessageBrokerRoutingKeys.All()
  {
  }

  /** Distinct routing keys have distinct wire strings. */
  lemma RoutingKeyAsStrInjective(a: MessageBrokerRoutingKeys, b: MessageBrokerRoutingKeys)
    ensures a.AsStr() == b.AsStr() <==> a == b
  {
  }

  /** All() of the routing keys is exactly the two wire strings, one per
      variant in declaration order, with no duplicates. */
  lemma RoutingKeyAllExact()
    ensures MessageBrokerRoutingKeys.All() == ["test.topic", "test.topic_two"]
    ensures forall i, j :: 0 <= i < j < |MessageBrokerRoutingKeys.All()| ==>
      MessageBrokerRoutingKeys.All()[i] != MessageBrokerRoutingKeys.All()[j]
  {
  }

  /** Decoding matches the whole string: a known key followed by more text is
      accepted only when the result is itself the other known key, which is
      the one case "test.topic" + "_two". In particular a key extended by
      further dot-separated words ("test.topic.x") is rejected. */
  lemma {:induction false} RoutingKeyExtensionDecodes(k: MessageBrokerRoutingKeys, suffix: string)
    requires suffix != []
    ensures MessageBrokerRoutingKeys.FromStr(k.AsStr() + suffix).Ok? <==> k == TestTopic && suffix == "_two"
  {
    var s := k.AsStr() + suffix;
    assert s[..|k.AsStr()|] == k.AsStr();
    assert s[|k.AsStr()|..] == suffix;
    if s == "test.topic_two" {
      assert k == TestTopic;
      assert suffix == "test.topic_two"[10..];
    }
  }

  /** All() of the exchanges is the wire name of TestExchange and nothing else. */
  lemma ExchangeAllExact()
    ensures MessageBrokerExchanges.All() == [TestExchange.AsStr()]
    ensures MessageBrokerExchanges.All() == ["test_exchange"]
  {
  }

  /** The queue's wire name is "test_queue", distinct from every exchange name. */
  lemma QueueNameDistinctFromExchange(q: MessageBrokerQueues, e: MessageBrokerExchanges)
    ensures q.AsStr() == "test_queue"
    ensures q.AsStr() != e.AsStr()
  {
  }
}
