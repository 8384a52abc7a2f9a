# Message-bus topology registry

This project models the topology registry of a small message-broker
abstraction layer written in Rust over an AMQP client. The registry is the
single source of truth for the broker topology the application may use:

- `MessageBrokerExchanges` (one variant, `TestExchange`, wire name `test_exchange`);
- `MessageBrokerRoutingKeys` (`TestTopic` = `test.topic`, `TestTopicTwo` = `test.topic_two`);
- `MessageBrokerQueues` (one variant, `TestQueue`, wire name `test_queue`).

Every variant maps to a fixed wire string (`AsStr`). Routing keys can also be
decoded from their wire string (`FromStr`). Exchanges and routing keys have an
`All` accessor that lists every wire string in declaration order.

The model is one Dafny module, `MessageBus` in `message_bus.dfy`. Each enum
is a `datatype` with member functions. The Rust `from_str` aborts the calling
task with a panic on an unknown string. Here it returns
`Err(InvalidRoutingKey)` of a `Result` datatype, so the failure is a value
that can be reasoned about. `Ordinal` is the variant's position in its
declaration (its implicit Rust discriminant); it is how "declaration order" is
stated.

## Model

| member | source | states |
|---|---|---|
| MessageBus.MessageBrokerExchanges.AsStr | src/message_bus.rs:26-30 | No contract of its own; ExchangeAllExact and QueueNameDistinctFromExchange state its value "test_exchange" |
| MessageBus.MessageBrokerRoutingKeys.AsStr | src/message_bus.rs:43-48 | No contract of its own; RoutingKeyAsStrInjective states it is injective and RoutingKeyRoundTrip that FromStr inverts it |
| MessageBus.MessageBrokerQueues.AsStr | src/message_bus.rs:67-72 | No contract of its own; QueueNameDistinctFromExchange states its value "test_queue" and that it differs from every exchange name |
| MessageBus.MessageBrokerExchanges.Ordinal | src/message_bus.rs:21-23 | No contract of its own; the exchange's position in the declaration, through which MessageBrokerExchanges.All states declaration order |
| MessageBus.MessageBrokerRoutingKeys.Ordinal | src/message_bus.rs:37-40 | No contract of its own; the key's position in the declaration, through which MessageBrokerRoutingKeys.All states declaration order |
| MessageBus.MessageBrokerRoutingKeys.FromStr | src/message_bus.rs:50-56 | A decoded key encodes back to the input string; decoding fails exactly when no routing key has that wire string, so it never defaults to a variant |
| MessageBus.MessageBrokerRoutingKeys.All | src/message_bus.rs:58-60 | Every routing key's wire string sits at the key's declaration position, and every entry decodes to the key declared at that position (one entry per variant, in order, each accepted by the decoder) |
| MessageBus.MessageBrokerExchanges.All | src/message_bus.rs:32-34 | Every exchange's wire name sits at its declaration position, and every entry is the wire name of the exchange declared at that position (one entry per variant, in order) |
| MessageBus.RoutingKeyRoundTrip | src/message_bus.rs:43-56 | For every routing key, decoding its wire string succeeds and returns that key |
| MessageBus.RoutingKeyAcceptedStrings | src/message_bus.rs:43-60 | The decoder accepts a string if and only if it is "test.topic" or "test.topic_two", and if and only if it is listed by All() |
| MessageBus.RoutingKeyAsStrInjective | src/message_bus.rs:43-48 | Two routing keys have the same wire string if and only if they are the same key |
| MessageBus.RoutingKeyAllExact | src/message_bus.rs:58-60 | All() of the routing keys is exactly ["test.topic", "test.topic_two"] and holds no duplicates |
| MessageBus.RoutingKeyExtensionDecodes | src/message_bus.rs:43-55 | Decoding matches whole strings: a known key followed by non-empty text is accepted only for "test.topic" followed by "_two", so e.g. "test.topic.x" is rejected |
| MessageBus.ExchangeAllExact | src/message_bus.rs:26-34 | All() of the exchanges is exactly [TestExchange.AsStr()], that is ["test_exchange"] |
| MessageBus.QueueNameDistinctFromExchange | src/message_bus.rs:63-72 | The queue's wire name is "test_queue" and differs from every exchange's wire name |

## Left out

- The `MessageBus` trait (src/message_bus.rs:3-19) declares only asynchronous signatures for `publish`, `listen` and `close`; it has no behaviour to state.
- src/rabbitmq_bus.rs is I/O over the AMQP client: connecting, reading `AMQP_ADDR` from the environment, confirm-select, exchange and queue declaration, binding, consuming, publish-with-confirmation, closing with code 200 and "Bye", and the detached consumer task. Its per-delivery routing-key dispatch is the decoder modelled here; the UTF-8 payload check, acknowledgement and logging are library calls.
- src/message_broker.rs forwards calls to the boxed bus unchanged; its only computation is `AsStr` on the exchange, queue and routing key, which is modelled here.
- src/main.rs is process start-up (unwraps and an endless wait).
- MessageBus.MessageBrokerRoutingKeys.FromStr: the panic that aborts the calling task is modelled as an error value; what happens to the task afterwards is not modelled.
