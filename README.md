# RabbitMQ demo clients in Dafny

This project models the two clients of a small RabbitMQ demo.

- **The sender** (`RabbitSender`):
  - It resolves its exchange, queue, routing key and publishing interval from configuration.
  - `Send` publishes one message to a topic exchange.
  - `startService` declares the exchange and the queue and then publishes a timestamped message on every loop iteration.
- **The listener** (`RabbitService`):
  - It resolves the same three names.
  - It declares the exchange and the queue, starts consuming with manual acknowledgement and binds the queue.
  - Its two consumer callbacks acknowledge each delivery and unbind the queue on shutdown.

The broker is modelled only as far as the clients can see it. Every channel call either raises or is accepted, and each accepted call appends one record to the broker's operation log (`Broker.Op`). Which calls raise is a fixed fault plan: a set of call numbers held by the connection factory (`Broker.ConnectionFactory`). So contracts can speak about every possible failure, not only the fault-free run.

A `try` block is a plan of calls (`Broker.Call`). `Broker.Run` gives its outcome:

- which operations were recorded;
- whether the block completed;
- the number of the next call.

The methods of the two client classes issue their calls one at a time. Each method is proved to leave exactly the log that `Run` predicts for its plan. Lemmas then state, for every fault plan:

- the order of the records;
- the records' arguments;
- when a role completes.

Files:

- `wrappers.dfy`: `Option`. A `None` stands for a null message.
- `encoding.dfy`: UTF-8 encoding (the sender's `Encoding.UTF8.GetBytes`) and ASCII decoding (the listener's `Encoding.ASCII.GetString`, which turns every byte above 127 into `?`).
- `settings.dfy`: the configuration, the defaults and the resolution of names and interval.
- `broker.dfy`: operation records, plans, `Run` and the connection factory.
- `sender.dfy`: the `RabbitSender` class and the lemmas about its traces.
- `listener.dfy`: the `RabbitService` class, its callbacks and the lemmas about its traces and sessions.

## Model

| member | source | states |
|---|---|---|
| `Settings.OrDefault` | RabbitSender/RabbitSender.cs:105-109 | a null or empty configured name gives way to the fallback; a non-empty one is kept unchanged; the result is never empty |
| `Settings.ResolveTopology` | RabbitSender/RabbitSender.cs:105-121 | each of exchange, queue and routing key is its default (EXCHANGE3, rabbit-queue, rabbit-test) when its key is missing or empty, and the configured string otherwise; none is empty |
| `Settings.ResolveInterval` | RabbitSender/RabbitSender.cs:123-127 | the interval is always positive: a configured positive value is kept, a missing (read as 0) or non-positive one becomes 5000 |
| `Settings.TopologyConfiguration` | RabbitSender/RabbitSender.cs:105-117 | the configuration spelling out a topology sets exactly the three name keys |
| `Settings.ResolveRoundTrip` | RabbitSender/RabbitSender.cs:105-121 | writing non-empty names to a configuration and resolving it gives the same names back |
| `Settings.ResolveIdempotent` | RabbitSender/RabbitSender.cs:105-121 | resolving already resolved names changes nothing |
| `Encoding.EncodeChar` | RabbitSender/RabbitSender.cs:80 | a character encodes to 1 to 4 bytes; to exactly one byte, equal to its code, iff it is ASCII; otherwise every byte is at least 128 |
| `Encoding.Utf8Encode` | RabbitSender/RabbitSender.cs:80 | the UTF-8 bytes of a string are never fewer than its characters |
| `Encoding.AsciiDecode` | RabbitDemo/RabbitService.cs:117 | one character per byte, always ASCII: bytes below 128 keep their code, all others become '?' |
| `Encoding.Utf8OfAscii` | RabbitSender/RabbitSender.cs:80 | the UTF-8 encoding of ASCII text is its character codes, byte for byte |
| `Encoding.Utf8LengthExact` | RabbitSender/RabbitSender.cs:80 | the UTF-8 encoding has one byte per character iff the text is ASCII |
| `Encoding.RoundTripExactlyOnAscii` | RabbitDemo/RabbitService.cs:117 | decoding the UTF-8 bytes of a text as ASCII gives the text back iff the text is ASCII |
| `Broker.Records` | RabbitSender/RabbitSender.cs:65-84 | a fully accepted plan records at most one operation per call, since opening a connection records nothing |
| `Broker.Run` | RabbitSender/RabbitSender.cs:61-97 | a try block ends after at most all its calls, and has issued every call when it completes |
| `Broker.RunCharacterized` | RabbitSender/RabbitSender.cs:61-97 | a try block completes iff none of its calls raises, and then records the whole plan; otherwise it stops at the first call that raises, having recorded exactly the calls before it |
| `Broker.RecordsAppend` | RabbitSender/RabbitSender.cs:65-84 | the records of two plans in sequence are the records of the first followed by those of the second |
| `Broker.RunAppend` | RabbitSender/RabbitSender.cs:61-97 | two plans in one try block: the second runs only if the first completes, from the first's next call, and its records follow the first's |
| `Broker.RunSnoc` | RabbitSender/RabbitSender.cs:77-89 | one more call after a completed prefix is recorded unless its number is a fault |
| `Broker.RunAfterFault` | RabbitSender/RabbitSender.cs:94-97 | once a call has raised, the rest of the try block is skipped |
| `Broker.RunCons` | RabbitSender/RabbitSender.cs:61-97 | the first call of a try block raises and ends it, or is recorded ahead of the rest |
| `Broker.RunOfThree` | RabbitSender/RabbitSender.cs:155-164 | a try block of three calls, case by case on which of them raises first |
| `Broker.RunStopsAt` | RabbitSender/RabbitSender.cs:77-89 | calls accepted up to position i and then either the end of the plan or a raise determine the outcome: everything, or the first i calls' records |
| `Broker.DeclarePlan` | RabbitSender/RabbitSender.cs:65-75 | the common setup of both roles is three calls, a connection then the two declarations; if all are accepted the broker records the exchange declaration and then the queue declaration, and nothing for the connection |
| `Broker.DeclareThen` | RabbitSender/RabbitSender.cs:65-75 | a try block that opens a connection and declares the exchange and the queue records nothing, just the exchange, or both declarations and then runs the rest |
| `Broker.ConnectionFactory.Issue` | RabbitSender/RabbitSender.cs:155-164 | a call raises iff its number is in the fault plan; if it does not raise, its record is appended to the log; the call counter advances either way |
| `Sender.LoopMessage` | RabbitSender/RabbitSender.cs:79 | the loop message is the text "This message sent on " followed by the clock reading, so the reading can be read back from it |
| `Sender.SendPlan` | RabbitSender/RabbitSender.cs:155-164 | Send's try block is three calls, starting with the connection; if all are accepted the broker records the exchange declaration and then the publish of the message's UTF-8 bytes to that exchange under the routing key |
| `Sender.PublishLoop` | RabbitSender/RabbitSender.cs:77-89 | the loop issues one publish per iteration |
| `Sender.PublishLoopPrefix` | RabbitSender/RabbitSender.cs:77-89 | cutting the loop after i iterations is running it on the first i clock readings |
| `Sender.LoopPublished` | RabbitSender/RabbitSender.cs:79-84 | the first n iterations record the first n publishes of UTF-8 encoded loop messages |
| `Sender.PublisherPlan` | RabbitSender/RabbitSender.cs:65-89 | startService's try block begins with the common setup and has one more call per clock reading |
| `Sender.PublisherPlanRecords` | RabbitSender/RabbitSender.cs:65-89 | if every call of startService's try block is accepted, the broker records the two declarations and then one publish per clock reading, in order |
| `Sender.PublishedAt` | RabbitSender/RabbitSender.cs:79-84 | the i-th publish goes to the resolved exchange under the routing key, with the UTF-8 bytes of the i-th timestamped message |
| `Sender.SendTrace` | RabbitSender/RabbitSender.cs:150-173 | Send's try block: a raise at the connection or the declaration records nothing; a raise at the publish leaves only the exchange declaration; otherwise exactly one topic-exchange declaration (not durable, auto-delete) then one publish of the message's UTF-8 bytes; it completes iff none of the three calls raises |
| `Sender.LoopTrace` | RabbitSender/RabbitSender.cs:77-89 | the loop records the publishes of a prefix of the clock readings, in order, and all of them iff no publish raises |
| `Sender.PublisherTrace` | RabbitSender/RabbitSender.cs:61-97 | for every fault plan, startService records the exchange declaration, then the queue declaration (durable, not exclusive, auto-delete), then one publish per iteration to the same exchange and routing key, and nothing else (never a bind); it completes iff every iteration published |
| `Sender.PublisherSetupRaises` | RabbitSender/RabbitSender.cs:65-75 | a raise before the loop ends startService's try block with no publish recorded |
| `Sender.PublisherLoopStops` | RabbitSender/RabbitSender.cs:65-97 | after a fault-free setup, i accepted publishes and then the end of the readings or a raise leave both declarations and the first i publishes |
| `Sender.PublishLoopStops` | RabbitSender/RabbitSender.cs:77-89 | the loop with i accepted publishes and then the end of the readings or a raise records exactly the first i publishes |
| `Sender.RabbitSender.constructor` | RabbitSender/RabbitSender.cs:27-31 | the sender holds its configuration and factory; its names are unset until settings are loaded |
| `Sender.RabbitSender.LoadSettings` | RabbitSender/RabbitSender.cs:103-129 | the four fields hold the resolved exchange, queue, routing key and interval |
| `Sender.RabbitSender.Send` | RabbitSender/RabbitSender.cs:148-174 | a null or empty message returns true with no broker call; otherwise the log grows by exactly what Send's try block records, with the names currently held (settings are not reloaded), and the result is false iff a call raised |
| `Sender.RabbitSender.StartService` | RabbitSender/RabbitSender.cs:56-98 | settings are resolved first; then the log grows by exactly what the try block of the setup and the loop records, whatever raises |
| `Sender.RabbitSender.Publish` | RabbitSender/RabbitSender.cs:61-97 | the try block with the names held: the log grows by exactly the outcome of the setup and loop plan |
| `Sender.RabbitSender.PublishEach` | RabbitSender/RabbitSender.cs:77-89 | the loop publishes once per clock reading until one raises: the calls before the stop were accepted, the stopping call raised, and the log grows by exactly those publishes |
| `Listener.Consumption` | RabbitDemo/RabbitService.cs:65 | the consume is on the listener's queue, with manual acknowledgement (no auto-ack), the consumer tag "Queue", no local delivery and not exclusive |
| `Listener.ListenerPlan` | RabbitDemo/RabbitService.cs:53-69 | the listener's try block is the common setup followed by the consume and the bind; if all five calls are accepted the broker records the two declarations, the consume and the bind |
| `Listener.ConsumeThenBind` | RabbitDemo/RabbitService.cs:65-69 | the consume and the bind, case by case on which raises first |
| `Listener.ListenerCases` | RabbitDemo/RabbitService.cs:49-81 | the listener's try block, case by case on which of its five calls raises first |
| `Listener.ListenerTrace` | RabbitDemo/RabbitService.cs:53-69 | for every fault plan, a listener start records a prefix of: exchange declaration, queue declaration, consume (manual ack, tag "Queue", no local, not exclusive), bind of queue, exchange and routing key; the bind is recorded iff everything succeeded, so never before the consume; a completed start records all four |
| `Listener.Handle` | RabbitDemo/RabbitService.cs:113-130 | each handled event leaves at most one record |
| `Listener.HandleAppend` | RabbitDemo/RabbitService.cs:113-130 | handling two runs of events in turn is handling them together |
| `Listener.HandleWithoutFaults` | RabbitDemo/RabbitService.cs:115-120 | when no handler call raises, each event leaves exactly its reaction, and the acknowledged tags are the delivered tags, in order |
| `Listener.HandlersOnlyAckOrUnbind` | RabbitDemo/RabbitService.cs:113-130 | whatever raises, the handlers only acknowledge delivered tags with multiple set, or unbind the listener's queue, exchange and routing key |
| `Listener.ListenerSession` | RabbitDemo/RabbitService.cs:57-127 | in a start followed by handled events, the queue is bound at most once, every unbind names the resolved queue, exchange and routing key, and any bind comes before any unbind; when the start completed, its last record is the bind, so every unbind then follows a bind (a start that raised before the bind can still be followed by an unbind) |
| `Listener.LoopMessageReadBack` | RabbitDemo/RabbitService.cs:115-118 | a sender loop message is read back by the listener as the same text iff its clock reading is ASCII |
| `Listener.RabbitService.constructor` | RabbitDemo/RabbitService.cs:25-29 | the listener holds its configuration and factory; its names are unset until settings are loaded |
| `Listener.RabbitService.LoadSettings` | RabbitDemo/RabbitService.cs:87-106 | the three name fields hold the resolved exchange, queue and routing key; nothing else changes and no interval is read |
| `Listener.RabbitService.StartService` | RabbitDemo/RabbitService.cs:44-82 | settings are resolved first; then the log grows by exactly what the listener's try block records, whatever raises, and the method returns normally |
| `Listener.RabbitService.Listen` | RabbitDemo/RabbitService.cs:49-81 | the try block with the names held: the log grows by exactly the outcome of the listener plan |
| `Listener.RabbitService.OnReceived` | RabbitDemo/RabbitService.cs:115-120 | the body is decoded as ASCII; the delivery's own tag is acknowledged with multiple set, and the log grows by that one acknowledgement iff the call did not raise |
| `Listener.RabbitService.OnShutdown` | RabbitDemo/RabbitService.cs:122-129 | the queue is unbound from the exchange under the routing key currently held, and the log grows by that one unbind iff the call did not raise |

## Left out

- Broker behaviour is not modelled: routing, topic pattern matching, idempotent or conflicting declarations, delivery. The broker appears only as the log of accepted calls and a fixed plan of which calls raise.
- Connection and channel disposal, closing exceptions and message properties (always null) are not modelled.
- The TLS options set in both constructors are not modelled. They only pass settings through to the client library.
- Logging is not modelled. The listener's decoded text is returned from `OnReceived` so that its value can be stated.
- `Thread.Sleep` is not modelled.
- `Console.ReadLine` and the console output are not modelled.
- `Program.cs` (host start-up and dependency injection) is not part of this model.
- `DateTime.Now` is a parameter: the clock readings, as text, are the sequence `stamps`.
- Sender.RabbitSender.StartService: the `while (true)` loop is cut off after one iteration per element of `stamps`. Without faults the real loop never ends.
- Listener.RabbitService.OnReceived: callbacks run on the client library's dispatch thread. They are registered before the consume (RabbitDemo/RabbitService.cs:63-65), so a delivery can be handled as soon as the consume is accepted, before the bind and while startService still runs. Each callback is modelled as a separate call. An exception in a callback reaches the library, not startService, and later events are still handled.
- Listener.ListenerSession: the session log puts every handled event after the whole try block up to the console wait. It does not model a callback that runs between the consume and the bind.
- Listener.RabbitService.OnShutdown: a shutdown caused by closing the channel makes the real unbind raise, because the channel is closed. The model lets the fault plan decide.
- Sender.RabbitSender.Send: before `loadSettings` has run, the names are null, which the model writes as "". A call made with a null name is not forced to raise; the fault plan decides.
- Listener.Delivery: the delivery tag is a 64-bit unsigned integer in the client library. It is an unbounded `nat` here.
- Settings.ResolveInterval: a configured interval that does not convert to a 32-bit integer makes `GetValue<int>` throw. That is not modelled; the configuration holds integers already.
- Configuration keys: .NET configuration keys are case-insensitive. Here the configuration map holds each key in one spelling, the one the source reads ("ExchangeName", "QueueName", "RoutingKey", "MessageInterval"); case folding of keys is not modelled.
- The sender's `setEventHandlers` and `createQueue` are left out. The first is never called and the second is empty.
- `Run` in both roles only logs around startService, so it is left out.
- Text is a sequence of UTF-16 code units in the source. Here it is a sequence of Unicode characters, and `Encoding.EncodeChar` encodes each character on its own, so unpaired surrogates are not modelled.
