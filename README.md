# HELICS broker/core runtime: a verified model

This project models three pieces of the HELICS co-simulation runtime in Dafny:

- **Deferred destruction** (`DelayedDestructor<X>`, module `DelayedDestruction`). This is a list of shared
  handles. A sweep drops every handle that only the list still owns. There is a timed sweep that retries
  within a delay budget, and a destructor that sweeps at most 21 times and then gives up.
- **The broker factory** (module `BrokerFactory`). It resolves a requested transport kind to a broker
  class under the build's switches. It answers "is this broker joinable for this kind". It holds the
  process-wide directory of brokers (`searchableObjects`) and the deferred-destruction list. Its
  operations are register (add, sweep, one retry after 200 ms), create (make, initialize, register,
  connect), unregister, copy-identifier and clean-up.
- **The ZeroMQ core's transport side** (module `ZmqCore`). It covers the outbound queue `txQueue`, the
  protocol messages of `addRoute` and `brokerDisconnect`, and one iteration of the transmit loop with its
  choice of socket. It also covers one poll of the receive loop: the exact `"close"` token, and one
  `CMD_PRIORITY_ACK` per request.

How things are represented:

- Reference counts are inputs. A sweep gets a function from handle to use count. A retrying operation gets
  one such function per round, so counts that change between retries are the caller's choice.
- The build switches (`HELICS_HAVE_ZEROMQ`, `HELICS_HAVE_MPI`, `DISABLE_TEST_CORE`, `DISABLE_IPC_CORE`,
  `DISABLE_UDP_CORE`, `DISABLE_TCP_CORE`) form a `Build` value. Every property is therefore stated for
  every build. `ReferenceBuild` is a sample build.
- A broker's concrete class is a datatype tag. `dynamic_cast` becomes a comparison of tags.
- Sockets become one event log. Each entry is either a send on a named socket or a hand-over to
  `addCommand`, in the order the code performs them. Several things are inputs: the sources a poll finds
  ready, the peer's reply to a priority request, and the predicate `isPriorityCommand`.
- Sleeps are recorded: registerBroker's pause as a `Wait` step in the factory's trace, the deferred-destruction
  sweeps' pauses as a returned list of wait lengths in milliseconds. Nothing actually waits.

The model follows the code as written. Three behaviours are worth noting:

- A priority command is sent on the request socket and is then **also** pushed by the route rule.
- `addRoute` only queues a `CMD_PROTOCOL`/`NEW_ROUTE` message on route -1. The branch for route -1 is
  empty, and the transmit loop never inserts into its table of route sockets. So that message, like every
  other, is pushed on the broker's push socket.
- `transmit` appends to the queue in every state. It does not check for a terminated core.

## Model

| member | source | states |
|---|---|---|
| `DelayedDestruction.Sweep` | src/helics/common/delayedDestructor.hpp:58-60 | one remove_if/erase pass never lengthens the list (its content is stated by the lemmas below) |
| `DelayedDestruction.SweepOccurrences` | src/helics/common/delayedDestructor.hpp:58-60 | a sweep removes every occurrence of a handle whose use count is at most 1, and keeps every occurrence of the others |
| `DelayedDestruction.SweepMembership` | src/helics/common/delayedDestructor.hpp:58-60 | a handle survives a sweep iff it was listed and its use count is above 1 |
| `DelayedDestruction.SweepAppend` | src/helics/common/delayedDestructor.hpp:58-60 | sweeping a concatenation is concatenating the sweeps, so survivors keep their relative order |
| `DelayedDestruction.SweepIdempotent` | src/helics/common/delayedDestructor.hpp:58-62 | with unchanged counts a second sweep removes nothing more |
| `DelayedDestruction.SweepKeepsAll` | src/helics/common/delayedDestructor.hpp:58-60 | a sweep leaves the list unchanged iff every listed handle has use count above 1 |
| `DelayedDestruction.RemoveIf` | src/helics/common/delayedDestructor.hpp:58-60 | the remove_if/erase scan yields exactly the stable filter of handles with use count above 1 |
| `DelayedDestruction.DelayTime` | src/helics/common/delayedDestructor.hpp:68 | one wait lasts exactly the delay when the delay is below 100 ms, and exactly 50 ms otherwise |
| `DelayedDestruction.DelayCount` | src/helics/common/delayedDestructor.hpp:69 | the retry budget is at least 1, and exactly 1 iff the delay is below 100 ms |
| `DelayedDestruction.WaitBudget` | src/helics/common/delayedDestructor.hpp:68-69 | for a non-negative delay, the budgeted waits add up to at most the delay and fall short of it by less than 50 ms |
| `DelayedDestruction.Retry` | src/helics/common/delayedDestructor.hpp:76-89 | the wait-and-sweep rounds never lengthen the list, and with the budget used up the list is left as is |
| `DelayedDestruction.TimedSweep` | src/helics/common/delayedDestructor.hpp:71-91 | an empty list stays empty, and the timed sweep ends no longer than its first sweep |
| `DelayedDestruction.RetryBudget` | src/helics/common/delayedDestructor.hpp:76-89 | the retry loop never exceeds its budget, and stops early only when the list is empty |
| `DelayedDestruction.RetryOnlyRemoves` | src/helics/common/delayedDestructor.hpp:76-89 | retries never add a handle or an occurrence of one |
| `DelayedDestruction.TimedSweepStable` | src/helics/common/delayedDestructor.hpp:71-91 | when no count changes between rounds, the timed sweep ends with exactly the result of one sweep |
| `DelayedDestruction.Drain` | src/helics/common/delayedDestructor.hpp:34-48 | the destructor's sweeps never lengthen the list, and an empty list stays empty |
| `DelayedDestruction.DrainBound` | src/helics/common/delayedDestructor.hpp:34-48 | the destructor sweeps at most 21 times, and stops with handles left only after all 21 |
| `DelayedDestruction.DelayedDestructor.constructor` | src/helics/common/delayedDestructor.hpp:31 | a new list is empty |
| `DelayedDestruction.DelayedDestructor.DestroyObjects` | src/helics/common/delayedDestructor.hpp:53-63 | the list becomes its sweep and the result is its new length; an empty list stays empty and yields 0 |
| `DelayedDestruction.DelayedDestructor.DestroyObjectsWithin` | src/helics/common/delayedDestructor.hpp:65-92 | one sweep, then at most DelayCount(delay) wait-and-sweep rounds with that round's counts, each wait lasting DelayTime(delay); no wait on an empty list; the budget is used up whenever handles remain; returns the remaining length and the wait lengths |
| `DelayedDestruction.DelayedDestructor.AddObjectsToBeDestroyed` | src/helics/common/delayedDestructor.hpp:94-103 | appends exactly the given handle at the end and leaves earlier entries unchanged |
| `DelayedDestruction.DelayedDestructor.Dispose` | src/helics/common/delayedDestructor.hpp:32-49 | the destructor makes at most 21 sweeps with one wait between consecutive sweeps, every wait lasting 100 ms; it gives up (reports the error) iff handles remain, and then only after 21 sweeps |
| `BrokerFactory.ResolveType` | src/helics/core/BrokerFactory.cpp:45-56 | DEFAULT becomes ZMQ when ZeroMQ is built in, else TCP unless TCP is disabled, else UDP; other kinds are unchanged |
| `BrokerFactory.ConstructorFor` | src/helics/core/BrokerFactory.cpp:62-69 | an empty name selects the default constructor, a non-empty one the named constructor with that name |
| `BrokerFactory.MakeBroker` | src/helics/core/BrokerFactory.cpp:41-178 | a broker is returned iff the resolved kind has a backend class compiled into the build; it is of that class and built by the constructor the name selects; otherwise a HelicsException is thrown |
| `BrokerFactory.InterprocessIsIpc` | src/helics/core/BrokerFactory.cpp:117-131 | INTERPROCESS and IPC give the same result, an IpcBroker when available |
| `BrokerFactory.MadeBrokersAreCoreBrokers` | src/helics/core/BrokerFactory.cpp:41-178 | every broker makeBroker produces is a CoreBroker |
| `BrokerFactory.IsJoinableBrokerOfType` | src/helics/core/BrokerFactory.cpp:261-309 | false for a broker closed to new federates; for a kind with a case, true iff that kind's backend is compiled in and the broker is of its class; any other kind accepts every open broker |
| `BrokerFactory.MadeBrokerIsJoinable` | src/helics/core/BrokerFactory.cpp:261-309 | an open broker that makeBroker built for a kind with a case is joinable for that kind |
| `BrokerFactory.RegisterAsWritten` | src/helics/core/BrokerFactory.cpp:316-336 | registration as written faults exactly on a broker that is not a CoreBroker; on a CoreBroker it registers exactly when the corrected rule does |
| `BrokerFactory.ForeignBrokerDereferencesNull` | src/helics/core/BrokerFactory.cpp:319-328 | a broker outside the CoreBroker hierarchy makes the retry call through a null pointer |
| `BrokerFactory.Factory.constructor` | src/helics/core/BrokerFactory.cpp:248-251 | the directory and the deferred-destruction list start empty |
| `BrokerFactory.Factory.AddObject` | src/helics/core/BrokerFactory.cpp:322 | adding under a name succeeds iff the name is free, and then maps that name to the broker |
| `BrokerFactory.Factory.FindBroker` | src/helics/core/BrokerFactory.cpp:256-259 | finds a broker iff one is registered under the name, and then returns exactly the broker registered under that name |
| `BrokerFactory.Factory.FindJoinableBrokerOfType` | src/helics/core/BrokerFactory.cpp:311-314 | returns a registered broker joinable for the kind, and nothing iff no registered broker is joinable |
| `BrokerFactory.Factory.CleanUpBrokers` | src/helics/core/BrokerFactory.cpp:338 | one sweep of the deferred-destruction list; returns its new length |
| `BrokerFactory.Factory.CleanUpBrokersWithin` | src/helics/core/BrokerFactory.cpp:339 | the timed sweep of the deferred-destruction list; returns its new length and its waits, each lasting DelayTime(delay), at most DelayCount(delay) of them, none on an empty list, and all of them whenever brokers remain |
| `BrokerFactory.Factory.RegisterBroker` | src/helics/core/BrokerFactory.cpp:316-336 | records each add attempt; tries to add, sweeps once, and after a failed first add of a CoreBroker waits 200 ms, drops the names unregistered meanwhile and retries exactly once; a broker that is not a CoreBroker fails at once with the directory unchanged; it returns whether the broker was registered; the broker joins the deferred-destruction list iff it was registered |
| `BrokerFactory.Factory.Create` | src/helics/core/BrokerFactory.cpp:182-233 | makeBroker's exception propagates with nothing changed; otherwise the broker is initialized, then added to the directory (once more after a 200 ms pause if the name was taken), and connected iff registration succeeded, in that order; a failed registration throws RegistrationFailure; the directory afterwards is stated in full, including the names dropped during a retry |
| `BrokerFactory.DuplicateNameScenario` | src/helics/core/BrokerFactory.cpp:195-207 | on a fresh factory, the first create is initialized, added and connected; a second create under the taken name is initialized, fails its add, pauses 200 ms, fails its retry, throws RegistrationFailure and is never connected, while the first broker stays registered under the name |
| `BrokerFactory.Factory.CopyBrokerIdentifier` | src/helics/core/BrokerFactory.cpp:341-344 | succeeds iff the source name is registered and the target name is free, and then maps the target name to the same broker |
| `BrokerFactory.Factory.UnregisterBroker` | src/helics/core/BrokerFactory.cpp:346-352 | removes the entry under the key; only when no key matches does it remove one entry whose identifier matches; with no match of either kind nothing changes |
| `ZmqCore.PushChannel` | src/helics/core/zmq/ZmqCore.cpp:226-241 | route 0 or a route without a socket of its own goes to the broker's push socket, otherwise to that route's socket |
| `ZmqCore.StepSends` | src/helics/core/zmq/ZmqCore.cpp:212-241 | one iteration pushes its message exactly once, and sends it on the request socket iff it is a priority command |
| `ZmqCore.PushedInQueueOrder` | src/helics/core/zmq/ZmqCore.cpp:199-242 | draining the queue pushes every message exactly once, in queue order |
| `ZmqCore.RequestsAreThePriorityMessages` | src/helics/core/zmq/ZmqCore.cpp:199-242 | the request socket carries exactly the priority messages, in queue order |
| `ZmqCore.EmptyRouteTablePushesToBroker` | src/helics/core/zmq/ZmqCore.cpp:190 | with the route table left empty, every send except a request goes to the broker's push socket |
| `ZmqCore.FallbackScenario` | src/helics/core/zmq/ZmqCore.cpp:226-241 | messages on routes 0, 5 and 0, with no socket for route 5, all go to the broker's push socket in queue order |
| `ZmqCore.OneAckPerRequest` | src/helics/core/zmq/ZmqCore.cpp:270-306 | until the close token, the receive loop sends exactly one CMD_PRIORITY_ACK per request and sends nothing else |
| `ZmqCore.ZmqCore.constructor` | src/helics/core/zmq/ZmqCore.cpp:131 | a new core is in the created state with an empty queue |
| `ZmqCore.ZmqCore.InitializeFromArgs` | src/helics/core/zmq/ZmqCore.cpp:133-153 | the arguments reach the common core's initialization only in the created state (argument parsing is taken to succeed); otherwise nothing happens |
| `ZmqCore.ZmqCore.Transmit` | src/helics/core/zmq/ZmqCore.cpp:166-169 | appends (route, message) at the back of the queue |
| `ZmqCore.ZmqCore.AddRoute` | src/helics/core/zmq/ZmqCore.cpp:172-179 | appends on route -1 one CMD_PROTOCOL message with index 233, the route as source id and the route information as payload |
| `ZmqCore.ZmqCore.BrokerDisconnect` | src/helics/core/zmq/ZmqCore.cpp:159-164 | appends on route -1 one CMD_PROTOCOL message with index 2523 |
| `ZmqCore.ZmqCore.TransmitOne` | src/helics/core/zmq/ZmqCore.cpp:199-242 | pops the oldest pair; a priority command goes on the request socket, and its reply goes to addCommand iff 0 < size < 4096; then the command is pushed by the route rule |
| `ZmqCore.ZmqCore.TransmitData` | src/helics/core/zmq/ZmqCore.cpp:184-242 | draining the queue produces the sends of each popped pair in queue order, with route table empty, and uses one reply per priority command |
| `ZmqCore.ZmqCore.ReceiveOne` | src/helics/core/zmq/ZmqCore.cpp:272-305 | the loop exits iff the control message is exactly the 5 bytes "close", before anything else is read; otherwise the pulled message goes to addCommand, and a request goes to addCommand and is answered with one CMD_PRIORITY_ACK before the next poll |
| `ZmqCore.ZmqCore.ReceiveData` | src/helics/core/zmq/ZmqCore.cpp:270-306 | stops at the first poll that carries the close token; every earlier poll is handled in order |

## Findings

| source | as written | input that shows it | evidently intended | confidence | as-written member | corrected member |
|---|---|---|---|---|---|---|
| src/helics/core/BrokerFactory.cpp:319-328 | when the broker is not a CoreBroker, the cast leaves `tbroker` null, the first add is skipped, and the retry calls `tbroker->getIdentifier()` through the null pointer | any Broker implementation outside the CoreBroker hierarchy passed to registerBroker, e.g. `Broker(1, ForeignBroker, "foreign")` | registration of such a broker fails (returns false) without a retry | medium, not executed | `BrokerFactory.RegisterAsWritten` | `BrokerFactory.Factory.RegisterBroker` |

## Left out

- Threads, mutexes and sleeps. All operations run one at a time. A sleep becomes a recorded wait or a wait
  count. Changes by other threads during a sleep are inputs: the counts of each round, and the names
  unregistered during registerBroker's 200 ms pause.
- ZeroMQ sockets, the context, the inproc bind/connect and `zmq::poll`. A poll is a value naming the ready
  sources and what each delivered.
- The teardown after the transmit loop (closing the sockets, sending "close" on the control socket,
  joining the receive thread). It follows a `while (1)` that never breaks, so it cannot be reached.
- ActionMessage serialisation (`to_vector`, `to_string`, the byte constructor). Messages travel as values.
  The reply is decoded from the whole 4096-byte buffer rather than from the `nsize` bytes received; that
  detail of decoding is not part of this model.
- ZmqCore.ZmqCore.TransmitOne: assumes the peer answers every priority request, because the reply is a
  total input. The source blocks in `reqSocket.recv` (ZmqCore.cpp:218) with no time-out. An unanswered
  request would stall its transmit loop for good, before the message's push (ZmqCore.cpp:226-241), and
  nothing queued after it would be sent. TransmitData and PushedInQueueOrder inherit this assumption.
- BrokerFactory.Factory.CleanUpBrokersWithin: takes the delay as an int count of milliseconds. BrokerFactory.cpp:339
  passes a `std::chrono::milliseconds` where delayedDestructor.hpp:65 takes an `int`, so the two files are
  from different revisions. A negative delay records waits of negative length.
- `isPriorityCommand` and `addCommand` are not part of this model. The first is an input predicate. The
  second is recorded as a `Dispatched` event.
- The fields of a default-constructed ActionMessage. `NewMessage` takes index 0, source id 0 and an empty
  payload.
- SearchableObjectHolder is not part of this model. The directory is a map. `addObject` fails exactly when
  the name is taken, and `copyObject` copies into a free name only.
- BrokerFactory.Factory.UnregisterBroker: removing by identifier takes some matching entry, not the first
  in the holder's iteration order, because that order is not part of this model.
- BrokerFactory.Factory.FindJoinableBrokerOfType: returns some joinable broker, not the first in the
  holder's iteration order, for the same reason. Whether a broker is open to new federates is a
  caller-supplied snapshot.
- BrokerFactory.Factory.Create: `initialize`, `initializeFromArgs` and `connect` (BrokerFactory.cpp:185, 199, 212,
  225 and 191, 205, 218, 231) are treated as never throwing, because the broker classes that implement them
  are not part of this model. An exception from them would propagate out of `create` after the broker was
  made, or after it was registered.
- The broker's identifier after `initialize` is an input to `Create`. How the initialization string or
  arguments name a broker is not part of this model.
- The four `create` overloads are one method. The overloads without a name pass the empty name, and the
  initialization string or argument vector is one `InitSource` value.
- The two `addObjectsToBeDestroyed` overloads differ only in moving or copying the pointer. That matters
  only to reference counts, which are inputs here, so they are one method.
- The pre-destruction hook passed at BrokerFactory.cpp:248-249 (`processDisconnect`, `joinAllThreads`).
  delayedDestructor.hpp declares only a default constructor, so the hook has nowhere to go.
- TripWire, the concrete broker classes, `displayHelp` (prints only), `argumentParser` (command-line and
  configuration-file reading), `getAddress` and `brokerConnect`, which returns true unconditionally.
- ZmqCore.ZmqCore.InitializeFromArgs: treats `argumentParser` as never throwing. It rethrows a command-line
  parse error (ZmqCore.cpp:94) and throws `invalid_argument` for a missing configuration file
  (ZmqCore.cpp:117), and then the common core's initialization does not run; the model does not take
  either path. The method records that the common core's initialization ran. The state
  change that initialization makes belongs to the common core, which is not part of this model.
- src/helics/core/ipc/IpcCore.h is a type alias to NetworkCore, which is not part of this model.
