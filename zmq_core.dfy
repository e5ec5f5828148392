/**
 * The ZeroMQ core's transport side (core/zmq/ZmqCore.cpp): the outbound queue, the
 * protocol messages it builds for itself, the transmit loop's choice of socket for
 * each popped message, and the receive loop's handling of one poll.
 *
 * Sockets are not modelled: every send on a socket and every hand-over to
 * addCommand is an entry in one event log, in the order the code performs them.
 * Which sources a poll finds ready, what the peer replies to a priority request,
 * and whether a message is a priority command are inputs.
 */
module ZmqCore {
  import opened Outcomes

  /** The opcodes this file names; every other opcode is OtherAction. */
  datatype Action = CmdProtocol | CmdPriorityAck | OtherAction(code: int)

  /** The fields of an ActionMessage that this file reads or writes. */
  datatype ActionMessage = ActionMessage(action: Action, index: int, sourceId: int, payload: string)

  /** ActionMessage(action): a message with the given opcode and the remaining fields at their defaults. */
  function NewMessage(action: Action): ActionMessage
  {
    ActionMessage(action, 0, 0, "")
  }

  /** Protocol sub-codes carried in `index`. */
  const NewRouteIndex := 233
  const DisconnectIndex := 2523

  /** The route the core addresses to itself. */
  const LocalRoute := -1

  /** Capacity of the transmit thread's reply buffer. */
  const RxBufferSize := 4096

  /** The control message that stops the receive loop. */
  const CloseToken := "close"

  /** The sockets of the two loops. */
  datatype Channel = RequestSocket | BrokerPushSocket | RoutePushSocket(route: int) | ReplySocket

  /** What the loops do, in order: a message sent on a socket, or a message handed to addCommand. */
  datatype Event = Sent(channel: Channel, message: ActionMessage) | Dispatched(message: ActionMessage)

  /** The lifecycle states of a core. */
  datatype CoreState = Created | Configured | Connecting | Connected | Operating | Disconnecting | Terminated | Errored

  /** What reqSocket.recv returned for a priority request: the size it reported and the decoded message. */
  datatype Reply = Reply(size: nat, message: ActionMessage)

  /** The socket a message for a route is pushed on: its own socket if one is known, else the broker's. */
  function PushChannel(route: int, pushSockets: set<int>): (c: Channel)
    ensures c == BrokerPushSocket <==> route == 0 || route !in pushSockets
    ensures c != BrokerPushSocket ==> c == RoutePushSocket(route) && route in pushSockets
  {
    if route == 0 then BrokerPushSocket
    else if route in pushSockets then RoutePushSocket(route)
    else BrokerPushSocket
  }

  /** A reply is handed on only when its size is positive and below the buffer's capacity. */
  predicate ReplyAccepted(reply: Reply)
  {
    0 < reply.size < RxBufferSize
  }

  /**
   * One iteration of the transmit loop for a popped (route, cmd): a priority command
   * goes out on the request socket and its reply, if accepted, to addCommand; then
   * every command is pushed by the route rule.
   */
  function StepLog(route: int, cmd: ActionMessage, priority: bool, reply: Reply, pushSockets: set<int>): seq<Event>
  {
    (if priority then [Sent(RequestSocket, cmd)] + (if ReplyAccepted(reply) then [Dispatched(reply.message)] else [])
     else [])
    + [Sent(PushChannel(route, pushSockets), cmd)]
  }

  /** Priority commands in a queue. */
  function PriorityCount(q: seq<(int, ActionMessage)>, isPriority: ActionMessage -> bool): nat
  {
    if q == [] then 0 else (if isPriority(q[0].1) then 1 else 0) + PriorityCount(q[1..], isPriority)
  }

  /**
   * The transmit loop draining queue `q`: the k-th priority request of the core gets
   * reply `replies(k)`, and `k` requests have been made before.
   */
  function TransmitLog(q: seq<(int, ActionMessage)>, isPriority: ActionMessage -> bool, replies: nat -> Reply,
                       k: nat, pushSockets: set<int>): seq<Event>
  {
    if q == [] then []
    else
      var priority := isPriority(q[0].1);
      StepLog(q[0].0, q[0].1, priority, replies(k), pushSockets)
      + TransmitLog(q[1..], isPriority, replies, if priority then k + 1 else k, pushSockets)
  }

  /** The messages of a queue, in queue order. */
  function Messages(q: seq<(int, ActionMessage)>): (ms: seq<ActionMessage>)
    ensures |ms| == |q|
  {
    if q == [] then [] else [q[0].1] + Messages(q[1..])
  }

  /** The priority messages of a queue, in queue order. */
  function PriorityMessages(q: seq<(int, ActionMessage)>, isPriority: ActionMessage -> bool): seq<ActionMessage>
  {
    if q == [] then [] else (if isPriority(q[0].1) then [q[0].1] else []) + PriorityMessages(q[1..], isPriority)
  }

  predicate IsPushChannel(c: Channel)
  {
    c.BrokerPushSocket? || c.RoutePushSocket?
  }

  /** The messages a log pushes, in log order. */
  function Pushed(log: seq<Event>): seq<ActionMessage>
  {
    if log == [] then []
    else (if log[0].Sent? && IsPushChannel(log[0].channel) then [log[0].message] else []) + Pushed(log[1..])
  }

  /** The messages a log sends on the request socket, in log order. */
  function Requested(log: seq<Event>): seq<ActionMessage>
  {
    if log == [] then []
    else (if log[0].Sent? && log[0].channel == RequestSocket then [log[0].message] else []) + Requested(log[1..])
  }

  lemma {:induction false} PushedAppend(a: seq<Event>, b: seq<Event>)
    ensures Pushed(a + b) == Pushed(a) + Pushed(b)
  {
    if a != [] {
      assert (a + b)[1..] == a[1..] + b;
      PushedAppend(a[1..], b);
    } else {
      assert a + b == b;
    }
  }

  lemma {:induction false} RequestedAppend(a: seq<Event>, b: seq<Event>)
    ensures Requested(a + b) == Requested(a) + Requested(b)
  {
    if a != [] {
      assert (a + b)[1..] == a[1..] + b;
      RequestedAppend(a[1..], b);
    } else {
      assert a + b == b;
    }
  }

  /** One iteration pushes its message once, and requests it exactly when it is a priority command. */
  lemma StepSends(route: int, cmd: ActionMessage, priority: bool, reply: Reply, pushSockets: set<int>)
    ensures Pushed(StepLog(route, cmd, priority, reply, pushSockets)) == [cmd]
    ensures Requested(StepLog(route, cmd, priority, reply, pushSockets)) == if priority then [cmd] else []
  {
    var answer := if ReplyAccepted(reply) then [Dispatched(reply.message)] else [];
    var head := if priority then [Sent(RequestSocket, cmd)] + answer else [];
    var push := [Sent(PushChannel(route, pushSockets), cmd)];
    PushedAppend(head, push);
    RequestedAppend(head, push);
    PushedAppend([Sent(RequestSocket, cmd)], answer);
    RequestedAppend([Sent(RequestSocket, cmd)], answer);
  }

  /** Every popped message is pushed exactly once, and the pushes keep queue order. */
  lemma {:induction false} PushedInQueueOrder(q: seq<(int, ActionMessage)>, isPriority: ActionMessage -> bool,
                                              replies: nat -> Reply, k: nat, pushSockets: set<int>)
    ensures Pushed(TransmitLog(q, isPriority, replies, k, pushSockets)) == Messages(q)
  {
    if q != [] {
      var priority := isPriority(q[0].1);
      var k' := if priority then k + 1 else k;
      StepSends(q[0].0, q[0].1, priority, replies(k), pushSockets);
      PushedAppend(StepLog(q[0].0, q[0].1, priority, replies(k), pushSockets),
                   TransmitLog(q[1..], isPriority, replies, k', pushSockets));
      PushedInQueueOrder(q[1..], isPriority, replies, k', pushSockets);
    }
  }

  /** Exactly the priority messages go out on the request socket, in queue order. */
  lemma {:induction false} RequestsAreThePriorityMessages(q: seq<(int, ActionMessage)>, isPriority: ActionMessage -> bool,
                                                          replies: nat -> Reply, k: nat, pushSockets: set<int>)
    ensures Requested(TransmitLog(q, isPriority, replies, k, pushSockets)) == PriorityMessages(q, isPriority)
  {
    if q != [] {
      var priority := isPriority(q[0].1);
      var k' := if priority then k + 1 else k;
      StepSends(q[0].0, q[0].1, priority, replies(k), pushSockets);
      RequestedAppend(StepLog(q[0].0, q[0].1, priority, replies(k), pushSockets),
                      TransmitLog(q[1..], isPriority, replies, k', pushSockets));
      RequestsAreThePriorityMessages(q[1..], isPriority, replies, k', pushSockets);
    }
  }

  /**
   * With no route sockets, which is what the transmit loop has since it never inserts
   * into its table, every push goes to the broker's push socket, including route -1.
   */
  lemma {:induction false} EmptyRouteTablePushesToBroker(q: seq<(int, ActionMessage)>, isPriority: ActionMessage -> bool,
                                                         replies: nat -> Reply, k: nat)
    ensures forall e :: e in TransmitLog(q, isPriority, replies, k, {}) && e.Sent? ==>
      e.channel == RequestSocket || e.channel == BrokerPushSocket
  {
    if q != [] {
      var priority := isPriority(q[0].1);
      EmptyRouteTablePushesToBroker(q[1..], isPriority, replies, if priority then k + 1 else k);
    }
  }

  /**
   * Three ordinary messages on routes 0, 5 and 0 with no socket for route 5: all three
   * go to the broker's push socket, in the order they were queued.
   */
  lemma FallbackScenario(m1: ActionMessage, m2: ActionMessage, m3: ActionMessage, replies: nat -> Reply)
    ensures var q := [(0, m1), (5, m2), (0, m3)];
      TransmitLog(q, _ => false, replies, 0, {})
        == [Sent(BrokerPushSocket, m1), Sent(BrokerPushSocket, m2), Sent(BrokerPushSocket, m3)]
  {
    var none: ActionMessage -> bool := _ => false;
    var q := [(0, m1), (5, m2), (0, m3)];
    assert q[1..] == [(5, m2), (0, m3)];
    assert q[1..][1..] == [(0, m3)];
    assert TransmitLog([(0, m3)], none, replies, 0, {}) == [Sent(BrokerPushSocket, m3)];
    assert TransmitLog(q[1..], none, replies, 0, {}) == [Sent(BrokerPushSocket, m2), Sent(BrokerPushSocket, m3)];
  }

  /** One wake-up of the receive loop: the ready sources, each with the message it delivered. */
  datatype Poll = Poll(control: Option<seq<char>>, pull: Option<ActionMessage>, request: Option<ActionMessage>)

  /** Only a control message of exactly five bytes spelling "close" stops the receive loop. */
  predicate IsCloseToken(msg: seq<char>)
  {
    |msg| == 5 && msg == CloseToken
  }

  predicate Closes(p: Poll)
  {
    p.control.Some? && IsCloseToken(p.control.value)
  }

  /** A poll that does not close: the pulled message to addCommand, then the request to addCommand and its acknowledgement. */
  function PollLog(p: Poll): seq<Event>
  {
    (if p.pull.Some? then [Dispatched(p.pull.value)] else [])
    + (if p.request.Some? then [Dispatched(p.request.value), Sent(ReplySocket, NewMessage(CmdPriorityAck))] else [])
  }

  /** The receive loop over a run of polls, up to and excluding the first that closes. */
  function ReceiveLog(ps: seq<Poll>): seq<Event>
  {
    if ps == [] || Closes(ps[0]) then [] else PollLog(ps[0]) + ReceiveLog(ps[1..])
  }

  /** Requests received before the loop stops. */
  function RequestsBeforeClose(ps: seq<Poll>): nat
  {
    if ps == [] || Closes(ps[0]) then 0 else (if ps[0].request.Some? then 1 else 0) + RequestsBeforeClose(ps[1..])
  }

  /** Acknowledgements a log sends. */
  function AckCount(log: seq<Event>): nat
  {
    if log == [] then 0
    else (if log[0] == Sent(ReplySocket, NewMessage(CmdPriorityAck)) then 1 else 0) + AckCount(log[1..])
  }

  lemma {:induction false} AckCountAppend(a: seq<Event>, b: seq<Event>)
    ensures AckCount(a + b) == AckCount(a) + AckCount(b)
  {
    if a != [] {
      assert (a + b)[1..] == a[1..] + b;
      AckCountAppend(a[1..], b);
    } else {
      assert a + b == b;
    }
  }

  /** The receive loop answers every request it takes with exactly one acknowledgement, and sends nothing else. */
  lemma {:induction false} OneAckPerRequest(ps: seq<Poll>)
    ensures AckCount(ReceiveLog(ps)) == RequestsBeforeClose(ps)
    ensures forall e :: e in ReceiveLog(ps) && e.Sent? ==> e == Sent(ReplySocket, NewMessage(CmdPriorityAck))
  {
    if ps != [] && !Closes(ps[0]) {
      OneAckPerRequest(ps[1..]);
      var p := ps[0];
      var pulled := if p.pull.Some? then [Dispatched(p.pull.value)] else [];
      var answered := if p.request.Some? then [Dispatched(p.request.value), Sent(ReplySocket, NewMessage(CmdPriorityAck))] else [];
      AckCountAppend(PollLog(p), ReceiveLog(ps[1..]));
      AckCountAppend(pulled, answered);
      if p.request.Some? {
        AckCountAppend([Dispatched(p.request.value)], [Sent(ReplySocket, NewMessage(CmdPriorityAck))]);
      }
    }
  }

  /** The transport half of a ZeroMQ core. */
  class ZmqCore {
    const identifier: string
    var coreState: CoreState
    /** txQueue: (route, message) pairs waiting for the transmit loop, oldest first. */
    var txQueue: seq<(int, ActionMessage)>
    /** The argument vectors passed on to the common core's initialization. */
    var baseInitializations: seq<seq<string>>
    /** What the two loops have done, in order. */
    var events: seq<Event>
    /** Priority requests made so far; the next one receives replies(requests). */
    var requests: nat

    constructor (coreName: string)
      ensures identifier == coreName && coreState == Created
      ensures txQueue == [] && baseInitializations == [] && events == [] && requests == 0
    {
      identifier := coreName;
      coreState := Created;
      txQueue := [];
      baseInitializations := [];
      events := [];
      requests := 0;
    }

    /** initializeFromArgs: only a core still in the created state takes the arguments. */
    method InitializeFromArgs(args: seq<string>)
      modifies this`baseInitializations
      ensures old(coreState) == Created ==> baseInitializations == old(baseInitializations) + [args]
      ensures old(coreState) != Created ==> baseInitializations == old(baseInitializations)
    {
      if coreState == Created {
        baseInitializations := baseInitializations + [args];
      }
    }

    /** transmit: queue a message for a route behind everything already queued. */
    method Transmit(routeId: int, cmd: ActionMessage)
      modifies this`txQueue
      ensures txQueue == old(txQueue) + [(routeId, cmd)]
    {
      txQueue := txQueue + [(routeId, cmd)];
    }

    /** addRoute: queue on route -1 a protocol message announcing the route and its address. */
    method AddRoute(routeId: int, routeInfo: string)
      modifies this`txQueue
      ensures txQueue == old(txQueue) + [(LocalRoute, ActionMessage(CmdProtocol, NewRouteIndex, routeId, routeInfo))]
    {
      var rt := NewMessage(CmdProtocol);
      rt := rt.(payload := routeInfo);
      rt := rt.(index := NewRouteIndex);
      rt := rt.(sourceId := routeId);
      Transmit(LocalRoute, rt);
    }

    /** brokerDisconnect: queue on route -1 a protocol message with the disconnect code. */
    method BrokerDisconnect()
      modifies this`txQueue
      ensures txQueue == old(txQueue) + [(LocalRoute, NewMessage(CmdProtocol).(index := DisconnectIndex))]
    {
      var rt := NewMessage(CmdProtocol);
      rt := rt.(index := DisconnectIndex);
      Transmit(LocalRoute, rt);
    }

    /**
     * One iteration of the transmit loop: pop the oldest pair and send it. On an empty
     * queue the thread would block in pop; here nothing happens and `popped` is false.
     */
    method TransmitOne(isPriority: ActionMessage -> bool, replies: nat -> Reply, pushSockets: set<int>)
      returns (popped: bool)
      modifies this`txQueue, this`events, this`requests
      ensures popped <==> old(txQueue) != []
      ensures !popped ==> txQueue == old(txQueue) && events == old(events) && requests == old(requests)
      ensures popped ==>
        var (route, cmd) := old(txQueue)[0];
        && txQueue == old(txQueue)[1..]
        && events == old(events) + StepLog(route, cmd, isPriority(cmd), replies(old(requests)), pushSockets)
        && requests == old(requests) + (if isPriority(cmd) then 1 else 0)
    {
      if txQueue == [] {
        return false;
      }
      popped := true;
      var (route, cmd) := txQueue[0];
      txQueue := txQueue[1..];
      // A protocol message on route -1 is meant to be handled locally; the source leaves
      // that branch empty, so it goes on like any other message.
      if isPriority(cmd) {
        events := events + [Sent(RequestSocket, cmd)];
        var reply := replies(requests);
        requests := requests + 1;
        if ReplyAccepted(reply) {
          events := events + [Dispatched(reply.message)];
        }
      }
      events := events + [Sent(PushChannel(route, pushSockets), cmd)];
    }

    /**
     * transmitData, run until the queue is empty: the loop's table of route sockets
     * starts empty and is never filled.
     */
    method TransmitData(isPriority: ActionMessage -> bool, replies: nat -> Reply)
      modifies this`txQueue, this`events, this`requests
      ensures txQueue == []
      ensures events == old(events) + TransmitLog(old(txQueue), isPriority, replies, old(requests), {})
      ensures requests == old(requests) + PriorityCount(old(txQueue), isPriority)
    {
      var pushSockets: set<int> := {};
      while txQueue != []
        invariant events + TransmitLog(txQueue, isPriority, replies, requests, pushSockets)
          == old(events) + TransmitLog(old(txQueue), isPriority, replies, old(requests), {})
        invariant requests + PriorityCount(txQueue, isPriority) == old(requests) + PriorityCount(old(txQueue), isPriority)
        invariant pushSockets == {}
        decreases |txQueue|
      {
        ghost var before := events;
        ghost var q := txQueue;
        ghost var k := requests;
        var _ := TransmitOne(isPriority, replies, pushSockets);
        assert events + TransmitLog(txQueue, isPriority, replies, requests, pushSockets)
          == before + (StepLog(q[0].0, q[0].1, isPriority(q[0].1), replies(k), pushSockets)
                       + TransmitLog(txQueue, isPriority, replies, requests, pushSockets));
      }
    }

    /**
     * One poll of receiveData: a close token on the control socket ends the loop before
     * anything else is looked at; otherwise the pulled message goes to addCommand, and a
     * request goes to addCommand and is answered with one CMD_PRIORITY_ACK.
     */
    method ReceiveOne(p: Poll) returns (exit: bool)
      modifies this`events
      ensures exit <==> Closes(p)
      ensures events == old(events) + (if exit then [] else PollLog(p))
    {
      if p.control.Some? {
        var msg := p.control.value;
        if |msg| == 5 && msg == CloseToken {
          return true;
        }
      }
      exit := false;
      if p.pull.Some? {
        events := events + [Dispatched(p.pull.value)];
      }
      if p.request.Some? {
        events := events + [Dispatched(p.request.value)];
        var resp := NewMessage(CmdPriorityAck);
        events := events + [Sent(ReplySocket, resp)];
      }
    }

    /**
     * receiveData over a finite run of polls: stops at the first that closes; `handled`
     * is the number of polls taken before it (all of them when none closes).
     */
    method ReceiveData(ps: seq<Poll>) returns (closed: bool, handled: nat)
      modifies this`events
      ensures handled <= |ps|
      ensures closed <==> handled < |ps|
      ensures closed ==> Closes(ps[handled])
      ensures forall i :: 0 <= i < handled ==> !Closes(ps[i])
      ensures events == old(events) + ReceiveLog(ps)
    {
      handled := 0;
      closed := false;
      while handled < |ps|
        invariant handled <= |ps|
        invariant forall i :: 0 <= i < handled ==> !Closes(ps[i])
        invariant events + ReceiveLog(ps[handled..]) == old(events) + ReceiveLog(ps)
      {
        var exit := ReceiveOne(ps[handled]);
        if exit {
          closed := true;
          return;
        }
        assert ps[handled..][1..] == ps[handled + 1..];
        handled := handled + 1;
      }
    }
  }
}
