/**
 * The broker factory (core/BrokerFactory.cpp): choosing the broker implementation
 * for a requested transport kind, the process-wide directory of brokers
 * (searchableObjects) and the deferred-destruction list behind it.
 *
 * The build switches (HELICS_HAVE_ZEROMQ, HELICS_HAVE_MPI, DISABLE_*_CORE) are a
 * `Build` value, so that every property holds for every build. Broker objects are
 * values carrying their concrete class; a C++ dynamic_cast becomes a comparison of
 * that class.
 */
module BrokerFactory {
  import opened Outcomes
  import DelayedDestruction

  /** core_type: the transport kinds a caller may ask for. Unrecognized stands for any other enumerator. */
  datatype CoreType = Default | Zmq | ZmqSS | Mpi | Test | Interprocess | Ipc | Udp | Tcp | TcpSS | Unrecognized

  /** Which backends a build contains. */
  datatype Build = Build(haveZeroMq: bool, haveMpi: bool, testCore: bool, ipcCore: bool, udpCore: bool, tcpCore: bool)

  /** A sample build: ZeroMQ present, MPI absent, no core type disabled. */
  const ReferenceBuild := Build(true, false, true, true, true, true)

  /** The concrete broker classes. ForeignBroker is a Broker implementation that is not a CoreBroker. */
  datatype BrokerClass =
    | ZmqBroker | ZmqBrokerSS | MpiBroker | TestBroker | IpcBroker
    | UdpBroker | TcpBroker | TcpBrokerSS | ForeignBroker

  /** Which constructor built a broker: the default one or the one taking a name. */
  datatype Construction = DefaultConstructor | NamedConstructor(name: string)

  /** What makeBroker produces: a broker of a class, built by one of its constructors. */
  datatype NewBroker = NewBroker(cls: BrokerClass, construction: Construction)

  /** The exceptions the factory throws. */
  datatype FactoryError = HelicsException(message: string) | RegistrationFailure(message: string)

  /** A live broker as the directory sees it: an object identity, its class and its identifier. */
  datatype Broker = Broker(handle: nat, cls: BrokerClass, identifier: string)

  /** dynamic_pointer_cast<CoreBroker> succeeds. */
  predicate IsCoreBroker(b: Broker)
  {
    b.cls != ForeignBroker
  }

  /** The class that serves a kind, for the kinds that have one. */
  function Backend(t: CoreType): Option<BrokerClass>
  {
    match t
    case Zmq => Some(ZmqBroker)
    case ZmqSS => Some(ZmqBrokerSS)
    case Mpi => Some(MpiBroker)
    case Test => Some(TestBroker)
    case Interprocess => Some(IpcBroker)
    case Ipc => Some(IpcBroker)
    case Udp => Some(UdpBroker)
    case Tcp => Some(TcpBroker)
    case TcpSS => Some(TcpBrokerSS)
    case Default => None
    case Unrecognized => None
  }

  /** Whether a build contains the code of a broker class. */
  predicate Compiled(build: Build, cls: BrokerClass)
  {
    match cls
    case ZmqBroker => build.haveZeroMq
    case ZmqBrokerSS => build.haveZeroMq
    case MpiBroker => build.haveMpi
    case TestBroker => build.testCore
    case IpcBroker => build.ipcCore
    case UdpBroker => build.udpCore
    case TcpBroker => build.tcpCore
    case TcpBrokerSS => build.tcpCore
    case ForeignBroker => false
  }

  /** The kind DEFAULT stands for in a build; every other kind stands for itself. */
  function ResolveType(build: Build, t: CoreType): (r: CoreType)
    ensures r != Default
    ensures t != Default ==> r == t
    ensures t == Default ==> (r == Zmq <==> build.haveZeroMq)
    ensures t == Default ==> (r == Tcp <==> !build.haveZeroMq && build.tcpCore)
    ensures t == Default ==> (r == Udp <==> !build.haveZeroMq && !build.tcpCore)
  {
    if t != Default then t
    else if build.haveZeroMq then Zmq
    else if build.tcpCore then Tcp
    else Udp
  }

  /** An empty name selects the default constructor, any other the named one. */
  function ConstructorFor(name: string): (c: Construction)
    ensures c.DefaultConstructor? <==> name == []
    ensures c.NamedConstructor? ==> c.name == name
  {
    if name == [] then DefaultConstructor else NamedConstructor(name)
  }

  /**
   * makeBroker: the broker for a kind, or the exception thrown when the kind's
   * backend is compiled out or the kind is not recognised.
   */
  function MakeBroker(build: Build, t: CoreType, name: string): (r: Result<NewBroker, FactoryError>)
    ensures var k := ResolveType(build, t);
      r.Success? <==> Backend(k).Some? && Compiled(build, Backend(k).value)
    ensures r.Success? ==> r.value == NewBroker(Backend(ResolveType(build, t)).value, ConstructorFor(name))
    ensures r.Failure? ==> r.error.HelicsException?
  {
    var c := ConstructorFor(name);
    match ResolveType(build, t)
    case Zmq =>
      if build.haveZeroMq then Success(NewBroker(ZmqBroker, c))
      else Failure(HelicsException("ZMQ broker type is not available"))
    case ZmqSS =>
      if build.haveZeroMq then Success(NewBroker(ZmqBrokerSS, c))
      else Failure(HelicsException("ZMQ broker type is not available"))
    case Mpi =>
      if build.haveMpi then Success(NewBroker(MpiBroker, c))
      else Failure(HelicsException("mpi broker type is not available"))
    case Test =>
      if build.testCore then Success(NewBroker(TestBroker, c))
      else Failure(HelicsException("Test broker type is not available"))
    case Interprocess =>
      if build.ipcCore then Success(NewBroker(IpcBroker, c))
      else Failure(HelicsException("ipc broker type is not available"))
    case Ipc =>
      if build.ipcCore then Success(NewBroker(IpcBroker, c))
      else Failure(HelicsException("ipc broker type is not available"))
    case Udp =>
      if build.udpCore then Success(NewBroker(UdpBroker, c))
      else Failure(HelicsException("udp broker type is not available"))
    case Tcp =>
      if build.tcpCore then Success(NewBroker(TcpBroker, c))
      else Failure(HelicsException("tcp broker type is not available"))
    case TcpSS =>
      if build.tcpCore then Success(NewBroker(TcpBrokerSS, c))
      else Failure(HelicsException("tcp single socket broker type is not available"))
    case Default => Failure(HelicsException("unrecognized broker type"))
    case Unrecognized => Failure(HelicsException("unrecognized broker type"))
  }

  /** The factory never produces a broker that is not a CoreBroker. */
  lemma MadeBrokersAreCoreBrokers(build: Build, t: CoreType, name: string, handle: nat, identifier: string)
    requires MakeBroker(build, t, name).Success?
    ensures IsCoreBroker(Broker(handle, MakeBroker(build, t, name).value.cls, identifier))
  {
  }

  /** INTERPROCESS and IPC are two names for the same broker. */
  lemma InterprocessIsIpc(build: Build, name: string)
    ensures MakeBroker(build, Interprocess, name) == MakeBroker(build, Ipc, name)
    ensures MakeBroker(build, Ipc, name).Success? ==> MakeBroker(build, Ipc, name).value.cls == IpcBroker
  {
  }

  /** The kinds isJoinableBrokerOfType has a case for. */
  predicate HasJoinCase(t: CoreType)
  {
    t == Zmq || t == Mpi || t == Test || t == Interprocess || t == Ipc || t == Udp || t == Tcp
  }

  /**
   * isJoinableBrokerOfType: a broker closed to new federates never qualifies; for a
   * kind with a case, an open broker qualifies iff the kind's backend is compiled in
   * and the broker is of that backend's class; any other kind accepts every open broker.
   */
  function IsJoinableBrokerOfType(build: Build, t: CoreType, b: Broker, openToNewFederates: bool): (r: bool)
    ensures !openToNewFederates ==> !r
    ensures openToNewFederates && !HasJoinCase(t) ==> r
    ensures HasJoinCase(t) ==> (r <==> openToNewFederates && Compiled(build, Backend(t).value) && b.cls == Backend(t).value)
  {
    if openToNewFederates then
      match t
      case Zmq => if build.haveZeroMq then b.cls == ZmqBroker else false
      case Mpi => if build.haveMpi then b.cls == MpiBroker else false
      case Test => if build.testCore then b.cls == TestBroker else false
      case Interprocess => if build.ipcCore then b.cls == IpcBroker else false
      case Ipc => if build.ipcCore then b.cls == IpcBroker else false
      case Udp => if build.udpCore then b.cls == UdpBroker else false
      case Tcp => if build.tcpCore then b.cls == TcpBroker else false
      case _ => true
    else false
  }

  /** An open broker the factory made for a kind with a case is joinable for that kind. */
  lemma MadeBrokerIsJoinable(build: Build, t: CoreType, name: string, handle: nat, identifier: string)
    requires HasJoinCase(t)
    requires MakeBroker(build, t, name).Success?
    ensures IsJoinableBrokerOfType(build, t, Broker(handle, MakeBroker(build, t, name).value.cls, identifier), true)
  {
  }

  /** The failure registerBroker as written runs into: a call through a null pointer. */
  datatype Fault = NullDereference

  /** Whether registerBroker (corrected) registers a broker: only a CoreBroker, on either attempt. */
  predicate Registers(b: Broker, registry: map<string, Broker>, removedDuringWait: set<string>)
  {
    IsCoreBroker(b) && (b.identifier !in registry || b.identifier in removedDuringWait)
  }

  /**
   * registerBroker as the source has it: a broker that is not a CoreBroker leaves the
   * cast's result null, the first add is skipped, and the retry calls getIdentifier
   * through that null pointer. On a CoreBroker it decides as Registers does.
   */
  function RegisterAsWritten(b: Broker, registry: map<string, Broker>, removedDuringWait: set<string>): (r: Result<bool, Fault>)
    ensures r.Failure? <==> !IsCoreBroker(b)
    ensures r.Success? ==> r.value == Registers(b, registry, removedDuringWait)
  {
    if IsCoreBroker(b) && b.identifier !in registry then Success(true)
    else if !IsCoreBroker(b) then Failure(NullDereference)
    else Success(b.identifier in removedDuringWait)
  }

  /** The input that shows the fault: any broker outside the CoreBroker hierarchy. */
  lemma ForeignBrokerDereferencesNull()
    ensures RegisterAsWritten(Broker(1, ForeignBroker, "foreign"), map[], {}) == Failure(NullDereference)
    ensures !Registers(Broker(1, ForeignBroker, "foreign"), map[], {})
  {
  }

  /** What a broker is initialized from: an initialization string or an argument vector. */
  datatype InitSource = InitString(text: string) | InitArgs(args: seq<string>)

  /**
   * A call the factory made on a broker, an attempt to add a broker to the directory
   * under a name, or a pause of the calling thread.
   */
  datatype Step = Initialize(handle: nat, init: InitSource) | Add(handle: nat, name: string) | Connect(handle: nat) | Wait(ms: nat)

  /** The pause before registerBroker's second attempt. */
  const RegistrationRetryDelay: nat := 200

  /** The factory's process-wide state: the directory of brokers and the deferred-destruction list. */
  class Factory {
    var searchableObjects: map<string, Broker>
    const delayedDestroyer: DelayedDestruction.DelayedDestructor<Broker>
    /** The calls made on brokers, the directory adds attempted and registerBroker's pauses, in order. */
    var trace: seq<Step>

    constructor ()
      ensures searchableObjects == map[] && trace == []
      ensures fresh(delayedDestroyer) && delayedDestroyer.elements == []
    {
      searchableObjects := map[];
      trace := [];
      delayedDestroyer := new DelayedDestruction.DelayedDestructor();
    }

    /** addObject: insert under a name, failing when the name is taken. */
    method AddObject(name: string, b: Broker) returns (added: bool)
      modifies this`searchableObjects
      ensures added <==> name !in old(searchableObjects)
      ensures searchableObjects == if added then old(searchableObjects)[name := b] else old(searchableObjects)
    {
      added := name !in searchableObjects;
      if added {
        searchableObjects := searchableObjects[name := b];
      }
    }

    /** findBroker: the broker registered under a name, if any. */
    function FindBroker(name: string): (r: Option<Broker>)
      reads this
      ensures r.Some? <==> name in searchableObjects
      ensures r.Some? ==> r.value == searchableObjects[name]
    {
      if name in searchableObjects then Some(searchableObjects[name]) else None
    }

    /**
     * findJoinableBrokerOfType: some registered broker joinable for the kind, or none
     * when no registered broker is. Which brokers are open is the caller's snapshot.
     */
    method FindJoinableBrokerOfType(build: Build, t: CoreType, isOpen: Broker -> bool) returns (r: Option<Broker>)
      ensures r.Some? ==> r.value in searchableObjects.Values && IsJoinableBrokerOfType(build, t, r.value, isOpen(r.value))
      ensures r.None? <==> forall k :: k in searchableObjects ==>
        !IsJoinableBrokerOfType(build, t, searchableObjects[k], isOpen(searchableObjects[k]))
    {
      if exists k :: k in searchableObjects && IsJoinableBrokerOfType(build, t, searchableObjects[k], isOpen(searchableObjects[k])) {
        var k :| k in searchableObjects && IsJoinableBrokerOfType(build, t, searchableObjects[k], isOpen(searchableObjects[k]));
        r := Some(searchableObjects[k]);
      } else {
        r := None;
      }
    }

    /** cleanUpBrokers(): one sweep of the deferred-destruction list. */
    method CleanUpBrokers(useCount: Broker -> nat) returns (remaining: nat)
      modifies delayedDestroyer
      ensures delayedDestroyer.elements == DelayedDestruction.Sweep(old(delayedDestroyer.elements), useCount)
      ensures remaining == |delayedDestroyer.elements|
    {
      remaining := delayedDestroyer.DestroyObjects(useCount);
    }

    /**
     * cleanUpBrokers(delay): the timed sweep of the deferred-destruction list. Returns
     * its new length and the length in ms of each wait the sweep made, in order.
     * `delay` is a plain count of milliseconds, as DestroyObjectsWithin takes it; a
     * negative delay gives waits of that same negative length (a sleep that returns
     * at once).
     */
    method CleanUpBrokersWithin(delay: int, counts: nat -> Broker -> nat) returns (remaining: nat, waits: seq<int>)
      modifies delayedDestroyer
      ensures delayedDestroyer.elements ==
        DelayedDestruction.TimedSweep(old(delayedDestroyer.elements), counts, DelayedDestruction.DelayCount(delay))
      ensures remaining == |delayedDestroyer.elements|
      ensures forall i :: 0 <= i < |waits| ==> waits[i] == DelayedDestruction.DelayTime(delay)
      ensures |waits| <= DelayedDestruction.DelayCount(delay)
      ensures old(delayedDestroyer.elements) == [] ==> waits == []
      ensures remaining > 0 ==> |waits| == DelayedDestruction.DelayCount(delay)
    {
      remaining, waits := delayedDestroyer.DestroyObjectsWithin(delay, counts);
    }

    /**
     * registerBroker: try to add the broker under its identifier, sweep the
     * deferred-destruction list, and if the add failed pause 200 ms and try once
     * more. During the pause other threads may unregister names: those are
     * `removedDuringWait`. A registered broker is also put on the deferred-destruction
     * list. A broker that is not a CoreBroker is never added and never retried: it
     * fails at once, with the directory unchanged (see RegisterAsWritten).
     */
    method RegisterBroker(b: Broker, useCount: Broker -> nat, removedDuringWait: set<string>) returns (registered: bool)
      modifies this, delayedDestroyer
      ensures registered == Registers(b, old(searchableObjects), removedDuringWait)
      ensures !IsCoreBroker(b) ==> searchableObjects == old(searchableObjects) && trace == old(trace)
      ensures IsCoreBroker(b) ==>
        var first := b.identifier !in old(searchableObjects);
        && searchableObjects == (if first then old(searchableObjects)[b.identifier := b]
                                 else if registered then (old(searchableObjects) - removedDuringWait)[b.identifier := b]
                                 else old(searchableObjects) - removedDuringWait)
        && trace == old(trace) + [Add(b.handle, b.identifier)]
                    + (if first then [] else [Wait(RegistrationRetryDelay), Add(b.handle, b.identifier)])
      ensures delayedDestroyer.elements ==
        DelayedDestruction.Sweep(old(delayedDestroyer.elements), useCount) + (if registered then [b] else [])
    {
      registered := false;
      if IsCoreBroker(b) {
        trace := trace + [Add(b.handle, b.identifier)];
        registered := AddObject(b.identifier, b);
      }
      var _ := CleanUpBrokers(useCount);
      if !registered && IsCoreBroker(b) {
        trace := trace + [Wait(RegistrationRetryDelay)];
        searchableObjects := searchableObjects - removedDuringWait;
        trace := trace + [Add(b.handle, b.identifier)];
        registered := AddObject(b.identifier, b);
      }
      if registered {
        delayedDestroyer.AddObjectsToBeDestroyed(b);
      }
    }

    /**
     * create (all four overloads): make the broker, initialize it, register it, and
     * connect it only when registration succeeded; otherwise throw RegistrationFailure.
     * The overloads without a name pass the empty name; `init` is the initialization
     * string or the argument vector. `handle` is the new object's identity and
     * `identifier` the name it reports once initialized.
     */
    method Create(build: Build, t: CoreType, name: string, init: InitSource, handle: nat, identifier: string,
                  useCount: Broker -> nat, removedDuringWait: set<string>) returns (r: Result<Broker, FactoryError>)
      modifies this, delayedDestroyer
      ensures MakeBroker(build, t, name).Failure? ==>
        && r == Failure(MakeBroker(build, t, name).error)
        && searchableObjects == old(searchableObjects) && trace == old(trace)
        && delayedDestroyer.elements == old(delayedDestroyer.elements)
      ensures MakeBroker(build, t, name).Success? ==>
        var b := Broker(handle, MakeBroker(build, t, name).value.cls, identifier);
        var ok := Registers(b, old(searchableObjects), removedDuringWait);
        var first := b.identifier !in old(searchableObjects);
        && (r == if ok then Success(b) else Failure(RegistrationFailure("unable to register broker")))
        && searchableObjects == (if first then old(searchableObjects)[identifier := b]
                                 else if ok then (old(searchableObjects) - removedDuringWait)[identifier := b]
                                 else old(searchableObjects) - removedDuringWait)
        && (ok ==> identifier in searchableObjects && searchableObjects[identifier] == b)
        && trace == old(trace) + [Initialize(handle, init), Add(handle, identifier)]
                    + (if first then [] else [Wait(RegistrationRetryDelay), Add(handle, identifier)])
                    + (if ok then [Connect(handle)] else [])
        && delayedDestroyer.elements ==
             DelayedDestruction.Sweep(old(delayedDestroyer.elements), useCount) + (if ok then [b] else [])
    {
      var made := MakeBroker(build, t, name);
      if made.Failure? {
        return Failure(made.error);
      }
      var b := Broker(handle, made.value.cls, identifier);
      trace := trace + [Initialize(handle, init)];
      var registered := RegisterBroker(b, useCount, removedDuringWait);
      if !registered {
        return Failure(RegistrationFailure("unable to register broker"));
      }
      trace := trace + [Connect(handle)];
      r := Success(b);
    }

    /** copyBrokerIdentifier: register the broker of one name under a second, new name. */
    method CopyBrokerIdentifier(copyFromName: string, copyToName: string) returns (copied: bool)
      modifies this`searchableObjects
      ensures copied <==> copyFromName in old(searchableObjects) && copyToName !in old(searchableObjects)
      ensures searchableObjects ==
        if copied then old(searchableObjects)[copyToName := old(searchableObjects)[copyFromName]]
        else old(searchableObjects)
    {
      copied := copyFromName in searchableObjects && copyToName !in searchableObjects;
      if copied {
        searchableObjects := searchableObjects[copyToName := searchableObjects[copyFromName]];
      }
    }

    /**
     * unregisterBroker: remove the entry with the given key; only when there is none,
     * remove one entry whose broker has that identifier.
     */
    method UnregisterBroker(name: string)
      modifies this`searchableObjects
      ensures name in old(searchableObjects) ==> searchableObjects == old(searchableObjects) - {name}
      ensures name !in old(searchableObjects) ==>
        if exists k :: k in old(searchableObjects) && old(searchableObjects)[k].identifier == name
        then exists k :: k in old(searchableObjects) && old(searchableObjects)[k].identifier == name
                         && searchableObjects == old(searchableObjects) - {k}
        else searchableObjects == old(searchableObjects)
    {
      if name in searchableObjects {
        searchableObjects := searchableObjects - {name};
      } else if exists k :: k in searchableObjects && searchableObjects[k].identifier == name {
        var k :| k in searchableObjects && searchableObjects[k].identifier == name;
        searchableObjects := searchableObjects - {k};
      }
    }
  }

  /**
   * Creating twice under one name on a fresh factory: the first broker is registered
   * and connected; the second collides, fails after its one retry and is never
   * connected, and the directory keeps the first.
   */
  method DuplicateNameScenario(useCount: Broker -> nat)
    returns (first: Result<Broker, FactoryError>, second: Result<Broker, FactoryError>,
             trace: seq<Step>, registered: Option<Broker>)
    ensures first == Success(Broker(1, TestBroker, "A"))
    ensures second == Failure(RegistrationFailure("unable to register broker"))
    ensures trace == [Initialize(1, InitString("")), Add(1, "A"), Connect(1),
                      Initialize(2, InitString("")), Add(2, "A"), Wait(RegistrationRetryDelay), Add(2, "A")]
    ensures registered == Some(Broker(1, TestBroker, "A"))
  {
    var f := new Factory();
    first := f.Create(ReferenceBuild, Test, "A", InitString(""), 1, "A", useCount, {});
    second := f.Create(ReferenceBuild, Test, "A", InitString(""), 2, "A", useCount, {});
    trace := f.trace;
    registered := f.FindBroker("A");
  }
}
