/**
  The server side of one messaging connection (`MessagingServiceProtocol`):
  it starts without an identity, takes one on a temporary or persistent
  login, relays messages under that identity, and leaves the factory's
  registry when the connection is lost.

  The factory that keeps the registry of live connections and the session
  manager are collaborators whose code is not part of this model. The
  factory is modelled by the calls a connection makes to it, in order, with
  the arguments it passes; what the factory and the session manager answer
  is given to each operation as a parameter.
 */
module MessagingService {
  import opened Wrappers
  import opened Failures
  import opened VersionGate

  /** The service a factory serves, as the session manager knows it. */
  datatype ServiceIdentifier = ServiceIdentifier(serviceKey: string)

  /** The identity a connection takes: an account identifier and a display name. */
  datatype Identity = Identity(identifier: string, name: string)

  /**
    The session manager's `GetIdentityAndName(service_identifier, session_key)`:
    the identity a session key stands for, or the failure it raises.
   */
  type SessionLookup = (ServiceIdentifier, string) -> Result<Identity>

  /**
    The session manager's `AddSession(service_identifier, access_key, name)`:
    the new session key, or the failure it raises.
   */
  type SessionIssuer = (ServiceIdentifier, string, string) -> Result<string>

  /** A call a connection makes to its factory's registry of live connections. */
  datatype FactoryCall =
    | AddConnection(persistent: bool, identifier: string, name: string, connection: MessagingServiceProtocol)
    | GetConnection(identifier: string, name: string)
    | RemoveConnection(identifier: string, name: string)

  /** The arguments of the IMMessageClient command the server sends to a recipient. */
  datatype ClientMessage = ClientMessage(
    identifierFrom: string, nameFrom: string,
    identifierTo: string, nameTo: string,
    message: string)

  /** A remote command issued on another connection. */
  datatype RemoteCall = RemoteCall(target: MessagingServiceProtocol, command: ClientMessage)

  /** The text the public-key command answers with, whatever it is asked. */
  const PublicKeyPlaceholder := "public key"

  /**
    The factory shared by all connections of the service: the service it
    serves, the network version the server speaks, and the calls made to its
    registry so far.
   */
  class MessagingServiceFactory {
    const serviceIdentifier: ServiceIdentifier
    const networkVersion: int
    var calls: seq<FactoryCall>

    constructor (serviceIdentifier: ServiceIdentifier, networkVersion: int)
      ensures this.serviceIdentifier == serviceIdentifier && this.networkVersion == networkVersion
      ensures calls == []
    {
      this.serviceIdentifier := serviceIdentifier;
      this.networkVersion := networkVersion;
      calls := [];
    }
  }

  class MessagingServiceProtocol {
    const factory: MessagingServiceFactory
    var identifier: Option<string>
    var name: Option<string>

    /** Identifier and name are set together or not at all. */
    ghost predicate Valid()
      reads this
    {
      identifier.Some? <==> name.Some?
    }

    /** The test the relay command makes before it relays: both identifier and name are set. */
    predicate IsBound()
      reads this
    {
      identifier.Some? && name.Some?
    }

    /** A new connection has no identity yet. */
    constructor (factory: MessagingServiceFactory)
      ensures Valid() && !IsBound()
      ensures identifier == None && name == None
      ensures this.factory == factory
    {
      this.factory := factory;
      identifier := None;
      name := None;
    }

    /**
      Temporary login: the version check comes first, and a failed check
      leaves the identity and the registry as they were. Otherwise the
      connection takes the given identity and then asks the factory to
      register it as a temporary connection (`added` is what that call does).
      The identity is assigned before that call, so it stays assigned even
      when the call raises.
     */
    method LoginTemporary(
      networkVersion: int, identifier: string, name: string, added: Outcome, traceback: string)
      returns (reply: Reply)
      requires Valid()
      modifies this, factory
      ensures Valid()
      ensures reply.Ok? <==> networkVersion == factory.networkVersion && added.Pass?
      ensures networkVersion != factory.networkVersion ==>
                && reply == Err(CheckNetworkVersion(factory.networkVersion, networkVersion).failure)
                && unchanged(this)
                && factory.calls == old(factory.calls)
      ensures networkVersion == factory.networkVersion ==>
                && this.identifier == Some(identifier) && this.name == Some(name)
                && factory.calls == old(factory.calls) + [AddConnection(false, identifier, name, this)]
                && reply == (if added.Pass? then Ok(Empty) else Errback(Err(added.failure), traceback))
    {
      var check := CheckNetworkVersion(factory.networkVersion, networkVersion);
      if check.Fail? {
        reply := Errback(Err(check.failure), traceback);
        return;
      }
      this.identifier := Some(identifier);
      this.name := Some(name);
      factory.calls := factory.calls + [AddConnection(false, identifier, name, this)];
      if added.Fail? {
        reply := Errback(Err(added.failure), traceback);
        return;
      }
      reply := Errback(Ok(Empty), traceback);
    }

    /**
      Persistent login: the version check comes first, before the session
      manager is asked; a failure at either of these steps leaves the
      identity and the registry as they were. Then the connection takes the
      identity the session key stands for and asks the factory to register
      it as a persistent connection (`added` is what that call does); the
      identity stays assigned even when that call raises.
     */
    method LoginPersistent(
      networkVersion: int, sessionKey: string, sessions: SessionLookup, added: Outcome, traceback: string)
      returns (reply: Reply)
      requires Valid()
      modifies this, factory
      ensures Valid()
      ensures networkVersion != factory.networkVersion ==>
                && reply == Err(CheckNetworkVersion(factory.networkVersion, networkVersion).failure)
                && unchanged(this)
                && factory.calls == old(factory.calls)
      ensures networkVersion == factory.networkVersion ==>
                match sessions(factory.serviceIdentifier, sessionKey)
                case Err(f) =>
                  && reply == Errback(Err(f), traceback)
                  && unchanged(this)
                  && factory.calls == old(factory.calls)
                case Ok(who) =>
                  && identifier == Some(who.identifier) && name == Some(who.name)
                  && factory.calls == old(factory.calls) + [AddConnection(true, who.identifier, who.name, this)]
                  && reply == (if added.Pass? then Ok(Empty) else Errback(Err(added.failure), traceback))
    {
      var check := CheckNetworkVersion(factory.networkVersion, networkVersion);
      if check.Fail? {
        reply := Errback(Err(check.failure), traceback);
        return;
      }
      var found := sessions(factory.serviceIdentifier, sessionKey);
      if found.Err? {
        reply := Errback(Err(found.failure), traceback);
        return;
      }
      identifier := Some(found.value.identifier);
      name := Some(found.value.name);
      factory.calls := factory.calls + [AddConnection(true, identifier.value, name.value, this)];
      if added.Fail? {
        reply := Errback(Err(added.failure), traceback);
        return;
      }
      reply := Errback(Ok(Empty), traceback);
    }

    /**
      Relay a message. A connection without an identity fails with a plain
      Exception before the registry is consulted. Otherwise the recipient's
      connection is fetched from the factory (`lookup` is what the factory
      answers) and an IMMessageClient command carrying this connection's own
      identity is issued on it; the relay's result is the result of that
      remote command (`remoteReply`), through the error callback.
     */
    method Message(
      identifierTo: string, nameTo: string, message: string,
      lookup: Result<MessagingServiceProtocol?>, remoteReply: Reply, traceback: string)
      returns (sent: Option<RemoteCall>, reply: Reply)
      modifies factory
      ensures !IsBound() ==>
                && sent == None
                && factory.calls == old(factory.calls)
                && reply == Err(Failure(PlainException, traceback))
                && WireCode(reply.failure.kind) == "EXCEPTION"
      ensures IsBound() ==> factory.calls == old(factory.calls) + [GetConnection(identifierTo, nameTo)]
      ensures IsBound() && lookup.Err? ==> sent == None && reply == Errback(Err(lookup.failure), traceback)
      ensures IsBound() && lookup == Ok(null) ==> sent == None && reply == Err(Failure(PlainException, traceback))
      ensures IsBound() && lookup.Ok? && lookup.value != null ==>
                && sent == Some(RemoteCall(lookup.value,
                                           ClientMessage(identifier.value, name.value, identifierTo, nameTo, message)))
                && reply == Errback(remoteReply, traceback)
    {
      sent := None;
      if identifier.None? || name.None? {
        reply := Errback(Err(Failure(PlainException, "")), traceback);
        return;
      }
      factory.calls := factory.calls + [GetConnection(identifierTo, nameTo)];
      if lookup.Err? {
        reply := Errback(Err(lookup.failure), traceback);
        return;
      }
      var connection := lookup.value;
      if connection == null {
        // calling a method on None raises AttributeError
        reply := Errback(Err(Failure(OtherError("AttributeError"), "'NoneType' object has no attribute 'callRemote'")), traceback);
        return;
      }
      sent := Some(RemoteCall(connection, ClientMessage(identifier.value, name.value, identifierTo, nameTo, message)));
      reply := Errback(remoteReply, traceback);
    }

    /**
      Ask for a session key: the session manager issues one for the access
      key and name (`issue` is what it does) and the key is answered in a
      `session_key` box. The connection's own state plays no part.
     */
    method SessionKey(accessKey: string, name: string, issue: SessionIssuer, traceback: string)
      returns (reply: Reply)
      ensures issue(factory.serviceIdentifier, accessKey, name).Ok? ==>
                reply == Ok(SessionKeyIssued(issue(factory.serviceIdentifier, accessKey, name).value))
      ensures issue(factory.serviceIdentifier, accessKey, name).Err? ==>
                && reply.Err?
                && WireCode(reply.failure.kind) == WireCode(issue(factory.serviceIdentifier, accessKey, name).failure.kind)
                && reply == Errback(Err(issue(factory.serviceIdentifier, accessKey, name).failure), traceback)
    {
      var issued := issue(factory.serviceIdentifier, accessKey, name);
      if issued.Err? {
        reply := Errback(Err(issued.failure), traceback);
      } else {
        reply := Errback(Ok(SessionKeyIssued(issued.value)), traceback);
      }
    }

    /** The public-key command: a placeholder answer that does not depend on what is asked. */
    method PublicKey(identifier: string) returns (response: Response)
      ensures response == PublicKeyIs(PublicKeyPlaceholder)
    {
      response := PublicKeyIs(PublicKeyPlaceholder);
    }

    /**
      The transport lost the connection: a connection with an identifier
      leaves the registry under its identity; one without leaves the
      registry alone. Because identifier and name are set together, that is
      exactly the bound connections.
     */
    method ConnectionLost()
      requires Valid()
      modifies factory
      ensures IsBound() ==> factory.calls == old(factory.calls) + [RemoveConnection(identifier.value, name.value)]
      ensures !IsBound() ==> factory.calls == old(factory.calls)
    {
      if identifier.Some? {
        factory.calls := factory.calls + [RemoveConnection(identifier.value, name.value)];
      }
    }
  }

  /**
    Two clients log in to a server at network version 3: A with a session
    key, B temporarily. Each is registered under its own identity.
   */
  method LoginScenario()
  {
    var factory := new MessagingServiceFactory(ServiceIdentifier("messaging"), 3);
    var a := new MessagingServiceProtocol(factory);
    var b := new MessagingServiceProtocol(factory);
    var sessions: SessionLookup :=
      (service, key) => if key == "sk1" then Ok(Identity("IDA", "Alice")) else Err(Failure(Session, "unknown session"));

    var r := a.LoginPersistent(3, "sk1", sessions, Pass, "");
    assert r == Ok(Empty) && a.identifier == Some("IDA") && a.name == Some("Alice");
    r := b.LoginTemporary(3, "IDB", "Bob", Pass, "");
    assert r == Ok(Empty) && b.IsBound();
    assert factory.calls == [AddConnection(true, "IDA", "Alice", a), AddConnection(false, "IDB", "Bob", b)];
  }

  /**
    A, logged in as ("IDA", "Alice"), sends to B and then to Carol. The
    scenario itself gives what the factory answers to each lookup: when it
    answers B's connection, A's message reaches B carrying A's identity;
    when it fails, so does the relay.
   */
  method RelayScenario(a: MessagingServiceProtocol, b: MessagingServiceProtocol, lookupMissFailure: Failure)
    requires a.identifier == Some("IDA") && a.name == Some("Alice")
    requires lookupMissFailure.kind == NotFound
    modifies a.factory
  {
    var sent, r := a.Message("IDB", "Bob", "hi", Ok(b), Ok(Empty), "");
    assert sent == Some(RemoteCall(b, ClientMessage("IDA", "Alice", "IDB", "Bob", "hi")));
    assert r == Ok(Empty);

    sent, r := a.Message("IDC", "Carol", "hi", Err(lookupMissFailure), Ok(Empty), "");
    assert sent == None && r == Err(lookupMissFailure);
  }

  /**
    A client at the wrong network version is refused and stays without an
    identity, so its messages fail as EXCEPTION without a registry lookup.
   */
  method OutdatedClientScenario(a: MessagingServiceProtocol)
  {
    var factory := new MessagingServiceFactory(ServiceIdentifier("messaging"), 3);
    var c := new MessagingServiceProtocol(factory);
    var r := c.LoginTemporary(2, "IDC", "Carol", Pass, "");
    assert r.Err? && WireCode(r.failure.kind) == "NETWORK_VERSION" && !c.IsBound();
    var sent;
    sent, r := c.Message("IDA", "Alice", "hi", Ok(a), Ok(Empty), "");
    assert sent == None && WireCode(r.failure.kind) == "EXCEPTION" && factory.calls == [];
  }

  /**
    A registration the factory refuses still leaves the identity assigned,
    so losing that connection later asks the factory to remove that identity.
   */
  method RefusedLoginScenario(refusal: Failure)
    requires IsNormalError(refusal.kind)
  {
    var factory := new MessagingServiceFactory(ServiceIdentifier("messaging"), 3);
    var d := new MessagingServiceProtocol(factory);
    var r := d.LoginTemporary(3, "IDB", "Bob", Fail(refusal), "");
    assert r == Err(refusal) && d.IsBound();
    d.ConnectionLost();
    assert factory.calls == [AddConnection(false, "IDB", "Bob", d), RemoveConnection("IDB", "Bob")];
  }
}
