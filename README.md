# Hydrus messaging service: connection login and relay

This project is a Dafny model of the server side of Hydrus's AMP messaging
service, as found in `include/HydrusServerAMP.py`. It covers four pieces:

- the network-version gate that every login runs first;
- the table of wire error codes the commands declare;
- the error callback that every command's deferred result passes through;
- the per-connection state machine `MessagingServiceProtocol`. A connection
  starts without an identity and takes one on a temporary or persistent
  login. It relays messages under that identity and leaves the factory's
  registry when the transport loses it.

Modules:

- `Failures` (failures.dfy) holds the exception classes, the `errors`
  table (`WireCode`), the reverse lookup a receiving peer does
  (`KindOfWireCode`), `_errbackHandleError` (`HandleError`) and the callback
  attached to each deferred (`Errback`). The same file has a tiny `Wrappers`
  module with `Option`.
- `Decimal` (decimal.dfy) holds the decimal text of an int, as `HC.u`
  renders one into a message, and a parser that reads it back.
- `VersionGate` (version_gate.dfy) holds `_check_network_version` and a
  reader for the mismatch message. The reader is proved to recover both
  version numbers and the side blamed.
- `MessagingService` (messaging_service.dfy) holds the connection class, the
  factory it talks to, and four scenarios:
  - A logs in with a session key and B logs in temporarily; each is
    registered under its own identity.
  - The relay scenario itself supplies what `GetConnection` answers. When it
    answers B's connection, A's message reaches B carrying A's identity.
    When it fails, the relay fails with that failure.
  - A client at the wrong version stays without an identity. Its message
    fails as `EXCEPTION` with no registry call.
  - A login whose registration the factory refuses keeps its identity.

  Every step is proved from the method contracts alone.

The factory's registry (`AddConnection`, `GetConnection`,
`RemoveConnection`) and the session manager (`GetIdentityAndName`,
`AddSession`) are collaborators whose code is not part of this model. The
factory is modelled by the sequence of calls the connections make to it,
each with the arguments passed. Nothing is assumed about how the registry
resolves a duplicate identity or a miss. The answers of the collaborators
are parameters of each operation:

- whether `AddConnection` returns or raises;
- what `GetConnection` answers;
- what the recipient answers to the relayed command;
- the session manager's lookup and issue functions;
- the text `failure.getTraceback()` gives.

`HC.NETWORK_VERSION` lives in `HydrusConstants`, which is not part of this
model. It is a constant field `networkVersion` of the factory.

Four behaviours of the code are worth noting:

- A relay from a connection without an identity fails with a plain
  `Exception`, sent as `EXCEPTION`, not with a permission error.
- A connection may log in again. It then takes the new identity and
  registers once more; nothing stops a second binding.
- The public-key command answers the fixed text `public key` for every
  identifier. It never fails with "not found".
- A failed relay does not remove the recipient from the registry.

## Model

| member | source | states |
|---|---|---|
| Failures.WireCode | include/HydrusServerAMP.py:28-35 | The wire code of a failure class. It is EXCEPTION exactly for the classes outside Forbidden, NetworkVersion, NotFound, Permission and Session. |
| Failures.KindOfWireCode | include/HydrusServerAMP.py:29-35 | Reading the table backwards gives a class whose code is the code read, and that class is one of the five or Exception. |
| Failures.WireCodeRoundTrip | include/HydrusServerAMP.py:29-35 | Decoding the code a class is sent as gives back that class for the five recognised ones, and Exception for every other class. |
| Failures.WireCodeSeparatesNormalErrors | include/HydrusServerAMP.py:30-34 | The five recognised classes have five distinct codes. |
| Failures.HandleError | include/HydrusServerAMP.py:64-77 | A failure of one of the five classes is re-raised unchanged. Any other becomes a plain Exception carrying the traceback text. The wire code is the same before and after. |
| Failures.Errback | include/HydrusServerAMP.py:159-165 | A success passes through the callback untouched and a failure stays a failure with the same wire code. Afterwards the failure is one of the five classes or a plain Exception. |
| Decimal.DecimalValueOfNatToDecimal | include/HydrusServerAMP.py:135 | The decimal text of a natural number spells that number. |
| Decimal.ParseIntRoundTrip | include/HydrusServerAMP.py:135 | The text of any int, followed by text that does not start with a digit, parses back to that int and to the text after it. |
| VersionGate.MismatchMessageRoundTrip | include/HydrusServerAMP.py:132-135 | The mismatch message carries the server's and the client's version numbers. It says the client is out of date exactly when the client's version is lower, and the server otherwise. |
| VersionGate.CheckNetworkVersion | include/HydrusServerAMP.py:128-137 | The check passes exactly when the versions are equal. Otherwise it fails with a NetworkVersionException whose message gives both versions and the outdated side. |
| VersionGate.VersionFailureWireCode | include/HydrusServerAMP.py:31 | A failed check goes through the error callback unchanged and is sent as NETWORK_VERSION. |
| MessagingService.MessagingServiceProtocol.constructor | include/HydrusServerAMP.py:120-125 | A new connection has neither identifier nor name. |
| MessagingService.MessagingServiceProtocol.LoginTemporary | include/HydrusServerAMP.py:171-195 | It succeeds exactly when the versions match and `AddConnection` returns. On a mismatch the version failure is the reply and the identity and registry calls are unchanged. When the versions match, the identity becomes the given pair and `AddConnection(False, identifier, name, self)` is called. If that call raises, its failure is the reply through the callback and the identity stays assigned. |
| MessagingService.MessagingServiceProtocol.LoginPersistent | include/HydrusServerAMP.py:141-169 | A version mismatch fails before the session manager's answer matters, and nothing changes. A failing session lookup is then the reply, and again nothing changes. Otherwise the identity becomes what the session key stands for and `AddConnection(True, ...)` is called. If that call raises, its failure is the reply through the callback and the identity stays assigned. |
| MessagingService.MessagingServiceProtocol.Message | include/HydrusServerAMP.py:197-226 | Without an identity it fails as EXCEPTION with no registry call and nothing sent. Otherwise `GetConnection(to)` is called. When a connection is found, exactly one IMMessageClient carrying the sender's own identity and the unchanged recipient and message is issued on it, and the relay's reply is that call's reply through the callback. A lookup failure, or a None answer, fails with nothing sent. |
| MessagingService.MessagingServiceProtocol.SessionKey | include/HydrusServerAMP.py:228-253 | The issued key is answered in a `session_key` box. A failure to issue is the reply, through the callback, with its wire code kept. |
| MessagingService.MessagingServiceProtocol.PublicKey | include/HydrusServerAMP.py:255-261 | The answer is the placeholder `public key` whatever identifier is asked for. |
| MessagingService.MessagingServiceProtocol.ConnectionLost | include/HydrusServerAMP.py:265-267 | `RemoveConnection(identifier, name)` is called if and only if the connection is bound. An unbound connection makes no registry call. |

## Left out

- Twisted scheduling is left out: `defer.Deferred`, `reactor.callLater(0, ...)`, `deferToThread` and the asynchrony of `callRemote`. Each command runs here as one atomic step. Another command of the same connection therefore cannot change its state between the call and its deferred body.
- AMP argument and response serialisation (`amp.Integer`, `amp.String`) is left out, together with the transport that carries wire codes. Versions are unbounded integers.
- How AMP picks a code from the `errors` table is left out. Twisted takes the first table class the failure is an instance of, in the dictionary's iteration order. The model sends each failure under its own class, which is the evident intent of the table.
- The factory's registry (`AddConnection`, `GetConnection`, `RemoveConnection`) is not part of this model: its collision policy and miss behaviour are not visible. The model records the calls and their arguments, and takes `GetConnection`'s answer as a parameter.
- The session manager (`GetIdentityAndName`, `AddSession`) is not part of this model. Its answers are function parameters, so the model does not state that an issued key later resolves to the identity it was issued for. The model assumes the session manager's identifier and name are strings.
- The text of `failure.getTraceback()` and the `print` of it are left out. The traceback is a parameter of each command.
- `HydrusConstants` is not part of this model. `HC.NETWORK_VERSION` is the factory's `networkVersion`. `HC.u` is assumed to render an int as Python's `str` does: an optional minus sign, then decimal digits with no leading zero.
- What happens when `RemoveConnection` raises inside `connectionLost` is left out. No errback is attached there, and the model only records the call.
- Twisted assigns a protocol's `factory` after construction. Here the constructor takes it.
- `MessagingClientProtocol` is left out. Its relay handler only answers `{}` and its `connectionLost` does nothing.
- The unused imports and the comments about encrypted file transfer are left out.
