/**
  The network-version check every login runs first
  (`MessagingServiceProtocol._check_network_version`), and a reader for the
  message it fails with.
 */
module VersionGate {
  import opened Wrappers
  import opened Failures
  import opened Decimal

  const MismatchLead := "Network version mismatch! This server's network version is "
  const MismatchMiddle := ", whereas your client's is "
  const MismatchTail := "! "
  const ClientOutdatedAdvice := "Your client is out of date; please download the latest release."
  const ServerOutdatedAdvice := "This server is out of date; please ask its admin to update to the latest release."

  /** The advice that ends a mismatch message: which side is out of date. */
  function Advice(clientOutdated: bool): string
  {
    if clientOutdated then ClientOutdatedAdvice else ServerOutdatedAdvice
  }

  /** The text the check fails with when the client sends `clientVersion` to a server at `serverVersion`. */
  function MismatchMessage(serverVersion: int, clientVersion: int): string
  {
    MismatchLead + (IntToDecimal(serverVersion) + (MismatchMiddle + (IntToDecimal(clientVersion)
      + (MismatchTail + Advice(clientVersion < serverVersion)))))
  }

  /** What a mismatch message tells its reader. */
  datatype MismatchReport = MismatchReport(serverVersion: int, clientVersion: int, clientOutdated: bool)

  /** What follows `p` in `s`, when `s` starts with `p`. */
  function StripPrefix(p: string, s: string): Option<string>
  {
    if p <= s then Some(s[|p|..]) else None
  }

  /** Which side the ending of a mismatch message blames; None for any other ending. */
  function ParseAdvice(tail: string): Option<bool>
  {
    if tail == MismatchTail + ClientOutdatedAdvice then Some(true)
    else if tail == MismatchTail + ServerOutdatedAdvice then Some(false)
    else None
  }

  /** Reads the two versions and the side blamed back out of a mismatch message. */
  function ParseMismatchMessage(msg: string): Option<MismatchReport>
  {
    match StripPrefix(MismatchLead, msg)
    case None => None
    case Some(afterLead) =>
      match ParseInt(afterLead)
      case None => None
      case Some((server, afterServer)) =>
        match StripPrefix(MismatchMiddle, afterServer)
        case None => None
        case Some(afterMiddle) =>
          match ParseInt(afterMiddle)
          case None => None
          case Some((client, tail)) =>
            match ParseAdvice(tail)
            case None => None
            case Some(clientOutdated) => Some(MismatchReport(server, client, clientOutdated))
  }

  lemma StripPrefixOf(p: string, x: string)
    ensures StripPrefix(p, p + x) == Some(x)
  {
  }

  lemma ParseAdviceOf(clientOutdated: bool)
    ensures ParseAdvice(MismatchTail + Advice(clientOutdated)) == Some(clientOutdated)
  {
  }

  /**
    A mismatch message carries both version numbers and blames the client
    exactly when the client's version is the lower one.
   */
  lemma MismatchMessageRoundTrip(serverVersion: int, clientVersion: int)
    ensures ParseMismatchMessage(MismatchMessage(serverVersion, clientVersion))
         == Some(MismatchReport(serverVersion, clientVersion, clientVersion < serverVersion))
  {
    var msg := MismatchMessage(serverVersion, clientVersion);
    var s := IntToDecimal(serverVersion);
    var c := IntToDecimal(clientVersion);
    var tail := MismatchTail + Advice(clientVersion < serverVersion);
    var afterMiddle := c + tail;
    var afterServer := MismatchMiddle + afterMiddle;
    var afterLead := s + afterServer;
    assert msg == MismatchLead + afterLead;
    StripPrefixOf(MismatchLead, afterLead);
    assert StripPrefix(MismatchLead, msg) == Some(afterLead);
    assert afterServer[0] == MismatchMiddle[0] == ',';
    ParseIntRoundTrip(serverVersion, afterServer);
    assert ParseInt(afterLead) == Some((serverVersion, afterServer));
    StripPrefixOf(MismatchMiddle, afterMiddle);
    assert tail[0] == '!';
    ParseIntRoundTrip(clientVersion, tail);
    assert ParseInt(afterMiddle) == Some((clientVersion, tail));
    ParseAdviceOf(clientVersion < serverVersion);
  }

  /**
    The check: nothing happens when the client's version is the server's;
    otherwise it fails with a NetworkVersionException whose message names
    both versions and the side that is out of date.
   */
  function CheckNetworkVersion(serverVersion: int, networkVersion: int): (r: Outcome)
    ensures r.Pass? <==> networkVersion == serverVersion
    ensures r.Fail? ==> r.failure.kind == NetworkVersion
    ensures r.Fail? ==>
              ParseMismatchMessage(r.failure.message)
              == Some(MismatchReport(serverVersion, networkVersion, networkVersion < serverVersion))
  {
    if networkVersion != serverVersion then
      MismatchMessageRoundTrip(serverVersion, networkVersion);
      Fail(Failure(NetworkVersion, MismatchMessage(serverVersion, networkVersion)))
    else
      Pass
  }

  /** A failed check is sent as NETWORK_VERSION, after the error callback as before it. */
  lemma VersionFailureWireCode(serverVersion: int, networkVersion: int, traceback: string)
    requires networkVersion != serverVersion
    ensures CheckNetworkVersion(serverVersion, networkVersion).Fail?
    ensures HandleError(CheckNetworkVersion(serverVersion, networkVersion).failure, traceback)
         == CheckNetworkVersion(serverVersion, networkVersion).failure
    ensures WireCode(CheckNetworkVersion(serverVersion, networkVersion).failure.kind) == "NETWORK_VERSION"
  {
  }
}
