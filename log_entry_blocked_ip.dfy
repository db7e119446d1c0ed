/**
 * LogEntryBlockedIp: one "blocked IP connection" record of the driver log,
 * with a setter per field and the text shown for each block reason.
 */
module LogEntryBlockedIpModel {
  import opened QtTypes

  /**
   * The block-reason codes the driver reports. Their numeric values are
   * defined in a header that is not part of this model; they are taken to be 1..5.
   */
  const ReasonIpInet: UInt8 := 1
  const ReasonReauth: UInt8 := 2
  const ReasonProgram: UInt8 := 3
  const ReasonAppGroupFound: UInt8 := 4
  const ReasonAppGroupDefault: UInt8 := 5

  /** The reasons reasonToString has a text of its own for. */
  predicate IsNamedReason(blockReason: UInt8)
  {
    blockReason == ReasonIpInet || blockReason == ReasonReauth || blockReason == ReasonProgram
    || blockReason == ReasonAppGroupFound || blockReason == ReasonAppGroupDefault
  }

  const UnknownReasonText := "Unknown"

  /** reasonToString: a fixed text per named reason, "Unknown" for every other code. */
  function ReasonToString(blockReason: UInt8): (text: string)
    ensures text == UnknownReasonText <==> !IsNamedReason(blockReason)
    ensures text != ""
  {
    if blockReason == ReasonIpInet then "Not allowed Internet address"
    else if blockReason == ReasonReauth then "Old connection closed on startup"
    else if blockReason == ReasonProgram then "Programs logic"
    else if blockReason == ReasonAppGroupFound then "App. Group logic"
    else if blockReason == ReasonAppGroupDefault then "App. Group default logic"
    else UnknownReasonText
  }

  /** The reason a text stands for, when it is the text of a named reason. */
  function ReasonOfText(text: string): (r: Option<UInt8>)
    ensures r.Some? ==> IsNamedReason(r.value)
  {
    if text == "Not allowed Internet address" then Some(ReasonIpInet)
    else if text == "Old connection closed on startup" then Some(ReasonReauth)
    else if text == "Programs logic" then Some(ReasonProgram)
    else if text == "App. Group logic" then Some(ReasonAppGroupFound)
    else if text == "App. Group default logic" then Some(ReasonAppGroupDefault)
    else None
  }

  /**
   * The texts of the named reasons are all different, so the text identifies
   * the reason; every other code shares the single "Unknown" text.
   */
  lemma ReasonTextIdentifiesReason(blockReason: UInt8)
    ensures ReasonOfText(ReasonToString(blockReason)) ==
              if IsNamedReason(blockReason) then Some(blockReason) else None
  {
  }

  /** Two named reasons with the same text are the same reason. */
  lemma {:induction false} ReasonToStringInjective(a: UInt8, b: UInt8)
    requires IsNamedReason(a) && IsNamedReason(b)
    requires ReasonToString(a) == ReasonToString(b)
    ensures a == b
  {
    ReasonTextIdentifiesReason(a);
    ReasonTextIdentifiesReason(b);
  }

  /**
   * A blocked-IP log entry. pid and kernelPath belong to the LogEntryBlocked
   * base part of the record and are set only by the constructor.
   */
  class LogEntryBlockedIp {
    var pid: UInt32
    var kernelPath: string
    var inbound: bool
    var blockReason: UInt8
    var ipProto: UInt8
    var localPort: UInt16
    var remotePort: UInt16
    var localIp: UInt32
    var remoteIp: UInt32

    constructor (blockReason: UInt8, ipProto: UInt8, localPort: UInt16, remotePort: UInt16,
                 localIp: UInt32, remoteIp: UInt32, pid: UInt32, kernelPath: string)
      ensures this.pid == pid && this.kernelPath == kernelPath
      ensures this.blockReason == blockReason && this.ipProto == ipProto
      ensures this.localPort == localPort && this.remotePort == remotePort
      ensures this.localIp == localIp && this.remoteIp == remoteIp
      ensures !inbound
    {
      this.pid, this.kernelPath := pid, kernelPath;
      this.inbound := false;
      this.blockReason, this.ipProto := blockReason, ipProto;
      this.localPort, this.remotePort := localPort, remotePort;
      this.localIp, this.remoteIp := localIp, remoteIp;
    }

    method SetInbound(inbound: bool)
      modifies this`inbound
      ensures this.inbound == inbound
    {
      this.inbound := inbound;
    }

    method SetBlockReason(blockReason: UInt8)
      modifies this`blockReason
      ensures this.blockReason == blockReason
    {
      this.blockReason := blockReason;
    }

    method SetIpProto(proto: UInt8)
      modifies this`ipProto
      ensures ipProto == proto
    {
      ipProto := proto;
    }

    method SetLocalPort(port: UInt16)
      modifies this`localPort
      ensures localPort == port
    {
      localPort := port;
    }

    method SetRemotePort(port: UInt16)
      modifies this`remotePort
      ensures remotePort == port
    {
      remotePort := port;
    }

    method SetLocalIp(ip: UInt32)
      modifies this`localIp
      ensures localIp == ip
    {
      localIp := ip;
    }

    method SetRemoteIp(ip: UInt32)
      modifies this`remoteIp
      ensures remoteIp == ip
    {
      remoteIp := ip;
    }
  }
}
