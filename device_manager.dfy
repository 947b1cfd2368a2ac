/**
 * The legacy device manager: a table of devices, each opened on a UDP or serial source and driven as a
 * common, Ping1D or Ping360 device, with creation, listing, and start/stop/subscribe commands that act
 * on the first device only.
 * Opening a transport and talking to a device are I/O and assumed to succeed; a device command is
 * modelled by the request it sends, and `todo!()` by the `Todo` command.
 */
module LegacyDeviceManager {
  import opened Sequences
  import opened Text
  import opened PingProtocol
  import DeviceTypes

  type U32 = n: int | 0 <= n < 0x1_0000_0000

  datatype Ipv4Addr = Ipv4Addr(a: Byte, b: Byte, c: Byte, d: Byte)

  /** Where a device is reached. */
  datatype SourceSelection =
    | UdpStream(ip: Ipv4Addr, port: U16)
    | SerialStream(path: string, baudrate: U32)

  /** The kind of transport opened on a source. */
  datatype Port = Udp | Serial

  /** A device driver bound to its transport. */
  datatype DeviceType = Common(port: Port) | Ping1D(port: Port) | Ping360(port: Port)

  datatype DeviceStatus = Running | Stopped | Resetting | Error

  datatype Device = Device(source: SourceSelection, device: DeviceType, status: DeviceStatus)

  /** The transport a source opens. */
  function Open(source: SourceSelection): (p: Port)
    ensures p.Udp? <==> source.UdpStream?
  {
    match source
    case UdpStream(_, _) => Udp
    case SerialStream(_, _) => Serial
  }

  /** The class of a driver. */
  function Kind(d: DeviceType): DeviceTypes.DeviceSelection {
    match d
    case Common(_) => DeviceTypes.Common
    case Ping1D(_) => DeviceTypes.Ping1D
    case Ping360(_) => DeviceTypes.Ping360
  }

  /** The driver `create` builds: of the requested class, on the opened transport, whichever it is. */
  function Build(selection: DeviceTypes.DeviceSelection, port: Port): (d: DeviceType)
    ensures Kind(d) == selection
    ensures d.port == port
  {
    match selection
    case Common => Common(port)
    case Ping1D => Ping1D(port)
    case Ping360 => Ping360(port)
  }

  /** `Ipv4Addr`'s `Debug` text, dotted decimal. */
  function DottedQuad(ip: Ipv4Addr): string {
    NatToString(ip.a) + "." + NatToString(ip.b) + "." + NatToString(ip.c) + "." + NatToString(ip.d)
  }

  const UDP_HEAD := "UdpStream(SourceUdpStruct { ip: "
  const UDP_PORT := ", port:"
  const SERIAL_HEAD := "SerialStream(SourceSerialStruct { path: \""
  const SERIAL_BAUDRATE := "\", baudrate:"
  const TAIL := " })"

  /**
   * The derived `Debug` text of a source, as `list` reports it: the variant and struct name, the fields
   * in declaration order, and the closing ` })`; the leading variant name tells UDP from serial.
   */
  function Describe(source: SourceSelection): (d: string)
    ensures |d| > |TAIL| && d[|d| - |TAIL|..] == TAIL
    ensures source.UdpStream? ==> |d| > |UDP_HEAD| && d[..|UDP_HEAD|] == UDP_HEAD && d[0] == 'U'
    ensures source.SerialStream? ==> |d| > |SERIAL_HEAD| && d[..|SERIAL_HEAD|] == SERIAL_HEAD && d[0] == 'S'
  {
    match source
    case UdpStream(ip, port) => UDP_HEAD + (DottedQuad(ip) + UDP_PORT + " " + NatToString(port)) + TAIL
    case SerialStream(path, baudrate) =>
      assert SERIAL_HEAD[0] == 'S';
      SERIAL_HEAD + (EscapeDebug(path) + SERIAL_BAUDRATE + " " + NatToString(baudrate)) + TAIL
  }

  /** Equal dotted-decimal texts come from the same address. */
  lemma DottedQuadInjective(p: Ipv4Addr, q: Ipv4Addr)
    requires DottedQuad(p) == DottedQuad(q)
    ensures p == q
  {
    NoSeparatorInDecimal(p.d, '.');
    NoSeparatorInDecimal(q.d, '.');
    SplitAtLast(NatToString(p.a) + "." + NatToString(p.b) + "." + NatToString(p.c), NatToString(p.d),
                NatToString(q.a) + "." + NatToString(q.b) + "." + NatToString(q.c), NatToString(q.d), '.');
    NoSeparatorInDecimal(p.c, '.');
    NoSeparatorInDecimal(q.c, '.');
    SplitAtLast(NatToString(p.a) + "." + NatToString(p.b), NatToString(p.c),
                NatToString(q.a) + "." + NatToString(q.b), NatToString(q.c), '.');
    NoSeparatorInDecimal(p.b, '.');
    NoSeparatorInDecimal(q.b, '.');
    SplitAtLast(NatToString(p.a), NatToString(p.b), NatToString(q.a), NatToString(q.b), '.');
    NatToStringInjective(p.a, q.a);
    NatToStringInjective(p.b, q.b);
    NatToStringInjective(p.c, q.c);
    NatToStringInjective(p.d, q.d);
  }

  /**
   * A `Debug` text `head + front + key + " " + number + tail` determines its front part and its
   * number: the number is everything after the last space.
   */
  lemma PeelNumberField(head: string, key: string, tail: string, front1: string, n1: nat, front2: string, n2: nat)
    requires head + (front1 + key + " " + NatToString(n1)) + tail == head + (front2 + key + " " + NatToString(n2)) + tail
    ensures front1 == front2 && n1 == n2
  {
    var mid1, mid2 := front1 + key + " " + NatToString(n1), front2 + key + " " + NatToString(n2);
    DropSuffix(head + mid1, head + mid2, tail);
    DropPrefix(head, mid1, mid2);
    NoSeparatorInDecimal(n1, ' ');
    NoSeparatorInDecimal(n2, ' ');
    SplitAtLast(front1 + key, NatToString(n1), front2 + key, NatToString(n2), ' ');
    NatToStringInjective(n1, n2);
    DropSuffix(front1, front2, key);
  }

  /** Distinct sources give distinct `list` lines: the `Debug` text determines the source. */
  lemma DescribeInjective(s1: SourceSelection, s2: SourceSelection)
    requires Describe(s1) == Describe(s2)
    ensures s1 == s2
  {
    match s1 {
      case UdpStream(ip1, port1) =>
        if s2.SerialStream? {
          assert false;
        }
        PeelNumberField(UDP_HEAD, UDP_PORT, TAIL, DottedQuad(ip1), port1, DottedQuad(s2.ip), s2.port);
        DottedQuadInjective(ip1, s2.ip);
      case SerialStream(path1, baud1) =>
        if s2.UdpStream? {
          assert false;
        }
        PeelNumberField(SERIAL_HEAD, SERIAL_BAUDRATE, TAIL, EscapeDebug(path1), baud1, EscapeDebug(s2.path), s2.baudrate);
        UnescapeEscapeDebug(path1);
        UnescapeEscapeDebug(s2.path);
    }
  }

  /** The line `list` reports for a device: its source's `Debug` text. */
  function SourceText(d: Device): string {
    Describe(d.source)
  }

  /** A request sent to the first device, or the `todo!()` panic of an unsupported class. */
  datatype Command = NoCommand | ContinuousStart(messageId: nat) | ContinuousStop(messageId: nat) | Todo

  /** Whether a received message is forwarded: the Profile id, and it decodes as a Profile. */
  predicate IsProfile(m: ProtocolMessage) {
    m.messageId == PROFILE_ID && m.decoded.Ping1DProfile?
  }

  /** The profiles among `msgs`, in arrival order. */
  function Profiles(msgs: seq<ProtocolMessage>): seq<ProfileStruct>
  {
    if msgs == [] then []
    else
      var last := msgs[|msgs| - 1];
      Profiles(msgs[..|msgs| - 1]) + (if IsProfile(last) then [last.decoded.profile] else [])
  }

  /** The k-th forwarded profile is the payload of the k-th message that is a Profile. */
  lemma {:induction false} ProfilesSpec(msgs: seq<ProtocolMessage>)
    ensures var ix := IndicesWhere(msgs, IsProfile);
      && |Profiles(msgs)| == |ix|
      && forall k :: 0 <= k < |ix| ==> ix[k] < |msgs| && IsProfile(msgs[ix[k]]) && Profiles(msgs)[k] == msgs[ix[k]].decoded.profile
  {
    IndicesWhereSpec(msgs, IsProfile);
    if msgs != [] {
      ProfilesSpec(msgs[..|msgs| - 1]);
      IndicesWhereSpec(msgs[..|msgs| - 1], IsProfile);
    }
  }

  /**
   * The subscription task: each received message with the Profile id that decodes as a Profile is
   * appended to the collected profiles (and broadcast as its `Debug` text); other messages are
   * skipped, and the first receive error ends the task.
   */
  method ForwardProfiles(stream: seq<Received<ProtocolMessage>>) returns (collected: seq<ProfileStruct>)
    ensures collected == Profiles(DeliveredPrefix(stream))
  {
    ghost var msgs := DeliveredPrefix(stream);
    collected := [];
    var i := 0;
    while i < |stream|
      invariant i <= |msgs|
      invariant collected == Profiles(msgs[..i])
      decreases |stream| - i
    {
      var received := stream[i];
      if received.ReceiveError? {
        break;
      }
      var msg := received.item;
      assert msgs[..i + 1][..i] == msgs[..i];
      i := i + 1;
      if msg.messageId == PROFILE_ID {
        match msg.decoded {
          case Ping1DProfile(answer) =>
            collected := collected + [answer];
          case _ =>
            continue;
        }
      }
    }
    assert msgs[..i] == msgs;
  }

  /** The device table. */
  class DeviceManager {
    var ping: seq<Device>

    constructor()
      ensures ping == []
    {
      ping := [];
    }

    /**
     * `create`: opens the source, builds a driver of the requested class on it and appends it as
     * running. There is no duplicate check: every call adds one entry.
     */
    method Create(source: SourceSelection, selection: DeviceTypes.DeviceSelection)
      modifies this
      ensures ping == old(ping) + [Device(source, Build(selection, Open(source)), Running)]
      ensures Kind(ping[|ping| - 1].device) == selection
    {
      var port := Open(source);
      var device := Build(selection, port);
      ping := ping + [Device(source, device, Running)];
    }

    /** `list`: the `Debug` text of each device's source, in table order; empty for an empty table. */
    method List() returns (list: seq<string>)
      ensures list == Map(ping, SourceText)
    {
      var table := ping;
      list := [];
      for i := 0 to |table|
        invariant list == Map(table[..i], SourceText)
      {
        var text := SourceText(table[i]);
        assert table[..i + 1][..i] == table[..i];
        assert Map(table[..i + 1], SourceText) == Map(table[..i], SourceText) + [text];
        list := list + [text];
      }
      assert table[..|table|] == table;
    }

    /** `init`: starts continuous Profile output on the first device, if it is a Ping1D. */
    method Init() returns (cmd: Command)
      ensures ping == [] ==> cmd == NoCommand
      ensures ping != [] && ping[0].device.Ping1D? ==> cmd == ContinuousStart(PROFILE_ID)
      ensures ping != [] && !ping[0].device.Ping1D? ==> cmd == Todo
    {
      cmd := NoCommand;
      if |ping| > 0 {
        match ping[0].device {
          case Ping1D(_) => cmd := ContinuousStart(PROFILE_ID);
          case Ping360(_) => cmd := Todo;
          case Common(_) => cmd := Todo;
        }
      }
    }

    /** `stop`: stops continuous Profile output on the first device, if it is a Ping1D. */
    method Stop() returns (cmd: Command)
      ensures ping == [] ==> cmd == NoCommand
      ensures ping != [] && ping[0].device.Ping1D? ==> cmd == ContinuousStop(PROFILE_ID)
      ensures ping != [] && !ping[0].device.Ping1D? ==> cmd == Todo
    {
      cmd := NoCommand;
      if |ping| > 0 {
        match ping[0].device {
          case Ping1D(_) => cmd := ContinuousStop(PROFILE_ID);
          case Ping360(_) => cmd := Todo;
          case Common(_) => cmd := Todo;
        }
      }
    }

    /**
     * `subscribe`: on a first device that is a Ping1D, starts continuous Profile output and runs the
     * forwarding task over the device's message stream.
     */
    method Subscribe(stream: seq<Received<ProtocolMessage>>) returns (cmd: Command, collected: seq<ProfileStruct>)
      ensures ping == [] ==> cmd == NoCommand && collected == []
      ensures ping != [] && ping[0].device.Ping1D? ==>
        cmd == ContinuousStart(PROFILE_ID) && collected == Profiles(DeliveredPrefix(stream))
      ensures ping != [] && !ping[0].device.Ping1D? ==> cmd == Todo && collected == []
    {
      cmd := NoCommand;
      collected := [];
      if |ping| > 0 {
        match ping[0].device {
          case Ping1D(_) =>
            cmd := ContinuousStart(PROFILE_ID);
            collected := ForwardProfiles(stream);
          case Ping360(_) => cmd := Todo;
          case Common(_) => cmd := Todo;
        }
      }
    }
  }
}
