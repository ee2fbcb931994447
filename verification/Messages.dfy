/** The binary form of the messages between two endpoints. */
module Messages {
  import opened Types
  import opened Frames
  import opened LittleEndian
  import opened Varint
  import opened Credits

  /** A value taken from the front of the input, or why there is none. */
  datatype Taken<+T> = Taken(v: T, rest: Bytes) | EndOfInput | BadData {
    predicate IsFailure() {
      !Taken?
    }

    function PropagateFailure<U>(): Taken<U>
      requires IsFailure()
    {
      if EndOfInput? then EndOfInput else BadData
    }

    function Extract(): (T, Bytes)
      requires !IsFailure()
    {
      (v, rest)
    }
  }

  function TakeU8(bs: Bytes): Taken<u8> {
    if bs == [] then EndOfInput else Taken(bs[0], bs[1..])
  }

  function TakeLE(bs: Bytes, width: nat): Taken<nat> {
    if |bs| < width then EndOfInput else Taken(FromLE(bs[..width]), bs[width..])
  }

  function V32(n: u32, varint: bool): (bs: Bytes)
    ensures bs != []
  {
    if varint then Encode(n) else LE(n, 4)
  }

  function TakeV32(bs: Bytes, varint: bool): (r: Taken<u32>)
    ensures r.Taken? ==> |r.rest| < |bs|
  {
    if varint then
      match Feed(IDLE, bs)
      case Got(n, rest) =>
        FeedIsU32(bs);
        Taken(n, rest)
      case Partial(_) => EndOfInput
      case Bad => BadData
    else if |bs| < 4 then EndOfInput
    else
      FourBytesAreU32(bs[..4]);
      Taken(FromLE(bs[..4]), bs[4..])
  }

  lemma FeedIsU32(bs: Bytes)
    requires Feed(IDLE, bs).Got?
    ensures Feed(IDLE, bs).n < U32_BOUND && |Feed(IDLE, bs).rest| < |bs|
  {
    Powers();
    FedFits(IDLE, bs);
    FedSmall(IDLE, bs);
  }

  lemma {:induction false} FedSmall(d: Decoder, bs: Bytes)
    requires Between(d) && Feed(d, bs).Got?
    ensures Feed(d, bs).n < U32_BOUND
    decreases |bs|
  {
    StepBetween(d, bs[0]);
    if Step(d, bs[0]).1.More? {
      FedSmall(Step(d, bs[0]).0, bs[1..]);
    }
  }

  lemma FourBytesAreU32(bs: Bytes)
    requires |bs| == 4
    ensures FromLE(bs) < U32_BOUND
  {
    Widths();
    FromLESmall(bs);
  }

  lemma {:induction false} FromLESmall(bs: Bytes)
    ensures FromLE(bs) < Pow256(|bs|)
    decreases |bs|
  {
    if bs != [] {
      FromLESmall(bs[1..]);
    }
  }

  lemma V32Back(n: u32, varint: bool, rest: Bytes)
    ensures TakeV32(V32(n, varint) + rest, varint) == Taken(n, rest)
  {
    if varint {
      EncodesMinimally(n, []);
      DecodesExactly(Encode(n), rest);
    } else {
      Widths();
      FromLEBack(n, 4);
      assert (LE(n, 4) + rest)[..4] == LE(n, 4) && (LE(n, 4) + rest)[4..] == rest;
    }
  }

  lemma U8Back(b: u8, rest: Bytes)
    ensures TakeU8([b] + rest) == Taken(b, rest)
  {
    assert ([b] + rest)[1..] == rest;
  }

  lemma LEBack(n: nat, width: nat, rest: Bytes)
    requires n < Pow256(width)
    ensures TakeLE(LE(n, width) + rest, width) == Taken(n, rest)
  {
    FromLEBack(n, width);
    assert (LE(n, width) + rest)[..width] == LE(n, width) && (LE(n, width) + rest)[width..] == rest;
  }

  /** A flag byte. */
  function Flags(flags: seq<bool>): u8
    requires |flags| <= 8
  {
    PackSmall(flags);
    Pack(flags)
  }

  lemma FlagsBack(flags: seq<bool>, k: nat)
    requires |flags| <= 8
    ensures Bit(Flags(flags), k) <==> k < |flags| && flags[k]
  {
    PackedBit(flags, k);
  }

  // ---------------------------------------------------------------------------
  // Exchanged configuration
  // ---------------------------------------------------------------------------

  datatype ExchangedCfg = ExchangedCfg(
    timeoutMillis: Option<nat>,
    chunkSize: nat,
    portReceiveBuffer: nat,
    connectQueue: nat,
    globalCredits: Option<nat>,
    receivedReport: bool,
    portSide: bool,
    preConnect: bool,
    varint: bool,
    frameLenVarint: bool,
    compactTransported: bool,
    postbagVersion: u8,
    postbagAllowSkip: bool,
    portId: bool,
    globalCreditsEnabled: bool)

  const POSTBAG_DEFAULT: u8 := 0
  const U64_MAX: nat := 0xFFFF_FFFF_FFFF_FFFF

  predicate Widths16(c: ExchangedCfg) {
    c.chunkSize < U32_BOUND && c.portReceiveBuffer < U32_BOUND && c.connectQueue < 0x1_0000
    && c.globalCredits.Some? && c.globalCredits.value < U32_BOUND
  }

  function Flag(b: bool): u8 {
    if b then 1 else 0
  }

  function Millis(c: ExchangedCfg): (n: nat)
    ensures n <= U64_MAX
  {
    match c.timeoutMillis
    case None => 0
    case Some(ms) => Min(ms, U64_MAX)
  }

  function WriteSizes(c: ExchangedCfg): Bytes {
    LE(Millis(c), 8) + (LE(c.chunkSize, 4) + (LE(c.portReceiveBuffer, 4) + LE(c.connectQueue, 2)))
  }

  function OptionalFields(c: ExchangedCfg): Bytes {
    [Flag(c.receivedReport), Flag(c.portSide), Flag(c.preConnect), Flag(c.varint), Flag(c.frameLenVarint),
     Flag(c.compactTransported), c.postbagVersion, Flag(c.postbagAllowSkip), Flag(c.portId),
       Flag(c.globalCreditsEnabled)]
  }

  /** Global credits are always announced, even when they are not to be used. */
  function WriteCfg(c: ExchangedCfg): Bytes
    requires c.globalCredits.Some?
  {
    WriteSizes(c) + (LE(c.globalCredits.value, 4) + OptionalFields(c))
  }

  function DefaultCfg(millis: nat, chunk: nat, buffer: nat, queue: nat, version: u8): ExchangedCfg {
    ExchangedCfg(if millis == 0 then None else Some(millis), chunk, buffer, queue, None,
                 false, false, false, false, false, false, POSTBAG_DEFAULT, false, version == 3, true)
  }

  function FieldOr(bs: Bytes, k: nat, before: bool): bool {
    if k < |bs| then bs[k] != 0 else before
  }

  /** Fields that older versions do not send keep their defaults. */
  function ReadOptional(c: ExchangedCfg, bs: Bytes): ExchangedCfg {
    c.(receivedReport := FieldOr(bs, 0, c.receivedReport),
       portSide := FieldOr(bs, 1, c.portSide),
       preConnect := FieldOr(bs, 2, c.preConnect),
       varint := FieldOr(bs, 3, c.varint),
       frameLenVarint := FieldOr(bs, 4, c.frameLenVarint),
       compactTransported := FieldOr(bs, 5, c.compactTransported),
       postbagVersion := if |bs| > 6 then bs[6] else c.postbagVersion,
       postbagAllowSkip := FieldOr(bs, 7, c.postbagAllowSkip),
       portId := FieldOr(bs, 8, c.portId),
       globalCreditsEnabled := FieldOr(bs, 9, c.globalCreditsEnabled),
       globalCredits := if |bs| > 9 && bs[9] == 0 then None else c.globalCredits)
  }

  function ReadCfg(bs: Bytes, version: u8): Taken<ExchangedCfg> {
    var (millis, r1) :- TakeLE(bs, 8);
    var (chunk, r2) :- TakeLE(r1, 4);
    if chunk < 4 then BadData
    else
      var (buffer, r3) :- TakeLE(r2, 4);
      if buffer < 4 then BadData
      else
        var (queue, r4) :- TakeLE(r3, 2);
        if queue < 1 then BadData
        else
          var c := DefaultCfg(millis, chunk, buffer, queue, version);
          match TakeLE(r4, 4)
          case Taken(credits, r5) => Taken(ReadOptional(c.(globalCredits := Some(credits)), r5), r5)
          case _ => Taken(c, r4)
  }

  predicate SizesAllowed(c: ExchangedCfg) {
    c.chunkSize >= 4 && c.portReceiveBuffer >= 4 && c.connectQueue >= 1
  }

  /** What the peer learns: no timeout and a timeout below a millisecond look alike, disabled credits vanish. */
  function Seen(c: ExchangedCfg): ExchangedCfg {
    c.(timeoutMillis := match c.timeoutMillis
                        case None => None
                        case Some(ms) => if ms == 0 then None else Some(Min(ms, U64_MAX)),
       globalCredits := if c.globalCreditsEnabled then c.globalCredits else None)
  }

  lemma SizesBack(c: ExchangedCfg, version: u8, rest: Bytes)
    requires Widths16(c) && SizesAllowed(c)
    ensures var d := DefaultCfg(Millis(c), c.chunkSize, c.portReceiveBuffer, c.connectQueue, version);
            ReadCfg(WriteSizes(c) + rest, version)
            == match TakeLE(rest, 4)
               case Taken(credits, r) => Taken(ReadOptional(d.(globalCredits := Some(credits)), r), r)
               case _ => Taken(d, rest)
  {
    Widths();
    hide ReadOptional, LE, FromLE, Pow256;
    var r3 := LE(c.connectQueue, 2) + rest;
    var r2 := LE(c.portReceiveBuffer, 4) + r3;
    var r1 := LE(c.chunkSize, 4) + r2;
    assert WriteSizes(c) + rest == LE(Millis(c), 8) + r1;
    LEBack(Millis(c), 8, r1);
    LEBack(c.chunkSize, 4, r2);
    LEBack(c.portReceiveBuffer, 4, r3);
    LEBack(c.connectQueue, 2, rest);
    hide TakeLE;
  }

  /** Reading back a configuration yields what the peer is meant to see, whatever follows. */
  lemma CfgBack(c: ExchangedCfg, version: u8, rest: Bytes)
    requires Widths16(c) && SizesAllowed(c)
    ensures ReadCfg(WriteCfg(c) + rest, version).Taken? && ReadCfg(WriteCfg(c) + rest, version).v == Seen(c)
    ensures var t, t' := c.timeoutMillis, ReadCfg(WriteCfg(c) + rest, version).v.timeoutMillis;
            && (t'.Some? <==> t.Some? && t.value > 0)
            && (t.Some? && 0 < t.value <= U64_MAX ==> t' == t)
  {
    var tail := OptionalFields(c) + rest;
    assert WriteCfg(c) + rest == WriteSizes(c) + (LE(c.globalCredits.value, 4) + tail);
    SizesBack(c, version, LE(c.globalCredits.value, 4) + tail);
    Widths();
    LEBack(c.globalCredits.value, 4, tail);
    hide TakeLE, ReadCfg, WriteCfg, WriteSizes, LE;
    OptionalBack(c, DefaultCfg(Millis(c), c.chunkSize, c.portReceiveBuffer, c.connectQueue,
      version).(globalCredits := c.globalCredits), rest);
  }

  lemma OptionalBack(c: ExchangedCfg, d: ExchangedCfg, rest: Bytes)
    requires d.globalCredits == c.globalCredits
    ensures var r := ReadOptional(d, OptionalFields(c) + rest);
            r == c.(timeoutMillis := d.timeoutMillis, chunkSize := d.chunkSize,
              portReceiveBuffer := d.portReceiveBuffer,
                    connectQueue := d.connectQueue, globalCredits := if c.globalCreditsEnabled then c.globalCredits
                      else None)
  {
    var bs := OptionalFields(c) + rest;
    assert bs[..10] == OptionalFields(c);
    assert forall i | 0 <= i < 10 :: bs[i] == OptionalFields(c)[i];
  }

  /** From a peer that stops after `j` optional fields, the others keep their defaults. */
  lemma OlderCfg(c: ExchangedCfg, version: u8, j: nat)
    requires Widths16(c) && SizesAllowed(c) && j <= 10
    ensures ReadCfg(WriteSizes(c) + (LE(c.globalCredits.value, 4) + OptionalFields(c)[..j]), version).Taken?
    ensures var r := ReadCfg(WriteSizes(c) + (LE(c.globalCredits.value, 4) + OptionalFields(c)[..j]), version).v;
            && r.timeoutMillis == Seen(c).timeoutMillis && r.chunkSize == c.chunkSize
            && r.portReceiveBuffer == c.portReceiveBuffer && r.connectQueue == c.connectQueue
            && r.receivedReport == (j > 0 && c.receivedReport) && r.portSide == (j > 1 && c.portSide)
            && r.preConnect == (j > 2 && c.preConnect) && r.varint == (j > 3 && c.varint)
            && r.frameLenVarint == (j > 4 && c.frameLenVarint)
                 && r.compactTransported == (j > 5 && c.compactTransported)
            && r.postbagVersion == (if j > 6 then c.postbagVersion else POSTBAG_DEFAULT)
            && r.postbagAllowSkip == (j > 7 && c.postbagAllowSkip)
            && r.portId == (if j > 8 then c.portId else version == 3)
            && r.globalCreditsEnabled == (if j > 9 then c.globalCreditsEnabled else true)
            && r.globalCredits == (if j > 9 && !c.globalCreditsEnabled then None else c.globalCredits)
  {
    var tail := OptionalFields(c)[..j];
    SizesBack(c, version, LE(c.globalCredits.value, 4) + tail);
    Widths();
    LEBack(c.globalCredits.value, 4, tail);
    hide TakeLE, ReadCfg, WriteSizes, LE, OptionalFields, ReadOptional, Pow256;
    var d := DefaultCfg(Millis(c), c.chunkSize, c.portReceiveBuffer, c.connectQueue,
      version).(globalCredits := c.globalCredits);
    OptionalPart(c, d, j);
    OtherFields(c, d, j);
  }

  lemma OptionalPart(c: ExchangedCfg, d: ExchangedCfg, j: nat)
    requires j <= 10
    ensures var r := ReadOptional(d, OptionalFields(c)[..j]);
            && r.timeoutMillis == d.timeoutMillis && r.chunkSize == d.chunkSize
            && r.portReceiveBuffer == d.portReceiveBuffer && r.connectQueue == d.connectQueue
            && r.receivedReport == (if j > 0 then c.receivedReport else d.receivedReport)
            && r.portSide == (if j > 1 then c.portSide else d.portSide)
            && r.preConnect == (if j > 2 then c.preConnect else d.preConnect)
            && r.varint == (if j > 3 then c.varint else d.varint)
            && r.frameLenVarint == (if j > 4 then c.frameLenVarint else d.frameLenVarint)
            && r.compactTransported == (if j > 5 then c.compactTransported else d.compactTransported)
            && r.postbagAllowSkip == (if j > 7 then c.postbagAllowSkip else d.postbagAllowSkip)
            && r.portId == (if j > 8 then c.portId else d.portId)
            && r.globalCreditsEnabled == (if j > 9 then c.globalCreditsEnabled else d.globalCreditsEnabled)
  {
    FieldValues(c);
    FlagValues();
    var fields := OptionalFields(c);
    hide OptionalFields, Flag, FieldOr;
    FieldPart(fields, j, 0, d.receivedReport);
    FieldPart(fields, j, 1, d.portSide);
    FieldPart(fields, j, 2, d.preConnect);
    FieldPart(fields, j, 3, d.varint);
    FieldPart(fields, j, 4, d.frameLenVarint);
    FieldPart(fields, j, 5, d.compactTransported);
    FieldPart(fields, j, 7, d.postbagAllowSkip);
    FieldPart(fields, j, 8, d.portId);
    FieldPart(fields, j, 9, d.globalCreditsEnabled);
  }

  lemma OtherFields(c: ExchangedCfg, d: ExchangedCfg, j: nat)
    requires j <= 10
    ensures var r := ReadOptional(d, OptionalFields(c)[..j]);
            && r.postbagVersion == (if j > 6 then c.postbagVersion else d.postbagVersion)
            && r.globalCredits == (if j > 9 && !c.globalCreditsEnabled then None else d.globalCredits)
  {
    FieldValues(c);
    FlagValues();
    var fields := OptionalFields(c);
    hide OptionalFields, Flag, FieldOr;
    assert j > 6 ==> fields[..j][6] == fields[6];
    assert j > 9 ==> fields[..j][9] == fields[9];
  }

  lemma FieldPart(fields: Bytes, j: nat, k: nat, before: bool)
    requires k < |fields| && j <= |fields|
    ensures FieldOr(fields[..j], k, before) == if j > k then fields[k] != 0 else before
  {
  }

  lemma FieldValues(c: ExchangedCfg)
    ensures var f := OptionalFields(c);
            && |f| == 10
            && f[0] == Flag(c.receivedReport) && f[1] == Flag(c.portSide) && f[2] == Flag(c.preConnect)
                 && f[3] == Flag(c.varint)
            && f[4] == Flag(c.frameLenVarint) && f[5] == Flag(c.compactTransported) && f[6] == c.postbagVersion
            && f[7] == Flag(c.postbagAllowSkip) && f[8] == Flag(c.portId) && f[9] == Flag(c.globalCreditsEnabled)
  {
  }

  lemma FlagValues()
    ensures Flag(true) != 0 && Flag(false) == 0
  {
  }

  /** Without global credits at all: the oldest form. */
  lemma OldestCfg(c: ExchangedCfg, version: u8)
    requires Widths16(c) && SizesAllowed(c)
    ensures ReadCfg(WriteSizes(c), version)
         == Taken(DefaultCfg(Millis(c), c.chunkSize, c.portReceiveBuffer, c.connectQueue, version), [])
  {
    SizesBack(c, version, []);
    assert WriteSizes(c) + [] == WriteSizes(c);
  }

  // ---------------------------------------------------------------------------
  // Messages
  // ---------------------------------------------------------------------------

  datatype PortDataItem = PortDataItem(port: u32, id: u32, preConnect: bool)

  datatype Message =
    | Reset
    | Hello(version: u8, cfg: ExchangedCfg)
    | Ping
    | OpenPort(clientPort: u32, wait: bool, id: Option<u32>, preConnect: bool)
    | PortOpened(clientPort: u32, serverPort: SidePort)
    | Rejected(clientPort: u32, noPorts: bool)
    | Data(port: SidePort, first: bool, last: bool, credits: DataCredits)
    | PortData(port: SidePort, first: bool, last: bool, wait: bool, ports: seq<PortDataItem>)
    | RequestReceivedReport(port: SidePort)
    | ReceivedReport(port: SidePort)
    | PortCredits(port: SidePort, amount: u32)
    | InhibitGlobalCreditUsage(port: SidePort)
    | AllowGlobalCreditUsage(port: SidePort)
    | SendFinish(port: SidePort)
    | ReceiveClose(port: SidePort)
    | ReceiveFinish(port: SidePort)
    | GlobalCreditsGiven(amount: u32, seqNo: u8)
    | GlobalCreditsHeld(current: u32, min: u32, seqNo: u8)
    | ClientFinish
    | ListenerFinish
    | Goodbye

  const MAGIC: Bytes := [67, 72, 77, 85, 88, 0]

  function Opt(b: bool, bs: Bytes): Bytes {
    if b then bs else []
  }

  /** A port and a byte telling its side. */
  function WriteSided(tag: u8, port: SidePort, varint: bool): Bytes {
    [tag] + (V32(port.num, varint) + [Flags([port.Local?])])
  }

  predicate NeedIds(ports: seq<PortDataItem>) {
    exists i | 0 <= i < |ports| :: ports[i].port != ports[i].id
  }

  function PreConnectCount(ports: seq<PortDataItem>): nat {
    if ports == [] then 0 else (if ports[0].preConnect then 1 else 0) + PreConnectCount(ports[1..])
  }

  predicate PreConnectAll(ports: seq<PortDataItem>) {
    PreConnectCount(ports) > 0 && PreConnectCount(ports) == |ports|
  }

  predicate PreConnectSome(ports: seq<PortDataItem>) {
    0 < PreConnectCount(ports) && PreConnectCount(ports) != |ports|
  }

  function WriteItem(p: PortDataItem, ids: bool, flags: bool, varint: bool): Bytes {
    V32(p.port, varint) + (Opt(ids, if ids then V32(p.id, varint) else []) + Opt(flags, [Flags([p.preConnect])]))
  }

  function WriteItems(ports: seq<PortDataItem>, ids: bool, flags: bool, varint: bool): Bytes {
    if ports == [] then [] else WriteItem(ports[0], ids, flags, varint) + WriteItems(ports[1..], ids, flags, varint)
  }

  function PortDataFlags(m: Message): seq<bool>
    requires m.PortData?
  {
    [m.first, m.last, m.wait, NeedIds(m.ports), m.port.Local?, PreConnectSome(m.ports), PreConnectAll(m.ports)]
  }

  predicate Encodable(m: Message) {
    && (m.Data? && m.credits.GlobalAndPort? ==> m.credits.global < U32_BOUND)
    && (m.Hello? ==> Widths16(m.cfg))
  }

  function Write(m: Message, varint: bool): Bytes
    requires Encodable(m)
  {
    match m
    case Reset => [1]
    case Hello(version, cfg) => [2] + (MAGIC + ([version] + WriteCfg(cfg)))
    case Ping => [3]
    case OpenPort(n, wait, id, pre) =>
      [4] + (V32(n, varint) + ([Flags([wait, id.Some?, pre])] + (if id.Some? then V32(id.value, varint) else [])))
    case PortOpened(n, server) => [5] + (V32(n, varint) + (V32(server.num, varint) + [Flags([server.Remote?])]))
    case Rejected(n, noPorts) => [6] + (V32(n, varint) + [Flags([noPorts])])
    case Data(port, first, last, credits) =>
      [7] + (V32(port.num, varint)
             + ([Flags([first, last, credits.GlobalOnly?, credits.GlobalAndPort?, port.Local?])]
                + (if credits.GlobalAndPort? then V32(credits.global, varint) else [])))
    case PortData(port, _, _, _, ports) =>
      [8] + (V32(port.num, varint)
        + ([Flags(PortDataFlags(m))] + WriteItems(ports, NeedIds(ports), PreConnectSome(ports), varint)))
    case PortCredits(port, n) => [if port.Remote? then 9 else 22] + (V32(port.num, varint) + V32(n, varint))
    case SendFinish(port) => WriteSided(10, port, varint)
    case ReceiveClose(port) => WriteSided(11, port, varint)
    case ReceiveFinish(port) => WriteSided(12, port, varint)
    case ClientFinish => [13]
    case ListenerFinish => [14]
    case Goodbye => [15]
    case GlobalCreditsGiven(n, seqNo) => [16] + (V32(n, varint) + [seqNo])
    case GlobalCreditsHeld(current, min, seqNo) => [17] + (V32(current, varint) + (V32(min, varint) + [seqNo]))
    case InhibitGlobalCreditUsage(port) => [if port.Remote? then 18 else 23] + V32(port.num, varint)
    case AllowGlobalCreditUsage(port) => [if port.Remote? then 19 else 24] + V32(port.num, varint)
    case RequestReceivedReport(port) => WriteSided(20, port, varint)
    case ReceivedReport(port) => WriteSided(21, port, varint)
  }

  function Sided(local: bool, n: u32): SidePort {
    if local then Local(n) else Remote(n)
  }

  /** A flag byte that older versions do not send. */
  function TrailingFlags(bs: Bytes): u8 {
    if bs == [] then 0 else bs[0]
  }

  function ReadSided(bs: Bytes, varint: bool): Taken<SidePort> {
    var (n, r) :- TakeV32(bs, varint);
    Taken(Sided(Bit(TrailingFlags(r), 0), n), r)
  }

  /** Items up to the end of input; an incomplete port number counts as the end. */
  function ReadItems(bs: Bytes, ids: bool, flags: bool, all: bool, varint: bool): Taken<seq<PortDataItem>>
    decreases |bs|
  {
    match TakeV32(bs, varint)
    case EndOfInput => Taken([], [])
    case BadData => BadData
    case Taken(port, r) =>
      var (id, r') :- if ids then TakeV32(r, varint) else Taken(port, r);
      var (pre, r'') :- if flags then TakeFlag(r') else Taken(all, r');
      if |r''| >= |bs| then BadData
      else
        var (rest, end) :- ReadItems(r'', ids, flags, all, varint);
        Taken([PortDataItem(port, id, pre)] + rest, end)
  }

  function TakeFlag(bs: Bytes): Taken<bool> {
    var (b, r) :- TakeU8(bs);
    Taken(Bit(b, 0), r)
  }

  function ReadOpenPort(bs: Bytes, varint: bool): Taken<Message> {
    var (n, r) :- TakeV32(bs, varint);
    var (f, r') :- TakeU8(r);
    if Bit(f, 1) then
      var (id, r'') :- TakeV32(r', varint);
      Taken(OpenPort(n, Bit(f, 0), Some(id), Bit(f, 2)), r'')
    else Taken(OpenPort(n, Bit(f, 0), None, Bit(f, 2)), r')
  }

  function ReadData(bs: Bytes, varint: bool): Taken<Message> {
    var (n, r) :- TakeV32(bs, varint);
    var (f, r') :- TakeU8(r);
    var (credits, r'') :-
      if Bit(f, 2) then Taken(GlobalOnly, r')
      else if Bit(f, 3) then TakeSplit(r', varint)
      else Taken(PortOnly, r');
    Taken(Data(Sided(Bit(f, 4), n), Bit(f, 0), Bit(f, 1), credits), r'')
  }

  function TakeSplit(bs: Bytes, varint: bool): Taken<DataCredits> {
    var (g, r) :- TakeV32(bs, varint);
    Taken(GlobalAndPort(g), r)
  }

  function ReadPortData(bs: Bytes, varint: bool): Taken<Message> {
    var (n, r) :- TakeV32(bs, varint);
    var (f, r') :- TakeU8(r);
    var (ports, r'') :- ReadItems(r', Bit(f, 3), Bit(f, 5), Bit(f, 6), varint);
    Taken(PortData(Sided(Bit(f, 4), n), Bit(f, 0), Bit(f, 1), Bit(f, 2), ports), r'')
  }

  function ReadHello(bs: Bytes): Taken<Message> {
    if |bs| < 6 then EndOfInput
    else if bs[..6] != MAGIC then BadData
    else
      var (version, r) :- TakeU8(bs[6..]);
      var (cfg, r') :- ReadCfg(r, version);
      Taken(Hello(version, cfg), r')
  }

  function ReadPortOpened(bs: Bytes, varint: bool): Taken<Message> {
    var (n, r) :- TakeV32(bs, varint);
    var (server, r') :- TakeV32(r, varint);
    Taken(PortOpened(n, Sided(!Bit(TrailingFlags(r'), 0), server)), r')
  }

  function ReadRejected(bs: Bytes, varint: bool): Taken<Message> {
    var (n, r) :- TakeV32(bs, varint);
    var (f, r') :- TakeU8(r);
    Taken(Rejected(n, Bit(f, 0)), r')
  }

  function ReadPortCredits(local: bool, bs: Bytes, varint: bool): Taken<Message> {
    var (n, r) :- TakeV32(bs, varint);
    var (credits, r') :- TakeV32(r, varint);
    Taken(PortCredits(Sided(local, n), credits), r')
  }

  function ReadGlobalCredits(bs: Bytes, varint: bool): Taken<Message> {
    var (n, r) :- TakeV32(bs, varint);
    var (seqNo, r') :- TakeU8(r);
    Taken(GlobalCreditsGiven(n, seqNo), r')
  }

  function ReadReport(bs: Bytes, varint: bool): Taken<Message> {
    var (current, r) :- TakeV32(bs, varint);
    var (min, r') :- TakeV32(r, varint);
    var (seqNo, r'') :- TakeU8(r');
    Taken(GlobalCreditsHeld(current, min, seqNo), r'')
  }

  function AsMessage(p: Taken<SidePort>, make: SidePort -> Message): Taken<Message> {
    match p
    case Taken(v, rest) => Taken(make(v), rest)
    case EndOfInput => EndOfInput
    case BadData => BadData
  }

  function ReadPlain(local: bool, bs: Bytes, varint: bool): Taken<SidePort> {
    var (n, r) :- TakeV32(bs, varint);
    Taken(Sided(local, n), r)
  }

  function ReadBody(tag: u8, bs: Bytes, varint: bool): Taken<Message> {
    if tag == 1 then Taken(Reset, bs)
    else if tag == 2 then ReadHello(bs)
    else if tag == 3 then Taken(Ping, bs)
    else if tag == 4 then ReadOpenPort(bs, varint)
    else if tag == 5 then ReadPortOpened(bs, varint)
    else if tag == 6 then ReadRejected(bs, varint)
    else if tag == 7 then ReadData(bs, varint)
    else if tag == 8 then ReadPortData(bs, varint)
    else if tag == 9 || tag == 22 then ReadPortCredits(tag == 22, bs, varint)
    else if tag == 10 then AsMessage(ReadSided(bs, varint), p => SendFinish(p))
    else if tag == 11 then AsMessage(ReadSided(bs, varint), p => ReceiveClose(p))
    else if tag == 12 then AsMessage(ReadSided(bs, varint), p => ReceiveFinish(p))
    else if tag == 13 then Taken(ClientFinish, bs)
    else if tag == 14 then Taken(ListenerFinish, bs)
    else if tag == 15 then Taken(Goodbye, bs)
    else if tag == 16 then ReadGlobalCredits(bs, varint)
    else if tag == 17 then ReadReport(bs, varint)
    else if tag == 18 || tag == 23 then AsMessage(ReadPlain(tag == 23, bs, varint), p => InhibitGlobalCreditUsage(p))
    else if tag == 19 || tag == 24 then AsMessage(ReadPlain(tag == 24, bs, varint), p => AllowGlobalCreditUsage(p))
    else if tag == 20 then AsMessage(ReadSided(bs, varint), p => RequestReceivedReport(p))
    else if tag == 21 then AsMessage(ReadSided(bs, varint), p => ReceivedReport(p))
    else BadData
  }

  function Read(bs: Bytes, varint: bool): Taken<Message> {
    var (tag, r) :- TakeU8(bs);
    ReadBody(tag, r, varint)
  }

  // ---------------------------------------------------------------------------
  // Loops over the ports of a message
  // ---------------------------------------------------------------------------

  method WritePorts(ports: seq<PortDataItem>, ids: bool, flags: bool, varint: bool) returns (out: Bytes)
    ensures out == WriteItems(ports, ids, flags, varint)
  {
    hide WriteItem;
    out := [];
    for i := 0 to |ports|
      invariant out + WriteItems(ports[i..], ids, flags, varint) == WriteItems(ports, ids, flags, varint)
    {
      assert ports[i..][1..] == ports[i + 1..];
      out := out + WriteItem(ports[i], ids, flags, varint);
    }
  }

  method ReadPorts(bs: Bytes, ids: bool, flags: bool, all: bool, varint: bool) returns (r: Taken<seq<PortDataItem>>)
    ensures r == ReadItems(bs, ids, flags, all, varint)
  {
    hide TakeV32, TakeFlag;
    var left := bs;
    var ports: seq<PortDataItem> := [];
    ghost var goal := ReadItems(bs, ids, flags, all, varint);
    assert goal.Taken? ==> [] + goal.v == goal.v;
    while true
      invariant goal == After(ports, ReadItems(left, ids, flags, all, varint))
      decreases |left|
    {
      var port := TakeV32(left, varint);
      match port {
        case EndOfInput =>
          assert ports + [] == ports;
          return Taken(ports, []);
        case BadData =>
          return BadData;
        case Taken(n, r0) =>
          var id := if ids then TakeV32(r0, varint) else Taken(n, r0);
          if id.IsFailure() {
            return id.PropagateFailure();
          }
          var pre := if flags then TakeFlag(id.rest) else Taken(all, id.rest);
          if pre.IsFailure() {
            return pre.PropagateFailure();
          }
          ItemShrinks(left, ids, flags, varint);
          AfterTwice(ports, PortDataItem(n, id.v, pre.v), ReadItems(pre.rest, ids, flags, all, varint));
          ports := ports + [PortDataItem(n, id.v, pre.v)];
          left := pre.rest;
      }
    }
  }

  function After(ports: seq<PortDataItem>, r: Taken<seq<PortDataItem>>): Taken<seq<PortDataItem>> {
    match r
    case Taken(more, rest) => Taken(ports + more, rest)
    case EndOfInput => EndOfInput
    case BadData => BadData
  }

  lemma AfterTwice(ports: seq<PortDataItem>, p: PortDataItem, r: Taken<seq<PortDataItem>>)
    ensures After(ports, After([p], r)) == After(ports + [p], r)
  {
    if r.Taken? {
      assert ports + ([p] + r.v) == (ports + [p]) + r.v;
    }
  }

  lemma ItemShrinks(bs: Bytes, ids: bool, flags: bool, varint: bool)
    ensures var a := TakeV32(bs, varint);
            a.Taken? ==>
              var b := if ids then TakeV32(a.rest, varint) else a;
              b.Taken? ==> var c := if flags then TakeFlag(b.rest) else Taken(true, b.rest);
                           c.Taken? ==> |c.rest| < |bs|
  {
  }

  // ---------------------------------------------------------------------------
  // Round trips
  // ---------------------------------------------------------------------------

  lemma ItemBack(p: PortDataItem, ids: bool, flags: bool, all: bool, varint: bool, rest: Bytes)
    requires ids || p.id == p.port
    requires flags || p.preConnect == all
    ensures ReadItems(WriteItem(p, ids, flags, varint) + rest, ids, flags, all, varint)
         == After([p], ReadItems(rest, ids, flags, all, varint))
  {
    hide V32, TakeV32, Bit, Flags, TakeFlag, Opt;
    var r2 := Opt(flags, [Flags([p.preConnect])]) + rest;
    var r1 := Opt(ids, if ids then V32(p.id, varint) else []) + r2;
    var bs := WriteItem(p, ids, flags, varint) + rest;
    assert bs == V32(p.port, varint) + r1;
    hide WriteItem;
    assert |rest| < |bs| by { assert V32(p.port, varint) != []; }
    V32Back(p.port, varint, r1);
    IdTaken(p, ids, varint, r2);
    FlagTaken(p, flags, all, rest);
    OneItem(bs, ids, flags, all, varint, p.port, r1, p.id, r2, p.preConnect, rest);
  }

  lemma OneItem(bs: Bytes, ids: bool, flags: bool, all: bool, varint: bool, port: u32, r1: Bytes, id: u32, r2: Bytes,
          pre: bool, rest: Bytes)
    requires TakeV32(bs, varint) == Taken(port, r1)
    requires (if ids then TakeV32(r1, varint) else Taken(port, r1)) == Taken(id, r2)
    requires (if flags then TakeFlag(r2) else Taken(all, r2)) == Taken(pre, rest)
    requires |rest| < |bs|
    ensures ReadItems(bs, ids, flags, all, varint)
            == After([PortDataItem(port, id, pre)], ReadItems(rest, ids, flags, all, varint))
  {
    hide TakeV32, TakeFlag;
  }

  lemma IdTaken(p: PortDataItem, ids: bool, varint: bool, rest: Bytes)
    requires ids || p.id == p.port
    ensures var r := Opt(ids, if ids then V32(p.id, varint) else []) + rest;
            (if ids then TakeV32(r, varint) else Taken(p.port, r)) == Taken(p.id, rest)
  {
    hide V32, TakeV32;
    if ids {
      V32Back(p.id, varint, rest);
    } else {
      assert [] + rest == rest;
    }
  }

  lemma FlagTaken(p: PortDataItem, flags: bool, all: bool, rest: Bytes)
    requires flags || p.preConnect == all
    ensures var r := Opt(flags, [Flags([p.preConnect])]) + rest;
            (if flags then TakeFlag(r) else Taken(all, r)) == Taken(p.preConnect, rest)
  {
    if flags {
      U8Back(Flags([p.preConnect]), rest);
      FlagsBack([p.preConnect], 0);
      hide Bit, Flags;
    } else {
      assert [] + rest == rest;
    }
  }

  /** The end of input, or an incomplete port number, ends the list. */
  lemma {:induction false} ItemsBack(ports: seq<PortDataItem>, ids: bool, flags: bool, all: bool, varint: bool,
          end: Bytes)
    requires forall i | 0 <= i < |ports| ::
               && (ids || ports[i].id == ports[i].port)
               && (flags || ports[i].preConnect == all)
    requires TakeV32(end, varint).EndOfInput?
    ensures ReadItems(WriteItems(ports, ids, flags, varint) + end, ids, flags, all, varint) == Taken(ports, [])
    decreases |ports|
  {
    hide WriteItem, TakeV32;
    if ports == [] {
      assert WriteItems(ports, ids, flags, varint) + end == end;
    } else {
      var more := WriteItems(ports[1..], ids, flags, varint) + end;
      assert WriteItems(ports, ids, flags, varint) + end == WriteItem(ports[0], ids, flags, varint) + more;
      ItemBack(ports[0], ids, flags, all, varint, more);
      hide ReadItems;
      ItemsBack(ports[1..], ids, flags, all, varint, end);
      assert [ports[0]] + ports[1..] == ports;
    }
  }

  lemma NothingLeft(varint: bool)
    ensures TakeV32([], varint).EndOfInput?
  {
  }

  lemma {:induction false} CountDecides(ports: seq<PortDataItem>)
    ensures PreConnectCount(ports) <= |ports|
    ensures PreConnectCount(ports) == 0 ==> forall i | 0 <= i < |ports| :: !ports[i].preConnect
    ensures PreConnectCount(ports) == |ports| ==> forall i | 0 <= i < |ports| :: ports[i].preConnect
    decreases |ports|
  {
    if ports != [] {
      CountDecides(ports[1..]);
      assert forall i | 0 < i < |ports| :: ports[i] == ports[1..][i - 1];
    }
  }

  /**
   A list with any mix of ids and pre-connected ports is read back as written. Input cut inside
   a further port number is not noticed: that port is left out.
   */
  lemma PortDataBack(m: Message, varint: bool, end: Bytes)
    requires m.PortData? && TakeV32(end, varint).EndOfInput?
    ensures Read(Write(m, varint) + end, varint) == Taken(m, [])
  {
    hide V32, TakeV32, Bit, Flags, WriteItems, ReadItems, NeedIds, PreConnectCount, ReadBody;
    var items := WriteItems(m.ports, NeedIds(m.ports), PreConnectSome(m.ports), varint) + end;
    var flags := PortDataFlags(m);
    var r1 := [Flags(flags)] + items;
    assert Write(m, varint) + end == [8] + (V32(m.port.num, varint) + r1);
    ReadTagged(8, V32(m.port.num, varint) + r1, varint);
    V32Back(m.port.num, varint, r1);
    U8Back(Flags(flags), items);
    forall k | 0 <= k < 7
      ensures Bit(Flags(flags), k) == flags[k]
    {
      FlagsBack(flags, k);
    }
    NeededItems(m.ports, varint, end);
    BodyOfPortData(V32(m.port.num, varint) + r1, varint);
    assert Sided(m.port.Local?, m.port.num) == m.port;
  }

  lemma BodyOfPortData(bs: Bytes, varint: bool)
    ensures ReadBody(8, bs, varint) == ReadPortData(bs, varint)
  {
  }

  lemma NeededItems(ports: seq<PortDataItem>, varint: bool, end: Bytes)
    requires TakeV32(end, varint).EndOfInput?
    ensures var ids, flags := NeedIds(ports), PreConnectSome(ports);
            ReadItems(WriteItems(ports, ids, flags, varint) + end, ids, flags, PreConnectAll(ports), varint)
              == Taken(ports, [])
  {
    CountDecides(ports);
    hide TakeV32, ReadItems, WriteItems;
    ItemsBack(ports, NeedIds(ports), PreConnectSome(ports), PreConnectAll(ports), varint, end);
  }

  function Targeted(m: Message): bool {
    m.Data? || m.PortData? || m.RequestReceivedReport? || m.ReceivedReport? || m.PortCredits?
      || m.InhibitGlobalCreditUsage?
    || m.AllowGlobalCreditUsage? || m.SendFinish? || m.ReceiveClose? || m.ReceiveFinish?
  }

  lemma SidedBack(tag: u8, port: SidePort, varint: bool, rest: Bytes)
    ensures var bs := WriteSided(tag, port, varint);
            && bs[0] == tag
            && ReadSided((bs + rest)[1..], varint) == Taken(port, [Flags([port.Local?])] + rest)
    ensures var bs := WriteSided(tag, port, varint);
            ReadSided(bs[..|bs| - 1][1..], varint) == Taken(Remote(port.num), [])
  {
    hide V32, TakeV32, Bit, Flags;
    var flag := [Flags([port.Local?])];
    var bs := WriteSided(tag, port, varint);
    assert (bs + rest)[1..] == V32(port.num, varint) + (flag + rest);
    V32Back(port.num, varint, flag + rest);
    FlagsBack([port.Local?], 0);
    assert bs[..|bs| - 1][1..] == V32(port.num, varint) + [];
    V32Back(port.num, varint, []);
    FlagsBack([], 0);
    NoFlags();
  }

  lemma NoFlags()
    ensures !Bit(0, 0)
  {
  }

  lemma OpenPortBack(m: Message, varint: bool, rest: Bytes)
    requires m.OpenPort?
    ensures ReadOpenPort((Write(m, varint) + rest)[1..], varint) == Taken(m, rest)
  {
    hide V32, TakeV32, Bit, Flags;
    var flags := [m.wait, m.id.Some?, m.preConnect];
    var r2 := (if m.id.Some? then V32(m.id.value, varint) else []) + rest;
    assert (Write(m, varint) + rest)[1..] == V32(m.clientPort, varint) + ([Flags(flags)] + r2);
    V32Back(m.clientPort, varint, [Flags(flags)] + r2);
    U8Back(Flags(flags), r2);
    FlagsBack(flags, 0);
    FlagsBack(flags, 1);
    FlagsBack(flags, 2);
    if m.id.Some? { V32Back(m.id.value, varint, rest); } else { assert r2 == rest; }
  }

  lemma DataBack(m: Message, varint: bool, rest: Bytes)
    requires m.Data? && Encodable(m)
    ensures ReadData((Write(m, varint) + rest)[1..], varint) == Taken(m, rest)
  {
    hide V32, TakeV32, Bit, Flags;
    var flags := [m.first, m.last, m.credits.GlobalOnly?, m.credits.GlobalAndPort?, m.port.Local?];
    var r2 := (if m.credits.GlobalAndPort? then V32(m.credits.global, varint) else []) + rest;
    assert (Write(m, varint) + rest)[1..] == V32(m.port.num, varint) + ([Flags(flags)] + r2);
    V32Back(m.port.num, varint, [Flags(flags)] + r2);
    U8Back(Flags(flags), r2);
    forall k | 0 <= k < 5
      ensures Bit(Flags(flags), k) == flags[k]
    {
      FlagsBack(flags, k);
    }
    if m.credits.GlobalAndPort? { V32Back(m.credits.global, varint, rest); } else { assert r2 == rest; }
  }

  lemma PortOpenedBack(m: Message, varint: bool, rest: Bytes)
    requires m.PortOpened?
    ensures ReadPortOpened((Write(m, varint) + rest)[1..], varint) == Taken(m, [Flags([m.serverPort.Remote?])] + rest)
    ensures var bs := Write(m, varint);
            ReadPortOpened(bs[..|bs| - 1][1..], varint) == Taken(m.(serverPort := Local(m.serverPort.num)), [])
  {
    hide V32, TakeV32, Bit, Flags;
    var flag := [Flags([m.serverPort.Remote?])];
    var bs := Write(m, varint);
    var n, server := V32(m.clientPort, varint), V32(m.serverPort.num, varint);
    assert (bs + rest)[1..] == n + (server + (flag + rest));
    V32Back(m.clientPort, varint, server + (flag + rest));
    V32Back(m.serverPort.num, varint, flag + rest);
    FlagsBack([m.serverPort.Remote?], 0);
    assert bs[..|bs| - 1][1..] == n + (server + []);
    V32Back(m.clientPort, varint, server + []);
    V32Back(m.serverPort.num, varint, []);
    NoFlags();
  }

  lemma RejectedBack(m: Message, varint: bool, rest: Bytes)
    requires m.Rejected?
    ensures ReadRejected((Write(m, varint) + rest)[1..], varint) == Taken(m, rest)
  {
    hide V32, TakeV32, Bit, Flags;
    var flag := [Flags([m.noPorts])];
    assert (Write(m, varint) + rest)[1..] == V32(m.clientPort, varint) + (flag + rest);
    V32Back(m.clientPort, varint, flag + rest);
    U8Back(Flags([m.noPorts]), rest);
    FlagsBack([m.noPorts], 0);
  }

  lemma PortCreditsBack(m: Message, varint: bool, rest: Bytes)
    requires m.PortCredits?
    ensures ReadPortCredits(m.port.Local?, (Write(m, varint) + rest)[1..], varint) == Taken(m, rest)
  {
    hide V32, TakeV32;
    assert (Write(m, varint) + rest)[1..] == V32(m.port.num, varint) + (V32(m.amount, varint) + rest);
    V32Back(m.port.num, varint, V32(m.amount, varint) + rest);
    V32Back(m.amount, varint, rest);
  }

  lemma GlobalCreditsBack(m: Message, varint: bool, rest: Bytes)
    requires m.GlobalCreditsGiven?
    ensures ReadGlobalCredits((Write(m, varint) + rest)[1..], varint) == Taken(m, rest)
  {
    hide V32, TakeV32;
    assert (Write(m, varint) + rest)[1..] == V32(m.amount, varint) + ([m.seqNo] + rest);
    V32Back(m.amount, varint, [m.seqNo] + rest);
    U8Back(m.seqNo, rest);
  }

  lemma ReportBack(m: Message, varint: bool, rest: Bytes)
    requires m.GlobalCreditsHeld?
    ensures ReadReport((Write(m, varint) + rest)[1..], varint) == Taken(m, rest)
  {
    hide V32, TakeV32;
    var tail := [m.seqNo] + rest;
    assert (Write(m, varint) + rest)[1..] == V32(m.current, varint) + (V32(m.min, varint) + tail);
    V32Back(m.current, varint, V32(m.min, varint) + tail);
    V32Back(m.min, varint, tail);
    U8Back(m.seqNo, rest);
  }

  lemma PlainBack(m: Message, varint: bool, rest: Bytes)
    requires m.InhibitGlobalCreditUsage? || m.AllowGlobalCreditUsage?
    ensures ReadPlain(m.port.Local?, (Write(m, varint) + rest)[1..], varint) == Taken(m.port, rest)
  {
    hide V32, TakeV32;
    assert (Write(m, varint) + rest)[1..] == V32(m.port.num, varint) + rest;
    V32Back(m.port.num, varint, rest);
  }

  lemma HelloBack(m: Message, varint: bool, rest: Bytes)
    requires m.Hello? && Encodable(m) && SizesAllowed(m.cfg)
    ensures var r := ReadHello((Write(m, varint) + rest)[1..]); r.Taken? && r.v == m.(cfg := Seen(m.cfg))
  {
    var r0 := (Write(m, varint) + rest)[1..];
    hide WriteCfg, ReadCfg;
    var tail := WriteCfg(m.cfg) + rest;
    assert r0 == MAGIC + ([m.version] + tail);
    assert r0[..6] == MAGIC && r0[6..] == [m.version] + tail;
    U8Back(m.version, tail);
    CfgBack(m.cfg, m.version, rest);
  }

  /** What the peer reads: the message itself, with the configuration as the peer is meant to see it. */
  function Received(m: Message): Message {
    if m.Hello? then m.(cfg := Seen(m.cfg)) else m
  }

  lemma ReadTagged(tag: u8, bs: Bytes, varint: bool)
    ensures Read([tag] + bs, varint) == ReadBody(tag, bs, varint)
  {
    U8Back(tag, bs);
    hide ReadBody;
  }

  /** Reading what was written yields the message, in both integer modes; what a later version appends is ignored. */
  lemma RoundTrip(m: Message, varint: bool, rest: Bytes)
    requires Encodable(m) && (m.Hello? ==> SizesAllowed(m.cfg)) && (m.PortData? ==> rest == [])
    ensures var r := Read(Write(m, varint) + rest, varint); r.Taken? && r.v == Received(m)
  {
    WriteNonEmpty(m, varint);
    hide Write, ReadBody, Received, Read;
    var bs := Write(m, varint) + rest;
    assert bs == [bs[0]] + bs[1..];
    ReadTagged(bs[0], bs[1..], varint);
    if m.PortData? {
      NothingLeft(varint);
      PortDataBack(m, varint, []);
    } else {
      BodyBack(m, varint, rest);
    }
  }

  lemma WriteNonEmpty(m: Message, varint: bool)
    requires Encodable(m)
    ensures Write(m, varint) != []
  {
  }

  predicate Bare(m: Message) {
    m.Reset? || m.Ping? || m.ClientFinish? || m.ListenerFinish? || m.Goodbye?
  }

  lemma BodyBack(m: Message, varint: bool, rest: Bytes)
    requires Encodable(m) && (m.Hello? ==> SizesAllowed(m.cfg)) && !m.PortData?
    ensures var bs := Write(m, varint) + rest;
            bs != [] && ReadBody(bs[0], bs[1..], varint).Taken? && ReadBody(bs[0], bs[1..], varint).v == Received(m)
  {
    if Bare(m) {
      BareBack(m, varint, rest);
    } else if EndsWithFlag(m) {
      FlaggedBack(m, varint, rest);
    } else if m.OpenPort? || m.Rejected? || m.Data? || m.Hello? {
      RequestBack(m, varint, rest);
    } else if m.InhibitGlobalCreditUsage? || m.AllowGlobalCreditUsage? {
      UsageBack(m, varint, rest);
    } else {
      CreditsBack(m, varint, rest);
    }
  }

  lemma RequestBack(m: Message, varint: bool, rest: Bytes)
    requires (m.OpenPort? || m.Rejected? || m.Data? || m.Hello?) && Encodable(m) && (m.Hello? ==> SizesAllowed(m.cfg))
    ensures var bs := Write(m, varint) + rest;
            bs != [] && ReadBody(bs[0], bs[1..], varint).Taken? && ReadBody(bs[0], bs[1..], varint).v == Received(m)
  {
    hide V32, TakeV32, Bit, Flags, ReadOpenPort, ReadData, ReadHello, ReadRejected, WriteCfg, Seen;
    match m
    case OpenPort(_, _, _, _) => OpenPortBack(m, varint, rest);
    case Rejected(_, _) => RejectedBack(m, varint, rest);
    case Data(_, _, _, _) => DataBack(m, varint, rest);
    case Hello(_, _) => HelloBack(m, varint, rest);
  }

  lemma CreditsBack(m: Message, varint: bool, rest: Bytes)
    requires m.PortCredits? || m.GlobalCreditsGiven? || m.GlobalCreditsHeld?
    ensures var bs := Write(m, varint) + rest;
            bs != [] && ReadBody(bs[0], bs[1..], varint).Taken? && ReadBody(bs[0], bs[1..], varint).v == m
  {
    hide V32, TakeV32, ReadPlain, ReadPortCredits, ReadGlobalCredits, ReadReport;
    match m
    case PortCredits(_, _) => PortCreditsBack(m, varint, rest);
    case GlobalCreditsGiven(_, _) => GlobalCreditsBack(m, varint, rest);
    case GlobalCreditsHeld(_, _, _) => ReportBack(m, varint, rest);
  }

  lemma UsageBack(m: Message, varint: bool, rest: Bytes)
    requires m.InhibitGlobalCreditUsage? || m.AllowGlobalCreditUsage?
    ensures var bs := Write(m, varint) + rest;
            bs != [] && ReadBody(bs[0], bs[1..], varint).Taken? && ReadBody(bs[0], bs[1..], varint).v == m
  {
    hide V32, TakeV32, ReadPlain;
    PlainBack(m, varint, rest);
  }

  lemma BareBack(m: Message, varint: bool, rest: Bytes)
    requires Bare(m)
    ensures var bs := Write(m, varint) + rest;
            bs != [] && ReadBody(bs[0], bs[1..], varint).Taken? && ReadBody(bs[0], bs[1..], varint).v == m
  {
  }

  lemma FlaggedBack(m: Message, varint: bool, rest: Bytes)
    requires EndsWithFlag(m)
    ensures var bs := Write(m, varint) + rest;
            bs != [] && ReadBody(bs[0], bs[1..], varint).Taken? && ReadBody(bs[0], bs[1..], varint).v == m
  {
    hide V32, TakeV32, Bit, Flags, ReadSided, ReadPortOpened, WriteSided;
    match m
    case PortOpened(_, _) => PortOpenedBack(m, varint, rest);
    case SendFinish(port) => SidedBack(10, port, varint, rest); SidedIsTagged(10, port, varint, rest);
    case ReceiveClose(port) => SidedBack(11, port, varint, rest); SidedIsTagged(11, port, varint, rest);
    case ReceiveFinish(port) => SidedBack(12, port, varint, rest); SidedIsTagged(12, port, varint, rest);
    case RequestReceivedReport(port) => SidedBack(20, port, varint, rest); SidedIsTagged(20, port, varint, rest);
    case ReceivedReport(port) => SidedBack(21, port, varint, rest); SidedIsTagged(21, port, varint, rest);
  }

  lemma SidedIsTagged(tag: u8, port: SidePort, varint: bool, rest: Bytes)
    ensures var bs := WriteSided(tag, port, varint) + rest; bs != [] && bs[0] == tag
  {
  }

  /** A configuration with a size that is too small is refused. */
  lemma SmallSizesRefused(version: u8, cfg: ExchangedCfg, varint: bool)
    requires Widths16(cfg)
    ensures Read(Write(Hello(version, cfg), varint), varint).Taken? <==> SizesAllowed(cfg)
  {
    if SizesAllowed(cfg) {
      RoundTrip(Hello(version, cfg), varint, []);
      assert Write(Hello(version, cfg), varint) + [] == Write(Hello(version, cfg), varint);
    } else {
      var tail := WriteCfg(cfg);
      ReadTagged(2, MAGIC + ([version] + tail), varint);
      assert (MAGIC + ([version] + tail))[..6] == MAGIC && (MAGIC + ([version] + tail))[6..] == [version] + tail;
      U8Back(version, tail);
      SizesRefused(cfg, version);
    }
  }

  lemma SizesRefused(c: ExchangedCfg, version: u8)
    requires Widths16(c) && !SizesAllowed(c)
    ensures ReadCfg(WriteCfg(c), version) == BadData
  {
    Widths();
    hide ReadOptional, LE, FromLE, Pow256, OptionalFields;
    var r4 := LE(c.globalCredits.value, 4) + OptionalFields(c);
    var r3 := LE(c.connectQueue, 2) + r4;
    var r2 := LE(c.portReceiveBuffer, 4) + r3;
    var r1 := LE(c.chunkSize, 4) + r2;
    assert WriteCfg(c) == LE(Millis(c), 8) + r1;
    LEBack(Millis(c), 8, r1);
    LEBack(c.chunkSize, 4, r2);
    LEBack(c.portReceiveBuffer, 4, r3);
    LEBack(c.connectQueue, 2, r4);
    hide TakeLE;
  }

  predicate EndsWithFlag(m: Message) {
    m.PortOpened? || m.RequestReceivedReport? || m.ReceivedReport? || m.SendFinish? || m.ReceiveClose?
      || m.ReceiveFinish?
  }

  /** The side assumed of a peer that does not send it. */
  function WithDefaultSide(m: Message): Message
    requires EndsWithFlag(m)
  {
    if m.PortOpened? then m.(serverPort := Local(m.serverPort.num)) else m.(port := Remote(m.port.num))
  }

  lemma WithoutFlag(m: Message, varint: bool)
    requires EndsWithFlag(m)
    ensures |Write(m, varint)| >= 2
    ensures var bs := Write(m, varint); Read(bs[..|bs| - 1], varint) == Taken(WithDefaultSide(m), [])
  {
    TwoBytes(m, varint);
    var bs := Write(m, varint);
    var short := bs[..|bs| - 1];
    assert short == [bs[0]] + short[1..];
    ReadTagged(bs[0], short[1..], varint);
    BodyWithoutFlag(m, varint);
    hide Write, ReadBody, Read;
  }

  lemma BodyWithoutFlag(m: Message, varint: bool)
    requires EndsWithFlag(m)
    ensures |Write(m, varint)| >= 2
    ensures var bs := Write(m, varint); ReadBody(bs[0], bs[..|bs| - 1][1..], varint) == Taken(WithDefaultSide(m), [])
  {
    TwoBytes(m, varint);
    if m.PortOpened? {
      hide V32, TakeV32, Bit, Flags, ReadPortOpened;
      PortOpenedBack(m, varint, []);
    } else {
      SidedBack(SidedTag(m), m.port, varint, []);
      SidedBody(m, WriteSided(SidedTag(m), m.port, varint), varint);
    }
  }

  function SidedTag(m: Message): u8
    requires EndsWithFlag(m) && !m.PortOpened?
  {
    match m
    case SendFinish(_) => 10
    case ReceiveClose(_) => 11
    case ReceiveFinish(_) => 12
    case RequestReceivedReport(_) => 20
    case ReceivedReport(_) => 21
  }

  lemma SidedBody(m: Message, bs: Bytes, varint: bool)
    requires EndsWithFlag(m) && !m.PortOpened? && |bs| >= 2 && bs == Write(m, varint)
    requires bs[0] == SidedTag(m) && ReadSided(bs[..|bs| - 1][1..], varint) == Taken(Remote(m.port.num), [])
    ensures ReadBody(bs[0], bs[..|bs| - 1][1..], varint) == Taken(WithDefaultSide(m), [])
  {
    hide V32, TakeV32, Bit, Flags, ReadSided, Write;
  }

  lemma TwoBytes(m: Message, varint: bool)
    requires EndsWithFlag(m)
    ensures |Write(m, varint)| >= 2
  {
    hide V32, Flags;
  }

  /** Integers stand on the wire with the lowest byte, or the lowest seven bits, first. */
  lemma KnownIntegers()
    ensures V32(0x0403_0201, false) == [1, 2, 3, 4]
    ensures V32(300, true) == [0xAC, 2] && V32(127, true) == [127]
    ensures LE(0x0201, 2) == [1, 2] && LE(60_000, 8) == [0x60, 0xEA, 0, 0, 0, 0, 0, 0]
  {
    assert LE(0, 4) == [0, 0, 0, 0] by {
      assert LE(0, 2) == [0, 0];
    }
    assert LE(60_000, 8) == [0x60] + ([0xEA] + LE(0, 6));
    assert LE(0, 6) == [0] + ([0] + LE(0, 4));
  }

  // ---------------------------------------------------------------------------
  // Addressing
  // ---------------------------------------------------------------------------

  /** How the two ends of a channel name their ports. */
  datatype Mode = Legacy(serverPort: u32) | Sides | PreConnected

  /** The keys of the channel that client port `n` opened, at the client and at the server. */
  function ClientKey(n: u32): SidePort {
    Local(n)
  }

  function ServerKey(mode: Mode, n: u32): SidePort {
    match mode
    case Legacy(k) => Local(k)
    case _ => Remote(n)
  }

  /** Where the client sends to: what it learnt from the answer, or its own number when it did not wait for one. */
  function ClientSendsTo(mode: Mode, n: u32, answer: SidePort): SidePort {
    if mode.PreConnected? then Local(n) else answer.Flipped()
  }

  function ServerSendsTo(n: u32): SidePort {
    Remote(n)
  }

  function Target(m: Message): SidePort
    requires Targeted(m)
  {
    m.port
  }

  /**
   In every mode a message of either side, written, read and flipped by the other side,
   names that side's key.
   */
  lemma AddressedCorrectly(mode: Mode, n: u32, m: Message, varint: bool)
    requires Targeted(m) && Encodable(m)
    ensures var answer := Read(Write(PortOpened(n, ServerKey(mode, n)), varint), varint);
            && answer.Taken? && answer.v.PortOpened?
            && (m.port == ClientSendsTo(mode, n, answer.v.serverPort) ==>
                  var r := Read(Write(m, varint), varint);
                  r.Taken? && Targeted(r.v) && Target(r.v).Flipped() == ServerKey(mode, n))
    ensures m.port == ServerSendsTo(n) ==>
              var r := Read(Write(m, varint), varint);
              r.Taken? && Targeted(r.v) && Target(r.v).Flipped() == ClientKey(n)
  {
    hide Read, Write;
    var answer := PortOpened(n, ServerKey(mode, n));
    RoundTrip(answer, varint, []);
    RoundTrip(m, varint, []);
    assert Write(answer, varint) + [] == Write(answer, varint);
    assert Write(m, varint) + [] == Write(m, varint);
  }
}
