// The other commands as a host writes them, byte by byte, and what each of them comes to:
// those that move no data of the medium, and which bytes of a block must be zero.
module ControlCommands {
  import opened Base
  import opened Storage
  import opened Scsi
  import opened Exchanges
  import opened CommandBlocks

  datatype Query =
    | TestUnitReady
    | RequestSense(room: nat)
    | Inquiry(room: nat)
    | ModeSelect(flags: byte, room: nat)
    | ModeSense(flags: byte, page: byte, room: nat)
    | StartStop(flags: byte, how: byte)
    | PreventAllow(how: byte)
    | ReadFormatCapacities(room: nat)
    | ReadCapacity(lba: nat, pmi: byte)
    | SynchronizeCache(lba: nat, count: nat)
    | ModeSelect10(flags: byte, room: nat)
    | ModeSense10(flags: byte, page: byte, room: nat)
    | ReadCapacity16(lba: nat, room: nat, pmi: byte)
  {
    // The numbers fit the fields; the top three bits of byte 1 belong to the unit number.
    predicate Fits() {
      match this
      case TestUnitReady => true
      case RequestSense(n) => n < 0x100
      case Inquiry(n) => n < 0x100
      case ModeSelect(f, n) => f < 32 && n < 0x100
      case ModeSense(f, _, n) => f < 32 && n < 0x100
      case StartStop(f, _) => f < 32
      case PreventAllow(_) => true
      case ReadFormatCapacities(n) => n < 0x1_0000
      case ReadCapacity(lba, _) => lba < 0x1_0000_0000
      case SynchronizeCache(lba, n) => lba < 0x1_0000_0000 && n < 0x1_0000
      case ModeSelect10(f, n) => f < 32 && n < 0x1_0000
      case ModeSense10(f, _, n) => f < 32 && n < 0x1_0000
      case ReadCapacity16(lba, n, _) => lba < 0x1_0000_0000 * 0x1_0000_0000 && n < 0x1_0000_0000
    }

    function Block(): (b: seq<byte>)
      ensures 6 <= |b| <= 16
    {
      match this
      case TestUnitReady => [0x00, 0, 0, 0, 0, 0]
      case RequestSense(n) => [0x03, 0, 0, 0, n % 0x100, 0]
      case Inquiry(n) => [0x12, 0, 0, 0, n % 0x100, 0]
      case ModeSelect(f, n) => [0x15, f, 0, 0, n % 0x100, 0]
      case ModeSense(f, p, n) => [0x1a, f, p, 0, n % 0x100, 0]
      case StartStop(f, h) => [0x1b, f, 0, 0, h, 0]
      case PreventAllow(h) => [0x1e, 0, 0, 0, h, 0]
      case ReadFormatCapacities(n) => [0x23, 0, 0, 0, 0, 0, 0] + Two(n) + [0]
      case ReadCapacity(lba, pmi) => [0x25, 0] + Four(lba) + [0, 0, pmi, 0]
      case SynchronizeCache(lba, n) => [0x35, 0] + Four(lba) + [0] + Two(n) + [0]
      case ModeSelect10(f, n) => [0x55, f, 0, 0, 0, 0, 0] + Two(n) + [0]
      case ModeSense10(f, p, n) => [0x5a, f, p, 0, 0, 0, 0] + Two(n) + [0]
      case ReadCapacity16(lba, n, pmi) => [0x9e, 0x10] + Eight(lba) + Four(n) + [pmi, 0]
    }

    // How much data it asks for, and which way.
    function Room(): nat {
      match this
      case TestUnitReady => 0
      case StartStop(_, _) => 0
      case PreventAllow(_) => 0
      case ReadCapacity(_, _) => 8
      case SynchronizeCache(_, _) => 0
      case _ => room
    }

    predicate FromHost() {
      ModeSelect? || ModeSelect10?
    }

    predicate NeedsMedium() {
      TestUnitReady? || ReadFormatCapacities? || ReadCapacity? || SynchronizeCache? || ReadCapacity16?
    }

    // The sense key, code and qualifier it is refused with, if it is.
    function Refusal(v: LunView): nat {
      match this
      case ModeSelect(_, _) => 0x052000
      case ModeSelect10(_, _) => 0x052000
      case ModeSense(f, p, _) => ModeRefusal(f, p)
      case ModeSense10(f, p, _) => ModeRefusal(f, p)
      case StartStop(f, h) =>
        if !v.removable then 0x052000
        else if f > 1 || h > 3 then 0x052400
        else if h % 2 == 1 then (if v.filp.None? then 0x023a00 else 0)
        else if v.prevent then 0x055302
        else 0
      case PreventAllow(h) => if !v.removable then 0x052000 else if h > 1 then 0x052400 else 0
      case ReadCapacity(lba, pmi) => if pmi > 1 || (pmi == 0 && lba != 0) then 0x052400 else 0
      case ReadCapacity16(lba, _, pmi) => if pmi > 1 || (pmi == 0 && lba != 0) then 0x052400 else 0
      case _ => 0
    }
  }

  // Only the bit that disables block descriptors may be set; saved values are not to be
  // had, and of the pages only the one for caching, by itself or among all.
  function ModeRefusal(flags: byte, page: byte): nat {
    if flags != 0 && flags != 8 then 0x052400
    else if page >= 0xc0 then 0x053900
    else if page % 64 != 8 && page % 64 != 63 then 0x052400
    else 0
  }

  // The driver understands the query as it is meant.
  ghost predicate Means(c: Cdb, q: Query, h: Handler, unit: Option<LunView>) {
    var r := Decode(c, |q.Block()|, unit);
    && MaskLun(c) == c && r.handler == h && r.size == q.Room() && r.need == |q.Block()|
    && r.medium == q.NeedsMedium() && !StrayByte(c, |q.Block()|, r.mask)
    && (q.Room() > 0 ==> r.dir == if q.FromHost() then DataDir.FromHost else ToHost)
  }

  function HandlerOf(q: Query): Handler {
    match q
    case TestUnitReady => DoTestUnitReady
    case RequestSense(_) => DoRequestSense
    case Inquiry(_) => DoInquiry
    case ModeSelect(_, _) => DoModeSelect
    case ModeSense(_, _, _) => DoModeSense
    case StartStop(_, _) => DoStartStop
    case PreventAllow(_) => DoPreventAllow
    case ReadFormatCapacities(_) => DoReadFormatCapacities
    case ReadCapacity(_, _) => DoReadCapacity
    case SynchronizeCache(_, _) => DoSynchronizeCache
    case ModeSelect10(_, _) => DoModeSelect
    case ModeSense10(_, _, _) => DoModeSense
    case ReadCapacity16(_, _, _) => DoReadCapacity16
  }

  // The bytes of a block are those of the buffer.
  lemma BlockBytes(c: Cdb, b: seq<byte>)
    requires Holds(c, b)
    ensures forall i | 0 <= i < |b| :: c[i] == b[i]
  {
    forall i | 0 <= i < |b|
      ensures c[i] == b[i]
    {
      assert c[i] == c[..|b|][i];
    }
  }

  lemma ShortMeans(c: Cdb, q: Query, unit: Option<LunView>)
    requires q.Fits() && |q.Block()| == 6 && Holds(c, q.Block())
    ensures Means(c, q, HandlerOf(q), unit)
  {
    BlockBytes(c, q.Block());
  }

  // The numbers in the ten-byte blocks.
  lemma TwoAt(c: Cdb, b: seq<byte>, i: nat, x: nat)
    requires Holds(c, b) && i + 2 <= |b| && x < 0x1_0000 && b[i..i + 2] == Two(x)
    ensures Be16(c, i) == x
  {
    assert c[i..i + 2] == c[..|b|][i..i + 2];
    TwoRead(c, i, x);
  }

  lemma FourAt(c: Cdb, b: seq<byte>, i: nat, x: nat)
    requires Holds(c, b) && i + 4 <= |b| && x < 0x1_0000_0000 && b[i..i + 4] == Four(x)
    ensures Be32(c, i) == x
  {
    assert c[i..i + 4] == c[..|b|][i..i + 4];
    FourRead(c, i, x);
  }

  lemma EightAt(c: Cdb, b: seq<byte>, i: nat, x: nat)
    requires Holds(c, b) && i + 8 <= |b| && x < 0x1_0000_0000 * 0x1_0000_0000 && b[i..i + 8] == Eight(x)
    ensures Be64(c, i) == x
  {
    assert c[i..i + 8] == c[..|b|][i..i + 8];
    EightRead(c, i, x);
  }

  // A ten-byte block that asks for so many bytes.
  predicate Roomy(q: Query) {
    q.ReadFormatCapacities? || q.ModeSelect10? || q.ModeSense10?
  }

  lemma RoomyMeans(c: Cdb, q: Query, unit: Option<LunView>)
    requires q.Fits() && Roomy(q) && Holds(c, q.Block())
    ensures Means(c, q, HandlerOf(q), unit)
  {
    BlockBytes(c, q.Block());
    TwoAt(c, q.Block(), 7, q.room);
  }

  lemma CapacityMeans(c: Cdb, q: Query, unit: Option<LunView>)
    requires q.Fits() && q.ReadCapacity? && Holds(c, q.Block())
    ensures Means(c, q, HandlerOf(q), unit) && Be32(c, 2) == q.lba
  {
    BlockBytes(c, q.Block());
    FourAt(c, q.Block(), 2, q.lba);
  }

  lemma CacheMeans(c: Cdb, q: Query, unit: Option<LunView>)
    requires q.Fits() && q.SynchronizeCache? && Holds(c, q.Block())
    ensures Means(c, q, HandlerOf(q), unit)
  {
    BlockBytes(c, q.Block());
  }

  lemma LongNumbers(c: Cdb, q: Query)
    requires q.Fits() && q.ReadCapacity16? && Holds(c, q.Block())
    ensures c[0] == 0x9e && c[1] == 0x10 && c[14] == q.pmi && c[15] == 0
    ensures Be64(c, 2) == q.lba && Be32(c, 10) == q.room
  {
    BlockBytes(c, q.Block());
    assert q.Block()[2..10] == Eight(q.lba) && q.Block()[10..14] == Four(q.room);
    EightAt(c, q.Block(), 2, q.lba);
    FourAt(c, q.Block(), 10, q.room);
  }

  lemma LongMeans(c: Cdb, q: Query, unit: Option<LunView>)
    requires q.Fits() && q.ReadCapacity16? && Holds(c, q.Block())
    ensures Means(c, q, HandlerOf(q), unit)
  {
    LongNumbers(c, q);
  }

  lemma QueryMeans(c: Cdb, q: Query, unit: Option<LunView>)
    requires q.Fits() && Holds(c, q.Block())
    ensures Means(c, q, HandlerOf(q), unit)
  {
    if |q.Block()| == 6 {
      ShortMeans(c, q, unit);
    } else if Roomy(q) {
      RoomyMeans(c, q, unit);
    } else if q.ReadCapacity? {
      CapacityMeans(c, q, unit);
    } else if q.SynchronizeCache? {
      CacheMeans(c, q, unit);
    } else {
      LongMeans(c, q, unit);
    }
  }

  // What a query is refused with is what the source looks at.
  lemma Refused(c: Cdb, q: Query, v: LunView)
    requires q.Fits() && Holds(c, q.Block()) && Small(HandlerOf(q))
    ensures SmallSense(HandlerOf(q), c, v) == q.Refusal(v)
  {
    BlockBytes(c, q.Block());
    if q.ReadCapacity? {
      CapacityMeans(c, q, None);
    } else if q.ReadCapacity16? {
      LongNumbers(c, q);
    }
  }

  // How many bytes of reply there are.
  function Reply(q: Query): nat {
    match q
    case Inquiry(_) => 36
    case RequestSense(_) => 18
    case ModeSense(_, _, _) => 16
    case ModeSense10(_, _, _) => 20
    case ReadFormatCapacities(_) => 12
    case ReadCapacity(_, _) => 8
    case ReadCapacity16(_, _, _) => 32
    case _ => 0
  }

  lemma ReplyIs(c: Cdb, q: Query)
    requires Holds(c, q.Block()) && Small(HandlerOf(q))
    ensures SmallLength(HandlerOf(q), c) == Reply(q)
  {
    BlockBytes(c, q.Block());
  }

  // ------------------------------------------------------------ what a query comes to

  // A query as it should be: the data, if there is any, goes the way it says.
  predicate Formed(c: Command, q: Query) {
    && c.Ok() && c.Sound() && c.cbw.cdb == q.Block() && q.Fits()
    && (c.cbw.size > 0 && q.Room() > 0 ==> c.cbw.toHost == !q.FromHost())
  }

  // To a unit, with no change of medium waiting to be reported, unless it may go on all
  // the same.
  predicate Posed(c: Command, q: Query) {
    Formed(c, q) && c.present && (c.before.unitAttention == 0 || q.Inquiry? || q.RequestSense?)
  }

  // How much of the reply is sent, if any is.
  function Sent(c: Command, q: Query): nat {
    Min(Reply(q), Min(q.Room(), c.cbw.size))
  }

  // There is no medium and it takes one.
  predicate Lacks(c: Command, q: Query) {
    q.NeedsMedium() && c.before.filp.None?
  }

  ghost predicate Taken(c: Command, q: Query) {
    && c.present && Holds(c.verdict.cmnd, q.Block()) && c.wants.handler == HandlerOf(q)
    && c.verdict.size == Min(q.Room(), c.cbw.size) && c.verdict.phaseError == (c.cbw.size < q.Room())
    && (if Lacks(c, q) then
          c.verdict.reply != 0 && c.verdict.unit == Some(c.before.ClearSense().WithSense(MEDIUM_NOT_PRESENT))
        else c.verdict.reply == 0)
  }

  lemma FirstByte(c: Cdb, q: Query)
    requires Holds(c, q.Block())
    ensures q.Inquiry? <==> c[0] == 0x12
    ensures q.RequestSense? <==> c[0] == 0x03
  {
    BlockBytes(c, q.Block());
  }

  lemma PosedTaken(c: Command, q: Query)
    requires Posed(c, q)
    ensures Taken(c, q)
  {
    QueryMeans(c.cdb, q, c.Unit());
    FirstByte(c.cdb, q);
    if Lacks(c, q) {
      Stopped(c.Expects(), c.wants, c.cdb, c.before);
    } else {
      Passes(c.Expects(), c.wants, c.cdb, c.before);
    }
  }

  // The sense key, code and qualifier the query ends with.
  function Outcome(e: Exchange, q: Query): nat {
    if Lacks(e.cmd, q) then 0x023a00
    else if q.SynchronizeCache? && e.fault then 0x030c02
    else q.Refusal(e.cmd.before)
  }

  // A query stores nothing and leaves the medium alone; it leaves its outcome for sense
  // data and the door as PREVENT ALLOW MEDIUM REMOVAL wants it.  It sends its reply, as
  // far as there is room for it, exactly if nothing is the matter.
  predicate QueryComesTo(e: Exchange, q: Query) {
    var c, v, code := e.cmd, e.cmd.before, Outcome(e, q);
    && e.stored == 0 && code < 0x100_0000
    && e.after == v.(senseData := code, senseDataInfo := 0, infoValid := false,
                     prevent := if q.PreventAllow? && code == 0 then q.how == 1 else v.prevent)
    && |e.data| == (if code == 0 then Sent(c, q) else 0)
    && e.csw.status == if c.cbw.size < q.Room() then StatPhase else if code != 0 then StatFail else StatOk
  }

  lemma SmallPassed(e: Exchange)
    requires e.Answered() && e.cmd.present && Small(e.cmd.wants.handler) && e.cmd.verdict.reply == 0
    ensures e.SmallEffect() && e.StatusRight() && e.Balanced() && !e.cmd.Silent()
  {
  }

  // What has no way to the host sends nothing.
  lemma OtherWay(c: Command, q: Query)
    requires Formed(c, q) && c.Expects().dir != ToHost
    ensures Sent(c, q) == 0
  {
  }

  lemma QueryLaw(e: Exchange, q: Query)
    requires Posed(e.cmd, q) && Taken(e.cmd, q) && !Lacks(e.cmd, q) && Small(HandlerOf(q))
    requires e.SmallEffect() && e.StatusRight() && e.Balanced() && !e.cmd.Silent()
    requires SmallSense(HandlerOf(q), e.cmd.verdict.cmnd, e.cmd.before.ClearSense()) == q.Refusal(e.cmd.before)
    requires SmallLength(HandlerOf(q), e.cmd.verdict.cmnd) == Reply(q)
    requires q.PreventAllow? ==> e.cmd.verdict.cmnd[4] == q.how
    ensures QueryComesTo(e, q)
  {
    if e.cmd.Expects().dir != ToHost {
      OtherWay(e.cmd, q);
    }
  }

  lemma HostQuery(e: Exchange, q: Query)
    requires e.Answered() && Posed(e.cmd, q) && !q.RequestSense? && !q.StartStop?
    ensures QueryComesTo(e, q)
  {
    PosedTaken(e.cmd, q);
    if Lacks(e.cmd, q) {
      CheckFailed(e);
    } else {
      SmallPassed(e);
      Refused(e.cmd.verdict.cmnd, q, e.cmd.before.ClearSense());
      ReplyIs(e.cmd.verdict.cmnd, q);
      BlockBytes(e.cmd.verdict.cmnd, q.Block());
      QueryLaw(e, q);
    }
  }

  // ------------------------------------------------------------ what the replies say

  predicate LastOf(v: LunView, last: nat) {
    OnMedium(v, last) && !OnMedium(v, last + 1)
  }

  // The queries with a reply of numbers.
  predicate Tells(q: Query) {
    q.ReadCapacity? || q.ReadCapacity16? || q.ReadFormatCapacities? || q.ModeSense? || q.ModeSense10?
  }

  predicate Measures(q: Query) {
    q.ReadCapacity? || q.ReadCapacity16? || q.ReadFormatCapacities?
  }

  // The caching page, or which of its bits could be changed, which is none.
  function CachingPage(page: byte): (s: seq<byte>)
    ensures |s| == 12
  {
    [0x08, 10] + if page / 64 == 1 then [0, 0, 0, 0, 0, 0, 0, 0, 0, 0] else [4, 0, 255, 255, 0, 0, 255, 255, 255, 255]
  }

  // The number of the last block and the length of a block, or whether the medium is
  // write-protected.
  function Numbers(q: Query, v: LunView, last: nat): (s: seq<byte>)
    requires Tells(q)
  {
    if q.ReadCapacity? then Four(Min(last, 0xffff_ffff)) + Four(v.blksize)
    else if q.ReadCapacity16? then
      Eight(last) + Four(v.blksize) + [0, 0, 0, 0, 0, 0, 0, 0, 0, 0, 0, 0, 0, 0, 0, 0, 0, 0, 0, 0]
    else if q.ReadFormatCapacities? then [0, 0, 0, 8] + Four(last + 1) + [2] + Three(v.blksize)
    else if q.ModeSense? then [15, 0, if v.ro then 128 else 0, 0] + CachingPage(q.page)
    else [0, 18, 0, if v.ro then 128 else 0, 0, 0, 0, 0] + CachingPage(q.page)
  }

  lemma LastIs(v: LunView, last: nat)
    requires v.IsOpen() && v.Well() && LastOf(v, last)
    ensures v.numSectors == last + 1
  {
    EveryBlock(v, last);
    EveryBlock(v, last + 1);
  }

  lemma CapacityNumbers(c: Cdb, q: Query, v: LunView, last: nat)
    requires Measures(q) && v.numSectors == last + 1
    ensures Table(HandlerOf(q), c, v) == Numbers(q, v, last)
  {
    FourIs(v.blksize);
    FourIs(last + 1);
    FourIs(Min(last, U32 - 1));
    if q.ReadCapacity16? {
      FourIs(last / U32);
      FourIs(last % U32);
      assert seq(20, i => 0 as byte) == [0, 0, 0, 0, 0, 0, 0, 0, 0, 0, 0, 0, 0, 0, 0, 0, 0, 0, 0, 0];
    }
  }

  lemma PageIs(page: byte)
    ensures ModePage(page / 64 == 1) == CachingPage(page)
  {
    assert seq(10, i => 0 as byte) == [0, 0, 0, 0, 0, 0, 0, 0, 0, 0];
  }

  lemma HeaderIs(q: Query, v: LunView)
    requires q.ModeSense? || q.ModeSense10?
    ensures Numbers(q, v, 0) == ModeHeader(q.ModeSense?, v.ro) + CachingPage(q.page)
  {
  }

  lemma ModeNumbers(c: Cdb, q: Query, v: LunView)
    requires Holds(c, q.Block()) && (q.ModeSense? || q.ModeSense10?)
    ensures Table(HandlerOf(q), c, v) == Numbers(q, v, 0)
  {
    BlockBytes(c, q.Block());
    PageIs(q.page);
    HeaderIs(q, v);
  }

  lemma ReplyLaw(e: Exchange, q: Query, reply: seq<byte>)
    requires Posed(e.cmd, q) && Taken(e.cmd, q) && Tells(q) && !Lacks(e.cmd, q) && QueryComesTo(e, q)
    requires e.SmallEffect() && e.Balanced() && !e.cmd.Silent()
    requires SmallSense(HandlerOf(q), e.cmd.verdict.cmnd, e.cmd.before.ClearSense()) == q.Refusal(e.cmd.before)
    requires reply == Table(HandlerOf(q), e.cmd.verdict.cmnd, e.cmd.before.ClearSense())
    ensures e.data <= reply
  {
  }

  // What is sent begins the reply that goes with the medium.
  lemma HostReply(e: Exchange, q: Query, last: nat)
    requires e.Answered() && Posed(e.cmd, q) && Tells(q)
    requires Measures(q) ==> LastOf(e.cmd.before, last)
    ensures e.data <= Numbers(q, e.cmd.before, last)
  {
    HostQuery(e, q);
    if !Lacks(e.cmd, q) {
      PosedTaken(e.cmd, q);
      SmallPassed(e);
      Refused(e.cmd.verdict.cmnd, q, e.cmd.before.ClearSense());
      if Measures(q) {
        LastIs(e.cmd.before, last);
        CapacityNumbers(e.cmd.verdict.cmnd, q, e.cmd.before.ClearSense(), last);
      } else {
        ModeNumbers(e.cmd.verdict.cmnd, q, e.cmd.before.ClearSense());
      }
      ReplyLaw(e, q, Table(HandlerOf(q), e.cmd.verdict.cmnd, e.cmd.before.ClearSense()));
    }
  }

  // ------------------------------------------------------------ START STOP UNIT

  // It is asked to eject: the bit to load or eject is set, the one to start is not.
  predicate WantsOut(how: byte) {
    how / 2 % 2 == 1 && how % 2 == 0
  }

  // It takes out the medium that was there exactly if it is asked to and may; whatever is
  // in the drive afterwards was put there since and is still to be reported.  Otherwise
  // medium, door and attention stay as they were.
  predicate StartStopComesTo(e: Exchange, q: Query)
    requires q.StartStop?
  {
    var v, code := e.cmd.before, q.Refusal(e.cmd.before);
    && e.stored == 0 && e.data == [] && e.csw.status == (if code != 0 then StatFail else StatOk)
    && (if code == 0 && WantsOut(q.how) then
          && (e.after.filp.Some? ==> e.after.unitAttention == 0x062800)
          && e.after.removable && e.after.cdrom == v.cdrom && e.after.senseData == 0
        else code < 0x100_0000
             && e.after == v.(senseData := code, senseDataInfo := 0, infoValid := false))
  }

  lemma StartStopPassed(e: Exchange)
    requires e.Answered() && e.cmd.present && e.cmd.Runs(DoStartStop)
    ensures e.StartStopEffect() && e.StatusRight() && e.Balanced() && !e.cmd.Silent()
  {
  }

  lemma StartStopRefused(c: Cdb, q: Query, v: LunView)
    requires q.StartStop? && Holds(c, q.Block())
    ensures StartStopSense(c, v) == q.Refusal(v)
    ensures q.Refusal(v) == 0 ==> AsksToEject(c) == WantsOut(q.how)
  {
    BlockBytes(c, q.Block());
  }

  lemma HostStartStop(e: Exchange, q: Query)
    requires e.Answered() && Posed(e.cmd, q) && q.StartStop?
    ensures StartStopComesTo(e, q)
  {
    PosedTaken(e.cmd, q);
    StartStopPassed(e);
    StartStopRefused(e.cmd.verdict.cmnd, q, e.cmd.before.ClearSense());
  }

  // ------------------------------------------------------------ REQUEST SENSE, INQUIRY

  // The reply with this key, code and qualifier, and this information.
  function SenseBytes(code: nat, info: nat, valid: bool): (s: seq<byte>)
    ensures |s| == 18
  {
    [if valid then 0xf0 else 0x70, 0, code / 0x1_0000 % 0x100] + Four(info) + [10, 0, 0, 0, 0]
    + Two(code) + [0, 0, 0, 0]
  }

  lemma SenseBytesAre(s: Sense)
    ensures SenseReply(s) == SenseBytes(s.code, s.info, s.valid)
  {
    FourIs(s.info);
  }

  lemma SensePassed(e: Exchange)
    requires e.Answered() && e.cmd.present && e.cmd.Runs(DoRequestSense)
    ensures e.SenseEffect() && e.StatusRight()
  {
  }

  // REQUEST SENSE tells what was pending, as far as there is room for it, and clears it.
  lemma HostSense(e: Exchange, q: Query)
    requires e.Answered() && Posed(e.cmd, q) && q.RequestSense?
    ensures var v := e.cmd.before;
            && e.after == v.(senseData := 0, senseDataInfo := 0, infoValid := false) && e.stored == 0
            && e.data == SenseBytes(v.senseData, v.senseDataInfo, v.infoValid)[..Sent(e.cmd, q)]
            && e.csw.status == if e.cmd.cbw.size < q.room then StatPhase else StatOk
  {
    PosedTaken(e.cmd, q);
    SensePassed(e);
    SenseBytesAre(SenseOf(e.cmd.before));
    if e.cmd.Expects().dir != ToHost {
      OtherWay(e.cmd, q);
    }
  }

  lemma AbsentTaken(c: Command, q: Query)
    requires Formed(c, q) && !c.present
    ensures (if q.Inquiry? || q.RequestSense? then c.Runs(HandlerOf(q)) else c.verdict.reply != 0)
    ensures c.verdict.size == Min(q.Room(), c.cbw.size) && c.verdict.phaseError == (c.cbw.size < q.Room())
  {
    QueryMeans(c.cdb, q, None);
    FirstByte(c.cdb, q);
    NobodyThere(c.Expects(), c.wants, c.cdb);
  }

  lemma AbsentPassed(e: Exchange)
    requires e.Answered() && !e.cmd.present
    ensures e.AbsentEffect() && e.StatusRight() && (e.cmd.verdict.reply != 0 ==> e.data == [])
    ensures e.cmd.Expects().dir != ToHost ==> e.data == []
  {
  }

  // Only INQUIRY and REQUEST SENSE are answered for it; nothing comes of the others, and
  // nothing at all happens to the unit that is there.
  predicate AbsentComesTo(e: Exchange, q: Query) {
    && e.after == e.cmd.before
    && e.csw.status == (if e.cmd.cbw.size < q.Room() then StatPhase
                        else if q.Inquiry? || q.RequestSense? then StatOk else StatFail)
    && (q.Inquiry? ==> |e.data| == Sent(e.cmd, q))
    && (q.RequestSense? ==> e.data == SenseBytes(0x052500, 0, false)[..Sent(e.cmd, q)])
    && (!q.Inquiry? && !q.RequestSense? ==> e.data == [])
  }

  lemma HostAbsent(e: Exchange, q: Query)
    requires e.Answered() && Formed(e.cmd, q) && !e.cmd.present
    ensures AbsentComesTo(e, q)
  {
    AbsentTaken(e.cmd, q);
    AbsentPassed(e);
    SenseBytesAre(Sense(UNIT_NOT_SUPPORTED, 0, false));
    if e.cmd.Expects().dir != ToHost {
      OtherWay(e.cmd, q);
    }
  }

  // ------------------------------------------------------------ unit attention

  // With a change of medium waiting, every other query tells of it instead.
  lemma QueryTold(e: Exchange, q: Query)
    requires e.Answered() && Formed(e.cmd, q) && e.cmd.present && !q.Inquiry? && !q.RequestSense?
    requires e.cmd.before.unitAttention != 0
    ensures Told(e) && e.csw.status == if e.cmd.cbw.size < q.Room() then StatPhase else StatFail
  {
    QueryMeans(e.cmd.cdb, q, e.cmd.Unit());
    FirstByte(e.cmd.cdb, q);
    Waiting(e.cmd.Expects(), e.cmd.wants, e.cmd.cdb, e.cmd.before);
    CheckFailed(e);
  }
}
