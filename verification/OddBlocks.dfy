// What else a host can send for a command block: VERIFY, the two commands that only a
// CD-ROM knows, blocks with bytes set that must be zero, and opcodes that stand for no
// command.
module OddBlocks {
  import opened Base
  import opened Storage
  import opened Scsi
  import opened Exchanges
  import opened CommandBlocks
  import opened ControlCommands
  import opened Attention

  // ------------------------------------------------------------ VERIFY

  function VerifyBlock(flags: byte, lba: nat, count: nat): (b: seq<byte>)
    ensures |b| == 10
  {
    [0x2f, flags] + Four(lba) + [0] + Two(count) + [0]
  }

  predicate Verifies(c: Command, flags: byte, lba: nat, count: nat) {
    && c.Ok() && c.Sound() && c.present && c.cbw.cdb == VerifyBlock(flags, lba, count)
    && flags < 32 && lba < 0x1_0000_0000 && count < 0x1_0000
    && c.before.IsOpen() && c.before.unitAttention == 0
  }

  // VERIFY succeeds if its first block is on the medium, no flag but the one for the cache
  // is set and, unless the file cannot be read, its blocks lie inside the file.  It moves
  // nothing; but a host that wants data when there is no block to verify gets what the
  // next buffer holds.
  predicate VerifyComesTo(e: Exchange, flags: byte, lba: nat, count: nat) {
    var v, code := e.cmd.before, e.after.senseData;
    && e.stored == 0 && e.after.SameButSense(v) && e.csw.status == (if code != 0 then StatFail else StatOk)
    && (if !OnMedium(v, lba) then code == 0x052100
        else if flags != 0 && flags != 0x10 then code == 0x052400
        else if count == 0 then code == 0
        else
          && (code == 0 ==> (lba + count) * v.blksize <= |v.image|)
          && (!e.fault ==> code == if (lba + count) * v.blksize <= |v.image| then 0 else 0x052100)
          && (e.fault ==> code == 0 || code == 0x052100 || code == 0x031100))
    && (code != 0 || count > 0 ==> e.data == [])
  }

  lemma VerifyNumbers(c: Cdb, flags: byte, lba: nat, count: nat)
    requires Holds(c, VerifyBlock(flags, lba, count)) && lba < 0x1_0000_0000 && count < 0x1_0000
    ensures c[0] == 0x2f && c[1] == flags && c[6] == c[9] == 0 && Be32(c, 2) == lba && Be16(c, 7) == count
  {
    assert c[2..6] == c[..10][2..6] == Four(lba);
    assert c[7..9] == c[..10][7..9] == Two(count);
    FourRead(c, 2, lba);
    TwoRead(c, 7, count);
    assert c[0] == c[..10][0] && c[1] == c[..10][1] && c[6] == c[..10][6] && c[9] == c[..10][9];
  }

  ghost predicate VerifyTaken(c: Command, flags: byte, lba: nat, count: nat) {
    && c.Runs(DoVerify) && c.verdict.size == 0 && !c.verdict.phaseError && c.verdict.cmnd[1] == flags
    && Be32(c.verdict.cmnd, 2) == lba && Be16(c.verdict.cmnd, 7) == count
    && c.before.Well() && c.before.IsOpen()
  }

  lemma VerifiesTaken(c: Command, flags: byte, lba: nat, count: nat)
    requires Verifies(c, flags, lba, count)
    ensures VerifyTaken(c, flags, lba, count)
  {
    VerifyNumbers(c.cdb, flags, lba, count);
    Passes(c.Expects(), c.wants, c.cdb, c.before);
  }

  lemma VerifyPassed(e: Exchange)
    requires e.Answered() && e.cmd.present && e.cmd.Runs(DoVerify) && e.cmd.verdict.size == 0
    ensures e.VerifyEffect() && e.StatusRight() && (!e.cmd.Silent() ==> e.data == [])
  {
  }

  lemma HostVerify(e: Exchange, flags: byte, lba: nat, count: nat)
    requires e.Answered() && Verifies(e.cmd, flags, lba, count)
    ensures VerifyComesTo(e, flags, lba, count)
  {
    VerifiesTaken(e.cmd, flags, lba, count);
    VerifyPassed(e);
    EveryBlock(e.cmd.before, lba);
    Distribute(e.cmd.before.blksize, lba, count);
  }

  // ------------------------------------------------------------ a CD-ROM

  datatype Disc =
    | ReadHeader(flags: byte, lba: nat, room: nat)
    | ReadToc(flags: byte, format: byte, start: byte, room: nat, last: byte)
  {
    predicate Fits() {
      flags < 32 && room < 0x1_0000 && (ReadHeader? ==> lba < 0x1_0000_0000)
    }

    function Block(): (b: seq<byte>)
      ensures |b| == 10
    {
      match this
      case ReadHeader(f, lba, n) => [0x44, f] + Four(lba) + [0] + Two(n) + [0]
      case ReadToc(f, format, start, n, last) => [0x43, f, format, 0, 0, 0, start] + Two(n) + [last]
    }

    // The format is in byte 2, or else in the upper two bits of byte 9.
    function Format(): nat
      requires ReadToc?
    {
      if format % 16 != 0 then format % 16 else last / 64
    }

    function Refusal(v: LunView): nat {
      if flags != 0 && flags != 2 then 0x052400
      else if ReadHeader? then (if OnMedium(v, lba) then 0 else 0x052100)
      else if (start > 1 && format % 16 != 1) || Format() > 2 then 0x052400
      else 0
    }

    function Reply(): nat {
      if ReadHeader? then 8 else if Format() == 2 then 37 else 20
    }
  }

  predicate OnDisc(c: Command, d: Disc) {
    && c.Ok() && c.Sound() && c.present && c.cbw.cdb == d.Block() && d.Fits()
    && (c.cbw.size > 0 && d.room > 0 ==> c.cbw.toHost)
    && c.before.IsOpen() && c.before.cdrom && c.before.unitAttention == 0
  }

  // It leaves its outcome for sense data and nothing else, and sends its reply as far as
  // there is room.
  predicate DiscComesTo(e: Exchange, d: Disc) {
    var size, code := e.cmd.cbw.size, d.Refusal(e.cmd.before);
    && code < 0x100_0000 && e.stored == 0
    && e.after == e.cmd.before.(senseData := code, senseDataInfo := 0, infoValid := false)
    && |e.data| == (if code == 0 then Min(d.Reply(), Min(d.room, size)) else 0)
    && e.csw.status == if size < d.room then StatPhase else if code != 0 then StatFail else StatOk
  }

  function DiscHandler(d: Disc): Handler {
    if d.ReadHeader? then DoReadHeader else DoReadToc
  }

  lemma DiscNumbers(c: Cdb, d: Disc)
    requires Holds(c, d.Block()) && d.Fits()
    ensures forall i | 0 <= i < 10 :: c[i] == d.Block()[i]
    ensures Be16(c, 7) == d.room && (d.ReadHeader? ==> Be32(c, 2) == d.lba)
  {
    BlockBytes(c, d.Block());
    TwoAt(c, d.Block(), 7, d.room);
    if d.ReadHeader? {
      FourAt(c, d.Block(), 2, d.lba);
    }
  }

  lemma DiscMeans(c: Cdb, d: Disc, v: LunView)
    requires Holds(c, d.Block()) && d.Fits() && v.cdrom
    ensures var r := Decode(c, 10, Some(v));
            && MaskLun(c) == c && r.handler == DiscHandler(d) && r.size == d.room && r.need == 10 && r.medium
            && r.dir == ToHost && !StrayByte(c, 10, r.mask)
  {
    DiscNumbers(c, d);
  }

  lemma DiscRefused(c: Cdb, d: Disc, v: LunView)
    requires Holds(c, d.Block()) && d.Fits()
    requires d.ReadHeader? ==> (d.lba < v.numSectors <==> OnMedium(v, d.lba))
    ensures SmallSense(DiscHandler(d), c, v) == d.Refusal(v)
    ensures SmallLength(DiscHandler(d), c) == d.Reply()
  {
    DiscNumbers(c, d);
  }

  ghost predicate DiscTaken(c: Command, d: Disc) {
    && c.present && Holds(c.verdict.cmnd, d.Block()) && c.Runs(DiscHandler(d))
    && c.verdict.size == Min(d.room, c.cbw.size) && c.verdict.phaseError == (c.cbw.size < d.room)
  }

  lemma OnDiscTaken(c: Command, d: Disc)
    requires OnDisc(c, d)
    ensures DiscTaken(c, d)
  {
    DiscMeans(c.cdb, d, c.before);
    Passes(c.Expects(), c.wants, c.cdb, c.before);
  }

  lemma DiscLaw(e: Exchange, d: Disc)
    requires OnDisc(e.cmd, d) && DiscTaken(e.cmd, d)
    requires e.SmallEffect() && e.StatusRight() && e.Balanced() && !e.cmd.Silent()
    requires SmallSense(DiscHandler(d), e.cmd.verdict.cmnd, e.cmd.before.ClearSense()) == d.Refusal(e.cmd.before)
    requires SmallLength(DiscHandler(d), e.cmd.verdict.cmnd) == d.Reply()
    ensures DiscComesTo(e, d)
  {
  }

  lemma HostDisc(e: Exchange, d: Disc)
    requires e.Answered() && OnDisc(e.cmd, d)
    ensures DiscComesTo(e, d)
  {
    OnDiscTaken(e.cmd, d);
    SmallPassed(e);
    if d.ReadHeader? {
      EveryBlock(e.cmd.before, d.lba);
    }
    DiscRefused(e.cmd.verdict.cmnd, d, e.cmd.before.ClearSense());
    DiscLaw(e, d);
  }

  // ------------------------------------------------------------ bytes that must be zero

  // The bytes of a block, after the first, that mean something for this opcode.
  function Meaningful(op: byte): set<nat> {
    if op == 0x00 then {}
    else if op == 0x03 || op == 0x12 || op == 0x1e then {4}
    else if op == 0x08 || op == 0x0a then {1, 2, 3, 4}
    else if op == 0x15 || op == 0x1b then {1, 4}
    else if op == 0x1a then {1, 2, 4}
    else if op == 0x23 then {7, 8}
    else if op == 0x25 then {2, 3, 4, 5, 8}
    else if op == 0x28 || op == 0x2a || op == 0x2f then {1, 2, 3, 4, 5, 7, 8}
    else if op == 0x35 then {2, 3, 4, 5, 7, 8}
    else if op == 0x55 then {1, 7, 8}
    else if op == 0x5a then {1, 2, 7, 8}
    else if op == 0x43 then {1, 2, 6, 7, 8, 9}
    else if op == 0x44 then {1, 2, 3, 4, 5, 7, 8}
    else if op == 0x9e then {1, 2, 3, 4, 5, 6, 7, 8, 9, 10, 11, 12, 13, 14}
    else if op == 0xa8 || op == 0xaa then {1, 2, 3, 4, 5, 6, 7, 8, 9}
    else {1, 2, 3, 4, 5, 6, 7, 8, 9, 10, 11, 12, 13}
  }

  const COMMANDS: set<byte> := {
    0x00, 0x03, 0x08, 0x0a, 0x12, 0x15, 0x1a, 0x1b, 0x1e, 0x23, 0x25, 0x28, 0x2a, 0x2f, 0x35, 0x55, 0x5a,
    0x88, 0x8a, 0xa8, 0xaa
  }

  // The block is one of these, of READ CAPACITY(16), or of the two for a CD-ROM.
  predicate IsCommand(b: seq<byte>, cdrom: bool) {
    b != [] && (b[0] in COMMANDS || (b[0] == 0x9e && |b| > 1 && b[1] % 32 == 0x10)
                || (cdrom && (b[0] == 0x43 || b[0] == 0x44)))
  }

  // Some byte that means nothing is set; the unit number in byte 1 does not count.
  predicate Strays(b: seq<byte>)
    requires |b| > 0
  {
    exists i | 1 <= i < |b| :: i !in Meaningful(b[0]) && (if i == 1 then b[1] % 32 else b[i]) != 0
  }

  // The command was refused: nothing moved, and nothing but sense data and attention
  // has changed.
  predicate NothingDone(e: Exchange) {
    && e.data == [] && e.stored == 0 && e.io == [] && OnlySense(e.after, e.cmd.before)
    && e.csw.status != StatOk
  }

  lemma MaskIs(c: Cdb, length: nat, v: LunView)
    requires IsCommand(c, v.cdrom)
    ensures Decode(c, length, Some(v)).mask == Meaningful(c[0])
  {
  }

  // A byte outside the mask keeps any command from running.
  lemma StrayStops(h: Host, r: Request, c: Cdb, unit: Option<LunView>)
    requires h.length <= CDB_SIZE && StrayByte(MaskLun(c), h.length, r.mask)
    ensures Check(h, r, c, unit).reply != 0
  {
  }

  // What is refused leaves sense data, or a phase error.
  lemma RefusedSays(h: Host, r: Request, c: Cdb, v: LunView)
    requires h.length <= CDB_SIZE && Check(h, r, c, Some(v)).reply != 0
    ensures var d := Check(h, r, c, Some(v));
            d.unit.Some? && (d.phaseError || d.unit.value.senseData != NO_SENSE)
  {
  }

  lemma RefusedEnds(e: Exchange)
    requires e.Answered() && e.cmd.verdict.reply != 0
    ensures e.data == [] && e.StatusRight() && e.io == []
    ensures if e.cmd.present then e.cmd.verdict.unit == Some(e.after) && e.stored == 0 else e.after == e.cmd.before
  {
  }

  lemma Refusals(e: Exchange)
    requires e.Answered() && e.cmd.present && e.cmd.verdict.reply != 0
    ensures NothingDone(e)
  {
    RefusedEnds(e);
    RefusedSays(e.cmd.Expects(), e.cmd.wants, e.cmd.cdb, e.cmd.before);
    CheckKeepsMedium(e.cmd.Expects(), e.cmd.wants, e.cmd.cdb, e.cmd.before);
  }

  lemma StrayFound(c: Cdb, b: seq<byte>)
    requires Holds(c, b) && b != [] && Strays(b)
    ensures StrayByte(MaskLun(c), |b|, Meaningful(b[0]))
  {
    var i :| 1 <= i < |b| && i !in Meaningful(b[0]) && (if i == 1 then b[1] % 32 else b[i]) != 0;
    assert c[i] == c[..|b|][i];
    assert MaskLun(c)[i] != 0 && i !in Meaningful(b[0]);
  }

  lemma HostStrays(e: Exchange)
    requires e.Answered() && e.cmd.present
    requires IsCommand(e.cmd.cbw.cdb, e.cmd.before.cdrom) && Strays(e.cmd.cbw.cdb)
    ensures NothingDone(e)
  {
    BlockBytes(e.cmd.cdb, e.cmd.cbw.cdb);
    MaskIs(e.cmd.cdb, |e.cmd.cbw.cdb|, e.cmd.before);
    StrayFound(e.cmd.cdb, e.cmd.cbw.cdb);
    StrayStops(e.cmd.Expects(), e.cmd.wants, e.cmd.cdb, e.cmd.Unit());
    Refusals(e);
  }

  // A READ or WRITE with flags other than the two for the cache.
  predicate Misflagged(b: seq<byte>) {
    && |b| > 1 && b[0] in {0x28, 0x2a, 0x88, 0x8a, 0xa8, 0xaa}
    && b[1] % 32 != 0 && b[1] % 32 != 0x08 && b[1] % 32 != 0x10 && b[1] % 32 != 0x18
  }

  lemma FlagsMeant(c: Cdb, b: seq<byte>, unit: Option<LunView>)
    requires Holds(c, b) && Misflagged(b)
    ensures Decode(c, |b|, unit).handler.DoRead? || Decode(c, |b|, unit).handler.DoWrite?
    ensures !FlagsOk(MaskLun(c))
  {
    assert c[0] == c[..|b|][0] && c[1] == c[..|b|][1];
  }

  lemma FlagsRefused(e: Exchange)
    requires e.Answered() && e.cmd.present && !FlagsOk(e.cmd.verdict.cmnd)
    requires e.cmd.Runs(DoRead) || e.cmd.Runs(DoWrite)
    ensures NothingDone(e)
  {
    HandlersAreSafe(e.cmd.Expects(), e.cmd.cdb, e.cmd.Unit());
  }

  lemma HostFlags(e: Exchange)
    requires e.Answered() && e.cmd.present && Misflagged(e.cmd.cbw.cdb)
    ensures NothingDone(e)
  {
    FlagsMeant(e.cmd.cdb, e.cmd.cbw.cdb, e.cmd.Unit());
    if e.cmd.verdict.reply != 0 {
      Refusals(e);
    } else {
      HandlersAreSafe(e.cmd.Expects(), e.cmd.cdb, e.cmd.Unit());
      FlagsRefused(e);
    }
  }

  // ------------------------------------------------------------ no command

  lemma NothingMeant(c: Cdb, b: seq<byte>, v: LunView)
    requires Holds(c, b) && b != [] && !IsCommand(b, v.cdrom) && (b[0] == 0x9e ==> |b| > 1)
    ensures Decode(c, |b|, Some(v)) == Request(DoUnknown, 0, Unknown, |b|, ALL_BYTES, false)
  {
    BlockBytes(c, b);
  }

  lemma UnknownPasses(h: Host, c: Cdb, v: LunView)
    requires h.length <= CDB_SIZE && v.unitAttention == NO_SENSE && c[0] != 0x03
    ensures var d := Check(h, Request(DoUnknown, 0, Unknown, h.length, ALL_BYTES, false), c, Some(v));
            d.reply == 0 && !d.phaseError
  {
  }

  lemma UnknownRefused(e: Exchange)
    requires e.Answered() && e.cmd.present && e.cmd.Runs(DoUnknown)
    ensures e.SmallEffect() && e.StatusRight() && e.data == []
  {
  }

  // What is no command is refused as an invalid command.
  lemma HostUnknown(e: Exchange)
    requires e.Answered() && e.cmd.present && e.cmd.before.unitAttention == 0
    requires var b := e.cmd.cbw.cdb; !IsCommand(b, e.cmd.before.cdrom) && (b[0] == 0x9e ==> |b| > 1)
    ensures e.data == [] && e.stored == 0 && e.csw.status == StatFail
    ensures e.after == e.cmd.before.(senseData := 0x052000, senseDataInfo := 0, infoValid := false)
  {
    NothingMeant(e.cmd.cdb, e.cmd.cbw.cdb, e.cmd.before);
    BlockBytes(e.cmd.cdb, e.cmd.cbw.cdb);
    UnknownPasses(e.cmd.Expects(), e.cmd.cdb, e.cmd.before);
    UnknownRefused(e);
  }

  // ------------------------------------------------------------ what can change the drive

  // A WRITE, PREVENT ALLOW MEDIUM REMOVAL, or START STOP UNIT that asks for the medium
  // while the door is open.
  predicate MayChange(b: seq<byte>, prevent: bool) {
    b != [] && (b[0] in {0x0a, 0x2a, 0x8a, 0xaa, 0x1e}
                || (b[0] == 0x1b && |b| >= 6 && WantsOut(b[4]) && !prevent))
  }

  lemma WhoChanges(c: Cdb, length: nat, unit: Option<LunView>)
    ensures var r := Decode(c, length, unit);
            && (r.handler.DoWrite? ==> c[0] in {0x0a, 0x2a, 0x8a, 0xaa})
            && (r.handler.DoPreventAllow? ==> c[0] == 0x1e)
            && (r.handler.DoStartStop? ==> c[0] == 0x1b && r.need == 6)
  {
  }

  lemma NoEject(e: Exchange)
    requires e.StartStopEffect() && !(WantsOut(e.cmd.verdict.cmnd[4]) && !e.cmd.before.prevent)
    ensures OnlySense(e.after, e.cmd.before)
  {
  }

  lemma LooksOnly(e: Exchange)
    requires e.ReadEffect() || e.VerifyEffect()
    ensures OnlySense(e.after, e.cmd.before)
  {
  }

  lemma SenseOnly(e: Exchange)
    requires e.SenseEffect()
    ensures OnlySense(e.after, e.cmd.before)
  {
  }

  lemma DoorKept(e: Exchange)
    requires e.SmallEffect() && !e.cmd.wants.handler.DoPreventAllow?
    ensures OnlySense(e.after, e.cmd.before)
  {
  }

  lemma NoChange(e: Exchange)
    requires e.Effect() && e.cmd.verdict.reply == 0
    requires !e.cmd.wants.handler.DoWrite? && !e.cmd.wants.handler.DoPreventAllow?
    requires e.cmd.wants.handler.DoStartStop? ==>
               !(WantsOut(e.cmd.verdict.cmnd[4]) && !e.cmd.before.prevent)
    ensures OnlySense(e.after, e.cmd.before)
  {
    if e.cmd.wants.handler.DoStartStop? {
      NoEject(e);
    } else if e.cmd.wants.handler.DoRead? || e.cmd.wants.handler.DoVerify? {
      LooksOnly(e);
    } else if e.cmd.wants.handler.DoRequestSense? {
      SenseOnly(e);
    } else {
      DoorKept(e);
    }
  }

  // Every other command leaves the medium with all its bytes, the door and the attributes
  // as they were: sense data and a reported attention are all that changes.
  lemma HostKeeps(e: Exchange)
    requires e.Answered() && !MayChange(e.cmd.cbw.cdb, e.cmd.before.prevent)
    ensures OnlySense(e.after, e.cmd.before)
  {
    if !e.cmd.present {
      AbsentPassed(e);
    } else if e.cmd.verdict.reply != 0 {
      Refusals(e);
    } else {
      BlockBytes(e.cmd.cdb, e.cmd.cbw.cdb);
      WhoChanges(e.cmd.cdb, |e.cmd.cbw.cdb|, e.cmd.Unit());
      HandlersAreSafe(e.cmd.Expects(), e.cmd.cdb, e.cmd.Unit());
      Admitted(e.cmd);
      NoChange(e);
    }
  }

  // What is let pass is as long as it needs to be.
  lemma Admitted(c: Command)
    requires c.Ok() && c.Sound() && c.verdict.reply == 0
    ensures c.wants.need <= |c.cbw.cdb|
  {
  }
}
