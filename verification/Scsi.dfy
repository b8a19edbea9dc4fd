// What a command descriptor block asks for, and what check_command makes of it.
module Scsi {
  import opened Base
  import opened Storage

  datatype DataDir = Unknown | FromHost | ToHost | NoData

  const TEST_UNIT_READY: nat := 0x00
  const REQUEST_SENSE: nat := 0x03
  const READ_6: nat := 0x08
  const WRITE_6: nat := 0x0a
  const INQUIRY: nat := 0x12
  const MODE_SELECT: nat := 0x15
  const MODE_SENSE: nat := 0x1a
  const START_STOP: nat := 0x1b
  const ALLOW_MEDIUM_REMOVAL: nat := 0x1e
  const READ_FORMAT_CAPACITIES: nat := 0x23
  const READ_CAPACITY: nat := 0x25
  const READ_10: nat := 0x28
  const WRITE_10: nat := 0x2a
  const VERIFY: nat := 0x2f
  const SYNCHRONIZE_CACHE: nat := 0x35
  const READ_TOC: nat := 0x43
  const READ_HEADER: nat := 0x44
  const MODE_SELECT_10: nat := 0x55
  const MODE_SENSE_10: nat := 0x5a
  const READ_16: nat := 0x88
  const WRITE_16: nat := 0x8a
  const SERVICE_ACTION_IN_16: nat := 0x9e
  const READ_12: nat := 0xa8
  const WRITE_12: nat := 0xaa
  const SAI_READ_CAPACITY_16: nat := 0x10

  // MAX_COMMAND_SIZE
  const CDB_SIZE: nat := 16

  type Cdb = s: seq<byte> | |s| == CDB_SIZE witness seq(CDB_SIZE, i => 0)

  function Be16(c: Cdb, i: nat): nat
    requires i + 2 <= CDB_SIZE
  {
    c[i] as nat * 0x100 + c[i + 1]
  }

  function Be24(c: Cdb, i: nat): nat
    requires i + 3 <= CDB_SIZE
  {
    c[i] as nat * 0x1_0000 + Be16(c, i + 1)
  }

  function Be32(c: Cdb, i: nat): nat
    requires i + 4 <= CDB_SIZE
  {
    Be16(c, i) * 0x1_0000 + Be16(c, i + 2)
  }

  function Be64(c: Cdb, i: nat): nat
    requires i + 8 <= CDB_SIZE
  {
    Be32(c, i) * U32 + Be32(c, i + 4)
  }

  datatype Handler =
    | DoInquiry | DoModeSelect | DoModeSense | DoPreventAllow | DoRead | DoWrite
    | DoReadCapacity | DoReadCapacity16 | DoReadHeader | DoReadToc | DoReadFormatCapacities
    | DoRequestSense | DoStartStop | DoSynchronizeCache | DoTestUnitReady | DoVerify | DoUnknown

  // What do_scsi_command passes to check_command for one opcode: the data size
  // and direction the command implies, the command length it needs, the bytes
  // of the command that may be non-zero, and whether it needs a medium.
  datatype Request = Request(
    handler: Handler, size: nat, dir: DataDir, need: nat, mask: set<nat>, medium: bool)

  const ALL_BYTES: set<nat> := set i: nat | i < CDB_SIZE

  // A transfer length in blocks, shifted to bytes in a u32.
  function InBlocks(unit: Option<LunView>, count: nat): (size: nat)
    ensures size == count || size < U32
  {
    if unit.Some? then (count * unit.value.blksize) % U32 else count
  }

  function Count6(c: Cdb): nat {
    if c[4] == 0 then 256 else c[4]
  }

  function Decode(c: Cdb, length: nat, unit: Option<LunView>): Request {
    var op := c[0];
    var cd := unit.Some? && unit.value.cdrom;
    if op == INQUIRY then Request(DoInquiry, c[4], ToHost, 6, {4}, false)
    else if op == MODE_SELECT then Request(DoModeSelect, c[4], FromHost, 6, {1, 4}, false)
    else if op == MODE_SELECT_10 then
      Request(DoModeSelect, Be16(c, 7), FromHost, 10, {1, 7, 8}, false)
    else if op == MODE_SENSE then Request(DoModeSense, c[4], ToHost, 6, {1, 2, 4}, false)
    else if op == MODE_SENSE_10 then
      Request(DoModeSense, Be16(c, 7), ToHost, 10, {1, 2, 7, 8}, false)
    else if op == ALLOW_MEDIUM_REMOVAL then Request(DoPreventAllow, 0, NoData, 6, {4}, false)
    else if op == READ_6 then
      Request(DoRead, InBlocks(unit, Count6(c)), ToHost, 6, {1, 2, 3, 4}, true)
    else if op == READ_10 then
      Request(DoRead, InBlocks(unit, Be16(c, 7)), ToHost, 10, {1, 2, 3, 4, 5, 7, 8}, true)
    else if op == READ_12 then
      Request(DoRead, InBlocks(unit, Be32(c, 6)), ToHost, 12, {1, 2, 3, 4, 5, 6, 7, 8, 9}, true)
    else if op == READ_16 then
      Request(DoRead, InBlocks(unit, Be32(c, 10)), ToHost, 16,
              {1, 2, 3, 4, 5, 6, 7, 8, 9, 10, 11, 12, 13}, true)
    else if op == READ_CAPACITY then
      Request(DoReadCapacity, 8, ToHost, 10, {2, 3, 4, 5, 8}, true)
    else if op == READ_HEADER && cd then
      Request(DoReadHeader, Be16(c, 7), ToHost, 10, {1, 2, 3, 4, 5, 7, 8}, true)
    else if op == READ_TOC && cd then
      Request(DoReadToc, Be16(c, 7), ToHost, 10, {1, 2, 6, 7, 8, 9}, true)
    else if op == READ_FORMAT_CAPACITIES then
      Request(DoReadFormatCapacities, Be16(c, 7), ToHost, 10, {7, 8}, true)
    else if op == REQUEST_SENSE then Request(DoRequestSense, c[4], ToHost, 6, {4}, false)
    else if op == SERVICE_ACTION_IN_16 && c[1] % 32 == SAI_READ_CAPACITY_16 then
      Request(DoReadCapacity16, Be32(c, 10), ToHost, 16,
              {1, 2, 3, 4, 5, 6, 7, 8, 9, 10, 11, 12, 13, 14}, true)
    else if op == START_STOP then Request(DoStartStop, 0, NoData, 6, {1, 4}, false)
    else if op == SYNCHRONIZE_CACHE then
      Request(DoSynchronizeCache, 0, NoData, 10, {2, 3, 4, 5, 7, 8}, true)
    else if op == TEST_UNIT_READY then Request(DoTestUnitReady, 0, NoData, 6, {}, true)
    else if op == VERIFY then Request(DoVerify, 0, NoData, 10, {1, 2, 3, 4, 5, 7, 8}, true)
    else if op == WRITE_6 then
      Request(DoWrite, InBlocks(unit, Count6(c)), FromHost, 6, {1, 2, 3, 4}, true)
    else if op == WRITE_10 then
      Request(DoWrite, InBlocks(unit, Be16(c, 7)), FromHost, 10, {1, 2, 3, 4, 5, 7, 8}, true)
    else if op == WRITE_12 then
      Request(DoWrite, InBlocks(unit, Be32(c, 6)), FromHost, 12, {1, 2, 3, 4, 5, 6, 7, 8, 9}, true)
    else if op == WRITE_16 then
      Request(DoWrite, InBlocks(unit, Be32(c, 10)), FromHost, 16,
              {1, 2, 3, 4, 5, 6, 7, 8, 9, 10, 11, 12, 13}, true)
    else Request(DoUnknown, 0, Unknown, length, ALL_BYTES, false)
  }

  // What the command block wrapper announced: direction, data size and command
  // length.
  datatype Host = Host(dir: DataDir, size: nat, length: nat) {
    // The direction flag means nothing when no data is expected.
    ghost predicate Ok() {
      && (dir == FromHost || dir == ToHost || dir == NoData)
      && (dir == NoData <==> size == 0)
      && 1 <= length <= CDB_SIZE
    }
  }

  // Everything check_command decides.
  datatype Verdict = Verdict(
    reply: int, phaseError: bool, size: nat, cmnd: Cdb, unit: Option<LunView>)

  // The command with its LUN bits cleared.
  function MaskLun(c: Cdb): Cdb {
    c[1 := c[1] % 32]
  }

  // Some byte of the command outside the mask is non-zero.
  predicate StrayByte(c: Cdb, length: nat, mask: set<nat>)
    requires length <= CDB_SIZE
  {
    exists i | 1 <= i < length :: c[i] != 0 && i !in mask
  }

  predicate ExemptFromAttention(c: Cdb) {
    c[0] == INQUIRY || c[0] == REQUEST_SENSE
  }

  // check_command from the check of the command bytes on.
  function CheckRest(r: Request, length: nat, c: Cdb, unit: Option<LunView>,
                     phaseError: bool, size: nat): Verdict
    requires length <= CDB_SIZE
  {
    var m := MaskLun(c);
    if StrayByte(m, length, r.mask) then
      Verdict(EINVAL, phaseError, size, m,
              if unit.Some? then Some(unit.value.WithSense(INVALID_FIELD_IN_CDB)) else None)
    else if unit.Some? && !unit.value.IsOpen() && r.medium then
      Verdict(EINVAL, phaseError, size, m, Some(unit.value.WithSense(MEDIUM_NOT_PRESENT)))
    else Verdict(0, phaseError, size, m, unit)
  }

  // check_command from the LUN checks on, when size, direction and length pass.
  function CheckUnit(r: Request, length: nat, c: Cdb, unit: Option<LunView>,
                     phaseError: bool, size: nat): Verdict
    requires length <= CDB_SIZE
  {
    if unit.None? then
      if ExemptFromAttention(c) then CheckRest(r, length, c, unit, phaseError, size)
      else Verdict(EINVAL, phaseError, size, c, unit)
    else
      var v := if c[0] == REQUEST_SENSE then unit.value else unit.value.ClearSense();
      if v.unitAttention != NO_SENSE && !ExemptFromAttention(c) then
        Verdict(EINVAL, phaseError, size, c,
                Some(v.(senseData := v.unitAttention, unitAttention := NO_SENSE)))
      else CheckRest(r, length, c, Some(v), phaseError, size)
  }

  // check_command
  function Check(h: Host, r: Request, c: Cdb, unit: Option<LunView>): Verdict
    requires h.length <= CDB_SIZE
  {
    var dir := if r.size == 0 then NoData else r.dir;
    var size := Min(r.size, h.size);
    var short := h.size < r.size;
    if h.dir != dir && size > 0 then Verdict(EINVAL, true, size, c, unit)
    else if r.need > h.length then Verdict(EINVAL, true, size, c, unit)
    else CheckUnit(r, h.length, c, unit, short, size)
  }

  // The thirteen cases of section 6.7 of the Bulk-Only Transport specification,
  // revision 1.0: what the host expects against what the device intends.
  function ThirteenCase(h: Host, dir: DataDir, size: nat): nat {
    if h.size == 0 then
      if size == 0 then 1 else if dir == ToHost then 2 else 3
    else if h.dir == ToHost then
      if size == 0 then 4
      else if dir == FromHost then 8
      else if h.size > size then 5 else if h.size == size then 6 else 7
    else
      if size == 0 then 9
      else if dir == ToHost then 10
      else if h.size > size then 11 else if h.size == size then 12 else 13
  }

  // The cases in which the device cannot satisfy the host's expectation.
  predicate PhaseErrorCase(n: nat) {
    n == 2 || n == 3 || n == 7 || n == 8 || n == 10 || n == 13
  }

  // Every data command names the direction its data goes.
  lemma DecodeDirections(c: Cdb, length: nat, unit: Option<LunView>)
    ensures var r := Decode(c, length, unit);
            r.size > 0 ==> r.dir == ToHost || r.dir == FromHost
  {
  }

  // The data commands work on the medium, and each moves data one way.
  predicate WellFormed(r: Request) {
    && (r.handler.DoRead? ==> r.medium && r.dir == ToHost)
    && (r.handler.DoWrite? ==> r.medium && r.dir == FromHost)
    && (r.handler.DoVerify? ==> r.medium)
    && (r.medium ==> !r.handler.DoRequestSense?)
  }

  lemma DecodeWellFormed(c: Cdb, length: nat, unit: Option<LunView>)
    ensures WellFormed(Decode(c, length, unit))
  {
  }

  // No handler runs without the unit it works on, nor a data command without an
  // open medium whose arrival has been reported; and none runs with the data
  // going the wrong way.
  lemma HandlersAreSafe(h: Host, c: Cdb, unit: Option<LunView>)
    requires h.length <= CDB_SIZE && Check(h, Decode(c, h.length, unit), c, unit).reply == 0
    ensures var r := Decode(c, h.length, unit);
            var v := Check(h, r, c, unit);
            && (r.handler != DoInquiry && r.handler != DoRequestSense ==> unit.Some?)
            && (unit.Some? <==> v.unit.Some?)
            && (r.medium ==> v.unit.Some? && v.unit.value.IsOpen() && v.unit.value.unitAttention == NO_SENSE)
            && (unit.Some? && r.handler != DoRequestSense ==> v.unit.value == unit.value.ClearSense())
            && (unit.Some? && r.handler == DoRequestSense ==> v.unit == unit)
            && (v.size > 0 ==> h.dir == r.dir) && v.cmnd == MaskLun(c) && v.size <= h.size
  {
  }

  lemma PassedOrRefused(h: Host, r: Request, c: Cdb, unit: Option<LunView>)
    requires h.length <= CDB_SIZE
    ensures Check(h, r, c, unit).reply == 0 || Check(h, r, c, unit).reply == EINVAL
  {
  }

  // No command that works on the medium may ignore a unit attention.
  lemma MediumNotExempt(c: Cdb, length: nat, unit: Option<LunView>)
    ensures Decode(c, length, unit).medium ==> c[0] != 0x12 && c[0] != 0x03
  {
  }

  lemma RestKeepsAttention(r: Request, length: nat, c: Cdb, v: LunView, phaseError: bool, size: nat)
    requires length <= CDB_SIZE
    ensures var d := CheckRest(r, length, c, Some(v), phaseError, size);
            d.unit.Some? && d.unit.value.unitAttention == v.unitAttention
  {
  }

  lemma UnitAttention(r: Request, length: nat, c: Cdb, v: LunView, phaseError: bool, size: nat)
    requires length <= CDB_SIZE
    ensures var d := CheckUnit(r, length, c, Some(v), phaseError, size);
            && d.unit.Some?
            && (if c[0] != 0x12 && c[0] != 0x03 && v.unitAttention != NO_SENSE then
                  && d.reply == EINVAL && d.unit.value.senseData == v.unitAttention
                  && d.unit.value.unitAttention == NO_SENSE
                else d.unit.value.unitAttention == v.unitAttention)
  {
    RestKeepsAttention(r, length, c, v, phaseError, size);
    RestKeepsAttention(r, length, c, v.ClearSense(), phaseError, size);
  }

  // With a unit attention pending, check_command either reports it, refuses the
  // command for its form, or lets INQUIRY or REQUEST SENSE go on; it clears it exactly
  // when it reports it.
  lemma CheckAttention(h: Host, r: Request, c: Cdb, v: LunView)
    requires h.length <= CDB_SIZE
    ensures var size := Min(r.size, h.size);
            var inForm := (size > 0 ==> h.dir == r.dir) && r.need <= h.length;
            var d := Check(h, r, c, Some(v));
            && d.unit.Some?
            && (if inForm && c[0] != 0x12 && c[0] != 0x03 && v.unitAttention != NO_SENSE then
                  && d.reply == EINVAL && d.unit.value.senseData == v.unitAttention
                  && d.unit.value.unitAttention == NO_SENSE
                else d.unit.value.unitAttention == v.unitAttention)
            && (d.reply == 0 ==> inForm)
  {
    UnitAttention(r, h.length, c, v, h.size < r.size, Min(r.size, h.size));
  }

  // A phase error is reported in exactly six of the thirteen cases, and when
  // the command block is shorter than its opcode needs.
  lemma PhaseErrorExactly(h: Host, r: Request, c: Cdb, unit: Option<LunView>)
    requires h.Ok() && (r.size > 0 ==> r.dir == ToHost || r.dir == FromHost)
    ensures Check(h, r, c, unit).phaseError
            <==> PhaseErrorCase(ThirteenCase(h, r.dir, r.size)) || r.need > h.length
    ensures Check(h, r, c, unit).size <= h.size
  {
  }

  // The lba of a READ or WRITE.
  function CommandLba(c: Cdb): nat {
    if c[0] == READ_6 || c[0] == WRITE_6 then Be24(c, 1)
    else if c[0] == READ_16 || c[0] == WRITE_16 then Be64(c, 2)
    else Be32(c, 2)
  }

  // The byte at which a READ or WRITE starts.
  function CommandOffset(c: Cdb, blksize: nat): nat {
    Times(CommandLba(c), blksize)
  }

  // Only the DPO and FUA bits of byte 1 may be set, except in the 6-byte forms.
  predicate FlagsOk(c: Cdb) {
    c[0] == READ_6 || c[0] == WRITE_6 || (c[1] % 8 == 0 && c[1] < 32)
  }

  // The command passes the checks do_read makes before it moves any data.
  predicate ReadAdmitted(c: Cdb, v: LunView) {
    FlagsOk(c) && CommandLba(c) < v.numSectors
  }

  predicate WriteAdmitted(c: Cdb, v: LunView) {
    !v.ro && FlagsOk(c) && CommandLba(c) < v.numSectors
  }

  // do_verify checks its blocks, if there are any.
  predicate VerifyAdmitted(c: Cdb, v: LunView) {
    Be32(c, 2) < v.numSectors && c[1] % 16 == 0 && c[1] < 32
  }

  // What the others are refused with.
  function ReadRefusal(c: Cdb): SenseCode {
    if !FlagsOk(c) then INVALID_FIELD_IN_CDB else LBA_OUT_OF_RANGE
  }

  function WriteRefusal(c: Cdb, v: LunView): SenseCode {
    if v.ro then WRITE_PROTECTED else ReadRefusal(c)
  }

  function VerifyRefusal(c: Cdb, v: LunView): SenseCode {
    if Be32(c, 2) >= v.numSectors then LBA_OUT_OF_RANGE else INVALID_FIELD_IN_CDB
  }

  // START STOP UNIT asks for an eject.
  predicate AsksToEject(c: Cdb) {
    c[4] % 2 == 0 && c[4] >= 2
  }

  // What START STOP UNIT is refused with, if it is.
  function StartStopSense(c: Cdb, v: LunView): SenseCode {
    if !v.removable then INVALID_COMMAND
    else if c[1] > 1 || c[4] > 3 then INVALID_FIELD_IN_CDB
    else if c[4] % 2 == 1 && !v.IsOpen() then MEDIUM_NOT_PRESENT
    else if c[4] % 2 == 0 && v.prevent then MEDIUM_REMOVAL_PREVENTED
    else NO_SENSE
  }

  // The handlers that need neither the bytes of the medium nor its lock.
  predicate Small(h: Handler) {
    !h.DoRead? && !h.DoWrite? && !h.DoVerify? && !h.DoRequestSense? && !h.DoStartStop?
  }

  // The format of READ TOC, which may be in either of two fields.
  function TocFormat(c: Cdb): nat {
    if c[2] % 16 == 0 then c[9] / 64 else c[2] % 16
  }

  // What one of them is refused with, if it is.
  function SmallSense(h: Handler, c: Cdb, v: LunView): SenseCode {
    if h.DoModeSense? then
      if c[1] != 0 && c[1] != 8 then INVALID_FIELD_IN_CDB
      else if c[2] / 64 == 3 then SAVING_NOT_SUPPORTED
      else if c[2] % 64 != 0x08 && c[2] % 64 != 0x3f then INVALID_FIELD_IN_CDB
      else NO_SENSE
    else if h.DoPreventAllow? then
      if !v.removable then INVALID_COMMAND else if c[4] > 1 then INVALID_FIELD_IN_CDB else NO_SENSE
    else if h.DoReadCapacity? then
      if c[8] > 1 || (c[8] == 0 && Be32(c, 2) != 0) then INVALID_FIELD_IN_CDB else NO_SENSE
    else if h.DoReadCapacity16? then
      if c[14] > 1 || (c[14] == 0 && Be64(c, 2) != 0) then INVALID_FIELD_IN_CDB else NO_SENSE
    else if h.DoReadHeader? then
      if c[1] != 0 && c[1] != 2 then INVALID_FIELD_IN_CDB
      else if Be32(c, 2) >= v.numSectors then LBA_OUT_OF_RANGE else NO_SENSE
    else if h.DoReadToc? then
      if (c[1] != 0 && c[1] != 2) || (c[6] > 1 && c[2] % 16 != 1) || TocFormat(c) > 2 then
        INVALID_FIELD_IN_CDB
      else NO_SENSE
    else if h.DoModeSelect? || h.DoUnknown? then INVALID_COMMAND
    else NO_SENSE
  }

  // How many bytes it has to send if it is not.
  function SmallLength(h: Handler, c: Cdb): (n: nat)
    ensures n <= 40
  {
    if h.DoInquiry? then 36
    else if h.DoModeSense? then (if c[0] == MODE_SENSE then 4 else 8) + 12
    else if h.DoReadCapacity? then 8
    else if h.DoReadCapacity16? then 32
    else if h.DoReadHeader? then 8
    else if h.DoReadToc? then if TocFormat(c) == 2 then 4 + 3 * 11 else 4 + 2 * 8
    else if h.DoReadFormatCapacities? then 12
    else 0
  }

  // put_unaligned_be32 and put_unaligned_be64
  function Be32Bytes(x: nat): (s: seq<byte>)
    ensures |s| == 4
  {
    [x / 0x100_0000 % 0x100, x / 0x1_0000 % 0x100, x / 0x100 % 0x100, x % 0x100]
  }

  function Be64Bytes(x: nat): (s: seq<byte>)
    ensures |s| == 8
  {
    Be32Bytes(x / U32) + Be32Bytes(x % U32)
  }

  // The number of the last block.
  function LastBlock(v: LunView): nat {
    if v.numSectors == 0 then 0 else v.numSectors - 1
  }

  // The one mode page there is; asked for what can be changed, nothing.
  function ModePage(changeable: bool): (s: seq<byte>)
    ensures |s| == 12
  {
    if changeable then [0x08, 10] + seq(10, i => 0)
    else [0x08, 10, 0x04, 0, 0xff, 0xff, 0, 0, 0xff, 0xff, 0xff, 0xff]
  }

  // The header before it, which shows the write protection.
  function ModeHeader(six: bool, ro: bool): (s: seq<byte>)
    ensures |s| == if six then 4 else 8
  {
    var wp := if ro then 0x80 else 0;
    if six then [15, 0, wp, 0] else [0, 18, 0, wp, 0, 0, 0, 0]
  }

  // The handlers whose replies are modelled byte by byte.
  predicate Described(h: Handler) {
    h.DoReadCapacity? || h.DoReadCapacity16? || h.DoReadFormatCapacities? || h.DoModeSense?
  }

  // What they reply if they do.
  function Table(h: Handler, c: Cdb, v: LunView): (s: seq<byte>)
    requires Described(h)
    ensures |s| == SmallLength(h, c)
  {
    if h.DoReadCapacity? then Be32Bytes(Min(LastBlock(v), U32 - 1)) + Be32Bytes(v.blksize)
    else if h.DoReadCapacity16? then Be64Bytes(LastBlock(v)) + Be32Bytes(v.blksize) + seq(20, i => 0)
    else if h.DoReadFormatCapacities? then
      [0, 0, 0, 8] + Be32Bytes(v.numSectors) + [0x02] + Be32Bytes(v.blksize)[1..]
    else ModeHeader(c[0] == MODE_SENSE, v.ro) + ModePage(c[2] / 64 == 1)
  }

  // Sense data as REQUEST SENSE reports it.
  datatype Sense = Sense(code: SenseCode, info: u32, valid: bool)

  function SenseOf(v: LunView): Sense {
    Sense(v.senseData, v.senseDataInfo, v.infoValid)
  }

  const SENSE_LENGTH: nat := 18

  // The eighteen bytes do_request_sense builds.
  function SenseReply(s: Sense): (r: seq<byte>)
    ensures |r| == SENSE_LENGTH
  {
    [if s.valid then 0xf0 else 0x70, 0, s.code / 0x1_0000 % 0x100,
     s.info / 0x100_0000 % 0x100, s.info / 0x1_0000 % 0x100, s.info / 0x100 % 0x100, s.info % 0x100,
     SENSE_LENGTH - 8, 0, 0, 0, 0, s.code / 0x100 % 0x100, s.code % 0x100, 0, 0, 0, 0]
  }

  // What a host reads out of a reply of at least fourteen bytes.
  function ParseSense(r: seq<byte>): Sense
    requires |r| >= 14
  {
    Sense(r[2] as nat * 0x1_0000 + r[12] as nat * 0x100 + r[13],
          r[3] as nat * 0x100_0000 + r[4] as nat * 0x1_0000 + r[5] as nat * 0x100 + r[6],
          r[0] >= 0x80)
  }

  // A host that asks for fourteen bytes or more gets key, code, qualifier and
  // information field back exactly.
  lemma SenseRoundTrip(s: Sense, n: nat)
    requires 14 <= n <= SENSE_LENGTH
    ensures ParseSense(SenseReply(s)[..n]) == s
  {
    Bytes3(s.code);
    Bytes4(s.info);
  }

  lemma Bytes3(x: nat)
    requires x < 0x100_0000
    ensures x / 0x1_0000 % 0x100 * 0x1_0000 + x / 0x100 % 0x100 * 0x100 + x % 0x100 == x
  {
    assert x / 0x1_0000 == x / 0x100 / 0x100;
  }

  lemma Bytes4(x: nat)
    requires x < U32
    ensures x / 0x100_0000 % 0x100 * 0x100_0000 + x / 0x1_0000 % 0x100 * 0x1_0000
            + x / 0x100 % 0x100 * 0x100 + x % 0x100 == x
  {
    assert x / 0x1_0000 == x / 0x100 / 0x100;
    assert x / 0x100_0000 == x / 0x1_0000 / 0x100;
  }

  // --- the command block and command status wrappers

  const CB_SIGN: seq<byte> := [0x55, 0x53, 0x42, 0x43]
  const CS_SIGN: seq<byte> := [0x55, 0x53, 0x42, 0x53]
  const CBW_LENGTH: nat := 31
  const CSW_LENGTH: nat := 13
  const MAX_LUNS: nat := 16

  function Le32(x: nat): (r: seq<byte>)
    ensures |r| == 4
  {
    [x % 0x100, x / 0x100 % 0x100, x / 0x1_0000 % 0x100, x / 0x100_0000 % 0x100]
  }

  function ParseLe32(r: seq<byte>): (x: nat)
    requires |r| == 4
    ensures x < U32
  {
    r[3] as nat * 0x100_0000 + r[2] as nat * 0x1_0000 + r[1] as nat * 0x100 + r[0]
  }

  lemma Le32RoundTrip(x: nat)
    requires x < U32
    ensures ParseLe32(Le32(x)) == x
  {
    Bytes4(x);
  }

  datatype Status = StatOk | StatFail | StatPhase {
    function Code(): byte {
      match this
      case StatOk => 0
      case StatFail => 1
      case StatPhase => 2
    }
  }

  datatype Csw = Csw(tag: nat, residue: nat, status: Status)

  function EncodeCsw(c: Csw): (r: seq<byte>)
    ensures |r| == CSW_LENGTH
  {
    CS_SIGN + Le32(c.tag) + Le32(c.residue) + [c.status.Code()]
  }

  function DecodeCsw(r: seq<byte>): Option<Csw> {
    if |r| == CSW_LENGTH && r[..4] == CS_SIGN && r[12] <= 2 then
      Some(Csw(ParseLe32(r[4..8]), ParseLe32(r[8..12]),
               if r[12] == 0 then StatOk else if r[12] == 1 then StatFail else StatPhase))
    else None
  }

  lemma CswRoundTrip(c: Csw)
    requires c.tag < U32 && c.residue < U32
    ensures DecodeCsw(EncodeCsw(c)) == Some(c)
  {
    var r := EncodeCsw(c);
    Le32RoundTrip(c.tag);
    Le32RoundTrip(c.residue);
    assert r[..4] == CS_SIGN && r[4..8] == Le32(c.tag) && r[8..12] == Le32(c.residue);
  }

  // A command block wrapper: tag, data size, direction flag, unit and command.
  datatype Cbw = Cbw(tag: nat, size: nat, toHost: bool, lun: nat, cdb: seq<byte>) {
    function Expects(): Host {
      Host.Host(if size == 0 then NoData else if toHost then ToHost else FromHost, size, |cdb|)
    }
  }

  datatype CbwResult = Invalid | Meaningless | Accepted(cbw: Cbw)

  // The checks of received_cbw on a bulk-out transfer of these bytes.
  function ParseCbw(r: seq<byte>): (c: CbwResult)
    ensures c.Accepted? ==> 1 <= |c.cbw.cdb| <= CDB_SIZE && c.cbw.lun < MAX_LUNS
                            && c.cbw.tag < U32 && c.cbw.size < U32
  {
    if |r| != CBW_LENGTH || r[..4] != CB_SIGN then Invalid
    else if r[13] >= MAX_LUNS || r[12] % 0x80 != 0 || r[14] == 0 || r[14] > CDB_SIZE then Meaningless
    else Accepted(Cbw(ParseLe32(r[4..8]), ParseLe32(r[8..12]), r[12] == 0x80, r[13],
                      r[15..15 + r[14] as nat]))
  }

  // The transfer that announces a command whose data, if any, goes this way.
  function EncodeCbw(c: Cbw): (r: seq<byte>)
    requires |c.cdb| <= CDB_SIZE && c.lun < MAX_LUNS
    ensures |r| == CBW_LENGTH
  {
    CB_SIGN + Le32(c.tag) + Le32(c.size) + [if c.toHost then 0x80 else 0, c.lun, |c.cdb|]
    + c.cdb + seq(CDB_SIZE - |c.cdb|, i => 0)
  }

  // A host that keeps to the format is understood as it means to be.
  lemma CbwRoundTrip(c: Cbw)
    requires 1 <= |c.cdb| <= CDB_SIZE && c.lun < MAX_LUNS && c.tag < U32 && c.size < U32
    ensures ParseCbw(EncodeCbw(c)) == Accepted(c)
  {
    var r := EncodeCbw(c);
    Le32RoundTrip(c.tag);
    Le32RoundTrip(c.size);
    assert r[..4] == CB_SIGN && r[4..8] == Le32(c.tag) && r[8..12] == Le32(c.size);
    assert r[15..15 + |c.cdb|] == c.cdb;
  }

  // Four bytes as a number, the lowest first.
  function LittleEndian(r: seq<byte>, i: nat): nat
    requires i + 4 <= |r|
  {
    r[i] as nat + 0x100 * r[i + 1] as nat + 0x1_0000 * r[i + 2] as nat + 0x100_0000 * r[i + 3] as nat
  }

  // The thirteen bytes of a status: signature, tag, residue and code.
  predicate IsStatus(r: seq<byte>, tag: nat, residue: nat, code: nat) {
    && |r| == 13 && LittleEndian(r, 0) == 0x5342_5355 && LittleEndian(r, 4) == tag
    && LittleEndian(r, 8) == residue && r[12] == code
  }

  function CodeOf(s: Status): nat {
    if s.StatOk? then 0 else if s.StatFail? then 1 else 2
  }

  lemma StatusBytes(c: Csw)
    requires c.tag < U32 && c.residue < U32
    ensures IsStatus(EncodeCsw(c), c.tag, c.residue, CodeOf(c.status))
  {
    Bytes4(c.tag);
    Bytes4(c.residue);
  }

  // The bytes of a wrapper that announces this command.
  predicate IsWrapper(r: seq<byte>, tag: nat, size: nat, toHost: bool, lun: nat, block: seq<byte>) {
    && |r| == 31 && LittleEndian(r, 0) == 0x4342_5355 && LittleEndian(r, 4) == tag && LittleEndian(r, 8) == size
    && r[12] == (if toHost then 0x80 else 0) && r[13] == lun < 16
    && r[14] == |block| && 1 <= |block| <= 16 && r[15..15 + |block|] == block
  }

  // Bytes are digits.
  lemma LowestByte(a: byte, b: byte, x: nat, y: nat)
    requires a as nat + 0x100 * x == b as nat + 0x100 * y
    ensures a == b && x == y
  {
  }

  lemma SameNumber(r: seq<byte>, s: seq<byte>)
    requires |r| >= 4 && |s| >= 4 && r[..4] == s[..4]
    ensures LittleEndian(r, 0) == LittleEndian(s, 0)
  {
    forall i | 0 <= i < 4
      ensures r[i] == s[i]
    {
      assert r[i] == r[..4][i];
    }
  }

  lemma SameBytes(r: seq<byte>, s: seq<byte>)
    requires |r| >= 4 && |s| >= 4 && LittleEndian(r, 0) == LittleEndian(s, 0)
    ensures r[..4] == s[..4]
  {
    LowestByte(r[0], s[0], r[1] as nat + 0x100 * r[2] as nat + 0x1_0000 * r[3] as nat,
               s[1] as nat + 0x100 * s[2] as nat + 0x1_0000 * s[3] as nat);
    LowestByte(r[1], s[1], r[2] as nat + 0x100 * r[3] as nat, s[2] as nat + 0x100 * s[3] as nat);
    LowestByte(r[2], s[2], r[3] as nat, s[3] as nat);
  }

  lemma Signature(r: seq<byte>)
    requires |r| >= 4
    ensures r[..4] == CB_SIGN <==> LittleEndian(r, 0) == 0x4342_5355
  {
    assert LittleEndian(CB_SIGN, 0) == 0x4342_5355;
    assert CB_SIGN[..4] == CB_SIGN;
    if LittleEndian(r, 0) == 0x4342_5355 {
      SameBytes(r, CB_SIGN);
    }
    if r[..4] == CB_SIGN {
      SameNumber(r, CB_SIGN);
    }
  }

  // A transfer is taken for a wrapper by its length and signature, and accepted exactly
  // if it announces some command, which is then the one accepted.
  lemma WrapperBytes(r: seq<byte>, c: Cbw)
    ensures ParseCbw(r).Invalid? <==> |r| != 31 || LittleEndian(r, 0) != 0x4342_5355
    ensures ParseCbw(r) == Accepted(c) <==> IsWrapper(r, c.tag, c.size, c.toHost, c.lun, c.cdb)
  {
    if |r| == 31 {
      Signature(r);
    }
  }
}
