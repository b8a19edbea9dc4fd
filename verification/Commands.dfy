// check_command and the commands that move no data of the medium.
module Commands {
  import opened Base
  import opened Storage
  import opened Scsi
  import opened Endpoints
  import opened Engine

  // ------------------------------------------------------------ check_command

  method HasStrayByte(c: Common, mask: set<nat>) returns (stray: bool)
    requires c.cmndSize <= CDB_SIZE
    ensures stray == StrayByte(c.cmnd, c.cmndSize, mask)
  {
    var i := 1;
    while i < c.cmndSize
      invariant 1 <= i
      invariant forall k | 1 <= k < i && k < c.cmndSize :: c.cmnd[k] == 0 || k in mask
    {
      if c.cmnd[i] != 0 && i !in mask {
        return true;
      }
      i := i + 1;
    }
    stray := false;
  }

  // The checks on the command bytes and the medium.
  method CheckBytes(c: Common, r: Request) returns (reply: int)
    requires c.Valid() && c.cmndSize <= CDB_SIZE
    modifies c`cmnd, c.lun0`senseData
    ensures c.Valid() && (c.curlun == null ==> c.lun0.View() == old(c.lun0.View()))
    ensures var v := CheckRest(r, c.cmndSize, old(c.cmnd), old(c.Unit()), c.phaseError, c.sizeFromCmnd);
            reply == v.reply && c.cmnd == v.cmnd && c.Unit() == v.unit
  {
    c.cmnd := MaskLun(c.cmnd);
    var stray := HasStrayByte(c, r.mask);
    reply := 0;
    if stray {
      if c.curlun != null {
        c.curlun.senseData := INVALID_FIELD_IN_CDB;
      }
      reply := EINVAL;
    } else if c.curlun != null && c.curlun.filp == None && r.medium {
      c.curlun.senseData := MEDIUM_NOT_PRESENT;
      reply := EINVAL;
    }
  }

  // A pending unit attention is reported by the first command that may not
  // ignore it.
  method ReportAttention(c: Common) returns (reported: bool)
    requires c.Valid() && c.curlun != null
    modifies c.lun0`senseData, c.lun0`unitAttention, c.lun0`loadPending
    ensures c.Valid()
    ensures reported == (old(c.lun0.unitAttention) != NO_SENSE && c.cmnd[0] != 0x12 && c.cmnd[0] != 0x03)
    ensures var v := old(c.lun0.View());
            c.lun0.View() == if reported then v.(senseData := v.unitAttention, unitAttention := NO_SENSE) else v
  {
    reported := c.curlun.unitAttention != NO_SENSE && !ExemptFromAttention(c.cmnd);
    if reported {
      c.curlun.senseData := c.curlun.unitAttention;
      c.curlun.unitAttention := NO_SENSE;
      c.curlun.loadPending := false;
    }
  }

  // A unit that exists starts each command but REQUEST SENSE with no sense data.
  method ClearSense(c: Common)
    requires c.Valid() && c.curlun != null
    modifies c.lun0`senseData, c.lun0`senseDataInfo, c.lun0`infoValid
    ensures c.Valid()
    ensures var v := old(c.lun0.View());
            c.lun0.View() == if c.cmnd[0] == REQUEST_SENSE then v else v.ClearSense()
  {
    if c.cmnd[0] != REQUEST_SENSE {
      c.curlun.senseData, c.curlun.senseDataInfo, c.curlun.infoValid := NO_SENSE, 0, false;
    }
  }

  // The checks on the unit addressed.
  method CheckLun(c: Common, r: Request) returns (reply: int)
    requires c.Valid() && c.cmndSize <= CDB_SIZE
    modifies c`cmnd, c`badLunOkay
    modifies c.lun0`senseData, c.lun0`senseDataInfo, c.lun0`infoValid
    modifies c.lun0`unitAttention, c.lun0`loadPending
    ensures c.Valid() && (c.curlun == null ==> !c.badLunOkay && c.lun0.View() == old(c.lun0.View()))
    ensures var v := CheckUnit(r, c.cmndSize, old(c.cmnd), old(c.Unit()), c.phaseError, c.sizeFromCmnd);
            reply == v.reply && c.cmnd == v.cmnd && c.Unit() == v.unit
  {
    if c.curlun != null {
      ClearSense(c);
      var reported := ReportAttention(c);
      if reported {
        return EINVAL;
      }
    } else {
      c.badLunOkay := false;
      if !ExemptFromAttention(c.cmnd) {
        return EINVAL;
      }
    }
    reply := CheckBytes(c, r);
  }

  // The checks on size, direction and length.
  method CheckSizes(c: Common, r: Request) returns (ok: bool)
    requires !c.phaseError
    modifies c`sizeFromCmnd, c`phaseError, c`residue, c`usbAmountLeft
    ensures c.residue == c.usbAmountLeft == c.dataSize && c.sizeFromCmnd == Min(r.size, c.dataSize)
    ensures ok <==> (c.dataDir == (if r.size == 0 then NoData else r.dir) || c.sizeFromCmnd == 0)
                    && r.need <= c.cmndSize
    ensures c.phaseError <==> c.dataSize < r.size || !ok
  {
    var dir := r.dir;
    c.sizeFromCmnd := r.size;
    if c.sizeFromCmnd == 0 {
      dir := NoData;
    }
    if c.dataSize < c.sizeFromCmnd {
      c.sizeFromCmnd := c.dataSize;
      c.phaseError := true;
    }
    c.residue, c.usbAmountLeft := c.dataSize, c.dataSize;
    ok := true;
    if c.dataDir != dir && c.sizeFromCmnd > 0 {
      c.phaseError, ok := true, false;
    } else if r.need > c.cmndSize {
      c.phaseError, ok := true, false;
    }
  }

  // Checking a command leaves the rest of struct fsg_common alone.
  twostate predicate OnlyChecked(c: Common)
    reads c
  {
    var wrapper := c.cbw == old(c.cbw) && c.tag == old(c.tag) && c.curlun == old(c.curlun)
                   && c.dataDir == old(c.dataDir) && c.dataSize == old(c.dataSize)
                   && c.cmndSize == old(c.cmndSize);
    var state := c.running == old(c.running) && c.ignoreBulkOut == old(c.ignoreBulkOut)
                 && c.locked == old(c.locked) && c.stored == old(c.stored)
                 && c.shortPacket == old(c.shortPacket) && c.fault == old(c.fault) && c.ioLog == old(c.ioLog)
                 && c.command == old(c.command);
    wrapper && state
  }

  // check_command, after the opcode has fixed what the command asks for.
  method CheckCommand(c: Common, r: Request) returns (reply: int)
    requires c.Valid() && c.cmndSize <= CDB_SIZE && !c.phaseError
    modifies c, c.lun0
    ensures OnlyChecked(c)
    ensures c.Valid() && c.residue == c.usbAmountLeft == c.dataSize && c.sizeFromCmnd <= c.dataSize
    ensures c.curlun == null ==>
              c.lun0.View() == old(c.lun0.View()) && (reply == 0 || !c.phaseError ==> !c.badLunOkay)
    ensures var v := Check(Host.Host(c.dataDir, c.dataSize, c.cmndSize), r, old(c.cmnd), old(c.Unit()));
            && reply == v.reply && c.phaseError == v.phaseError && c.sizeFromCmnd == v.size
            && c.cmnd == v.cmnd && c.Unit() == v.unit
  {
    var ok := CheckSizes(c, r);
    if ok {
      reply := CheckLun(c, r);
    } else {
      reply := EINVAL;
    }
  }

  // ------------------------------------------------------------ sysfs writers

  // What writers of ro, file and forced_eject can do while the thread does not
  // hold the lock.  A writer of file may have found the door unlocked some time ago.
  method SysfsStep(lun: Lun)
    requires lun.Valid()
    modifies lun
    ensures lun.Valid() && lun.View().Touched(old(lun.View()))
  {
    var what: int, ro: bool, buf: string, f: FileNode := *, *, *, *;
    var rc := 0;
    if what == 0 {
      rc := lun.StoreRo(ro);
    } else if f.Ok() {
      if what == 1 {
        rc := lun.StoreFile(buf, f);
      } else if what == 2 {
        rc := lun.Replace(StripNewline(buf), f);
      } else {
        lun.ForcedEject(f);
      }
    }
  }

  method SysfsSteps(c: Common)
    requires c.Valid() && !c.locked
    modifies c.lun0
    ensures c.Valid() && c.lun0.View().Touched(old(c.lun0.View()))
  {
    var n: nat := *;
    while n > 0
      invariant c.Valid() && c.lun0.View().Touched(old(c.lun0.View()))
    {
      ghost var v := c.lun0.View();
      SysfsStep(c.lun0);
      TouchedTwice(old(c.lun0.View()), v, c.lun0.View());
      n := n - 1;
    }
  }

  // ------------------------------------------------------------ replies

  // The reply buffer begins with these bytes.
  ghost predicate FilledWith(c: Common, data: seq<byte>)
    reads c.pipe`bufs, c.pipe`fill
  {
    && c.pipe.fill < |c.pipe.bufs| && |data| <= |c.pipe.bufs[c.pipe.fill].buf| == BUFLEN
    && c.pipe.bufs[c.pipe.fill].buf[..|data|] == data
  }

  // A reply of these bytes.
  method TableReply(c: Common, data: seq<byte>) returns (reply: int)
    requires c.Valid() && c.AtRest() && |data| <= 40
    modifies c.pipe
    ensures c.pipe.SamePast()
    ensures c.Valid() && c.AtRest() && reply == |data| && FilledWith(c, data)
  {
    c.pipe.ScratchData(data);
    reply := |data|;
  }

  // A reply whose bytes are a fixed table of this length.
  method FixedReply(c: Common, n: nat)
    requires c.Valid() && c.AtRest() && n <= 40
    modifies c.pipe
    ensures c.pipe.SamePast()
    ensures c.Valid() && c.AtRest()
  {
    var data: seq<byte> := *;
    if |data| != n {
      data := seq(n, i => 0);
    }
    c.pipe.ScratchData(data);
  }

  // The sense data do_request_sense reports; what is pending is cleared.
  method TakeSense(c: Common) returns (s: Sense)
    requires c.Valid()
    modifies c, c.lun0
    ensures c.SameCommand() && c.SameCounters()
    ensures c.Valid()
    ensures c.curlun == null ==> c.badLunOkay && c.lun0.View() == old(c.lun0.View())
                                 && s == Sense(UNIT_NOT_SUPPORTED, 0, false)
    ensures c.curlun != null ==> s == SenseOf(old(c.lun0.View()))
                                 && c.lun0.View() == old(c.lun0.View()).ClearSense()
  {
    if c.curlun == null {
      c.badLunOkay := true;
      s := Sense(UNIT_NOT_SUPPORTED, 0, false);
    } else {
      s := Sense(c.curlun.senseData, c.curlun.senseDataInfo, c.curlun.infoValid);
      c.curlun.senseData, c.curlun.senseDataInfo, c.curlun.infoValid := NO_SENSE, 0, false;
    }
  }

  method DoRequestSense(c: Common) returns (reply: int)
    requires c.Valid() && c.AtRest()
    modifies c, c.pipe, c.lun0
    ensures c.SameCommand() && c.SameCounters() && c.pipe.SamePast()
    ensures c.Valid() && c.AtRest() && reply == SENSE_LENGTH
    ensures c.pipe.bufs[c.pipe.fill].Ok()
    ensures c.curlun == null ==> c.badLunOkay && c.lun0.View() == old(c.lun0.View())
    ensures c.curlun == null ==>
              c.pipe.bufs[c.pipe.fill].buf[..SENSE_LENGTH] == SenseReply(Sense(UNIT_NOT_SUPPORTED, 0, false))
    ensures c.curlun != null ==>
              && c.lun0.View() == old(c.lun0.View()).ClearSense()
              && c.pipe.bufs[c.pipe.fill].buf[..SENSE_LENGTH] == SenseReply(SenseOf(old(c.lun0.View())))
  {
    var s := TakeSense(c);
    c.pipe.ScratchData(SenseReply(s));
    reply := SENSE_LENGTH;
  }

  // The hand-over of do_start_stop: the thread gives its lock up, takes it for
  // writing to close the medium, and then takes it for reading again; sysfs
  // writers may get in between.  If there is a medium afterwards, it was loaded
  // after the eject.
  method HandOver(c: Common)
    requires c.Valid() && c.locked
    modifies c, c.lun0
    ensures c.SameCommand() && c.SameCounters()
    ensures c.Valid() && c.locked && c.lun0.View().Ejected(old(c.lun0.View()))
  {
    c.locked := false;
    SysfsSteps(c);
    c.lun0.Close();
    SysfsSteps(c);
    c.locked := true;
  }

  // do_start_stop ejects exactly when it is asked to and may, and changes nothing
  // but the sense data otherwise.
  method DoStartStop(c: Common) returns (reply: int)
    requires c.Valid() && c.curlun != null && c.locked && c.lun0.senseData == NO_SENSE
    modifies c, c.lun0
    ensures c.SameCommand() && c.SameCounters()
    ensures c.Valid() && c.locked
    ensures reply == (if StartStopSense(c.cmnd, old(c.lun0.View())) == NO_SENSE then 0 else EINVAL)
    ensures c.lun0.senseData == StartStopSense(c.cmnd, old(c.lun0.View()))
    ensures if reply == 0 && c.cmnd[4] / 2 % 2 == 1 && c.cmnd[4] % 2 == 0
            then c.lun0.View().Ejected(old(c.lun0.View()))
            else c.lun0.View() == old(c.lun0.View()).WithSense(c.lun0.senseData)
  {
    var lun := c.lun0;
    if !lun.removable {
      lun.senseData := INVALID_COMMAND;
      return EINVAL;
    }
    if c.cmnd[1] > 1 || c.cmnd[4] > 3 {
      lun.senseData := INVALID_FIELD_IN_CDB;
      return EINVAL;
    }
    if c.cmnd[4] % 2 == 1 {
      if lun.filp == None {
        lun.senseData := MEDIUM_NOT_PRESENT;
        return EINVAL;
      }
      return 0;
    }
    if lun.prevent {
      lun.senseData := MEDIUM_REMOVAL_PREVENTED;
      return EINVAL;
    }
    if c.cmnd[4] >= 2 {
      HandOver(c);
    }
    return 0;
  }

  // ------------------------------------------------------------ small commands

  // How a handler that needs neither the bytes of the medium nor its lock ends.
  ghost predicate SmallReturned(c: Common, h: Handler, reply: int, v: LunView)
    reads c`cmnd, c`fault, c.lun0
  {
    var sense := SmallSense(h, c.cmnd, v);
    && reply == (if sense == NO_SENSE then SmallLength(h, c.cmnd) else EINVAL)
    && c.lun0.View() == (if h.DoSynchronizeCache? && c.fault then v.WithSense(WRITE_ERROR)
                         else v.WithSense(sense).(prevent := if h.DoPreventAllow? && sense == NO_SENSE
                                                             then c.cmnd[4] == 1 else v.prevent))
    && (h.DoSynchronizeCache? && c.fault ==> !v.ro)
  }

  // And what it replies, if it does and that is known byte by byte.
  ghost predicate SmallFilled(c: Common, h: Handler, reply: int, v: LunView)
    reads c`cmnd, c.pipe`bufs, c.pipe`fill
  {
    Described(h) && reply != EINVAL ==> FilledWith(c, Table(h, c.cmnd, v))
  }

  // fsg_lun_fsync_sub: nothing needs writing out if the medium is write-protected or
  // missing.
  method Fsync(c: Common) returns (rc: int)
    modifies c`fault
    ensures c.lun0.ro || c.lun0.filp == None ==> rc == 0
    ensures c.fault <==> old(c.fault) || rc != 0
  {
    rc := *;
    if c.lun0.ro || c.lun0.filp == None {
      rc := 0;
    }
    c.fault := c.fault || rc != 0;
  }

  // The command is refused with this sense data.
  method Refuse(c: Common, sense: SenseCode) returns (reply: int)
    requires c.Valid()
    modifies c.lun0`senseData
    ensures c.Valid() && reply == EINVAL && c.lun0.View() == old(c.lun0.View()).WithSense(sense)
  {
    c.lun0.senseData := sense;
    reply := EINVAL;
  }

  method DoInquiry(c: Common) returns (reply: int)
    requires c.Valid() && c.AtRest()
    modifies c, c.pipe
    ensures c.SameCommand() && c.SameCounters() && c.pipe.SamePast()
    ensures c.Valid() && c.AtRest() && c.lun0.View() == old(c.lun0.View()) && reply == 36
    ensures c.curlun == null ==> c.badLunOkay
  {
    if c.curlun == null {
      c.badLunOkay := true;
    }
    FixedReply(c, 36);
    reply := 36;
  }

  method DoModeSense(c: Common) returns (reply: int)
    requires c.Valid() && c.AtRest() && c.lun0.senseData == NO_SENSE
    modifies c.pipe, c.lun0
    ensures c.pipe.SamePast()
    ensures c.Valid() && c.AtRest() && SmallReturned(c, Handler.DoModeSense, reply, old(c.lun0.View()))
    ensures SmallFilled(c, Handler.DoModeSense, reply, old(c.lun0.View()))
  {
    var page := c.cmnd[2] % 64;
    var sense := NO_SENSE;
    if c.cmnd[1] != 0 && c.cmnd[1] != 8 {
      sense := INVALID_FIELD_IN_CDB;
    } else if c.cmnd[2] / 64 == 3 {
      sense := SAVING_NOT_SUPPORTED;
    } else if page != 0x08 && page != 0x3f {
      sense := INVALID_FIELD_IN_CDB;
    }
    if sense != NO_SENSE {
      reply := Refuse(c, sense);
    } else {
      reply := TableReply(c, ModeHeader(c.cmnd[0] == MODE_SENSE, c.lun0.ro) + ModePage(c.cmnd[2] / 64 == 1));
    }
  }

  method DoPreventAllow(c: Common) returns (reply: int)
    requires c.Valid() && c.lun0.senseData == NO_SENSE
    modifies c.lun0
    ensures c.Valid() && SmallReturned(c, Handler.DoPreventAllow, reply, old(c.lun0.View()))
  {
    if !c.lun0.removable {
      reply := Refuse(c, INVALID_COMMAND);
    } else if c.cmnd[4] > 1 {
      reply := Refuse(c, INVALID_FIELD_IN_CDB);
    } else {
      c.lun0.prevent := c.cmnd[4] == 1;
      reply := 0;
    }
  }

  // The LBA field means something only with PMI set.
  method DoReadCapacity(c: Common) returns (reply: int)
    requires c.Valid() && c.AtRest() && c.lun0.senseData == NO_SENSE
    modifies c.pipe, c.lun0
    ensures c.pipe.SamePast()
    ensures c.Valid() && c.AtRest() && SmallReturned(c, Handler.DoReadCapacity, reply, old(c.lun0.View()))
    ensures SmallFilled(c, Handler.DoReadCapacity, reply, old(c.lun0.View()))
  {
    var lba, pmi := Be32(c.cmnd, 2), c.cmnd[8];
    assert SmallSense(Handler.DoReadCapacity, c.cmnd, c.lun0.View())
        == if pmi > 1 || (pmi == 0 && lba != 0) then INVALID_FIELD_IN_CDB else NO_SENSE;
    if pmi > 1 || (pmi == 0 && lba != 0) {
      reply := Refuse(c, INVALID_FIELD_IN_CDB);
    } else {
      var last := if c.lun0.numSectors == 0 then 0 else c.lun0.numSectors - 1;
      reply := TableReply(c, Be32Bytes(Min(last, U32 - 1)) + Be32Bytes(c.lun0.blksize));
    }
  }

  method DoReadCapacity16(c: Common) returns (reply: int)
    requires c.Valid() && c.AtRest() && c.lun0.senseData == NO_SENSE
    modifies c.pipe, c.lun0
    ensures c.pipe.SamePast()
    ensures c.Valid() && c.AtRest() && SmallReturned(c, Handler.DoReadCapacity16, reply, old(c.lun0.View()))
    ensures SmallFilled(c, Handler.DoReadCapacity16, reply, old(c.lun0.View()))
  {
    var lba, pmi := Be64(c.cmnd, 2), c.cmnd[14];
    assert SmallSense(Handler.DoReadCapacity16, c.cmnd, c.lun0.View())
        == if pmi > 1 || (pmi == 0 && lba != 0) then INVALID_FIELD_IN_CDB else NO_SENSE;
    if pmi > 1 || (pmi == 0 && lba != 0) {
      reply := Refuse(c, INVALID_FIELD_IN_CDB);
    } else {
      var last := if c.lun0.numSectors == 0 then 0 else c.lun0.numSectors - 1;
      reply := TableReply(c, Be64Bytes(last) + Be32Bytes(c.lun0.blksize) + seq(20, i => 0));
    }
  }

  method DoReadHeader(c: Common) returns (reply: int)
    requires c.Valid() && c.AtRest() && c.lun0.senseData == NO_SENSE
    modifies c.pipe, c.lun0
    ensures c.pipe.SamePast()
    ensures c.Valid() && c.AtRest() && SmallReturned(c, Handler.DoReadHeader, reply, old(c.lun0.View()))
  {
    if c.cmnd[1] != 0 && c.cmnd[1] != 2 {
      reply := Refuse(c, INVALID_FIELD_IN_CDB);
    } else if Be32(c.cmnd, 2) >= c.lun0.numSectors {
      reply := Refuse(c, LBA_OUT_OF_RANGE);
    } else {
      FixedReply(c, 8);
      reply := 8;
    }
  }

  // The format asked for, which may be in either of two fields.
  method CheckToc(c: Common) returns (sense: SenseCode, n: nat)
    ensures sense == SmallSense(Handler.DoReadToc, c.cmnd, c.lun0.View())
    ensures sense == NO_SENSE ==> n == SmallLength(Handler.DoReadToc, c.cmnd)
  {
    var format := c.cmnd[2] % 16;
    if (c.cmnd[1] != 0 && c.cmnd[1] != 2) || (c.cmnd[6] > 1 && format != 1) {
      return INVALID_FIELD_IN_CDB, 0;
    }
    if format == 0 {
      format := c.cmnd[9] / 64;
    }
    sense := if format > 2 then INVALID_FIELD_IN_CDB else NO_SENSE;
    n := if format == 2 then 4 + 3 * 11 else 4 + 2 * 8;
  }

  method DoReadToc(c: Common) returns (reply: int)
    requires c.Valid() && c.AtRest() && c.lun0.senseData == NO_SENSE
    modifies c.pipe, c.lun0
    ensures c.pipe.SamePast()
    ensures c.Valid() && c.AtRest() && SmallReturned(c, Handler.DoReadToc, reply, old(c.lun0.View()))
  {
    var sense, n := CheckToc(c);
    if sense != NO_SENSE {
      reply := Refuse(c, sense);
    } else {
      FixedReply(c, n);
      reply := n;
    }
  }

  method WriteCache(c: Common) returns (reply: int)
    requires c.Valid() && c.lun0.senseData == NO_SENSE && !c.fault
    modifies c`fault, c.lun0`senseData
    ensures c.Valid() && SmallReturned(c, Handler.DoSynchronizeCache, reply, old(c.lun0.View()))
  {
    var rc := Fsync(c);
    if rc != 0 {
      c.lun0.senseData := WRITE_ERROR;
    }
    reply := 0;
  }

  method DoSynchronizeCache(c: Common) returns (reply: int)
    requires c.Valid() && c.AtRest() && c.lun0.senseData == NO_SENSE && !c.fault
    modifies c, c.lun0
    ensures c.SameCommand() && c.SameCounters()
    ensures c.Valid() && c.AtRest() && SmallReturned(c, Handler.DoSynchronizeCache, reply, old(c.lun0.View()))
  {
    reply := WriteCache(c);
  }

  // The handlers that send a table.
  predicate Tabled(h: Handler) {
    h.DoModeSense? || h.DoReadCapacity? || h.DoReadCapacity16? || h.DoReadHeader? || h.DoReadToc?
    || h.DoReadFormatCapacities?
  }

  method RunTabled(c: Common, h: Handler) returns (reply: int)
    requires c.Valid() && c.AtRest() && Tabled(h) && c.lun0.senseData == NO_SENSE
    modifies c.pipe, c.lun0
    ensures c.pipe.SamePast()
    ensures c.Valid() && c.AtRest() && SmallReturned(c, h, reply, old(c.lun0.View()))
    ensures SmallFilled(c, h, reply, old(c.lun0.View()))
  {
    if h.DoModeSense? {
      reply := DoModeSense(c);
    } else if h.DoReadCapacity? {
      reply := DoReadCapacity(c);
    } else if h.DoReadCapacity16? {
      reply := DoReadCapacity16(c);
    } else if h.DoReadHeader? {
      reply := DoReadHeader(c);
    } else if h.DoReadToc? {
      reply := DoReadToc(c);
    } else {
      reply := TableReply(c, [0, 0, 0, 8] + Be32Bytes(c.lun0.numSectors) + [0x02] + Be32Bytes(c.lun0.blksize)[1..]);
    }
  }

  method RunSmall(c: Common, h: Handler) returns (reply: int)
    requires c.Valid() && c.AtRest() && Small(h)
    requires if c.curlun == null then h.DoInquiry? else c.lun0.senseData == NO_SENSE && !c.fault
    modifies c, c.pipe, c.lun0
    ensures c.SameCommand() && c.SameCounters() && c.pipe.SamePast()
    ensures c.Valid() && c.AtRest()
    ensures c.curlun != null ==>
              SmallReturned(c, h, reply, old(c.lun0.View())) && SmallFilled(c, h, reply, old(c.lun0.View()))
    ensures c.curlun == null ==> c.badLunOkay && reply == 36 && c.lun0.View() == old(c.lun0.View())
  {
    if Tabled(h) {
      reply := RunTabled(c, h);
    } else if h.DoInquiry? {
      reply := DoInquiry(c);
    } else if h.DoPreventAllow? {
      reply := DoPreventAllow(c);
    } else if h.DoSynchronizeCache? {
      reply := DoSynchronizeCache(c);
    } else if h.DoTestUnitReady? {
      reply := 0;
    } else {
      reply := Refuse(c, INVALID_COMMAND);  // MODE SELECT and unknown commands
    }
  }
}
