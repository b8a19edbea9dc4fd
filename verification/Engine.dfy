// The gadget thread: command wrapper in, SCSI command, data phase, status out.
//
// Writers of the sysfs attributes run only while the thread does not hold
// `filesem`; `SysfsSteps` stands for any number of them.
module Engine {
  import opened Base
  import opened Ring
  import opened Exceptions
  import opened Storage
  import opened Scsi
  import opened Exchanges
  import opened WritePath
  import opened Endpoints
  import opened IoEvents

  class Common {
    const pipe: Pipeline
    const port: Port
    const lun0: Lun

    // the thread holds filesem for reading
    var locked: bool

    var cmnd: Cdb
    var cmndSize: nat
    var lun: nat
    var curlun: Lun?
    var dataDir: DataDir
    var dataSize: nat
    var sizeFromCmnd: nat
    var tag: nat
    var residue: nat
    var usbAmountLeft: nat
    var phaseError: bool
    var shortPacket: bool
    var badLunOkay: bool
    var ignoreBulkOut: bool
    var running: bool                // an interface is set up

    ghost var fault: bool            // the file did not take or give what this command asked of it
    ghost var stored: nat            // bytes of this command's data stored in the file
    ghost var ioLog: seq<IoRequest>  // what this command has published
    ghost var cbw: Cbw               // the wrapper of this command
    ghost var command: Command       // the command as check_command found it
    ghost var outcome: Exchange      // what the command has come to

    ghost predicate Valid()
      reads this`curlun, port
      reads lun0`filp, lun0`image, lun0`fileLength, lun0`numSectors, lun0`blksize
      reads lun0`loadPending, lun0`unitAttention
    {
      var parts := pipe.port == port && (curlun == null || curlun == lun0);
      var sound := port.Valid() && lun0.Valid();
      parts && sound
    }

    // Carrying a command out changes neither the command nor what the wrapper said.
    twostate predicate SameCommand()
      reads this
    {
      var wrapper := cbw == old(cbw) && tag == old(tag) && curlun == old(curlun)
                     && dataDir == old(dataDir) && dataSize == old(dataSize) && cmndSize == old(cmndSize);
      var request := cmnd == old(cmnd) && sizeFromCmnd == old(sizeFromCmnd)
                     && phaseError == old(phaseError) && command == old(command);
      wrapper && request && running == old(running) && ignoreBulkOut == old(ignoreBulkOut)
    }

    // No data has moved.
    twostate predicate SameCounters()
      reads this
    {
      var left := residue == old(residue) && usbAmountLeft == old(usbAmountLeft) && stored == old(stored);
      left && shortPacket == old(shortPacket) && ioLog == old(ioLog) && locked == old(locked)
    }

    // The thread gives up what it was doing because a signal asks it to, which
    // only an outside event can have caused.
    ghost predicate Interrupted(rc: int)
      reads port
    {
      rc == EINTR && port.Attention() && port.disturbed
    }

    // It has given up, and left everything in order for the exception handler.
    ghost predicate GaveUp(rc: int)
      reads this`curlun, port, pipe
      reads lun0`filp, lun0`image, lun0`fileLength, lun0`numSectors, lun0`blksize
      reads lun0`loadPending, lun0`unitAttention
    {
      Interrupted(rc) && Valid() && pipe.Valid()
    }

    constructor (pipe: Pipeline, lun0: Lun, configured: bool)
      requires pipe.Valid() && pipe.port.Valid() && lun0.Valid()
      ensures Valid() && !locked && curlun == null && running == configured && !ignoreBulkOut
      ensures this.pipe == pipe && this.port == pipe.port && this.lun0 == lun0
    {
      this.pipe, this.port, this.lun0 := pipe, pipe.port, lun0;
      locked := false;
      cmnd, cmndSize, lun, curlun := seq(CDB_SIZE, i => 0), 0, 0, null;
      dataDir, dataSize, sizeFromCmnd, tag := NoData, 0, 0, 0;
      residue, usbAmountLeft, phaseError, shortPacket := 0, 0, false, false;
      badLunOkay, ignoreBulkOut, running := false, false, configured;
      stored, fault, ioLog := 0, false, [];
    }

    // The device as it stands between two commands, on this pipeline.
    constructor Resume(c: Common, pipe: Pipeline)
      requires c.Valid() && pipe.Valid() && pipe.port.Valid()
      ensures Valid() && this.pipe == pipe && this.port == pipe.port && SameFields(c)
    {
      this.pipe, this.port, this.lun0 := pipe, pipe.port, c.lun0;
      locked := c.locked;
      cmnd, cmndSize, lun, curlun := c.cmnd, c.cmndSize, c.lun, c.curlun;
      dataDir, dataSize, sizeFromCmnd, tag := c.dataDir, c.dataSize, c.sizeFromCmnd, c.tag;
      residue, usbAmountLeft, phaseError, shortPacket := c.residue, c.usbAmountLeft, c.phaseError, c.shortPacket;
      badLunOkay, ignoreBulkOut, running := c.badLunOkay, c.ignoreBulkOut, c.running;
      stored, fault, ioLog := 0, false, [];
    }

    // The same unit and the same fields of struct fsg_common.
    predicate SameFields(c: Common)
      reads this, c
    {
      && lun0 == c.lun0 && locked == c.locked && cmnd == c.cmnd && cmndSize == c.cmndSize
      && lun == c.lun && curlun == c.curlun && dataDir == c.dataDir && dataSize == c.dataSize
      && sizeFromCmnd == c.sizeFromCmnd && tag == c.tag && residue == c.residue
      && usbAmountLeft == c.usbAmountLeft && phaseError == c.phaseError && shortPacket == c.shortPacket
      && badLunOkay == c.badLunOkay && ignoreBulkOut == c.ignoreBulkOut && running == c.running
    }

    // The unit the command addresses, if it exists.
    function Unit(): Option<LunView>
      reads this`curlun
      reads lun0`filp, lun0`image, lun0`fileLength, lun0`numSectors, lun0`blksize
      reads lun0`initiallyRo, lun0`ro, lun0`removable, lun0`prevent
      reads lun0`infoValid, lun0`senseData, lun0`senseDataInfo, lun0`unitAttention
    {
      if curlun == null then None else Some(lun0.View())
    }

    // The medium is in use by the command being carried out: it is open, and
    // its arrival has been reported.
    ghost predicate MediumInUse()
      reads this`curlun, this`locked, lun0`filp, lun0`loadPending, lun0`unitAttention
    {
      && curlun == lun0 && locked
      && lun0.filp.Some? && lun0.unitAttention == NO_SENSE && !lun0.loadPending
    }

    // kernel_read, which returns an error or some prefix of the bytes asked for,
    // followed by the rounding of a short read to whole blocks.
    method ReadBlocks(at: nat, amount: nat) returns (nread: nat, data: seq<byte>)
      requires lun0.Valid() && lun0.filp.Some? && at + amount <= lun0.fileLength
      modifies this`fault
      ensures nread <= amount && data == lun0.image[at..at + nread]
      ensures fault <==> old(fault) || nread < amount
    {
      var n: int := *;
      if n > amount {
        n := amount;
      }
      nread := if n < 0 then 0 else if n < amount then RoundDown(n, lun0.blksize) else n;
      data := lun0.image[at..at + nread];
      fault := fault || nread < amount;
    }

    // kernel_write: an error, or some prefix of the data reaches the file.
    method KernelWrite(off: nat, data: seq<byte>) returns (n: int)
      requires lun0.Valid() && lun0.filp.Some? && off + |data| <= lun0.fileLength
      modifies this`fault, lun0`image
      ensures lun0.Valid() && n <= |data| && (fault <==> old(fault) || n < |data|)
      ensures lun0.image == Patch(old(lun0.image), off, data[..Max(n, 0)])
    {
      n := *;
      if n > |data| {
        n := |data|;
      }
      lun0.image := Patch(lun0.image, off, data[..Max(n, 0)]);
      fault := fault || n < |data|;
    }

    // Record sense data together with the block it is about.
    method Report(sense: SenseCode, where: nat)
      requires lun0.Valid() && BlockSize(lun0.blksize)
      modifies lun0`senseData, lun0`senseDataInfo, lun0`infoValid
      ensures lun0.Valid() && lun0.senseData == sense
      ensures lun0.senseDataInfo == where / lun0.blksize % U32 && lun0.infoValid
    {
      lun0.senseData := sense;
      lun0.senseDataInfo := where / lun0.blksize % U32;
      lun0.infoValid := true;
    }

    // No data has moved in either direction and every buffer is empty.
    ghost predicate AtRest()
      reads this`sizeFromCmnd, this`dataSize, this`residue, this`stored, this`usbAmountLeft
      reads this`shortPacket, pipe
    {
      var empty := pipe.win == [] && pipe.telling == [] && pipe.drained == 0
                   && pipe.consumed == [] && pipe.outAsked == 0;
      var untouched := residue == dataSize == usbAmountLeft && stored == 0 && sizeFromCmnd <= dataSize;
      pipe.OutPhase() && empty && untouched && !shortPacket
    }

    // A data command about to start.
    ghost predicate Fresh()
      reads this`sizeFromCmnd, this`dataSize, this`residue, this`stored, this`usbAmountLeft
      reads this`shortPacket, this`fault, this`curlun, this`locked, pipe, port
      reads lun0`filp, lun0`image, lun0`fileLength, lun0`numSectors, lun0`blksize
      reads lun0`loadPending, lun0`unitAttention
      reads lun0`senseData, lun0`senseDataInfo, lun0`infoValid
    {
      Valid() && MediumInUse() && port.Calm() && AtRest() && NoSense() && !fault
    }

    // ------------------------------------------------------------ do_read

    // No sense data is pending.
    ghost predicate NoSense()
      reads lun0`senseData, lun0`senseDataInfo, lun0`infoValid
    {
      lun0.senseData == NO_SENSE && lun0.senseDataInfo == 0 && !lun0.infoValid
    }

    // do_read has sent the bytes [off, at) of the image.
    ghost predicate Reading(off: nat, at: nat)
      reads this`curlun, this`locked, this`sizeFromCmnd, this`dataSize, this`residue, pipe, port
      reads lun0`filp, lun0`image, lun0`fileLength, lun0`numSectors, lun0`blksize
      reads lun0`loadPending, lun0`unitAttention
    {
      && Valid() && MediumInUse() && port.Calm() && pipe.Valid() && pipe.Idle()
      && off <= at <= lun0.fileLength && residue + (at - off) == dataSize
      && sizeFromCmnd <= dataSize && pipe.drained == 0
      && pipe.InData() == lun0.image[off..at]
    }

    // The next buffer to fill holds the last of the bytes [off, off + k).
    ghost predicate Loaded(off: nat, k: nat)
      reads this`curlun, this`locked, this`sizeFromCmnd, this`dataSize, this`residue, pipe, port
      reads lun0`filp, lun0`image, lun0`fileLength, lun0`numSectors, lun0`blksize
      reads lun0`loadPending, lun0`unitAttention
    {
      && Valid() && MediumInUse() && port.Calm() && pipe.Valid() && pipe.Ready()
      && k <= sizeFromCmnd <= dataSize && off + k <= lun0.fileLength && residue + k == dataSize
      && pipe.drained == 0
      && pipe.InData() + pipe.bufs[pipe.fill].Outgoing() == lun0.image[off..off + k]
    }

    // do_read is done: the last buffer is ready, and with it come k bytes of the
    // image.  If that is not all the command asked for, sense data says why: the file
    // could not be read any further, or it ends there.
    ghost predicate ReadDone(off: nat, k: nat)
      reads this`curlun, this`locked, this`sizeFromCmnd, this`dataSize, this`residue, this`fault, pipe, port
      reads lun0`filp, lun0`image, lun0`fileLength, lun0`numSectors, lun0`blksize
      reads lun0`loadPending, lun0`unitAttention
      reads lun0`senseData, lun0`senseDataInfo, lun0`infoValid
    {
      && Loaded(off, k)
      && (k == sizeFromCmnd ==> NoSense() && !fault)
      && (k < sizeFromCmnd ==>
            && (if fault then lun0.senseData == UNRECOVERED_READ_ERROR
                else lun0.senseData == LBA_OUT_OF_RANGE && off + k == lun0.fileLength)
            && lun0.senseDataInfo == (off + k) / lun0.blksize % U32 && lun0.infoValid)
    }

    // The bytes read are ready to be sent.
    method LoadData(ghost off: nat, at: nat, data: seq<byte>)
      requires Reading(off, at) && at - off + |data| <= sizeFromCmnd
      requires |data| <= BUFLEN && at + |data| <= lun0.fileLength
      requires data == lun0.image[at..at + |data|]
      requires pipe.bufs[pipe.fill].state == Empty
      modifies this`residue, pipe`bufs
      ensures Loaded(off, at - off + |data|)
    {
      pipe.PutReply(data);
      residue := residue - |data|;
      SliceJoin(lun0.image, off, at, at + |data|);
    }

    // The loop of do_read between two rounds, or when it is done, or when a signal
    // has ended it.
    ghost predicate ReadStep(rc: int, off: nat, at: nat, left: nat, stop: bool)
      reads this`curlun, this`locked, this`sizeFromCmnd, this`dataSize, this`residue, this`fault, pipe, port
      reads lun0`filp, lun0`image, lun0`fileLength, lun0`numSectors, lun0`blksize
      reads lun0`loadPending, lun0`unitAttention
      reads lun0`senseData, lun0`senseDataInfo, lun0`infoValid
    {
      || GaveUp(rc)
      || (rc == 0 && stop && off <= at && ReadDone(off, at - off))
      || (rc == 0 && !stop && Reading(off, at) && NoSense() && !fault
          && left > 0 && left == sizeFromCmnd - (at - off))
    }

    // The next buffer has been loaded, unless a signal came first.
    ghost predicate ChunkRead(rc: int, off: nat, k: nat)
      reads this`curlun, this`locked, this`sizeFromCmnd, this`dataSize, this`residue, pipe, port
      reads lun0`filp, lun0`image, lun0`fileLength, lun0`numSectors, lun0`blksize
      reads lun0`loadPending, lun0`unitAttention
    {
      GaveUp(rc) || (rc == 0 && Loaded(off, k))
    }

    // The bytes read go into the next buffer to fill, unless a signal has come by now.
    method PlaceChunk(ghost off: nat, at: nat, data: seq<byte>) returns (rc: int)
      requires Reading(off, at) && at - off + |data| <= sizeFromCmnd && |data| <= BUFLEN
      requires at + |data| <= lun0.fileLength && data == lun0.image[at..at + |data|]
      requires pipe.bufs[pipe.fill].state == Empty
      modifies this`residue
      modifies pipe, port
      ensures pipe.SamePast()
      ensures ChunkRead(rc, off, at - off + |data|)
    {
      pipe.IdleInterrupts();
      if port.SignalPending() {
        rc := EINTR;
      } else {
        LoadData(off, at, data);
        rc := 0;
      }
    }

    // Read `amount` bytes at `at` into the next buffer to fill.
    method LoadChunk(ghost off: nat, at: nat, amount: nat, ghost left: nat)
      returns (rc: int, nread: nat, ghost k: nat)
      requires ReadStep(0, off, at, left, false) && amount <= left && amount <= BUFLEN
      requires at + amount <= lun0.fileLength && off <= at
      requires pipe.fill < |pipe.bufs| && pipe.bufs[pipe.fill].state == Empty
      modifies this`residue, this`fault
      modifies pipe, port
      ensures pipe.SamePast()
      ensures nread <= amount && k == at - off + nread && ChunkRead(rc, off, k)
      ensures fault <==> nread < amount
    {
      var data;
      nread, data := ReadBlocks(at, amount);
      k := at - off + nread;
      rc := PlaceChunk(off, at, data);
    }

    // A chunk has been read into the next buffer: report what is missing, or send
    // it if there is more to come.
    method AfterChunk(ghost off: nat, at: nat, amount: nat, nread: nat, left: nat, ghost k: nat)
      returns (at': nat, left': nat, stop: bool)
      requires off <= at && nread <= amount <= left && 0 < amount && left == sizeFromCmnd - (at - off)
      requires k == at - off + nread && ChunkRead(0, off, k) && NoSense() && (fault <==> nread < amount)
      modifies lun0`senseData, lun0`senseDataInfo, lun0`infoValid
      modifies pipe
      ensures pipe.SamePast()
      ensures at' == at + nread && left' == left - nread && (stop || nread > 0)
      ensures ReadStep(0, off, at', left', stop)
    {
      at', left', stop := at + nread, left - nread, true;
      if nread < amount {
        Report(UNRECOVERED_READ_ERROR, at');
      } else if left > nread {
        BytesSnoc(pipe.telling, pipe.bufs[pipe.fill].Outgoing());
        pipe.SendData();
        stop := false;
      }
    }

    // Past the end of the file there is nothing to read: the reply ends with a buffer
    // of no bytes.
    method PastEnd(ghost off: nat, at: nat, ghost left: nat)
      requires ReadStep(0, off, at, left, false) && at == lun0.fileLength
      requires pipe.fill < |pipe.bufs| && pipe.bufs[pipe.fill].state == Empty
      modifies lun0`senseData, lun0`senseDataInfo, lun0`infoValid, pipe`bufs
      ensures ReadStep(0, off, at, left, true)
    {
      Report(LBA_OUT_OF_RANGE, at);
      pipe.PutReply([]);
    }

    // One round of the loop of do_read, with the next buffer at hand.
    method ReadRound(ghost off: nat, at: nat, left: nat) returns (rc: int, at': nat, left': nat, stop: bool)
      requires ReadStep(0, off, at, left, false)
      requires pipe.fill < |pipe.bufs| && pipe.bufs[pipe.fill].state == Empty
      modifies this`residue, this`fault, lun0`senseData, lun0`senseDataInfo, lun0`infoValid
      modifies pipe, port
      ensures pipe.SamePast()
      ensures at <= at' && (rc != 0 || stop || left' < left) && ReadStep(rc, off, at', left', stop)
    {
      rc, at', left', stop := 0, at, left, true;
      var amount := Min(Min(left, BUFLEN), lun0.fileLength - at);
      if amount == 0 {
        PastEnd(off, at, left);
      } else {
        var nread;
        ghost var k;
        rc, nread, k := LoadChunk(off, at, amount, left);
        if rc == 0 {
          at', left', stop := AfterChunk(off, at, amount, nread, left, k);
        }
      }
    }

    // One turn of the loop of do_read: wait for a buffer, then fill it.
    method ReadTurn(ghost off: nat, at: nat, left: nat) returns (rc: int, at': nat, left': nat, stop: bool)
      requires ReadStep(0, off, at, left, false)
      modifies this`residue, this`fault, lun0`senseData, lun0`senseDataInfo, lun0`infoValid
      modifies pipe, port
      ensures pipe.SamePast()
      ensures at <= at' && (rc != 0 || stop || left' < left) && ReadStep(rc, off, at', left', stop)
    {
      at', left', stop := at, left, true;
      rc := pipe.SleepIdle();
      if rc == 0 {
        rc, at', left', stop := ReadRound(off, at, left);
      }
    }

    // The loop has ended, with k bytes read.
    ghost predicate ReadEnded(rc: int, off: nat, k: nat)
      reads this`curlun, this`locked, this`sizeFromCmnd, this`dataSize, this`residue, this`fault, pipe, port
      reads lun0`filp, lun0`image, lun0`fileLength, lun0`numSectors, lun0`blksize
      reads lun0`loadPending, lun0`unitAttention
      reads lun0`senseData, lun0`senseDataInfo, lun0`infoValid
    {
      GaveUp(rc) || (rc == 0 && ReadDone(off, k))
    }

    // The loop of do_read.
    method ReadLoop(off: nat) returns (rc: int, ghost k: nat)
      requires ReadStep(0, off, off, sizeFromCmnd, false)
      modifies this`residue, this`fault, lun0`senseData, lun0`senseDataInfo, lun0`infoValid
      modifies pipe, port
      ensures pipe.SamePast()
      ensures ReadEnded(rc, off, k)
    {
      var at: nat, left: nat, stop: bool := off, sizeFromCmnd, false;
      rc := 0;
      while !stop && rc == 0
        invariant pipe.SamePast()
        invariant off <= at && ReadStep(rc, off, at, left, stop)
        decreases !stop && rc == 0, left
      {
        rc, at, left, stop := ReadTurn(off, at, left);
      }
      k := at - off;
    }

    // The command has published its request if it got that far.
    ghost predicate Published(admitted: bool, isWrite: bool)
      reads this`ioLog, this`cmnd, this`sizeFromCmnd, lun0`blksize
    {
      ioLog == if admitted then [PublishedIo(cmnd, sizeFromCmnd, lun0.blksize, isWrite)] else []
    }

    // Publish a request to the throttle and to the crossing counter.
    method PublishIo(isWrite: bool)
      requires lun0.blksize > 0 && ioLog == []
      modifies this`ioLog
      ensures Published(true, isWrite)
    {
      ioLog := ioLog + [IoRequest(CommandLba(cmnd) % U32, sizeFromCmnd / lun0.blksize, isWrite)];
    }

    // The checks do_read makes before it moves any data, and the publication of the
    // request if they pass.
    method AdmitRead() returns (admitted: bool)
      requires Fresh() && ioLog == []
      modifies this, lun0
      ensures SameCommand() && stored == old(stored) && lun0.View().SameButSense(old(lun0.View()))
      ensures admitted == ReadAdmitted(cmnd, lun0.View()) && Published(admitted, false)
      ensures if admitted then Fresh() else RefusedNow(ReadRefusal(cmnd))
      ensures admitted ==> CommandOffset(cmnd, lun0.blksize) <= lun0.fileLength
    {
      var lba := CommandLba(cmnd);
      admitted := false;
      if !FlagsOk(cmnd) {
        lun0.senseData := INVALID_FIELD_IN_CDB;
      } else if lba >= lun0.numSectors {
        lun0.senseData := LBA_OUT_OF_RANGE;
      } else {
        admitted := true;
        PublishIo(false);
        SectorStart(lba, lun0.numSectors, lun0.blksize, lun0.fileLength);
      }
    }

    // The command has been refused: nothing has moved, and sense data says why.
    ghost predicate RefusedNow(sense: SenseCode)
      reads this`sizeFromCmnd, this`dataSize, this`residue, this`stored, this`usbAmountLeft
      reads this`shortPacket, this`curlun, pipe, port
      reads lun0`filp, lun0`image, lun0`fileLength, lun0`numSectors, lun0`blksize
      reads lun0`loadPending, lun0`unitAttention, lun0`senseData
    {
      Valid() && AtRest() && port.Calm() && lun0.senseData == sense
    }

    // The command was for no blocks: nothing has happened, not even to the buffer
    // that will be sent if the host expects data.
    ghost predicate DidNothing(stale: seq<byte>)
      reads this`sizeFromCmnd, this`dataSize, this`residue, this`stored, this`usbAmountLeft
      reads this`shortPacket, this`curlun, pipe, port
      reads lun0`filp, lun0`image, lun0`fileLength, lun0`numSectors, lun0`blksize
      reads lun0`loadPending, lun0`unitAttention
      reads lun0`senseData, lun0`senseDataInfo, lun0`infoValid
    {
      Valid() && AtRest() && port.Calm() && NoSense() && pipe.Stale() == stale
    }

    // What do_read leaves behind.  EIO means that the reply is in place, or, when no
    // data was asked for, that no reply was set up at all.
    ghost predicate ReadReturned(reply: int, k: nat, stale: seq<byte>)
      reads this`cmnd, this`sizeFromCmnd, this`dataSize, this`residue, this`fault, this`stored, this`usbAmountLeft
      reads this`shortPacket, this`curlun, this`locked, pipe, port, lun0
    {
      if !ReadAdmitted(cmnd, lun0.View()) then reply == EINVAL && RefusedNow(ReadRefusal(cmnd))
      else if sizeFromCmnd == 0 then reply == EIO && DidNothing(stale)
      else reply == EIO && ReadDone(CommandOffset(cmnd, lun0.blksize), k)
    }

    // The data phase of do_read.
    method ReadData(off: nat) returns (reply: int, ghost k: nat)
      requires Fresh() && sizeFromCmnd > 0 && off <= lun0.fileLength
      modifies this`residue, this`fault, lun0`senseData, lun0`senseDataInfo, lun0`infoValid
      modifies pipe, port
      ensures pipe.SamePast()
      ensures lun0.View().SameButSense(old(lun0.View()))
      ensures GaveUp(reply) || (reply == EIO && ReadDone(off, k))
    {
      RestIsIdle(pipe.bufs, pipe.base);
      assert Reading(off, off);
      reply, k := ReadLoop(off);
      if reply == 0 {
        reply := EIO;
      }
    }

    // do_read
    method DoRead() returns (reply: int, ghost k: nat)
      requires Fresh() && ioLog == []
      modifies this, pipe, port, lun0
      ensures SameCommand() && pipe.SamePast() && stored == old(stored)
      ensures GaveUp(reply) || ReadReturned(reply, k, old(pipe.Stale()))
      ensures Published(ReadAdmitted(cmnd, lun0.View()), false)
      ensures lun0.View().SameButSense(old(lun0.View()))
    {
      reply, k := EIO, 0;
      var admitted := AdmitRead();
      if !admitted {
        reply := EINVAL;
      } else if sizeFromCmnd > 0 {
        reply, k := ReadData(CommandOffset(cmnd, lun0.blksize));
      }
    }

    // ------------------------------------------------------------ do_verify

    // Read up to `amount` bytes into a buffer nobody will send.
    method CheckBlocks(at: nat, amount: nat) returns (rc: int, nread: nat, data: seq<byte>)
      requires Valid() && AtRest() && port.Calm() && MediumInUse()
      requires 0 < amount <= BUFLEN && at + amount <= lun0.fileLength
      modifies this`fault, pipe, port
      ensures pipe.SamePast()
      ensures rc == 0 ==> Valid() && AtRest() && port.Calm()
      ensures rc != 0 ==> GaveUp(rc)
      ensures nread <= amount && data == lun0.image[at..at + nread] && (nread < amount ==> fault)
    {
      nread, data := ReadBlocks(at, amount);
      pipe.ScratchData(data);
      pipe.RestInterrupts();
      rc := if port.SignalPending() then EINTR else 0;
    }

    // The checks do_verify makes before it reads anything.
    method AdmitVerify() returns (admitted: bool)
      modifies lun0`senseData
      ensures lun0.View().SameButSense(old(lun0.View()))
      ensures admitted <==> VerifyAdmitted(cmnd, lun0.View())
      ensures lun0.senseData == if admitted then old(lun0.senseData) else VerifyRefusal(cmnd, lun0.View())
    {
      admitted := false;
      if Be32(cmnd, 2) >= lun0.numSectors {
        lun0.senseData := LBA_OUT_OF_RANGE;
      } else if cmnd[1] % 16 != 0 || cmnd[1] >= 32 {
        lun0.senseData := INVALID_FIELD_IN_CDB;
      } else {
        admitted := true;
      }
    }

    // What do_verify leaves behind: without sense data every block was read.
    ghost predicate VerifyReturned(reply: int, seen: seq<byte>, stale: seq<byte>)
      reads this`cmnd, this`fault, this`sizeFromCmnd, this`dataSize, this`residue, this`stored, this`usbAmountLeft
      reads this`shortPacket, this`curlun, this`locked, pipe, port, lun0
    {
      if !VerifyAdmitted(cmnd, lun0.View()) then reply == EINVAL && RefusedNow(VerifyRefusal(cmnd, lun0.View()))
      else if Be16(cmnd, 7) == 0 then reply == EIO && DidNothing(stale)
      else
        && reply == 0 && Valid()
        && Verified(Times(Be32(cmnd, 2), lun0.blksize), Times(Be16(cmnd, 7), lun0.blksize), seen)
    }

    // The blocks have been read; or the file ends before the last of them; or one of
    // them could not be read.
    ghost predicate Verified(off: nat, total: nat, seen: seq<byte>)
      reads this`fault, this`sizeFromCmnd, this`dataSize, this`residue, this`stored, this`usbAmountLeft
      reads this`shortPacket, pipe, port, lun0`image, lun0`fileLength, lun0`senseData
    {
      && AtRest() && port.Calm() && lun0.fileLength == |lun0.image|
      && (if lun0.senseData == NO_SENSE then
            off + total <= |lun0.image| && seen == lun0.image[off..off + total]
          else if lun0.senseData == LBA_OUT_OF_RANGE then |lun0.image| < off + total
          else fault && lun0.senseData == UNRECOVERED_READ_ERROR)
    }

    // do_verify
    method DoVerify() returns (reply: int, seen: seq<byte>)
      requires Fresh()
      modifies this, pipe, port, lun0
      ensures SameCommand() && pipe.SamePast() && ioLog == old(ioLog)
      ensures lun0.View().SameButSense(old(lun0.View()))
      ensures GaveUp(reply) || VerifyReturned(reply, seen, old(pipe.Stale()))
    {
      reply, seen := EIO, [];
      var admitted := AdmitVerify();
      if !admitted {
        return EINVAL, [];
      }
      if Be16(cmnd, 7) == 0 {
        return EIO, [];
      }
      SectorStart(Be32(cmnd, 2), lun0.numSectors, lun0.blksize, lun0.fileLength);
      reply, seen := VerifyBlocks(Times(Be32(cmnd, 2), lun0.blksize), Times(Be16(cmnd, 7), lun0.blksize));
    }

    // Write out what is cached, then read the blocks back.
    method VerifyBlocks(off: nat, total: nat) returns (rc: int, seen: seq<byte>)
      requires Fresh() && off <= lun0.fileLength
      modifies lun0`senseData, lun0`senseDataInfo, lun0`infoValid
      modifies this`fault, pipe, port
      ensures pipe.SamePast()
      ensures lun0.View().SameButSense(old(lun0.View()))
      ensures rc == 0 ==> Valid() && Verified(off, total, seen)
      ensures rc != 0 ==> GaveUp(rc)
    {
      seen := [];
      pipe.RestInterrupts();
      if port.SignalPending() {
        return EINTR, [];
      }
      rc, seen := VerifyLoop(off, total);
    }

    method VerifyLoop(off: nat, total: nat) returns (rc: int, seen: seq<byte>)
      requires Fresh() && off <= lun0.fileLength
      modifies lun0`senseData, lun0`senseDataInfo, lun0`infoValid
      modifies this`fault, pipe, port
      ensures pipe.SamePast()
      ensures rc == 0 ==> Valid() && Verified(off, total, seen)
      ensures rc != 0 ==> GaveUp(rc)
    {
      var at, left := off, total;
      rc, seen := 0, [];
      while left > 0
        invariant pipe.SamePast()
        invariant rc == 0 && Valid() && AtRest() && port.Calm() && MediumInUse()
        invariant off <= at <= lun0.fileLength && at + left == off + total
        invariant seen == lun0.image[off..at] && lun0.senseData == NO_SENSE
      {
        var amount := Min(Min(left, BUFLEN), lun0.fileLength - at);
        if amount == 0 {
          Report(LBA_OUT_OF_RANGE, at);
          return;
        }
        var nread, data;
        rc, nread, data := CheckBlocks(at, amount);
        if rc != 0 {
          return;
        }
        if nread == 0 {
          Report(UNRECOVERED_READ_ERROR, at);
          return;
        }
        SliceJoin(lun0.image, off, at, at + nread);
        at, left, seen := at + nread, left - nread, seen + data;
      }
    }

    // ------------------------------------------------------------ do_write

    // The data phase of a WRITE under way.
    ghost predicate Writable()
      reads this`curlun, this`locked, pipe, port
      reads lun0`filp, lun0`image, lun0`fileLength, lun0`numSectors, lun0`blksize
      reads lun0`loadPending, lun0`unitAttention
    {
      Valid() && MediumInUse() && port.Calm() && pipe.OutPhase()
    }

    // After m requests: what the host has been asked for and what is still to be.
    ghost predicate Requested(t: Target, m: nat)
      reads this`sizeFromCmnd, this`dataSize, this`usbAmountLeft, pipe`outAsked, pipe`telling
    {
      && t.total == sizeFromCmnd <= dataSize
      && usbAmountLeft == dataSize - Asked(t.total, m)
      && pipe.outAsked == Asked(t.total, m) && pipe.telling == []
    }

    // After d transfers that brought c bytes, of which k count: the first `touched`
    // bytes are in the file, and nothing else in it has changed.
    ghost predicate InFile(t: Target, d: nat, k: nat, c: nat, touched: nat, file0: seq<byte>)
      reads this`dataSize, this`residue, this`stored, pipe`drained, pipe`consumed
      reads lun0`image, lun0`fileLength, lun0`blksize
    {
      && t.flen == lun0.fileLength == |file0| && t.bs == lun0.blksize
      && residue == dataSize - k && stored == k
      && |pipe.consumed| == c && pipe.drained == d
      && touched <= c && t.off + touched <= t.flen
      && lun0.image == Patch(file0, t.off, pipe.consumed[..touched])
    }

    // The first `touched` bytes of the host's stream are in the file, k of them
    // in whole blocks, and nothing else in the file has changed.
    ghost predicate Landed(t: Target, p: Progress, touched: nat, file0: seq<byte>)
      reads this`sizeFromCmnd, this`dataSize, this`residue, this`stored, this`usbAmountLeft
      reads pipe`outAsked, pipe`telling, pipe`win, pipe`drained, pipe`consumed
      reads lun0`image, lun0`fileLength, lun0`blksize
    {
      && Requested(t, p.d + p.w) && Reached(t, p, touched) && |pipe.win| == p.w
      && InFile(t, p.d, p.k, p.c, touched, file0)
    }

    // The last transfer drained was cut off.
    ghost predicate LastCut()
      reads pipe`data, pipe`drained
    {
      0 < pipe.drained <= |pipe.data| && pipe.data[pipe.drained - 1].CutOff()
    }

    // The loop of do_write between two rounds.
    ghost predicate Writing(t: Target, p: Progress, file0: seq<byte>)
      reads this`fault, pipe`data, this`sizeFromCmnd, this`dataSize, this`residue, this`stored, this`usbAmountLeft
      reads pipe`outAsked, pipe`telling, pipe`win, pipe`drained, pipe`consumed
      reads lun0`image, lun0`fileLength, lun0`blksize
    {
      && Inv(t, p) && Landed(t, p, p.k, file0)
      && pipe.maxpacket > 0 && Sized(pipe.win, t.total, p.d, pipe.maxpacket)
      && !fault && !LastFailed(pipe.data, pipe.drained)
    }

    // A buffer has been drained but its data has not been stored yet.
    ghost predicate Drained(t: Target, p: Progress, file0: seq<byte>, b: BuffHd)
      reads this`fault, this`sizeFromCmnd, this`dataSize, this`residue, this`stored, this`usbAmountLeft, pipe`data
      reads pipe`outAsked, pipe`telling, pipe`win, pipe`drained, pipe`consumed
      reads lun0`image, lun0`fileLength, lun0`blksize
    {
      && pipe.maxpacket > 0 && BUFLEN % pipe.maxpacket == 0
      && Inv(t, p) && p.w > 0 && t.flen == lun0.fileLength == |file0| && t.bs == lun0.blksize
      && Requested(t, p.d + p.w) && residue == dataSize - p.k && stored == p.k
      && b.Ok() && b.intended == RequestLength(t.total, p.d)
      && b.actual <= RoundUp(b.intended, pipe.maxpacket)
      && |pipe.win| == p.w - 1 && |pipe.consumed| == p.c + b.actual
      && pipe.consumed[p.c..] == b.Payload() && pipe.drained == p.d + 1
      && (b.Arrived().CutOff() ==> LastCut())
      && (b.status != 0 <==> LastFailed(pipe.data, pipe.drained)) && !fault
      && Sized(pipe.win, t.total, p.d + 1, pipe.maxpacket)
      && lun0.image == Patch(file0, t.off, pipe.consumed[..p.k])
    }

    // Wait for the next transfer of a WRITE and take its buffer back.
    method TakeNext() returns (rc: int, b: BuffHd)
      requires Writable() && pipe.win != []
      modifies pipe, port
      ensures pipe.SameAsked()
      ensures rc == 0 ==>
                Writable() && TookNext(b, old(pipe.win), old(pipe.consumed), old(pipe.drained))
      ensures rc != 0 ==> GaveUp(rc)
    {
      rc, b := pipe.DrainNext();
    }

    // The oldest request of the window win0 has been taken out, when c0 had been
    // consumed of d transfers.
    ghost predicate TookNext(b: BuffHd, win0: seq<BuffHd>, c0: seq<byte>, d: nat)
      requires win0 != []
      reads pipe`data, pipe`win, pipe`drained, pipe`consumed
    {
      && After(win0[0], b) && b.state == Full && b.Ok()
      && Later(win0[1..], pipe.win) && pipe.consumed == c0 + b.Payload()
      && pipe.drained == d + 1 <= |pipe.data|
      && pipe.data[pipe.drained - 1] == b.Arrived()
    }

    // What has been taken out is what that request asked for.
    lemma NowDrained(t: Target, p: Progress, file0: seq<byte>, b: BuffHd, win0: seq<BuffHd>, c0: seq<byte>)
      requires Inv(t, p) && p.w > 0 && t.flen == lun0.fileLength == |file0| && t.bs == lun0.blksize
      requires Requested(t, p.d + p.w) && residue == dataSize - p.k && stored == p.k && !fault
      requires pipe.maxpacket > 0 && BUFLEN % pipe.maxpacket == 0
      requires Sized(win0, t.total, p.d, pipe.maxpacket) && |win0| == p.w && |c0| == p.c
      requires TookNext(b, win0, c0, p.d) && lun0.image == Patch(file0, t.off, c0[..p.k])
      ensures Drained(t, p, file0, b)
    {
      AfterDrain(win0, pipe.win, b, c0, t.total, p.d, pipe.maxpacket, p.k);
    }

    // The WRITE goes on, unless a signal has ended it.
    ghost predicate Going(rc: int, t: Target, p: Progress, file0: seq<byte>)
      reads this`fault, this`sizeFromCmnd, this`dataSize, this`residue, this`stored, this`usbAmountLeft
      reads this`curlun, this`locked, pipe, port
      reads lun0`filp, lun0`image, lun0`fileLength, lun0`numSectors, lun0`blksize
      reads lun0`loadPending, lun0`unitAttention
    {
      GaveUp(rc) || (rc == 0 && Writable() && Writing(t, p, file0))
    }

    // The next buffer has been drained, unless a signal came first.
    ghost predicate Holding(rc: int, t: Target, p: Progress, file0: seq<byte>, b: BuffHd)
      reads this`fault, this`sizeFromCmnd, this`dataSize, this`residue, this`stored, this`usbAmountLeft
      reads this`curlun, this`locked, pipe, port
      reads lun0`filp, lun0`image, lun0`fileLength, lun0`numSectors, lun0`blksize
      reads lun0`loadPending, lun0`unitAttention
    {
      GaveUp(rc) || (rc == 0 && Writable() && Drained(t, p, file0, b))
    }

    method DrainForWrite(ghost t: Target, ghost p: Progress, ghost file0: seq<byte>)
      returns (rc: int, b: BuffHd)
      requires Going(0, t, p, file0) && p.w > 0
      modifies pipe, port
      ensures pipe.SamePast()
      ensures Holding(rc, t, p, file0, b)
    {
      ghost var win0, c0 := pipe.win, pipe.consumed;
      rc, b := TakeNext();
      if rc == 0 {
        NowDrained(t, p, file0, b, win0, c0);
      }
    }

    // What kernel_write's result counts for: whole blocks only, if it fell short.
    method ShortWrite(n: int, amount: nat, ghost t: Target) returns (nwritten: nat)
      requires t.Ok() && t.bs == lun0.blksize && n <= amount && amount > 0
      ensures nwritten == Counted(t, Max(n, 0), amount)
    {
      if n < 0 {
        RoundDownFacts(0, 0, t.bs);
        return 0;
      } else if n < amount {
        return RoundDown(n, lun0.blksize);
      }
      return n;
    }

    // Hand `amount` usable bytes of a drained buffer to kernel_write.
    method StoreBytes(b: BuffHd, at: nat, amount: nat,
                      ghost t: Target, ghost p: Progress, ghost file0: seq<byte>)
      returns (n: int)
      requires lun0.Valid() && lun0.filp.Some?
      requires Drained(t, p, file0, b) && at == t.off + p.k
      requires 0 < amount == Usable(t, p.k, b.actual, b.intended)
      modifies this`fault, lun0`image
      ensures lun0.Valid() && n <= amount && p.k == p.c && p.k + Max(n, 0) <= |pipe.consumed|
      ensures t.off + p.k + Max(n, 0) <= |file0| && (fault <==> n < amount)
      ensures lun0.image == Patch(file0, t.off, pipe.consumed[..p.k + Max(n, 0)])
    {
      UsableMeansComplete(t, p, b.actual, b.intended);
      UsableBounds(t, p, b.actual, b.intended);
      ghost var file := lun0.image;
      n := KernelWrite(at, b.buf[..amount]);
      StoreData(file0, file, t.off, pipe.consumed, p.k, b, amount, Max(n, 0));
    }

    // What of that counts, and how far into the file the stream has got.
    method StoreCounted(b: BuffHd, at: nat, amount: nat,
                        ghost t: Target, ghost p: Progress, ghost file0: seq<byte>)
      returns (nwritten: nat, ghost touched: nat)
      requires lun0.Valid() && lun0.filp.Some?
      requires Drained(t, p, file0, b) && at == t.off + p.k
      requires 0 < amount == Usable(t, p.k, b.actual, b.intended)
      modifies this`fault, lun0`image
      ensures lun0.Valid()
      ensures nwritten <= amount && (nwritten == amount ==> touched == p.k + nwritten)
      ensures fault <==> nwritten < amount
      ensures Reached(t, Progress(p.d + 1, p.w - 1, p.k + nwritten, p.c + b.actual), touched)
      ensures touched <= |pipe.consumed| && lun0.image == Patch(file0, t.off, pipe.consumed[..touched])
    {
      var n := StoreBytes(b, at, amount, t, p, file0);
      StoreReached(t, p, b.actual, b.intended, Max(n, 0));
      nwritten := ShortWrite(n, amount, t);
      touched := p.k + Max(n, 0);
    }

    // Write `amount` usable bytes of a drained buffer at file offset `at`.
    method WriteOut(b: BuffHd, at: nat, amount: nat,
                    ghost t: Target, ghost p: Progress, ghost file0: seq<byte>)
      returns (nwritten: nat, ghost touched: nat)
      requires lun0.Valid() && lun0.filp.Some?
      requires Drained(t, p, file0, b) && at == t.off + p.k
      requires 0 < amount == Usable(t, p.k, b.actual, b.intended)
      modifies this`residue, this`stored, this`fault, lun0`image
      ensures lun0.Valid()
      ensures nwritten <= amount && (nwritten == amount ==> touched == p.k + nwritten)
      ensures fault <==> nwritten < amount
      ensures Landed(t, Progress(p.d + 1, p.w - 1, p.k + nwritten, p.c + b.actual), touched, file0)
    {
      nwritten, touched := StoreCounted(b, at, amount, t, p, file0);
      residue, stored := residue - nwritten, stored + nwritten;
    }

    // Store what is usable of a drained buffer; `whole` if nothing fell short.
    method StoreUsable(b: BuffHd, at: nat, ghost t: Target, ghost p: Progress, ghost file0: seq<byte>)
      returns (whole: bool, nwritten: nat, ghost touched: nat)
      requires lun0.Valid() && lun0.filp.Some?
      requires Drained(t, p, file0, b) && at == t.off + p.k
      modifies this`residue, this`stored, this`fault, lun0`image
      ensures lun0.Valid()
      ensures Landed(t, Progress(p.d + 1, p.w - 1, p.k + nwritten, p.c + b.actual), touched, file0)
      ensures whole ==> nwritten == Usable(t, p.k, b.actual, b.intended) && touched == p.k + nwritten
      ensures whole <==> !fault
    {
      var amount := UsablePart(b, at, t, p);
      if amount > 0 {
        nwritten, touched := WriteOut(b, at, amount, t, p, file0);
      } else {
        StoreReached(t, p, b.actual, b.intended, 0);
        nwritten, touched := 0, p.k;
      }
      whole := nwritten == amount;
    }

    // The data of a drained buffer goes to the file, unless it did not arrive.
    method StoreBuffer(b: BuffHd, at: nat, ghost t: Target, ghost p: Progress, ghost file0: seq<byte>)
      returns (whole: bool, nwritten: nat, ghost touched: nat)
      requires lun0.Valid() && lun0.filp.Some?
      requires Drained(t, p, file0, b) && at == t.off + p.k
      modifies this`residue, this`stored, this`fault, lun0`image
      ensures lun0.Valid()
      ensures Landed(t, Progress(p.d + 1, p.w - 1, p.k + nwritten, p.c + b.actual), touched, file0)
      ensures touched == p.k + nwritten || (!whole && b.status == 0)
      ensures whole ==> b.status == 0 && nwritten == Usable(t, p.k, b.actual, b.intended)
      ensures whole <==> b.status == 0 && !fault
      ensures b.status != 0 ==> !fault
    {
      if b.status != 0 {
        StoreReached(t, p, b.actual, b.intended, 0);
        return false, 0, p.k;
      }
      whole, nwritten, touched := StoreUsable(b, at, t, p, file0);
    }

    // Something has gone wrong that ends the loop.
    ghost predicate Broke()
      reads lun0`senseData
    {
      lun0.senseData == COMMUNICATION_FAILURE || lun0.senseData == WRITE_ERROR
    }

    // Sense data says whether the last transfer failed, and whether the file did not take
    // what it was given.
    ghost predicate Blamed()
      reads this`fault, pipe`data, pipe`drained, lun0`senseData
    {
      && (LastFailed(pipe.data, pipe.drained) <==> lun0.senseData == COMMUNICATION_FAILURE)
      && (fault <==> lun0.senseData == WRITE_ERROR)
    }

    // Store the data of a drained buffer and report what went wrong, if anything.
    // The host counts as having stopped early exactly if a good transfer was shorter
    // than its request.
    method StoreAndReport(b: BuffHd, at: nat, ghost t: Target, ghost p: Progress, ghost file0: seq<byte>)
      returns (stop: bool, nwritten: nat, ghost touched: nat)
      requires lun0.Valid() && lun0.filp.Some? && !shortPacket && !Broke()
      requires Drained(t, p, file0, b) && at == t.off + p.k
      modifies this`residue, this`stored, this`fault, this`shortPacket
      modifies lun0`image, lun0`senseData, lun0`senseDataInfo, lun0`infoValid
      ensures lun0.Valid() && Blamed()
      ensures var q := Progress(p.d + 1, p.w - 1, p.k + nwritten, p.c + b.actual);
              && Landed(t, q, touched, file0)
              && (if Broke() then stop && !shortPacket && (touched == q.k || lun0.senseData == WRITE_ERROR)
                  else
                    && lun0.senseData == old(lun0.senseData) && touched == q.k && b.status == 0
                    && nwritten == Usable(t, p.k, b.actual, b.intended)
                    && shortPacket == stop == (b.actual < b.intended))
    {
      var whole;
      whole, nwritten, touched := StoreBuffer(b, at, t, p, file0);
      stop := true;
      if b.status != 0 {
        Report(COMMUNICATION_FAILURE, at);
      } else if !whole {
        Report(WRITE_ERROR, at + nwritten);
      } else if b.actual < b.intended {
        shortPacket := true;
      } else {
        stop := false;
      }
    }

    // The host has stopped early, and what it did send has been stored.
    ghost predicate CutShort(t: Target, q: Progress)
      reads this`shortPacket, pipe`data, pipe`drained
    {
      && shortPacket && LastCut()
      && t.Ok() && q.k == Storable(t, q.c) && q.c < Asked(t.total, q.d)
    }

    // A buffer has been drained and its data stored.  The loop goes on only if
    // nothing was left out.
    ghost predicate RoundDone(t: Target, q: Progress, touched: nat, file0: seq<byte>, stop: bool)
      reads this`fault, this`sizeFromCmnd, this`dataSize, this`residue, this`stored, this`usbAmountLeft
      reads this`shortPacket
      reads pipe`outAsked, pipe`telling, pipe`win, pipe`data, pipe`drained, pipe`consumed
      reads lun0`image, lun0`fileLength, lun0`blksize, lun0`senseData
    {
      && Landed(t, q, touched, file0) && Blamed()
      && (|| (Broke() && stop && !shortPacket && (touched == q.k || lun0.senseData == WRITE_ERROR))
          || (!Broke() && stop && touched == q.k && CutShort(t, q))
          || (!Broke() && !stop && touched == q.k && !shortPacket && Writing(t, q, file0)))
    }

    // A round is over, unless a signal has ended it.
    ghost predicate RoundOver(rc: int, t: Target, q: Progress, touched: nat, file0: seq<byte>, stop: bool)
      reads this`fault, this`sizeFromCmnd, this`dataSize, this`residue, this`stored, this`usbAmountLeft
      reads this`shortPacket, this`curlun, this`locked, pipe, port
      reads lun0`filp, lun0`image, lun0`fileLength, lun0`numSectors, lun0`blksize
      reads lun0`loadPending, lun0`unitAttention, lun0`senseData
    {
      GaveUp(rc) || (rc == 0 && Writable() && RoundDone(t, q, touched, file0, stop))
    }

    // Store the data of a drained buffer and decide whether the loop goes on.
    method StoreRound(b: BuffHd, at: nat, ghost t: Target, ghost p: Progress, ghost file0: seq<byte>)
      returns (stop: bool, nwritten: nat, ghost q: Progress, ghost touched: nat)
      requires lun0.Valid() && lun0.filp.Some? && !shortPacket && !Broke()
      requires Drained(t, p, file0, b) && at == t.off + p.k
      modifies this`residue, this`stored, this`fault, this`shortPacket
      modifies lun0`image, lun0`senseData, lun0`senseDataInfo, lun0`infoValid
      ensures lun0.Valid()
      ensures |lun0.image| == |old(lun0.image)| && (Broke() || lun0.senseData == old(lun0.senseData))
      ensures q == Progress(p.d + 1, p.w - 1, p.k + nwritten, p.c + b.actual)
      ensures RoundDone(t, q, touched, file0, stop)
    {
      stop, nwritten, touched := StoreAndReport(b, at, t, p, file0);
      q := Progress(p.d + 1, p.w - 1, p.k + nwritten, p.c + b.actual);
      assert Landed(t, q, touched, file0);
      if !Broke() {
        StoreEnds(t, p, q, b.actual, b.intended, pipe.maxpacket);
        if stop {
          ShortIsCut(b);
        }
      }
    }

    // The same in the state of the whole thread.
    method FinishRound(b: BuffHd, at: nat, ghost t: Target, ghost p: Progress, ghost file0: seq<byte>)
      returns (stop: bool, nwritten: nat, ghost q: Progress, ghost touched: nat)
      requires Holding(0, t, p, file0, b) && at == t.off + p.k && !shortPacket && !Broke()
      modifies this`residue, this`stored, this`fault, this`shortPacket
      modifies lun0`image, lun0`senseData, lun0`senseDataInfo, lun0`infoValid
      ensures |lun0.image| == |old(lun0.image)| && (Broke() || lun0.senseData == old(lun0.senseData))
      ensures q == Progress(p.d + 1, p.w - 1, p.k + nwritten, p.c + b.actual)
      ensures RoundOver(0, t, q, touched, file0, stop)
    {
      stop, nwritten, q, touched := StoreRound(b, at, t, p, file0);
      assert Writable();
    }

    // How much of a drained buffer may be written: not beyond the end of the
    // file, not more than was asked for, whole blocks only.
    method UsablePart(b: BuffHd, at: nat, ghost t: Target, ghost p: Progress) returns (amount: nat)
      requires lun0.Valid() && lun0.filp.Some? && at <= lun0.fileLength
      requires t.Ok() && t.flen == lun0.fileLength && t.bs == lun0.blksize && at == t.off + p.k
      ensures amount == Usable(t, p.k, b.actual, b.intended)
    {
      amount := b.actual;
      if lun0.fileLength - at < amount {
        amount := lun0.fileLength - at;
      }
      amount := Min(amount, b.intended);
      amount := RoundDown(amount, lun0.blksize);
    }

    // Between two rounds no error has been reported, except that the host will
    // not be asked for data beyond the end of the file.
    ghost predicate Reported(t: Target, more: bool, leftToReq: nat, usbOffset: nat)
      reads this`shortPacket, lun0`senseData
    {
      !shortPacket && Warned(t, more, leftToReq, usbOffset)
    }

    ghost predicate Warned(t: Target, more: bool, leftToReq: nat, usbOffset: nat)
      reads lun0`senseData
    {
      && (lun0.senseData == NO_SENSE ==> more || leftToReq == 0)
      && (lun0.senseData != NO_SENSE ==>
            lun0.senseData == LBA_OUT_OF_RANGE && leftToReq > 0 && usbOffset >= t.flen)
    }

    // do_write is done.
    ghost predicate WriteDone(t: Target, p: Progress, touched: nat, file0: seq<byte>)
      reads this`fault, this`sizeFromCmnd, this`dataSize, this`residue, this`stored, this`usbAmountLeft
      reads this`shortPacket, lun0`senseData
      reads pipe`outAsked, pipe`telling, pipe`win, pipe`data, pipe`drained, pipe`consumed
      reads lun0`image, lun0`fileLength, lun0`blksize
    {
      && Landed(t, p, touched, file0)
      && (touched == p.k || lun0.senseData == WRITE_ERROR)
      && (shortPacket ==> LastCut())
      && Blamed()
      && (!Broke() ==>
            && (lun0.senseData == NO_SENSE || lun0.senseData == LBA_OUT_OF_RANGE)
            && p.k == Storable(t, p.c) && Ends(t, p, lun0.senseData == LBA_OUT_OF_RANGE))
    }

    // The loop of do_write between two rounds, with its flag and counters.
    ghost predicate Looping(t: Target, p: Progress, file0: seq<byte>,
                            more: bool, leftToReq: nat, usbOffset: nat)
      reads this`fault, this`sizeFromCmnd, this`dataSize, this`residue, this`stored, this`usbAmountLeft
      reads this`shortPacket, lun0`senseData
      reads pipe`outAsked, pipe`telling, pipe`win, pipe`data, pipe`drained, pipe`consumed
      reads lun0`image, lun0`fileLength, lun0`blksize
    {
      && Writing(t, p, file0)
      && Counters(t, p, more, leftToReq, usbOffset) && Reported(t, more, leftToReq, usbOffset)
    }

    // The loop between two rounds, or when it is done, or when a signal has ended it.
    ghost predicate WriteStep(rc: int, t: Target, p: Progress, touched: nat, file0: seq<byte>,
                              more: bool, leftToReq: nat, usbOffset: nat, stop: bool)
      reads this`fault, this`sizeFromCmnd, this`dataSize, this`residue, this`stored, this`usbAmountLeft
      reads this`shortPacket, this`curlun, this`locked, pipe, port
      reads lun0`filp, lun0`image, lun0`fileLength, lun0`numSectors, lun0`blksize
      reads lun0`loadPending, lun0`unitAttention, lun0`senseData
    {
      var ended := rc == 0 && Writable() && stop && WriteDone(t, p, touched, file0);
      var goesOn := rc == 0 && Writable() && !stop && Looping(t, p, file0, more, leftToReq, usbOffset);
      GaveUp(rc) || ended || goesOn
    }

    // Queue a request for more data from the host.
    method QueueRequest(amount: nat, ghost total: nat, ghost d: nat)
      requires Writable() && |pipe.win| < pipe.count && amount <= BUFLEN && amount <= usbAmountLeft
      requires pipe.maxpacket > 0 && Sized(pipe.win, total, d, pipe.maxpacket)
      requires amount == RequestLength(total, d + |pipe.win|)
      modifies this`usbAmountLeft
      modifies pipe
      ensures pipe.SamePast() && pipe.telling == old(pipe.telling) && pipe.data == old(pipe.data)
      ensures pipe.drained == old(pipe.drained) && pipe.consumed == old(pipe.consumed)
      ensures Writable() && pipe.outAsked == old(pipe.outAsked) + amount
      ensures usbAmountLeft == old(usbAmountLeft) - amount
      ensures |pipe.win| == |old(pipe.win)| + 1 && Sized(pipe.win, total, d, pipe.maxpacket)
    {
      usbAmountLeft := usbAmountLeft - amount;
      ghost var win0 := pipe.win;
      ghost var b := pipe.RequestMore(amount);
      SizedMore(win0, b, total, d, pipe.maxpacket);
    }

    // Ask the host for the next part of what is still wanted.
    method AskForMore(amount: nat, ghost t: Target, ghost p: Progress, ghost q: Progress, ghost file0: seq<byte>)
      requires Going(0, t, p, file0) && p.w < pipe.count && amount <= BUFLEN && q == p.(w := p.w + 1)
      requires Inv(t, q) && Reached(t, q, q.k)
      requires amount == Asked(t.total, q.d + q.w) - Asked(t.total, p.d + p.w)
      modifies this`usbAmountLeft
      modifies pipe
      ensures pipe.SamePast()
      ensures Going(0, t, q, file0)
    {
      assert InFile(t, q.d, q.k, q.c, q.k, file0);
      QueueRequest(amount, t.total, q.d);
      assert InFile(t, q.d, q.k, q.c, q.k, file0);
      assert Requested(t, q.d + q.w);
    }

    // What is still wanted lies beyond the end of the file: ask no more.
    method StopAsking(leftToReq: nat, usbOffset: nat,
                      ghost t: Target, ghost p: Progress, ghost touched: nat, ghost file0: seq<byte>)
      requires WriteStep(0, t, p, touched, file0, true, leftToReq, usbOffset, false)
      requires usbOffset >= lun0.fileLength
      modifies lun0`senseData, lun0`senseDataInfo, lun0`infoValid
      ensures WriteStep(0, t, p, touched, file0, false, leftToReq, usbOffset, false)
    {
      Report(LBA_OUT_OF_RANGE, usbOffset);
      assert Counters(t, p, false, leftToReq, usbOffset);
    }

    // Ask for the next part, at most a buffer of it.
    method AskNext(leftToReq: nat, usbOffset: nat,
                   ghost t: Target, ghost p: Progress, ghost touched: nat, ghost file0: seq<byte>)
      returns (more: bool, leftToReq': nat, usbOffset': nat, ghost q: Progress)
      requires WriteStep(0, t, p, touched, file0, true, leftToReq, usbOffset, false)
      requires p.w < pipe.count && usbOffset < lun0.fileLength
      modifies this`usbAmountLeft
      modifies pipe
      ensures pipe.SamePast()
      ensures q == p.(w := p.w + 1) && leftToReq' < leftToReq
      ensures WriteStep(0, t, q, touched, file0, more, leftToReq', usbOffset', false)
    {
      NextRequest(t, p, leftToReq, usbOffset);
      var amount := Min(leftToReq, BUFLEN);
      q := p.(w := p.w + 1);
      more, leftToReq', usbOffset' := leftToReq - amount != 0, leftToReq - amount, usbOffset + amount;
      assert Counters(t, q, more, leftToReq', usbOffset');
      AskForMore(amount, t, p, q, file0);
    }

    // The first half of a round: ask the host for more, unless what is still
    // wanted lies beyond the end of the file.
    method AskRound(leftToReq: nat, usbOffset: nat,
                    ghost t: Target, ghost p: Progress, ghost touched: nat, ghost file0: seq<byte>)
      returns (more: bool, leftToReq': nat, usbOffset': nat, ghost q: Progress)
      requires WriteStep(0, t, p, touched, file0, true, leftToReq, usbOffset, false) && p.w < pipe.count
      modifies this`usbAmountLeft, lun0`senseData, lun0`senseDataInfo, lun0`infoValid
      modifies pipe
      ensures pipe.SamePast()
      ensures q.k == p.k && ((!more && leftToReq' == leftToReq) || leftToReq' < leftToReq)
      ensures WriteStep(0, t, q, touched, file0, more, leftToReq', usbOffset', false)
    {
      if usbOffset >= lun0.fileLength {
        more, leftToReq', usbOffset', q := false, leftToReq, usbOffset, p;
        StopAsking(leftToReq, usbOffset, t, p, touched, file0);
      } else {
        more, leftToReq', usbOffset', q := AskNext(leftToReq, usbOffset, t, p, touched, file0);
      }
    }

    // The second half: drain the next buffer and store its data.
    method DrainRound(at: nat, ghost t: Target, ghost p: Progress, ghost file0: seq<byte>)
      returns (rc: int, stop: bool, nwritten: nat, ghost q: Progress, ghost touched: nat)
      requires Going(0, t, p, file0) && p.w > 0 && at == t.off + p.k && !shortPacket && !Broke()
      modifies this`residue, this`stored, this`fault, this`shortPacket
      modifies pipe, port
      modifies lun0`image, lun0`senseData, lun0`senseDataInfo, lun0`infoValid
      ensures pipe.SamePast()
      ensures |lun0.image| == |old(lun0.image)| && (Broke() || lun0.senseData == old(lun0.senseData))
      ensures rc == 0 ==> q.d == p.d + 1 && q.w == p.w - 1 && q.k == p.k + nwritten
      ensures RoundOver(rc, t, q, touched, file0, stop)
    {
      var b;
      stop, nwritten, q, touched := true, 0, p, 0;
      rc, b := DrainForWrite(t, p, file0);
      if rc == 0 {
        stop, nwritten, q, touched := FinishRound(b, at, t, p, file0);
      }
    }

    // kernel_write may take long enough for a signal to arrive.
    method AfterWrite(ghost t: Target, ghost p: Progress, ghost file0: seq<byte>) returns (rc: int)
      requires Going(0, t, p, file0)
      modifies pipe, port
      ensures pipe.SamePast()
      ensures Going(rc, t, p, file0)
    {
      ghost var win0, data0 := pipe.win, pipe.data;
      assert pipe.drained <= |pipe.data|;
      pipe.OutInterrupts();
      SizedLater(win0, pipe.win, t.total, p.d, pipe.maxpacket);
      rc := if port.SignalPending() then EINTR else 0;
      if rc == 0 {
        LastFailedStays(data0, pipe.data, pipe.drained);
        assert Writable();
        assert InFile(t, p.d, p.k, p.c, p.k, file0);
        assert Writing(t, p, file0);
      }
    }

    // A round that ends the loop ends the command.
    lemma StoppedDone(t: Target, p: Progress, q: Progress, touched: nat, file0: seq<byte>,
                      more: bool, leftToReq: nat, usbOffset: nat)
      requires Counters(t, p, more, leftToReq, usbOffset) && q.d == p.d + 1 && q.w == p.w - 1
      requires RoundOver(0, t, q, touched, file0, true)
      requires Broke() || Warned(t, more, leftToReq, usbOffset)
      ensures WriteStep(0, t, q, touched, file0, more, leftToReq, usbOffset, true)
    {
      assert Landed(t, q, touched, file0);
      if !Broke() {
        CutShortEnds(t, p.d + p.w, q, more, leftToReq, usbOffset, lun0.senseData == LBA_OUT_OF_RANGE);
      }
    }

    // The loop ends, or goes on after a round that has written something or nothing.
    method EndRound(stop: bool, nwritten: nat, more: bool, leftToReq: nat, usbOffset: nat,
                    ghost t: Target, ghost p: Progress, ghost q: Progress, ghost touched: nat,
                    ghost file0: seq<byte>)
      returns (rc: int)
      requires RoundOver(0, t, q, touched, file0, stop) && q.d == p.d + 1 && q.w == p.w - 1
      requires Counters(t, p, more, leftToReq, usbOffset) && (Broke() || Warned(t, more, leftToReq, usbOffset))
      modifies pipe, port
      ensures pipe.SamePast()
      ensures WriteStep(rc, t, q, touched, file0, more, leftToReq, usbOffset, stop)
    {
      rc := 0;
      if stop {
        StoppedDone(t, p, q, touched, file0, more, leftToReq, usbOffset);
      } else {
        assert Counters(t, q, more, leftToReq, usbOffset);
        if nwritten > 0 {
          rc := AfterWrite(t, q, file0);
        }
      }
    }

    // One round that drains a buffer.
    method DrainTurn(at: nat, more: bool, leftToReq: nat, usbOffset: nat,
                     ghost t: Target, ghost p: Progress, ghost touched: nat, ghost file0: seq<byte>)
      returns (rc: int, stop: bool, nwritten: nat, ghost q: Progress, ghost touched': nat)
      requires WriteStep(0, t, p, touched, file0, more, leftToReq, usbOffset, false)
      requires p.w > 0 && at == t.off + p.k
      modifies this`residue, this`stored, this`fault, this`shortPacket
      modifies pipe, port
      modifies lun0`image, lun0`senseData, lun0`senseDataInfo, lun0`infoValid
      ensures pipe.SamePast()
      ensures |lun0.image| == |old(lun0.image)|
      ensures rc == 0 ==> q.w == p.w - 1 && q.k == p.k + nwritten
      ensures WriteStep(rc, t, q, touched', file0, more, leftToReq, usbOffset, stop)
    {
      rc, stop, nwritten, q, touched' := DrainRound(at, t, p, file0);
      if rc == 0 {
        rc := EndRound(stop, nwritten, more, leftToReq, usbOffset, t, p, q, touched', file0);
      }
    }

    // Nothing more can be stored: either everything asked for has been, or the
    // loop has drained all there is.
    lemma LoopDone(t: Target, p: Progress, touched: nat, file0: seq<byte>,
                   more: bool, leftToReq: nat, usbOffset: nat)
      requires WriteStep(0, t, p, touched, file0, more, leftToReq, usbOffset, false)
      requires p.k == t.total || (!more && p.w == 0)
      ensures WriteEnded(0, t, p, p.k, file0)
    {
      InvReached(t, p);
      StoredStorable(t, p);
      LoopEnds(t, p, more, leftToReq, usbOffset, lun0.senseData == LBA_OUT_OF_RANGE);
    }

    // What the two pointers show, and that no more is stored than was asked for.
    lemma LoopFacts(t: Target, p: Progress, touched: nat, file0: seq<byte>,
                    more: bool, leftToReq: nat, usbOffset: nat)
      requires WriteStep(0, t, p, touched, file0, more, leftToReq, usbOffset, false)
      ensures pipe.fill < |pipe.bufs| == pipe.count && pipe.drain < |pipe.bufs| && p.k <= t.total
      ensures pipe.bufs[pipe.drain].state == Empty <==> p.w == 0
      ensures pipe.bufs[pipe.fill].state == Empty <==> p.w < pipe.count
    {
      OutRingEnds(pipe.bufs, pipe.base, pipe.outQueue, pipe.win, pipe.drain, pipe.fill);
    }

    // The loop of do_write.
    method WriteLoop(off: nat, ghost t: Target) returns (rc: int, ghost p: Progress, ghost touched: nat)
      requires t == Target(sizeFromCmnd, off, lun0.fileLength, lun0.blksize)
      requires WriteStep(0, t, Progress(0, 0, 0, 0), 0, lun0.image, true, sizeFromCmnd, off, false)
      modifies this`residue, this`stored, this`fault, this`shortPacket, this`usbAmountLeft
      modifies pipe, port
      modifies lun0`image, lun0`senseData, lun0`senseDataInfo, lun0`infoValid
      ensures pipe.SamePast() && |lun0.image| == |old(lun0.image)|
      ensures WriteEnded(rc, t, p, touched, old(lun0.image))
    {
      ghost var file0 := lun0.image;
      var more, leftToReq, usbOffset, at, left := true, sizeFromCmnd, off, off, sizeFromCmnd;
      p, touched, rc := Progress(0, 0, 0, 0), 0, 0;
      while left > 0
        invariant rc == 0 && WriteStep(0, t, p, touched, file0, more, leftToReq, usbOffset, false)
        invariant at == off + p.k && left == t.total - p.k && |lun0.image| == |file0|
        invariant pipe.SamePast()
        decreases more, leftToReq, p.w
      {
        LoopFacts(t, p, touched, file0, more, leftToReq, usbOffset);
        if more && pipe.bufs[pipe.fill].state == Empty {
          more, leftToReq, usbOffset, p := AskRound(leftToReq, usbOffset, t, p, touched, file0);
        } else {
          if !more && pipe.bufs[pipe.drain].state == Empty {
            break;
          }
          var stop, nwritten;
          rc, stop, nwritten, p, touched := DrainTurn(at, more, leftToReq, usbOffset, t, p, touched, file0);
          if rc != 0 || stop {
            return;
          }
          LoopFacts(t, p, touched, file0, more, leftToReq, usbOffset);
          at, left := at + nwritten, left - nwritten;
        }
      }
      LoopDone(t, p, touched, file0, more, leftToReq, usbOffset);
      touched := p.k;
    }

    // The loop has ended.
    ghost predicate WriteEnded(rc: int, t: Target, p: Progress, touched: nat, file0: seq<byte>)
      reads this`fault, this`sizeFromCmnd, this`dataSize, this`residue, this`stored, this`usbAmountLeft
      reads this`shortPacket, this`curlun, this`locked, pipe, port
      reads lun0`filp, lun0`image, lun0`fileLength, lun0`numSectors, lun0`blksize
      reads lun0`loadPending, lun0`unitAttention, lun0`senseData
    {
      var ended := GaveUp(rc) || (rc == 0 && Writable() && WriteDone(t, p, touched, file0));
      ended
    }

    // Nothing asked for yet, nothing stored yet.
    lemma StartWriting(t: Target)
      requires Fresh() && sizeFromCmnd > 0 && t.off <= lun0.fileLength
      requires t == Target(sizeFromCmnd, t.off, lun0.fileLength, lun0.blksize)
      ensures Looping(t, Progress(0, 0, 0, 0), lun0.image, true, sizeFromCmnd, t.off)
    {
      Started(t);
      InvReached(t, Progress(0, 0, 0, 0));
      PatchNothing(lun0.image, t.off);
      assert pipe.consumed[..0] == [];
    }

    // The loop touches nothing of the unit but the image and the sense data.
    method FramedLoop(off: nat, ghost t: Target) returns (rc: int, ghost p: Progress, ghost touched: nat)
      requires t == Target(sizeFromCmnd, off, lun0.fileLength, lun0.blksize)
      requires WriteStep(0, t, Progress(0, 0, 0, 0), 0, lun0.image, true, sizeFromCmnd, off, false)
      modifies this`residue, this`stored, this`fault, this`shortPacket, this`usbAmountLeft
      modifies pipe, port
      modifies lun0
      ensures pipe.SamePast() && |lun0.image| == |old(lun0.image)|
      ensures lun0.View().SameButSense(old(lun0.View()).(image := lun0.image))
      ensures WriteEnded(rc, t, p, touched, old(lun0.image))
    {
      rc, p, touched := WriteLoop(off, t);
    }

    // The data phase of do_write.
    method WriteData(off: nat, ghost t: Target) returns (reply: int, ghost p: Progress, ghost touched: nat)
      requires Fresh() && sizeFromCmnd > 0 && off <= lun0.fileLength
      requires t == Target(sizeFromCmnd, off, lun0.fileLength, lun0.blksize)
      modifies this, pipe, port, lun0
      ensures SameCommand() && pipe.SamePast() && ioLog == old(ioLog)
      ensures |lun0.image| == |old(lun0.image)|
      ensures lun0.View().SameButSense(old(lun0.View()).(image := lun0.image))
      ensures GaveUp(reply)
              || (reply == EIO && Writable() && WriteDone(t, p, touched, old(lun0.image)))
    {
      StartWriting(t);
      reply, p, touched := FramedLoop(off, t);
      if reply == 0 {
        reply := EIO;
      }
    }

    // The checks do_write makes before it moves any data, and the publication
    // of the request if they pass.
    method AdmitWrite() returns (admitted: bool)
      requires Fresh() && ioLog == []
      modifies this, lun0
      ensures SameCommand() && lun0.View().SameButSense(old(lun0.View()))
      ensures admitted == WriteAdmitted(cmnd, lun0.View()) && Published(admitted, true)
      ensures if admitted then Fresh() else RefusedNow(WriteRefusal(cmnd, lun0.View()))
      ensures admitted ==> CommandOffset(cmnd, lun0.blksize) <= lun0.fileLength
    {
      var lba := CommandLba(cmnd);
      admitted := false;
      if lun0.ro {
        lun0.senseData := WRITE_PROTECTED;
      } else if !FlagsOk(cmnd) {
        lun0.senseData := INVALID_FIELD_IN_CDB;
      } else if lba >= lun0.numSectors {
        lun0.senseData := LBA_OUT_OF_RANGE;
      } else {
        admitted := true;
        PublishIo(true);
        SectorStart(lba, lun0.numSectors, lun0.blksize, lun0.fileLength);
      }
    }

    // What do_write leaves behind.  EIO means that the data phase is under way
    // or over, or that there was none to begin with.
    ghost predicate WriteReturned(reply: int, t: Target, p: Progress, touched: nat, file0: seq<byte>,
                                  stale: seq<byte>)
      reads this`fault, this`cmnd, this`sizeFromCmnd, this`dataSize, this`residue, this`stored, this`usbAmountLeft
      reads this`shortPacket, this`curlun, this`locked, pipe, port, lun0
    {
      if !WriteAdmitted(cmnd, lun0.View()) then
        reply == EINVAL && RefusedNow(WriteRefusal(cmnd, lun0.View())) && lun0.image == file0
      else if sizeFromCmnd == 0 then reply == EIO && DidNothing(stale) && lun0.image == file0
      else
        && reply == EIO && Writable() && WriteDone(t, p, touched, file0)
        && t == Target(sizeFromCmnd, CommandOffset(cmnd, lun0.blksize), lun0.fileLength, lun0.blksize)
    }

    // do_write
    method DoWrite() returns (reply: int, ghost t: Target, ghost p: Progress, ghost touched: nat)
      requires Fresh() && ioLog == []
      modifies this, pipe, port, lun0
      ensures SameCommand() && pipe.SamePast()
      ensures |lun0.image| == |old(lun0.image)|
      ensures GaveUp(reply) || WriteReturned(reply, t, p, touched, old(lun0.image), old(pipe.Stale()))
      ensures Published(WriteAdmitted(cmnd, lun0.View()), true)
      ensures lun0.View().SameButSense(old(lun0.View()).(image := lun0.image))
    {
      var off := CommandOffset(cmnd, lun0.blksize);
      t := Target(sizeFromCmnd, off, lun0.fileLength, lun0.blksize);
      p, touched := Progress(0, 0, 0, 0), 0;
      reply := EIO;
      var admitted := AdmitWrite();
      if !admitted {
        reply := EINVAL;
      } else if sizeFromCmnd > 0 {
        reply, p, touched := WriteData(off, t);
      }
    }
  }

  // A sector of the unit starts inside the file.
  lemma SectorStart(lba: nat, sectors: nat, blksize: nat, length: nat)
    requires lba < sectors && sectors * blksize <= length && blksize > 0
    ensures lba * blksize < length
  {
    MulMonotone(lba + 1, sectors, blksize);
  }
}
