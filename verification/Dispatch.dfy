// do_scsi_command: check the command, run its handler, and leave behind what
// finish_reply and send_status need.
module Dispatch {
  import opened Base
  import opened Ring
  import opened Storage
  import opened Scsi
  import opened Exchanges
  import opened WritePath
  import opened Endpoints
  import opened Engine
  import opened Commands

  // The fields of struct fsg_common and the ghost record agree on the command.
  ghost predicate Current(c: Common)
    reads c`command, c`curlun, c`dataDir, c`dataSize, c`cmndSize, c`tag
  {
    && c.command.Ok() && c.command.present == (c.curlun != null)
    && c.command.Expects() == Host.Host(c.dataDir, c.dataSize, c.cmndSize)
    && c.tag == c.command.cbw.tag
  }

  // check_command has let the handler run.
  ghost predicate Begun(c: Common)
    reads c`command, c`curlun, c`dataDir, c`dataSize, c`cmndSize, c`tag
    reads c`cmnd, c`sizeFromCmnd, c`phaseError
  {
    && Current(c)
    && var v := c.command.verdict;
       v.reply == 0 && c.cmnd == v.cmnd && c.sizeFromCmnd == v.size && c.phaseError == v.phaseError
  }

  // The status send_status will give.
  function StatusNow(c: Common): Status
    reads c`phaseError, c`curlun, c`badLunOkay, c.lun0`senseData
  {
    var sd := if c.curlun != null then c.lun0.senseData
              else if c.badLunOkay then NO_SENSE else UNIT_NOT_SUPPORTED;
    if c.phaseError then StatPhase else if sd != NO_SENSE then StatFail else StatOk
  }

  // The data that will have been sent when the reply is finished: a handler that
  // returns EIO has set the last buffer up itself.
  ghost function Promised(c: Common, reply: int): seq<byte>
    reads c`dataDir, c`sizeFromCmnd, c.pipe`bufs, c.pipe`fill, c.pipe`telling
  {
    if c.dataDir != ToHost || c.pipe.fill >= |c.pipe.bufs| then []
    else
      var b := c.pipe.bufs[c.pipe.fill];
      if reply == EIO then Joined(c.pipe.InData(), b.Outgoing())
      else if |b.buf| == BUFLEN then b.buf[..Min(Min(Max(reply, 0), c.sizeFromCmnd), BUFLEN)] else []
  }

  // What the command has come to, if its handler returned `reply`.
  ghost function Result(c: Common, reply: int): Exchange
    reads c`command, c`dataDir, c`dataSize, c`sizeFromCmnd, c`residue, c`tag, c`stored
    reads c`fault, c`ioLog, c`phaseError, c`curlun, c`badLunOkay
    reads c.pipe`bufs, c.pipe`fill, c.pipe`telling, c.pipe`data, c.pipe`drained, c.pipe`consumed
    reads c.lun0
  {
    var data := Promised(c, reply);
    var residue := if reply == EIO || |data| > c.residue then c.residue else c.residue - |data|;
    Exchange(c.command, c.lun0.View(), data,
             c.pipe.drained, c.pipe.consumed, LastFailed(c.pipe.data, c.pipe.drained),
             c.stored, c.fault, c.ioLog, Csw(c.tag, residue, StatusNow(c)))
  }

  // What the exchange says was received is what the first of the transfers since
  // the wrapper brought.
  ghost predicate Draws(c: Common, e: Exchange)
    reads c.pipe`data
  {
    && e.taken <= |c.pipe.data| && e.received == Payloads(c.pipe.data[..e.taken])
    && e.broken == LastFailed(c.pipe.data, e.taken)
  }

  lemma ResultDraws(c: Common, reply: int)
    requires c.pipe.Valid() && !c.pipe.cancelling
    ensures Draws(c, Result(c, reply))
  {
  }

  // A handler that returned something else than EIO has moved no data.
  ghost predicate Plain(c: Common)
    reads c`sizeFromCmnd, c`dataSize, c`residue, c`stored, c`usbAmountLeft, c`shortPacket, c`curlun
    reads c.pipe, c.port
    reads c.lun0`filp, c.lun0`image, c.lun0`fileLength, c.lun0`numSectors, c.lun0`blksize
    reads c.lun0`loadPending, c.lun0`unitAttention
  {
    c.Valid() && c.AtRest() && c.port.Calm()
  }

  lemma RestBuffer(c: Common)
    requires c.AtRest()
    ensures c.pipe.fill < |c.pipe.bufs| && |c.pipe.bufs[c.pipe.fill].buf| == BUFLEN
    ensures !c.pipe.bufs[c.pipe.fill].Busy() && c.pipe.Idle() && c.pipe.data == []
    ensures c.pipe.Stale() == c.pipe.bufs[c.pipe.fill].Outgoing()
  {
    assert AllOk(c.pipe.bufs);
    RestIsIdle(c.pipe.bufs, c.pipe.base);
    OutRingEnds(c.pipe.bufs, c.pipe.base, c.pipe.outQueue, c.pipe.win, c.pipe.drain, c.pipe.fill);
  }

  // A refused command has been answered.
  lemma RefusedAnswered(c: Common)
    requires Current(c) && Plain(c) && c.command.verdict.reply == EINVAL && c.ioLog == []
    requires c.Unit() == c.command.verdict.unit && c.phaseError == c.command.verdict.phaseError
    requires c.curlun == null ==> c.lun0.View() == c.command.before && (!c.phaseError ==> !c.badLunOkay)
    ensures Result(c, EINVAL).Right()
  {
  }

  // A handler that touches neither the medium nor the host's data has ended.
  ghost predicate SmallEnded(c: Common, reply: int)
    reads c, c.pipe, c.port, c.lun0
  {
    && Begun(c) && Plain(c) && Small(c.command.wants.handler) && c.ioLog == []
    && (c.curlun != null ==>
          && SmallReturned(c, c.command.wants.handler, reply, c.command.before.ClearSense())
          && SmallFilled(c, c.command.wants.handler, reply, c.command.before.ClearSense()))
    && (c.curlun == null ==>
          c.lun0.View() == c.command.before && c.badLunOkay && c.command.wants.handler.DoInquiry? && reply == 36)
  }

  // The reply is as long as the handler says, cut to what the command asked for.
  lemma SmallReply(c: Common, reply: int)
    requires SmallEnded(c, reply)
    ensures reply == EINVAL || 0 <= reply <= 40
    ensures |Promised(c, reply)| == if c.dataDir == ToHost then Min(Max(reply, 0), c.sizeFromCmnd) else 0
    ensures reply != EIO && |Promised(c, reply)| <= c.residue
  {
    RestBuffer(c);
  }

  lemma SmallAnswered(c: Common, reply: int)
    requires SmallEnded(c, reply)
    ensures Result(c, reply).Right() && (reply == EINVAL || 0 <= reply <= 40)
  {
    SmallReply(c, reply);
  }

  // START STOP UNIT has ended.
  ghost predicate StartStopEnded(c: Common, reply: int)
    reads c, c.pipe, c.port, c.lun0
  {
    && Begun(c) && Plain(c) && c.command.wants.handler.DoStartStop? && c.ioLog == [] && c.curlun != null
    && var v := c.command.before.ClearSense();
       var sense := StartStopSense(c.cmnd, v);
       && reply == (if sense == NO_SENSE then 0 else EINVAL) && c.lun0.senseData == sense
       && (if reply == 0 && AsksToEject(c.cmnd) then c.lun0.View().Ejected(v)
           else c.lun0.View() == v.WithSense(sense))
  }

  lemma StartStopAnswered(c: Common, reply: int)
    requires StartStopEnded(c, reply)
    ensures Result(c, reply).Right()
  {
    RestBuffer(c);
  }

  // The sense data of the unit addressed, or the lack of it.
  function SenseAsked(c: Command): Sense {
    if c.present then SenseOf(c.before) else Sense(UNIT_NOT_SUPPORTED, 0, false)
  }

  // REQUEST SENSE has ended.
  ghost predicate SenseEnded(c: Common)
    reads c, c.pipe, c.port, c.lun0
  {
    && Begun(c) && Plain(c) && c.command.wants.handler.DoRequestSense? && c.ioLog == []
    && (c.curlun == null ==> c.lun0.View() == c.command.before && c.badLunOkay)
    && (c.curlun != null ==>
          && c.command.verdict.unit == Some(c.command.before)
          && c.lun0.View() == c.command.before.ClearSense())
    && c.pipe.fill < |c.pipe.bufs| && |c.pipe.bufs[c.pipe.fill].buf| == BUFLEN
    && c.pipe.bufs[c.pipe.fill].buf[..SENSE_LENGTH] == SenseReply(SenseAsked(c.command))
  }

  lemma SenseAnswered(c: Common)
    requires SenseEnded(c)
    ensures Result(c, SENSE_LENGTH).Right()
  {
    RestBuffer(c);
    var buf, n := c.pipe.bufs[c.pipe.fill].buf, Min(SENSE_LENGTH, c.sizeFromCmnd);
    assert buf[..SENSE_LENGTH][..n] == buf[..n];
  }

  // The data phase of a command that takes data from the host, as its handler
  // leaves it: nothing has been asked twice, if nothing is left over then nothing is
  // outstanding either, and the host counts as having stopped early only if it has.
  ghost predicate OutPending(c: Common)
    reads c`dataSize, c`residue, c`stored, c`usbAmountLeft, c`shortPacket, c.pipe
  {
    && c.pipe.OutPhase() && c.pipe.telling == []
    && c.pipe.outAsked + c.usbAmountLeft == c.dataSize && c.stored + c.residue == c.dataSize
    && (c.residue == 0 ==> c.pipe.win == [] && c.usbAmountLeft == 0)
    && (c.shortPacket ==> AnyCutOff(c.pipe.data))
  }

  // The reply is in place, or there is none, and nothing has come in since the
  // wrapper.
  ghost predicate InPending(c: Common)
    reads c.pipe
  {
    && c.pipe.Valid() && (c.pipe.Ready() || (c.pipe.Idle() && !c.pipe.bufs[c.pipe.fill].Busy()))
    && c.pipe.data == []
  }

  // What finish_reply finds.
  ghost predicate Finishable(c: Common)
    reads c`dataDir, c`dataSize, c`residue, c`stored, c`usbAmountLeft, c`shortPacket, c.pipe
  {
    match c.dataDir
    case ToHost => InPending(c)
    case FromHost => OutPending(c)
    case _ => c.pipe.Valid() && c.pipe.Idle() && c.pipe.telling == [] && c.pipe.data == []
  }

  lemma RestFinishable(c: Common)
    requires c.AtRest()
    ensures Finishable(c)
  {
    RestBuffer(c);
  }

  // A handler has returned: the command is answered by Result, and either no
  // data has moved or the data phase is ready to be finished.
  ghost predicate Ended(c: Common, reply: int)
    reads c`command, c`dataDir, c`dataSize, c`sizeFromCmnd, c`residue, c`tag, c`stored, c`usbAmountLeft
    reads c`shortPacket, c`fault, c`ioLog, c`phaseError, c`curlun, c`badLunOkay, c.pipe, c.lun0
  {
    Result(c, reply).Right() && LeftReady(c, reply)
  }

  ghost predicate LeftReady(c: Common, reply: int)
    reads c`dataDir, c`dataSize, c`sizeFromCmnd, c`residue, c`stored, c`usbAmountLeft, c`shortPacket, c.pipe
  {
    if reply == EIO then Finishable(c) else c.AtRest() && (reply == EINVAL || 0 <= reply <= 40)
  }

  // Or a signal interrupted it.
  ghost predicate Stopped(c: Common, reply: int)
    reads c`command, c`dataDir, c`dataSize, c`sizeFromCmnd, c`residue, c`tag, c`stored, c`usbAmountLeft
    reads c`shortPacket, c`fault, c`ioLog, c`phaseError, c`curlun, c`badLunOkay, c.pipe, c.port, c.lun0
  {
    c.GaveUp(reply) || (c.Valid() && c.port.Calm() && Ended(c, reply))
  }

  // What the checks of the handler itself refuse a data or verify command with.
  function RefusedWith(h: Handler, c: Cdb, v: LunView): SenseCode {
    if h.DoRead? then ReadRefusal(c) else if h.DoWrite? then WriteRefusal(c, v) else VerifyRefusal(c, v)
  }

  // A data or verify command that did nothing or was refused, by the medium's own
  // checks.
  lemma NothingMoved(c: Common, reply: int, stale: seq<byte>)
    requires Begun(c) && Plain(c) && c.curlun != null
    requires c.lun0.View().SameButSense(c.command.before) && c.lun0.unitAttention == NO_SENSE
    requires stale == c.command.stale
    requires c.Published(reply != EINVAL && !c.command.wants.handler.DoVerify?, c.command.wants.handler.DoWrite?)
    requires if reply == EINVAL then
               c.lun0.senseData == RefusedWith(c.command.wants.handler, c.cmnd, c.command.before)
             else c.lun0.senseData == NO_SENSE && reply == EIO && c.pipe.Stale() == stale
    requires var h, a := c.command.wants.handler,
                     if c.command.wants.handler.DoRead? then ReadAdmitted(c.cmnd, c.command.before)
                     else if c.command.wants.handler.DoWrite? then WriteAdmitted(c.cmnd, c.command.before)
                     else VerifyAdmitted(c.cmnd, c.command.before);
             && (h.DoRead? || h.DoWrite? || h.DoVerify?) && (reply == EINVAL <==> !a)
             && (reply == EIO ==> if h.DoVerify? then Be16(c.cmnd, 7) == 0 else c.sizeFromCmnd == 0)
    ensures Ended(c, reply)
  {
    RestBuffer(c);
    RestFinishable(c);
  }

  // VERIFY with blocks to check.
  lemma VerifyEnded(c: Common, seen: seq<byte>)
    requires Begun(c) && Plain(c) && c.curlun != null && c.command.wants.handler.DoVerify?
    requires c.lun0.View().SameButSense(c.command.before) && c.lun0.unitAttention == NO_SENSE && c.ioLog == []
    requires VerifyAdmitted(c.cmnd, c.command.before) && Be16(c.cmnd, 7) > 0
    requires c.Verified(Times(Be32(c.cmnd, 2), c.lun0.blksize), Times(Be16(c.cmnd, 7), c.lun0.blksize), seen)
    ensures Ended(c, 0)
  {
    RestBuffer(c);
  }

  // A READ has its last buffer ready.
  ghost predicate ReadSent(c: Common, k: nat)
    reads c, c.pipe, c.port, c.lun0
  {
    && Begun(c) && c.curlun != null && c.command.wants.handler.DoRead?
    && c.lun0.View().SameButSense(c.command.before) && c.sizeFromCmnd > 0
    && ReadAdmitted(c.cmnd, c.lun0.View()) && c.dataDir == ToHost && c.stored == 0
    && c.Published(true, false)
    && c.ReadDone(CommandOffset(c.cmnd, c.lun0.blksize), k)
  }

  lemma ReadSentData(c: Common, k: nat)
    requires ReadSent(c, k)
    ensures |Promised(c, EIO)| == k
    ensures LiesAt(c.lun0.image, CommandOffset(c.cmnd, c.lun0.blksize), Promised(c, EIO))
  {
    JoinedLies(c.lun0.image, CommandOffset(c.cmnd, c.lun0.blksize), k,
               c.pipe.InData(), c.pipe.bufs[c.pipe.fill].Outgoing());
  }

  lemma ReadSentEffect(c: Common, k: nat)
    requires ReadSent(c, k)
    ensures Result(c, EIO).ReadEffect() && |Result(c, EIO).data| == k
  {
    ReadSentData(c, k);
  }

  // READ with a data phase.
  lemma ReadEnded(c: Common, k: nat)
    requires ReadSent(c, k)
    ensures Ended(c, EIO)
  {
    ReadSentEffect(c, k);
    assert c.pipe.data == [];
  }

  lemma CutIsAny(p: Pipeline)
    requires 0 < p.drained <= |p.data| && p.data[p.drained - 1].CutOff()
    ensures AnyCutOff(p.data)
  {
  }

  // If everything the host offered was stored then nothing is outstanding.
  lemma WritePending(c: Common, t: Target, p: Progress, touched: nat, file0: seq<byte>)
    requires c.Writable() && c.WriteDone(t, p, touched, file0) && c.sizeFromCmnd > 0
    ensures OutPending(c)
  {
    if c.residue == 0 {
      AllStored(t, p, c.dataSize);
    }
    if c.shortPacket {
      CutIsAny(c.pipe);
    }
  }

  // A WRITE has moved its data.
  ghost predicate Wrote(c: Common, t: Target, p: Progress, touched: nat, file0: seq<byte>)
    reads c, c.pipe, c.port, c.lun0
  {
    && Begun(c) && c.curlun != null && c.command.wants.handler.DoWrite?
    && c.Writable() && c.WriteDone(t, p, touched, file0) && c.sizeFromCmnd > 0
    && t == Target(c.sizeFromCmnd, CommandOffset(c.cmnd, c.lun0.blksize), c.lun0.fileLength, c.lun0.blksize)
    && WriteAdmitted(c.cmnd, c.lun0.View()) && c.dataDir == FromHost
    && c.command.before.image == file0 && c.Published(true, true)
    && c.lun0.View().SameButSense(c.command.before.(image := c.lun0.image))
  }

  lemma WroteEffect(c: Common, t: Target, p: Progress, touched: nat, file0: seq<byte>)
    requires Wrote(c, t, p, touched, file0)
    ensures Result(c, EIO).WriteEffect()
  {
    assert Result(c, EIO).Landed(touched);
  }

  // WRITE with a data phase.
  lemma WriteEnded(c: Common, t: Target, p: Progress, touched: nat, file0: seq<byte>)
    requires Wrote(c, t, p, touched, file0)
    ensures Ended(c, EIO)
  {
    WritePending(c, t, p, touched, file0);
    WroteEffect(c, t, p, touched, file0);
  }

  // ------------------------------------------------------------ the handlers

  // check_command has passed; the handler is about to run.
  ghost predicate Entered(c: Common)
    reads c, c.pipe, c.port, c.lun0
  {
    && Begun(c) && Plain(c) && c.locked && c.ioLog == [] && !c.fault && c.command.stale == c.pipe.Stale()
    && (c.curlun == null ==>
          && c.lun0.View() == c.command.before && !c.badLunOkay
          && (c.command.wants.handler.DoInquiry? || c.command.wants.handler.DoRequestSense?))
    && (c.curlun != null ==>
          if c.command.wants.handler.DoRequestSense? then
            c.lun0.View() == c.command.before && c.command.verdict.unit == Some(c.command.before)
          else c.lun0.View() == c.command.before.ClearSense())
    && (c.command.wants.medium ==>
          c.curlun != null && c.lun0.filp.Some? && c.lun0.unitAttention == NO_SENSE)
    && (c.sizeFromCmnd > 0 ==> c.dataDir == c.command.wants.dir)
  }

  // The same for a handler that works on the medium.
  ghost predicate EnteredMedium(c: Common)
    reads c, c.pipe, c.port, c.lun0
  {
    && Begun(c) && c.Fresh() && c.ioLog == [] && c.command.stale == c.pipe.Stale()
    && c.lun0.View() == c.command.before.ClearSense()
  }

  lemma MediumEntered(c: Common)
    requires Entered(c) && c.command.wants.medium && !c.command.wants.handler.DoRequestSense?
    ensures EnteredMedium(c)
  {
  }

  // do_read has returned.
  ghost predicate ReadCame(c: Common, reply: int, k: nat)
    reads c, c.pipe, c.port, c.lun0
  {
    || c.GaveUp(reply)
    || (&& Begun(c) && c.curlun != null && c.command.wants.handler.DoRead?
        && (c.sizeFromCmnd > 0 ==> c.dataDir == ToHost)
        && c.ReadReturned(reply, k, c.command.stale)
        && c.stored == 0 && c.lun0.unitAttention == NO_SENSE && c.lun0.View().SameButSense(c.command.before)
        && c.Published(ReadAdmitted(c.cmnd, c.lun0.View()), false))
  }

  // However it has, the command has ended or was interrupted.
  lemma ReadStopped(c: Common, reply: int, k: nat)
    requires ReadCame(c, reply, k)
    ensures Stopped(c, reply)
  {
    if c.GaveUp(reply) {
    } else if reply == EIO && c.sizeFromCmnd > 0 {
      ReadEnded(c, k);
    } else {
      NothingMoved(c, reply, c.command.stale);
    }
  }

  method CallRead(c: Common) returns (reply: int, ghost k: nat)
    requires EnteredMedium(c) && c.command.wants.handler.DoRead?
    requires c.sizeFromCmnd > 0 ==> c.dataDir == ToHost
    modifies c, c.pipe, c.port, c.lun0
    ensures c.SameCommand() && c.pipe.SamePast()
    ensures ReadCame(c, reply, k)
  {
    reply, k := c.DoRead();
    assert Begun(c);
  }

  method RunRead(c: Common) returns (reply: int)
    requires EnteredMedium(c) && c.command.wants.handler.DoRead?
    requires c.sizeFromCmnd > 0 ==> c.dataDir == ToHost
    modifies c, c.pipe, c.port, c.lun0
    ensures c.SameCommand() && c.pipe.SamePast()
    ensures Stopped(c, reply)
  {
    ghost var k;
    reply, k := CallRead(c);
    ReadStopped(c, reply, k);
  }

  // do_verify has returned.
  ghost predicate VerifyCame(c: Common, reply: int, seen: seq<byte>)
    reads c, c.pipe, c.port, c.lun0
  {
    || c.GaveUp(reply)
    || (&& Begun(c) && c.curlun != null && c.command.wants.handler.DoVerify?
        && c.VerifyReturned(reply, seen, c.command.stale)
        && c.lun0.unitAttention == NO_SENSE && c.lun0.View().SameButSense(c.command.before) && c.ioLog == [])
  }

  lemma VerifyStopped(c: Common, reply: int, seen: seq<byte>)
    requires VerifyCame(c, reply, seen)
    ensures Stopped(c, reply)
  {
    if c.GaveUp(reply) {
    } else if reply == 0 {
      VerifyEnded(c, seen);
    } else {
      NothingMoved(c, reply, c.command.stale);
    }
  }

  method RunVerify(c: Common) returns (reply: int)
    requires EnteredMedium(c) && c.command.wants.handler.DoVerify?
    modifies c, c.pipe, c.port, c.lun0
    ensures c.SameCommand() && c.pipe.SamePast()
    ensures Stopped(c, reply)
  {
    var seen;
    reply, seen := c.DoVerify();
    VerifyStopped(c, reply, seen);
  }

  // do_write has returned.
  ghost predicate WriteCame(c: Common, reply: int, t: Target, p: Progress, touched: nat)
    reads c, c.pipe, c.port, c.lun0
  {
    || c.GaveUp(reply)
    || (&& Begun(c) && c.curlun != null && c.command.wants.handler.DoWrite?
        && (c.sizeFromCmnd > 0 ==> c.dataDir == FromHost)
        && c.WriteReturned(reply, t, p, touched, c.command.before.image, c.command.stale)
        && c.lun0.unitAttention == NO_SENSE
        && c.lun0.View().SameButSense(c.command.before.(image := c.lun0.image))
        && c.Published(WriteAdmitted(c.cmnd, c.lun0.View()), true))
  }

  lemma WriteStopped(c: Common, reply: int, t: Target, p: Progress, touched: nat)
    requires WriteCame(c, reply, t, p, touched)
    ensures Stopped(c, reply)
  {
    if c.GaveUp(reply) {
    } else if reply == EIO && c.sizeFromCmnd > 0 {
      WriteEnded(c, t, p, touched, c.command.before.image);
    } else {
      NothingMoved(c, reply, c.command.stale);
    }
  }

  method CallWrite(c: Common) returns (reply: int, ghost t: Target, ghost p: Progress, ghost touched: nat)
    requires EnteredMedium(c) && c.command.wants.handler.DoWrite?
    requires c.sizeFromCmnd > 0 ==> c.dataDir == FromHost
    modifies c, c.pipe, c.port, c.lun0
    ensures c.SameCommand() && c.pipe.SamePast()
    ensures WriteCame(c, reply, t, p, touched)
  {
    reply, t, p, touched := c.DoWrite();
    assert Begun(c);
  }

  method RunWrite(c: Common) returns (reply: int)
    requires EnteredMedium(c) && c.command.wants.handler.DoWrite?
    requires c.sizeFromCmnd > 0 ==> c.dataDir == FromHost
    modifies c, c.pipe, c.port, c.lun0
    ensures c.SameCommand() && c.pipe.SamePast()
    ensures Stopped(c, reply)
  {
    ghost var t, p, touched;
    reply, t, p, touched := CallWrite(c);
    WriteStopped(c, reply, t, p, touched);
  }

  method RunRequestSense(c: Common) returns (reply: int)
    requires Entered(c) && c.command.wants.handler.DoRequestSense?
    modifies c, c.pipe, c.lun0
    ensures c.SameCommand() && c.pipe.SamePast()
    ensures Stopped(c, reply)
  {
    reply := Commands.DoRequestSense(c);
    SenseStopped(c, reply);
  }

  lemma SenseStopped(c: Common, reply: int)
    requires c.GaveUp(reply) || (reply == SENSE_LENGTH && SenseEnded(c))
    ensures Stopped(c, reply)
  {
    if !c.GaveUp(reply) {
      SenseAnswered(c);
    }
  }

  method RunStartStop(c: Common) returns (reply: int)
    requires Entered(c) && c.command.wants.handler.DoStartStop?
    modifies c, c.lun0
    ensures c.SameCommand()
    ensures Stopped(c, reply) && c.locked
  {
    reply := Commands.DoStartStop(c);
    StartStopAnswered(c, reply);
  }

  method CallSmall(c: Common, h: Handler) returns (reply: int)
    requires Entered(c) && c.command.wants.handler == h && Small(h)
    modifies c, c.pipe, c.lun0
    ensures c.SameCommand() && c.pipe.SamePast()
    ensures c.GaveUp(reply) || SmallEnded(c, reply)
  {
    reply := RunSmall(c, h);
  }

  method RunOther(c: Common, h: Handler) returns (reply: int)
    requires Entered(c) && c.command.wants.handler == h && Small(h)
    modifies c, c.pipe, c.lun0
    ensures c.SameCommand() && c.pipe.SamePast()
    ensures Stopped(c, reply)
  {
    reply := CallSmall(c, h);
    if !c.GaveUp(reply) {
      SmallAnswered(c, reply);
    }
  }

  // check_command has let the handler run, or has refused the command.
  ghost predicate Checked(c: Common, reply: int, r: Request)
    reads c, c.pipe, c.port, c.lun0
  {
    || (reply == 0 && Entered(c) && c.command.wants == r && WellFormed(r))
    || (reply == EINVAL && c.Valid() && c.port.Calm() && Ended(c, EINVAL))
  }

  method RunHandler(c: Common, r: Request) returns (reply: int)
    requires Checked(c, 0, r)
    modifies c, c.pipe, c.port, c.lun0
    ensures c.SameCommand() && c.pipe.SamePast()
    ensures Stopped(c, reply)
  {
    match r.handler
    case DoRead =>
      MediumEntered(c);
      reply := RunRead(c);
    case DoWrite =>
      MediumEntered(c);
      reply := RunWrite(c);
    case DoVerify =>
      MediumEntered(c);
      reply := RunVerify(c);
    case DoRequestSense => reply := RunRequestSense(c);
    case DoStartStop => reply := RunStartStop(c);
    case _ => reply := RunOther(c, r.handler);
  }
}
