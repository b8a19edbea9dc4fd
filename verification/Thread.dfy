// The main thread: read a command wrapper, carry the command out, finish the
// reply, send the status; and deal with whatever interrupts that.
module Thread {
  import opened Base
  import opened Ring
  import opened Exceptions
  import opened Storage
  import opened Scsi
  import opened Exchanges
  import opened Transcript
  import opened Endpoints
  import opened Engine
  import opened Commands
  import opened Dispatch

  // The fields of struct fsg_common hold this wrapper.
  ghost predicate HoldsCbw(c: Common)
    reads c`cbw, c`tag, c`dataDir, c`dataSize, c`cmndSize, c`cmnd, c`curlun
  {
    && 1 <= |c.cbw.cdb| <= CDB_SIZE && c.cbw.tag < U32 && c.cbw.size < U32
    && c.cbw.Expects() == Host.Host(c.dataDir, c.dataSize, c.cmndSize) && c.tag == c.cbw.tag
    && c.cmnd[..|c.cbw.cdb|] == c.cbw.cdb && (c.curlun != null <==> c.cbw.lun == 0)
  }

  // Nothing has moved since the wrapper arrived.
  ghost predicate Untouched(c: Common)
    reads c.pipe
  {
    var empty := c.pipe.win == [] && c.pipe.telling == [] && c.pipe.data == [] && c.pipe.drained == 0
                 && c.pipe.consumed == [] && c.pipe.outAsked == 0;
    c.pipe.OutPhase() && empty
  }

  // ------------------------------------------------------------ do_scsi_command

  // Carrying a command out changes neither what the wrapper announced nor what was
  // heard before it.
  twostate predicate SameTurn(c: Common)
    reads c`cbw, c`dataDir, c`dataSize, c`running, c`ignoreBulkOut, c.pipe`past, c.pipe`told
  {
    var announced := c.cbw == old(c.cbw) && c.dataDir == old(c.dataDir) && c.dataSize == old(c.dataSize);
    var mode := c.running == old(c.running) && c.ignoreBulkOut == old(c.ignoreBulkOut);
    announced && mode && c.pipe.SamePast()
  }

  // check_command has been called and has passed.
  lemma CheckedEntered(c: Common)
    requires Begun(c) && Plain(c) && c.command.Sound() && c.locked && !c.fault && c.ioLog == []
    requires c.Unit() == c.command.verdict.unit && c.command.stale == c.pipe.Stale()
    requires c.curlun == null ==> c.lun0.View() == c.command.before && !c.badLunOkay
    ensures Entered(c) && WellFormed(c.command.wants)
  {
    DecodeWellFormed(c.command.cdb, |c.command.cbw.cdb|, c.command.Unit());
    HandlersAreSafe(c.command.Expects(), c.command.cdb, c.command.Unit());
  }

  // The command as check_command will find it.
  ghost function CommandNow(c: Common, r: Request): Command
    requires c.cmndSize <= CDB_SIZE
    reads c`cbw, c`cmnd, c`curlun, c`dataDir, c`dataSize, c`cmndSize, c.lun0, c.pipe
  {
    Command(c.cbw, c.cmnd, c.curlun != null, c.lun0.View(), c.pipe.Stale(), r,
            Check(Host.Host(c.dataDir, c.dataSize, c.cmndSize), r, c.cmnd, c.Unit()))
  }

  // The flags and records of the previous command are gone, and the lock is held.
  ghost predicate Cleared(c: Common)
    reads c`locked, c`phaseError, c`shortPacket, c`stored, c`fault, c`ioLog
  {
    c.locked && !c.phaseError && !c.shortPacket && c.stored == 0 && !c.fault && c.ioLog == []
  }

  // A command is about to be checked.
  ghost predicate Beginning(c: Common)
    reads c, c.pipe, c.port, c.lun0
  {
    c.Valid() && c.port.Calm() && HoldsCbw(c) && Untouched(c) && Cleared(c)
  }

  // check_command has decided.
  ghost predicate Judged(c: Common, reply: int, r: Request)
    reads c, c.pipe, c.port, c.lun0
  {
    JudgedAs(c, reply, r) && (reply == 0 ==> Begun(c))
  }

  ghost predicate JudgedAs(c: Common, reply: int, r: Request)
    reads c, c.pipe, c.port, c.lun0
  {
    && Current(c) && Plain(c) && c.command.cbw == c.cbw && c.command.wants == r
    && c.command.stale == c.pipe.Stale() && c.locked && !c.fault && c.ioLog == []
    && reply == c.command.verdict.reply && c.Unit() == c.command.verdict.unit
    && c.phaseError == c.command.verdict.phaseError
    && (c.curlun == null ==>
          c.lun0.View() == c.command.before && (reply == 0 || !c.phaseError ==> !c.badLunOkay))
  }

  // The counters are set up and nothing has moved.
  lemma RestNow(c: Common)
    requires Untouched(c) && c.residue == c.usbAmountLeft == c.dataSize && c.sizeFromCmnd <= c.dataSize
    requires c.stored == 0 && !c.shortPacket
    ensures c.AtRest()
  {
  }

  // Whether the command may have what it asks for.
  method JudgeRequest(c: Common, r: Request) returns (reply: int)
    requires Beginning(c) && c.command == CommandNow(c, r)
    modifies c, c.lun0
    ensures Judged(c, reply, r) && SameTurn(c) && c.command == old(c.command)
  {
    assert Current(c);
    reply := CheckCommand(c, r);
    RestNow(c);
    assert Plain(c) && Current(c);
    assert c.Unit() == c.command.verdict.unit;
  }

  lemma NowSound(c: Common, r: Request)
    requires c.lun0.Valid() && HoldsCbw(c) && r == Decode(c.cmnd, c.cmndSize, c.Unit()) && |c.pipe.Stale()| <= BUFLEN
    ensures var cmd := CommandNow(c, r);
            cmd.Ok() && cmd.Sound() && cmd.before == c.lun0.View()
  {
  }

  lemma StaleFits(c: Common)
    requires c.pipe.Valid() && !c.pipe.cancelling
    ensures |c.pipe.Stale()| <= BUFLEN
  {
    assert AllOk(c.pipe.bufs);
  }

  // What the opcode asks for, and whether it may have it.
  method CheckOpcode(c: Common) returns (reply: int, r: Request)
    requires Beginning(c)
    modifies c, c.lun0
    ensures Judged(c, reply, r) && c.command.before == old(c.lun0.View())
    ensures c.command.Ok() && c.command.Sound()
    ensures SameTurn(c)
  {
    r := Decode(c.cmnd, c.cmndSize, c.Unit());
    StaleFits(c);
    NowSound(c, r);
    c.command := CommandNow(c, r);
    reply := JudgeRequest(c, r);
  }

  lemma JudgedChecked(c: Common, reply: int, r: Request)
    requires Judged(c, reply, r) && c.command.Ok() && c.command.Sound()
    ensures Checked(c, reply, r) && c.command.cbw == c.cbw
  {
    PassedOrRefused(c.command.Expects(), r, c.command.cdb, c.command.Unit());
    if reply == 0 {
      CheckedEntered(c);
    } else {
      RefusedAnswered(c);
    }
  }

  // The command has ended, or was interrupted.
  ghost predicate Came(c: Common, reply: int)
    reads c, c.pipe, c.port, c.lun0
  {
    || c.GaveUp(reply)
    || (c.Valid() && c.port.Calm() && Ended(c, reply)
        && c.command.Ok() && c.command.Sound() && c.command.cbw == c.cbw)
  }

  // Run the handler, if it may.
  method RunChecked(c: Common, verdict: int, r: Request) returns (reply: int)
    requires Checked(c, verdict, r) && c.command.Ok() && c.command.Sound() && c.command.cbw == c.cbw
    modifies c, c.pipe, c.port, c.lun0
    ensures Came(c, reply)
    ensures SameTurn(c) && c.command == old(c.command)
  {
    reply := verdict;
    if verdict == 0 {
      reply := RunHandler(c, r);
    }
  }

  // Check the command and run its handler.
  method CheckAndRun(c: Common) returns (reply: int)
    requires Beginning(c)
    modifies c, c.pipe, c.port, c.lun0
    ensures Came(c, reply)
    ensures c.command.before == old(c.lun0.View())
    ensures SameTurn(c)
  {
    var verdict, r := CheckOpcode(c);
    JudgedChecked(c, verdict, r);
    reply := RunChecked(c, verdict, r);
  }

  // The reply buffer finish_reply will send, if any, holds what was promised.
  ghost predicate Promises(c: Common)
    reads c`outcome, c`dataDir, c.pipe`bufs, c.pipe`fill, c.pipe`telling
  {
    && c.pipe.fill < |c.pipe.bufs|
    && c.outcome.data ==
         if c.dataDir == ToHost then Joined(c.pipe.InData(), c.pipe.bufs[c.pipe.fill].Outgoing()) else []
  }

  // The status send_status will send is the one the command deserves.
  ghost predicate Concluded(c: Common)
    reads c`outcome, c`cbw, c`tag, c`residue, c`phaseError, c`curlun, c`badLunOkay, c.lun0`senseData
  {
    && c.outcome.Answered() && c.outcome.cmd.cbw == c.cbw
    && c.outcome.csw == Csw(c.tag, c.residue, StatusNow(c))
  }

  // The fields say what the wrapper announced.
  ghost predicate Announced(c: Common)
    reads c`cbw, c`dataDir, c`dataSize
  {
    c.cbw.Expects().dir == c.dataDir && c.cbw.size == c.dataSize
  }

  // What finish_reply finds.
  ghost predicate Prepared(c: Common)
    reads c, c.pipe, c.lun0`senseData
  {
    var phase := !c.locked && c.pipe.Valid() && Finishable(c) && Promises(c);
    var answer := Concluded(c) && Announced(c) && Draws(c, c.outcome);
    phase && answer
  }

  // Set up the single reply buffer of a handler that did not do so itself.
  method SetUpReply(c: Common, reply: nat)
    requires c.AtRest() && reply <= 40
    modifies c`residue, c.pipe`bufs
    ensures Finishable(c) && c.pipe.fill < |c.pipe.bufs|
    ensures c.dataDir == ToHost ==>
              var data := old(Promised(c, reply));
              && c.pipe.telling == [] && c.pipe.bufs[c.pipe.fill].Outgoing() == data
              && c.residue + |data| == old(c.residue)
    ensures c.dataDir != ToHost ==> c.residue == old(c.residue)
  {
    RestBuffer(c);
    if c.dataDir == ToHost {
      var n := Min(reply, c.sizeFromCmnd);
      c.pipe.SetReply(n);
      c.residue := c.residue - n;
    } else {
      RestFinishable(c);
    }
  }

  // A wrapper has been accepted; its command is about to begin.
  ghost predicate Accepted(c: Common)
    reads c, c.pipe, c.port, c.lun0
  {
    c.Valid() && c.port.Calm() && !c.locked && HoldsCbw(c) && Untouched(c)
  }

  // Wait for the next buffer.
  method AwaitBuffer(c: Common)
    requires Accepted(c)
    modifies c.pipe, c.port
    ensures Accepted(c) && SameTurn(c)
  {
    c.pipe.SleepRest();
  }

  method ClearFlags(c: Common)
    requires Accepted(c)
    modifies c
    ensures Beginning(c) && SameTurn(c)
  {
    c.phaseError, c.shortPacket, c.stored, c.fault, c.ioLog, c.locked := false, false, 0, false, [], true;
  }

  // Take the lock for reading.  Until then anybody may have changed the medium.
  method TakeLock(c: Common)
    requires Accepted(c)
    modifies c, c.lun0
    ensures Beginning(c) && SameTurn(c) && c.lun0.View().Touched(old(c.lun0.View()))
  {
    SysfsSteps(c);
    ClearFlags(c);
  }

  // The command has ended, the lock is free again, and the outcome is recorded; or
  // it was interrupted.
  ghost predicate Settled(c: Common, reply: int)
    reads c, c.pipe, c.port, c.lun0
  {
    !c.locked && Done(c, reply, c.outcome)
  }

  ghost predicate Done(c: Common, reply: int, e: Exchange)
    reads c`command, c`cbw, c`dataDir, c`dataSize, c`sizeFromCmnd, c`residue, c`tag, c`stored
    reads c`usbAmountLeft, c`shortPacket, c`fault, c`ioLog, c`phaseError, c`curlun, c`badLunOkay
    reads c.pipe, c.port, c.lun0
  {
    var done := if reply == EINTR then c.GaveUp(reply) else SettledAs(c, reply, e);
    done
  }

  ghost predicate SettledAs(c: Common, reply: int, e: Exchange)
    reads c`command, c`cbw, c`dataDir, c`dataSize, c`sizeFromCmnd, c`residue, c`tag, c`stored
    reads c`usbAmountLeft, c`shortPacket, c`fault, c`ioLog, c`phaseError, c`curlun, c`badLunOkay
    reads c.pipe, c.port, c.lun0
  {
    && c.Valid() && c.port.Calm()
    && LeftReady(c, reply) && e.Answered() && e.cmd.cbw == c.cbw
    && Announced(c) && e == Result(c, reply) && Draws(c, e)
  }

  // The handler set its last buffer up itself, or there is none.
  lemma DefaultReply(c: Common)
    requires SettledAs(c, EIO, c.outcome) && !c.locked
    ensures Prepared(c)
  {
  }

  // The handler leaves the reply buffer to its caller.
  method SingleReply(c: Common, reply: int)
    requires SettledAs(c, reply, c.outcome) && !c.locked && reply != EIO
    modifies c`residue, c.pipe`bufs
    ensures Prepared(c)
  {
    RestBuffer(c);
    SetUpReply(c, Max(reply, 0));
    assert Promises(c);
    assert Concluded(c);
  }

  lemma CameSettled(c: Common, reply: int)
    requires Came(c, reply) && Announced(c)
    ensures Done(c, reply, Result(c, reply))
  {
    if !c.GaveUp(reply) {
      assert c.pipe.Valid() && !c.pipe.cancelling;
      ResultDraws(c, reply);
    }
  }

  method FreeLock(c: Common, reply: int, ghost e: Exchange)
    requires Done(c, reply, e)
    modifies c`locked
    ensures !c.locked && Done(c, reply, e)
  {
    c.locked := false;
  }

  // The lock is released; what the command has come to is settled.
  method Release(c: Common, reply: int)
    requires Came(c, reply) && Announced(c)
    modifies c
    ensures Settled(c, reply) && c.outcome.cmd == old(c.command)
    ensures SameTurn(c)
  {
    CameSettled(c, reply);
    c.outcome := Result(c, reply);
    FreeLock(c, reply, c.outcome);
  }

  // The part of do_scsi_command that holds the lock.
  method RunCommand(c: Common) returns (reply: int)
    requires Accepted(c)
    modifies c, c.pipe, c.port, c.lun0
    ensures Settled(c, reply)
    ensures c.outcome.cmd.before.Touched(old(c.lun0.View()))
    ensures SameTurn(c)
  {
    AwaitBuffer(c);
    TakeLock(c);
    reply := CheckAndRun(c);
    Release(c, reply);
  }

  // The command is ready to be answered, or a signal interrupted it.
  ghost predicate Returned(c: Common, rc: int)
    reads c, c.pipe, c.port, c.lun0
  {
    !c.locked && (c.GaveUp(rc) || (rc == 0 && c.Valid() && c.port.Calm() && Prepared(c)))
  }

  method ConcludeCommand(c: Common, reply: int)
    requires SettledAs(c, reply, c.outcome) && !c.locked
    modifies c, c.pipe
    ensures Returned(c, 0) && SameTurn(c) && c.outcome == old(c.outcome)
  {
    if reply == EIO {
      DefaultReply(c);
    } else {
      SingleReply(c, reply);
    }
  }

  // A signal may be pending by now.
  method LookForSignal(c: Common, reply: int) returns (stop: bool)
    requires Settled(c, reply)
    modifies c.port
    ensures !c.locked
    ensures stop ==> c.GaveUp(EINTR)
    ensures !stop ==> SettledAs(c, reply, c.outcome)
  {
    c.port.ControlEvents();
    stop := reply == EINTR || c.port.SignalPending();
  }

  method AfterCommand(c: Common, reply: int) returns (rc: int)
    requires Settled(c, reply)
    modifies c, c.pipe, c.port
    ensures Returned(c, rc)
    ensures SameTurn(c) && c.outcome == old(c.outcome)
  {
    var stop := LookForSignal(c, reply);
    if stop {
      rc := EINTR;
    } else {
      ConcludeCommand(c, reply);
      rc := 0;
    }
  }

  // Writers of the attributes change nothing a prepared reply depends on.
  method Unlocked(c: Common, ghost rc: int)
    requires Returned(c, rc)
    modifies c.lun0
    ensures Returned(c, rc) && c.lun0.View().Touched(old(c.lun0.View()))
  {
    SysfsSteps(c);
  }

  // Writers of the attributes alone touched the unit between v and the command, and
  // between the command and now.
  ghost predicate FollowsOn(c: Common, v: LunView)
    reads c`outcome, c.port, c.lun0
  {
    var on := c.port.disturbed || c.lun0.View().Touched(c.outcome.after);
    on && c.outcome.cmd.before.Touched(v)
  }

  method DoScsiCommand(c: Common) returns (rc: int)
    requires Accepted(c)
    modifies c, c.pipe, c.port, c.lun0
    ensures Returned(c, rc)
    ensures FollowsOn(c, old(c.lun0.View()))
    ensures SameTurn(c)
  {
    var reply := RunCommand(c);
    rc := AfterCommand(c, reply);
    Unlocked(c, rc);
  }

  // ------------------------------------------------------------ finish_reply

  // The rest of the host's data is being thrown away.
  ghost predicate Discarding(c: Common)
    reads c`curlun, c`dataSize, c`usbAmountLeft, c.pipe, c.port
    reads c.lun0`filp, c.lun0`image, c.lun0`fileLength, c.lun0`numSectors, c.lun0`blksize
    reads c.lun0`loadPending, c.lun0`unitAttention
  {
    && c.Valid() && c.port.Calm() && c.pipe.OutPhase() && c.pipe.telling == []
    && c.pipe.outAsked + c.usbAmountLeft == c.dataSize
  }

  // The thread has asked itself to abort the data phase.
  ghost predicate Raised(c: Common)
    reads c.port
  {
    !c.port.disturbed && c.port.exc.state == AbortBulkOut && c.port.signal
  }

  // The host has cut a transfer off, and the rest will not be waited for.
  ghost predicate Aborted(c: Common, rc: int)
    reads c`curlun, c.pipe, c.port
    reads c.lun0`filp, c.lun0`image, c.lun0`fileLength, c.lun0`numSectors, c.lun0`blksize
    reads c.lun0`loadPending, c.lun0`unitAttention
  {
    rc == EINTR && c.Valid() && c.pipe.Valid() && c.pipe.telling == [] && Raised(c) && AnyCutOff(c.pipe.data)
  }

  // What has come in so far stays, and no status has been sent.
  twostate predicate Grown(c: Common)
    reads c.pipe`past, c.pipe`told, c.pipe`data
  {
    c.pipe.SamePast() && old(c.pipe.data) <= c.pipe.data
  }

  // Ask to abort the data phase, in which a transfer was cut off.
  method RaiseAbort(c: Common) returns (rc: int)
    requires c.Valid() && c.port.Calm() && c.pipe.Valid() && c.pipe.telling == [] && AnyCutOff(c.pipe.data)
    modifies c.port
    ensures rc == EINTR && (c.GaveUp(rc) || Aborted(c, rc))
  {
    c.port.RaiseException(AbortBulkOut, None);
    rc := EINTR;
  }

  // One buffer of it.  The rest is not waited for once a transfer was cut off.
  method DiscardNext(c: Common) returns (rc: int)
    requires Discarding(c) && c.pipe.win != []
    modifies c.pipe, c.port
    ensures Grown(c)
    ensures rc == 0 ==> Discarding(c) && |c.pipe.win| < |old(c.pipe.win)|
    ensures rc != 0 ==> c.GaveUp(rc) || Aborted(c, rc)
  {
    var b;
    rc, b := c.pipe.DrainNext();
    if rc == 0 && (b.actual < b.intended || b.status != 0) {
      CutIsAny(c.pipe);
      rc := RaiseAbort(c);
    }
  }

  // Ask for some more of it.
  method AskForRest(c: Common)
    requires Discarding(c) && |c.pipe.win| < |c.pipe.bufs| && c.usbAmountLeft > 0
    modifies c`usbAmountLeft, c.pipe
    ensures Discarding(c) && Grown(c) && c.usbAmountLeft < old(c.usbAmountLeft)
  {
    var amount := Min(c.usbAmountLeft, BUFLEN);
    ghost var b := c.pipe.RequestMore(amount);
    c.usbAmountLeft := c.usbAmountLeft - amount;
  }

  method ThrowAwayData(c: Common) returns (rc: int)
    requires Discarding(c)
    modifies c`usbAmountLeft, c.pipe, c.port
    ensures Grown(c)
    ensures rc == 0 ==> Discarding(c) && c.pipe.win == [] && c.pipe.outAsked == c.dataSize
    ensures rc != 0 ==> c.GaveUp(rc) || Aborted(c, rc)
  {
    OutRingEnds(c.pipe.bufs, c.pipe.base, c.pipe.outQueue, c.pipe.win, c.pipe.drain, c.pipe.fill);
    while c.pipe.bufs[c.pipe.drain].state != Empty || c.usbAmountLeft > 0
      invariant Discarding(c) && Grown(c)
      invariant c.pipe.bufs[c.pipe.drain].state == Empty <==> c.pipe.win == []
      invariant c.pipe.bufs[c.pipe.fill].state == Empty <==> |c.pipe.win| < |c.pipe.bufs|
      decreases c.usbAmountLeft, |c.pipe.win|
    {
      if c.pipe.bufs[c.pipe.fill].state == Empty && c.usbAmountLeft > 0 {
        AskForRest(c);
      } else {
        rc := DiscardNext(c);
        if rc != 0 {
          return;
        }
      }
      OutRingEnds(c.pipe.bufs, c.pipe.base, c.pipe.outQueue, c.pipe.win, c.pipe.drain, c.pipe.fill);
    }
    rc := 0;
  }

  // Everything announced has been asked for and has come in.
  ghost predicate TakenIn(c: Common)
    reads c`curlun, c`dataSize, c.pipe, c.port
    reads c.lun0`filp, c.lun0`image, c.lun0`fileLength, c.lun0`numSectors, c.lun0`blksize
    reads c.lun0`loadPending, c.lun0`unitAttention
  {
    && c.Valid() && c.port.Calm() && c.pipe.Valid() && c.pipe.Idle() && c.pipe.telling == []
    && AskedFor(c.pipe.data) == c.dataSize
  }

  lemma AllTakenIn(c: Common)
    requires c.Valid() && c.port.Calm() && c.pipe.OutPhase() && c.pipe.win == [] && c.pipe.telling == []
    requires c.pipe.outAsked == c.dataSize
    ensures TakenIn(c)
  {
    RestIsIdle(c.pipe.bufs, c.pipe.base);
  }

  // Take in what the command has left of the host's data.
  method FinishFromHost(c: Common) returns (rc: int)
    requires c.Valid() && c.port.Calm() && OutPending(c)
    modifies c`usbAmountLeft, c.pipe, c.port
    ensures Grown(c)
    ensures rc == 0 ==> TakenIn(c)
    ensures rc != 0 ==> c.GaveUp(rc) || Aborted(c, rc)
    ensures if c.residue == 0 then rc == 0 else c.shortPacket ==> rc == EINTR
  {
    rc := 0;
    if c.residue == 0 {
      AllTakenIn(c);
    } else if c.shortPacket {
      rc := RaiseAbort(c);
    } else {
      rc := ThrowAwayData(c);
      if rc == 0 {
        AllTakenIn(c);
      }
    }
  }

  // What has been sent on bulk-in since the last status is the data of the outcome.
  ghost predicate Given(c: Common)
    reads c`outcome, c.pipe`telling
  {
    Gives(Reply(c.pipe.telling, EncodeCsw(c.outcome.csw)), c.outcome)
  }

  // The data phase is over: what was promised has been sent, everything the host
  // offered has come in, and nothing is outstanding.
  ghost predicate Finished(c: Common)
    reads c, c.pipe, c.port, c.lun0
  {
    var still := c.Valid() && c.port.Calm() && !c.locked && c.pipe.Valid() && c.pipe.Idle();
    var moved := Given(c) && Draws(c, c.outcome) && DataRight(c.cbw, c.pipe.data);
    still && Concluded(c) && moved
  }

  // The data phase was cut short by the host; only the status remains to be sent.
  ghost predicate Aborting(c: Common)
    reads c, c.pipe, c.port, c.lun0
  {
    && !c.locked && Aborted(c, EINTR) && Concluded(c) && c.outcome.data == []
    && Draws(c, c.outcome) && c.cbw.Expects().dir == FromHost
  }

  // What was received of these transfers stays received when more come in.
  lemma DrawsStill(c: Common, e: Exchange, data0: seq<Arrival>)
    requires e.taken <= |data0| && e.received == Payloads(data0[..e.taken]) && data0 <= c.pipe.data
    requires e.broken == LastFailed(data0, e.taken)
    ensures Draws(c, e)
  {
    LastFailedStays(data0, c.pipe.data, e.taken);
    assert c.pipe.data[..e.taken] == data0[..e.taken];
  }

  // A command that takes data from the host.
  method FinishOut(c: Common) returns (rc: int)
    requires c.Valid() && c.port.Calm() && Prepared(c) && c.dataDir == FromHost
    modifies c`usbAmountLeft, c.pipe, c.port
    ensures Grown(c)
    ensures rc == 0 ==> Finished(c)
    ensures rc != 0 ==> c.GaveUp(rc) || Aborting(c)
    ensures if c.residue == 0 then rc == 0 else c.shortPacket ==> rc == EINTR
  {
    ghost var data0 := c.pipe.data;
    rc := FinishFromHost(c);
    DrawsStill(c, c.outcome, data0);
  }

  // What has been sent, and the buffer about to be, are what was promised.
  lemma GivenNext(c: Common)
    requires Promises(c) && c.dataDir == ToHost && Announced(c) && c.outcome.cmd.cbw == c.cbw
    ensures Gives(Reply(c.pipe.telling + [c.pipe.bufs[c.pipe.fill].Outgoing()], EncodeCsw(c.outcome.csw)),
                  c.outcome)
  {
    JoinedIs(c.pipe.InData(), c.pipe.bufs[c.pipe.fill].Outgoing());
    BytesSnoc(c.pipe.telling, c.pipe.bufs[c.pipe.fill].Outgoing());
  }

  // A command that sends data.
  method FinishIn(c: Common)
    requires c.Valid() && c.port.Calm() && Prepared(c) && c.dataDir == ToHost
    modifies c.pipe`bufs, c.pipe`telling, c.pipe`settled, c.pipe`fill
    ensures Finished(c) && Grown(c)
  {
    GivenNext(c);
    c.pipe.SendData();
  }

  method FinishReply(c: Common) returns (rc: int)
    requires c.Valid() && c.port.Calm() && Prepared(c)
    modifies c`usbAmountLeft, c.pipe, c.port
    ensures !c.locked && Grown(c)
    ensures rc == 0 ==> Finished(c)
    ensures rc != 0 ==> c.GaveUp(rc) || Aborting(c)
    ensures c.dataDir == FromHost && c.residue > 0 && c.shortPacket ==> rc == EINTR
    ensures c.dataDir != FromHost || c.residue == 0 ==> rc == 0
  {
    rc := 0;
    match c.dataDir
    case ToHost =>
      if c.dataSize > 0 {
        FinishIn(c);
      }
    case FromHost => rc := FinishOut(c);
    case _ =>
  }

  // ------------------------------------------------------------ send_status

  method SendStatus(c: Common)
    requires c.Valid() && c.port.Calm() && c.pipe.Valid() && c.pipe.Idle()
    requires c.port.disturbed || (c.running && Concluded(c))
    modifies c.pipe, c.port, c.pipe.ledger`log, c.pipe.ledger`replies
    ensures c.Valid() && c.pipe.Valid() && c.pipe.Idle() && c.port.Moved()
    ensures c.pipe.past == old(c.pipe.past) && c.pipe.data == old(c.pipe.data)
    ensures old(c.pipe.told) <= c.pipe.told
    ensures !c.port.disturbed ==>
              var r := Reply(old(c.pipe.telling), EncodeCsw(c.outcome.csw));
              && c.pipe.telling == [] && c.pipe.told == old(c.pipe.told) + r.Transfers()
              && c.pipe.ledger.replies == old(c.pipe.ledger.replies) + [r]
              && c.pipe.ledger.log == old(c.pipe.ledger.log) + [c.outcome]
  {
    var rc := c.pipe.SleepIdle();
    if rc != 0 || !c.running {
      return;
    }
    c.pipe.SendReply(EncodeCsw(Csw(c.tag, c.residue, StatusNow(c))));
    c.pipe.ledger.log := c.pipe.ledger.log + [c.outcome];
  }

  // ------------------------------------------------------------ get_next_command

  // Save an accepted wrapper.  The command buffer keeps its tail.
  method SaveCbw(c: Common, cbw: Cbw)
    requires c.Valid() && 1 <= |cbw.cdb| <= CDB_SIZE && cbw.tag < U32 && cbw.size < U32
    modifies c`cmndSize, c`cmnd, c`dataDir, c`dataSize, c`lun, c`curlun, c`tag, c`cbw
    ensures c.Valid() && HoldsCbw(c) && c.cbw == cbw
    ensures c.cmnd[|cbw.cdb|..] == old(c.cmnd)[|cbw.cdb|..]
  {
    c.cmndSize := |cbw.cdb|;
    c.cmnd := cbw.cdb + c.cmnd[|cbw.cdb|..];
    c.dataDir := if cbw.toHost then ToHost else FromHost;
    c.dataSize := cbw.size;
    if c.dataSize == 0 {
      c.dataDir := NoData;
    }
    c.lun := cbw.lun;
    c.curlun := if c.lun == 0 then c.lun0 else null;
    c.tag := cbw.tag;
    c.cbw := cbw;
  }

  // received_cbw: a wrapper counts if it is a good transfer, valid, meaningful,
  // and not to be ignored.
  method ReceivedCbw(c: Common, payload: seq<byte>, status: int, ghost asked: nat) returns (rc: int)
    requires c.Valid()
    modifies c`cmndSize, c`cmnd, c`dataDir, c`dataSize, c`lun, c`curlun, c`tag, c`cbw
    modifies c`ignoreBulkOut
    ensures c.Valid() && (rc == 0 || rc == EINVAL)
    ensures rc == 0 <==> Acceptable(Arrival(asked, payload, status), old(c.ignoreBulkOut))
    ensures rc == 0 ==> HoldsCbw(c) && c.cbw == ParseCbw(payload).cbw
    ensures c.ignoreBulkOut == (old(c.ignoreBulkOut) || (status == 0 && ParseCbw(payload).Invalid?))
  {
    if status != 0 || c.ignoreBulkOut {
      return EINVAL;
    }
    match ParseCbw(payload)
    case Invalid =>
      c.ignoreBulkOut := true;
      rc := EINVAL;
    case Meaningless => rc := EINVAL;
    case Accepted(cbw) =>
      SaveCbw(c, cbw);
      rc := 0;
  }

  // Wait for a wrapper in the next buffer to fill.
  method AwaitCbw(c: Common) returns (rc: int)
    requires c.Valid() && c.port.Calm() && c.pipe.Valid() && c.pipe.Idle()
    modifies c.pipe, c.port
    ensures Grown(c)
    ensures rc == 0 ==> c.Valid() && c.port.Calm() && c.pipe.CbwHeard(CBW_LENGTH)
                        && c.pipe.data[..|c.pipe.data| - 1] == old(c.pipe.data)
                        && c.pipe.telling == old(c.pipe.telling)
    ensures rc != 0 ==> c.GaveUp(rc)
  {
    rc := c.pipe.SleepIdle();
    if rc == 0 {
      c.pipe.AskForCbw(CBW_LENGTH);
      rc := c.pipe.SleepCbw();
    }
  }

  // After all that was heard before, the transfer w has come in where a wrapper was
  // asked for; whether it counts is decided, and it is taken exactly as it came.
  ghost predicate TookCbw(c: Common, rc: int, w: Arrival, heard: seq<Arrival>, ignoring: bool)
    reads c`cbw, c`ignoreBulkOut, c.pipe`past, c.pipe`data
  {
    && w.asked == CBW_LENGTH && c.pipe.past == heard + [w] && c.pipe.data == []
    && (rc == 0 <==> Acceptable(w, ignoring))
    && (rc == 0 ==> c.cbw == ParseCbw(w.payload).cbw)
    && c.ignoreBulkOut == (ignoring || (w.status == 0 && ParseCbw(w.payload).Invalid?))
  }

  // Only a signal from outside can prevent that.
  ghost predicate CbwTaken(c: Common, rc: int, w: Arrival, heard: seq<Arrival>, ignoring: bool)
    reads c, c.pipe, c.port, c.lun0
  {
    || c.GaveUp(rc)
    || (c.Valid() && c.port.Calm() && c.pipe.Valid() && c.pipe.Idle() && c.pipe.telling == []
        && TookCbw(c, rc, w, heard, ignoring) && (rc == 0 ==> Accepted(c)))
  }

  // The histories of what came in and of what was sent only grow.
  twostate predicate Recorded(c: Common)
    reads c.pipe`past, c.pipe`data, c.pipe`told
  {
    var heard := old(c.pipe.past + c.pipe.data) <= c.pipe.past + c.pipe.data;
    var sent := old(c.pipe.told) <= c.pipe.told;
    heard && sent
  }

  // Look at the wrapper that has come in.
  method LookAtCbw(c: Common, ghost before: seq<Arrival>) returns (rc: int, ghost w: Arrival)
    requires c.Valid() && c.port.Calm() && c.pipe.CbwHeard(CBW_LENGTH) && !c.locked
    requires c.pipe.data[..|c.pipe.data| - 1] == before
    modifies c`cmndSize, c`cmnd, c`dataDir, c`dataSize, c`lun, c`curlun, c`tag, c`cbw
    modifies c`ignoreBulkOut, c.pipe
    ensures c.Valid() && c.pipe.Valid() && c.pipe.Idle() && c.pipe.telling == []
    ensures c.pipe.told == old(c.pipe.Sent())
    ensures w.asked == CBW_LENGTH && c.pipe.past == (old(c.pipe.past) + before) + [w] && c.pipe.data == []
    ensures rc == 0 <==> Acceptable(w, old(c.ignoreBulkOut))
    ensures c.ignoreBulkOut == (old(c.ignoreBulkOut) || (w.status == 0 && ParseCbw(w.payload).Invalid?))
    ensures rc == 0 ==> Accepted(c) && c.cbw == ParseCbw(w.payload).cbw
  {
    var b := c.pipe.bufs[c.pipe.fill];
    w := b.Arrived();
    assert c.pipe.data == before + [w];
    rc := ReceivedCbw(c, b.Payload(), b.status, b.intended);
    c.pipe.ReleaseCbw();
    RestIsIdle(c.pipe.bufs, c.pipe.base);
  }

  method GetNextCommand(c: Common) returns (rc: int, ghost w: Arrival)
    requires c.Valid() && c.port.Calm() && c.pipe.Valid() && c.pipe.Idle() && !c.locked
    modifies c`cmndSize, c`cmnd, c`dataDir, c`dataSize, c`lun, c`curlun, c`tag, c`cbw
    modifies c`ignoreBulkOut, c.pipe, c.port
    ensures CbwTaken(c, rc, w, old(c.pipe.past + c.pipe.data), old(c.ignoreBulkOut))
    ensures Recorded(c) && (c.GaveUp(rc) || c.pipe.told == old(c.pipe.Sent()))
    ensures c.port.disturbed || old(c.pipe.past + c.pipe.data) < c.pipe.past + c.pipe.data
  {
    ghost var before := c.pipe.data;
    w := Arrival(0, [], 0);
    rc := AwaitCbw(c);
    if rc == 0 {
      rc, w := LookAtCbw(c, before);
    }
  }

  // ------------------------------------------------------------ handle_exception

  // do_set_interface: the endpoints come up again for a new configuration,
  // unless enabling them fails.
  method DoSetInterface(c: Common, newFsg: bool) returns (rc: int)
    requires c.Valid() && !c.lun0.loadPending
    modifies c`running, c`ignoreBulkOut, c.lun0`unitAttention
    ensures c.Valid() && (c.running <==> newFsg && rc == 0)
    ensures c.ignoreBulkOut == (!c.running && old(c.ignoreBulkOut))
    ensures c.lun0.unitAttention == if c.running then 0x062900 else old(c.lun0.unitAttention)
  {
    rc := *;
    c.running := false;
    if newFsg && rc == 0 {
      c.running, c.ignoreBulkOut := true, false;
      c.lun0.unitAttention := RESET_OCCURRED;
    }
  }

  // Cancel every transfer and empty the ring.
  method StopTransfers(c: Common) returns (rc: int)
    requires c.Valid() && c.pipe.Valid()
    modifies c.pipe, c.port
    ensures c.Valid() && c.pipe.Valid() && c.port.Moved() && c.pipe.telling == old(c.pipe.telling)
    ensures Grown(c)
    ensures rc == 0 ==> c.pipe.Idle()
    ensures rc != 0 ==> rc == EINTR && c.port.SignalPending()
  {
    rc := 0;
    if c.running {
      rc := c.pipe.CancelAll();
    } else {
      c.pipe.StartCancelling();
    }
    if rc == 0 {
      c.pipe.Reset();
    }
  }

  // Take the exception.  Everything but the abort of a data phase resets the
  // unit's sense data, its unit attention and its door lock.
  method TakeException(c: Common) returns (taken: Pending)
    requires c.Valid() && c.port.exc.state != Terminated && (c.port.disturbed || !c.port.signal)
    modifies c.port`exc, c.port`requests, c.port`before, c.port`taken
    modifies c.lun0`prevent, c.lun0`senseData, c.lun0`senseDataInfo, c.lun0`infoValid
    modifies c.lun0`unitAttention, c.lun0`loadPending
    ensures c.Valid() && taken == old(c.port.exc) && Reports(old(c.port.requests), taken)
    ensures c.port.exc.state == Normal && c.port.requests == []
    ensures c.port.taken == old(c.port.taken) + [taken]
    ensures c.port.before == old(c.port.before) + old(c.port.requests)
    ensures c.lun0.View() == if taken.state == AbortBulkOut then old(c.lun0.View())
                             else old(c.lun0.View()).Restarted()
    ensures taken.state != AbortBulkOut ==> !c.lun0.loadPending
  {
    taken := c.port.Take();
    if taken.state != AbortBulkOut {
      c.lun0.Reset();
    }
  }

  // What the exception calls for besides the reset has been done; `err` is what became
  // of enabling the endpoints, if they were to be.
  ghost predicate CarriedOut(c: Common, taken: Pending, err: int, running: bool, ignoring: bool)
    reads c`running, c`ignoreBulkOut, c.port`exc
  {
    var up := taken.state == ConfigChange && taken.arg.Some? && err == 0;
    && c.running == (if taken.state == ConfigChange || taken.state == Exit then up else running)
    && c.ignoreBulkOut == (ignoring && !up && !(taken.state == ProtocolReset && running))
    && (taken.state == Exit ==> c.port.exc.state == Terminated)
  }

  method CarryOut(c: Common, taken: Pending) returns (err: int)
    requires c.Valid() && c.port.Calm() && c.pipe.Valid() && c.pipe.Idle() && !c.locked
    requires taken.state != AbortBulkOut && c.port.disturbed && !c.lun0.loadPending
    modifies c`running, c`ignoreBulkOut, c.port, c.lun0
    ensures c.Valid() && c.pipe.Valid() && c.pipe.Idle() && c.port.SameTaken()
    ensures CarriedOut(c, taken, err, old(c.running), old(c.ignoreBulkOut))
    ensures c.lun0.View() == if taken.state == ConfigChange && c.running
                             then old(c.lun0.View()).(unitAttention := 0x062900) else old(c.lun0.View())
  {
    err := 0;
    match taken.state
    case ProtocolReset =>
      if c.running {
        c.ignoreBulkOut := false;
      }
    case ConfigChange => err := DoSetInterface(c, taken.arg.Some?);
    case Exit =>
      err := DoSetInterface(c, false);
      c.port.Terminate();
    case _ =>
  }

  // ------------------------------------------------------------ the main loop

  // Every wrapper that counted has been answered, and every transfer is accounted for.
  ghost predicate Fulfilled(c: Common)
    reads c`ignoreBulkOut, c.pipe`told, c.pipe`telling, c.pipe`past, c.pipe`data, c.pipe.ledger, c.lun0
  {
    var l := c.pipe.ledger;
    && c.pipe.telling == []
    && Square(l.turns, l.replies, l.log, c.pipe.told, c.pipe.past + c.pipe.data, c.ignoreBulkOut, c.lun0.View())
  }

  // The last wrapper, with which the data of the command begins, is still owed its
  // answer.
  ghost predicate Owed(c: Common, past: seq<Arrival>)
    reads c`cbw, c`running, c`ignoreBulkOut, c.pipe`told, c.pipe.ledger
  {
    && c.running && c.pipe.ledger.AllBut(c.pipe.told, c.cbw)
    && Spoken(c.pipe.ledger.turns) == past && c.ignoreBulkOut == Ignoring(c.pipe.ledger.turns)
  }

  // And what the answer will be is settled.
  ghost predicate Owing(c: Common)
    reads c`outcome, c`cbw, c`running, c`ignoreBulkOut, c.pipe`past, c.pipe`told, c.pipe.ledger, c.lun0
  {
    && Owed(c, c.pipe.past)
    && Follows(c.pipe.ledger.log, c.outcome.cmd.before) && c.lun0.View().Touched(c.outcome.after)
  }

  // The main loop between two turns.
  ghost predicate Steady(c: Common)
    reads c, c.pipe, c.port, c.lun0, c.pipe.ledger
  {
    && c.Valid() && c.pipe.Valid() && !c.locked
    && (c.port.Attention() || c.pipe.Idle())
    && (c.port.disturbed || (c.port.Calm() && Fulfilled(c)) || (Aborting(c) && Owing(c)))
  }

  // Everything the answer depends on is in place.
  ghost predicate Due(c: Common)
    reads c, c.pipe, c.lun0, c.pipe.ledger
  {
    && Concluded(c) && Given(c) && Owing(c)
    && Draws(c, c.outcome) && DataRight(c.cbw, c.pipe.data)
  }

  // With the answer, and with the data that came in, the account is settled.
  lemma DueSettles(c: Common)
    requires Due(c)
    ensures var l, r := c.pipe.ledger, Reply(c.pipe.telling, EncodeCsw(c.outcome.csw));
            Square(Close(l.turns, c.pipe.data), l.replies + [r], l.log + [c.outcome],
                   c.pipe.told + r.Transfers(), c.pipe.past + c.pipe.data, c.ignoreBulkOut, c.lun0.View())
  {
    var l := c.pipe.ledger;
    Answer(l.turns, l.replies, l.log, c.pipe.told, c.pipe.data,
           Reply(c.pipe.telling, EncodeCsw(c.outcome.csw)), c.outcome);
  }

  // What has come in so far stays, and what has been sent.
  twostate predicate Extended(c: Common)
    reads c.pipe`past, c.pipe`told, c.pipe`data
  {
    c.pipe.past == old(c.pipe.past) && old(c.pipe.data) <= c.pipe.data && old(c.pipe.told) <= c.pipe.told
  }

  // Between two turns with nothing owed.
  ghost predicate AtEase(c: Common)
    reads c, c.pipe, c.port, c.lun0, c.pipe.ledger
  {
    var quiet := c.pipe.Idle() && !c.locked;
    var paid := c.port.disturbed || (c.port.Calm() && Fulfilled(c));
    c.Valid() && c.pipe.Valid() && quiet && paid
  }

  // Send the status of a command whose answer is owed.
  method GiveAnswer(c: Common)
    requires c.Valid() && c.port.Calm() && c.pipe.Valid() && c.pipe.Idle() && !c.locked
    requires c.port.disturbed || Due(c)
    modifies c.pipe, c.port, c.pipe.ledger
    ensures AtEase(c) && c.port.Moved() && Extended(c)
    ensures c.port.disturbed || c.pipe.ledger.log == old(c.pipe.ledger.log) + [c.outcome]
  {
    ghost var turns := c.pipe.ledger.turns;
    if !c.port.disturbed {
      DueSettles(c);
      turns := Close(turns, c.pipe.data);
    }
    SendStatus(c);
    c.pipe.ledger.turns := turns;
    assert c.port.disturbed || Fulfilled(c);
  }

  // The history only grows.
  lemma HeardGrows(past: seq<Arrival>, data0: seq<Arrival>, data: seq<Arrival>)
    requires data0 <= data
    ensures past + data0 <= past + data
  {
  }

  // The exception p was taken, and it reports everything that has been requested since
  // the one before, of which rs0 is the beginning.
  ghost predicate Took(rs0: seq<Event>, before0: seq<Event>, taken0: seq<Pending>, p: Pending, port: Port)
    reads port
  {
    && port.taken == taken0 + [p] && before0 + rs0 <= port.before
    && Reports(port.before[|before0|..], p)
  }

  // Nothing was taken; what was requested is pending, and a signal asks for it.
  ghost predicate Kept(rs0: seq<Event>, before0: seq<Event>, taken0: seq<Pending>, port: Port)
    reads port
  {
    port.taken == taken0 && port.before == before0 && rs0 <= port.requests && port.SignalPending()
  }

  lemma TookAll(before0: seq<Event>, rs0: seq<Event>, rs: seq<Event>)
    requires rs0 <= rs
    ensures before0 + rs0 <= before0 + rs && (before0 + rs)[|before0|..] == rs
  {
  }

  // Clear the signals, stop the transfers and take the exception, unless another
  // signal comes first.
  method TakeUp(c: Common) returns (rc: int, taken: Pending)
    requires c.Valid() && c.pipe.Valid() && c.port.exc.state != Terminated
    modifies c.pipe, c.port, c.lun0`prevent, c.lun0`senseData, c.lun0`senseDataInfo, c.lun0`infoValid
    modifies c.lun0`unitAttention, c.lun0`loadPending
    ensures c.Valid() && c.pipe.Valid() && c.pipe.telling == old(c.pipe.telling) && Grown(c)
    ensures rc != 0 ==>
              && c.port.disturbed && c.lun0.View() == old(c.lun0.View())
              && Kept(old(c.port.requests), old(c.port.before), old(c.port.taken), c.port)
    ensures rc == 0 ==>
              Took(old(c.port.requests), old(c.port.before), old(c.port.taken), taken, c.port)
    ensures rc == 0 ==> c.pipe.Idle() && c.port.Calm()
    ensures rc == 0 && !c.port.disturbed ==> taken == old(c.port.exc)
    ensures rc == 0 ==> c.lun0.View() == if taken.state == AbortBulkOut then old(c.lun0.View())
                                         else old(c.lun0.View()).Restarted()
    ensures rc == 0 && taken.state != AbortBulkOut ==> !c.lun0.loadPending
  {
    c.port.DequeueSignals();
    taken := c.port.exc;
    rc := StopTransfers(c);
    if rc == 0 {
      TookAll(c.port.before, old(c.port.requests), c.port.requests);
      taken := TakeException(c);
    }
  }

  // An aborted data phase leaves the answer due.
  lemma AbortedDue(c: Common, data0: seq<Arrival>)
    requires Concluded(c) && Given(c) && Owing(c)
    requires c.cbw.Expects().dir == FromHost && AnyCutOff(data0) && data0 <= c.pipe.data
    requires c.outcome.taken <= |data0| && c.outcome.received == Payloads(data0[..c.outcome.taken])
    requires c.outcome.broken == LastFailed(data0, c.outcome.taken)
    ensures Due(c)
  {
    DrawsStill(c, c.outcome, data0);
    var i :| 0 <= i < |data0| && data0[i].CutOff();
    assert c.pipe.data[i].CutOff();
  }

  // The same at the start of a turn.  In a run that nothing outside disturbs, the
  // exception is the abort of a data phase, whose answer is due.
  method Seize(c: Common) returns (rc: int, taken: Pending)
    requires Steady(c) && c.port.Attention() && c.port.exc.state != Terminated
    modifies c.pipe, c.port, c.lun0
    ensures c.Valid() && c.pipe.Valid() && Grown(c)
    ensures rc != 0 ==>
              && c.port.disturbed && c.lun0.View() == old(c.lun0.View())
              && Kept(old(c.port.requests), old(c.port.before), old(c.port.taken), c.port)
    ensures rc == 0 ==>
              && Took(old(c.port.requests), old(c.port.before), old(c.port.taken), taken, c.port)
              && c.pipe.Idle() && c.port.Calm() && (taken.state != AbortBulkOut ==> !c.lun0.loadPending)
              && c.lun0.View() == (if taken.state == AbortBulkOut then old(c.lun0.View())
                                   else old(c.lun0.View()).Restarted())
              && (c.port.disturbed || (taken.state == AbortBulkOut && Due(c)))
  {
    ghost var data0 := c.pipe.data;
    rc, taken := TakeUp(c);
    if rc == 0 && !c.port.disturbed {
      AbortedDue(c, data0);
    }
  }

  // The exception has been taken and carried out: all but an abort reset the unit, and
  // each does what it is for.
  ghost predicate Obeyed(c: Common, taken: Pending, err: int, running: bool, ignoring: bool, v: LunView)
    reads c`running, c`ignoreBulkOut, c.port`exc, c.lun0
  {
    if taken.state == AbortBulkOut then
      c.running == running && c.ignoreBulkOut == ignoring && c.lun0.View() == v
    else
      && CarriedOut(c, taken, err, running, ignoring)
      && c.lun0.View() == v.Restarted().(unitAttention := if taken.state == ConfigChange && c.running
                                                          then 0x062900 else NO_SENSE)
  }

  // Carry the exception out; an abort is the one that ends with a status.
  method Obey(c: Common, taken: Pending, ghost v: LunView) returns (err: int)
    requires c.Valid() && c.port.Calm() && c.pipe.Valid() && c.pipe.Idle() && !c.locked
    requires c.port.disturbed || (taken.state == AbortBulkOut && Due(c))
    requires c.lun0.View() == if taken.state == AbortBulkOut then v else v.Restarted()
    requires taken.state != AbortBulkOut ==> !c.lun0.loadPending
    modifies c`running, c`ignoreBulkOut, c.pipe, c.port, c.pipe.ledger, c.lun0
    ensures Steady(c) && Extended(c) && c.port.SameTaken()
    ensures c.port.disturbed || (Fulfilled(c) && !c.port.Attention())
    ensures Obeyed(c, taken, err, old(c.running), old(c.ignoreBulkOut), v)
  {
    err := 0;
    if taken.state == AbortBulkOut {
      GiveAnswer(c);
    } else {
      err := CarryOut(c, taken);
    }
  }

  // What was pending has been taken and carried out; or a signal is pending that came
  // first, and nothing has changed.
  ghost predicate Dealt(c: Common, rc: int, taken: Pending, err: int, rs0: seq<Event>, before0: seq<Event>,
                        taken0: seq<Pending>, running: bool, ignoring: bool, v: LunView)
    reads c`running, c`ignoreBulkOut, c.port, c.lun0
  {
    if rc == 0 then
      Took(rs0, before0, taken0, taken, c.port) && Obeyed(c, taken, err, running, ignoring, v)
    else
      && Kept(rs0, before0, taken0, c.port)
      && c.running == running && c.ignoreBulkOut == ignoring && c.lun0.View() == v
  }

  // handle_exception.  What has been requested is carried out, or, when a signal cuts it
  // short, kept; and an answer that was owed has been given when it returns.
  method HandleException(c: Common) returns (rc: int, taken: Pending, err: int)
    requires Steady(c) && c.port.Attention() && c.port.exc.state != Terminated
    modifies c`running, c`ignoreBulkOut, c.pipe, c.port, c.pipe.ledger, c.lun0
    ensures Steady(c) && Extended(c)
    ensures c.port.disturbed || (Fulfilled(c) && !c.port.Attention() && c.running == old(c.running))
    ensures Dealt(c, rc, taken, err, old(c.port.requests), old(c.port.before), old(c.port.taken),
                  old(c.running), old(c.ignoreBulkOut), old(c.lun0.View()))
  {
    err := 0;
    rc, taken := Seize(c);
    if rc == 0 {
      err := Obey(c, taken, old(c.lun0.View()));
    }
  }

  // The thread has accepted a wrapper and settled what the answer will be.
  ghost predicate Answering(c: Common)
    reads c, c.pipe, c.port, c.lun0, c.pipe.ledger
  {
    c.Valid() && c.pipe.Valid() && c.port.Calm() && Prepared(c) && (c.port.disturbed || Owing(c))
  }

  // Something from outside has to be dealt with first.
  ghost predicate Halted(c: Common)
    reads c, c.pipe, c.port, c.lun0
  {
    c.Valid() && c.pipe.Valid() && !c.locked && c.port.disturbed && c.port.Attention()
  }

  // A wrapper has been accepted on top of those already answered, which left
  // the unit as v.
  ghost predicate Pledged(c: Common, past: seq<Arrival>, v: LunView)
    reads c`cbw, c`running, c`ignoreBulkOut, c.pipe`told, c.pipe.ledger
  {
    Owed(c, past) && Follows(c.pipe.ledger.log, v)
  }

  lemma PledgedOwing(c: Common, v: LunView)
    requires Pledged(c, c.pipe.past, v) && FollowsOn(c, v)
    ensures c.port.disturbed || Owing(c)
  {
    if c.pipe.ledger.log != [] {
      TouchedTwice(c.pipe.ledger.log[|c.pipe.ledger.log| - 1].after, v, c.outcome.cmd.before);
    }
  }

  // The thread may take the next wrapper.
  ghost predicate Open(c: Common)
    reads c, c.pipe, c.port, c.lun0, c.pipe.ledger
  {
    && c.Valid() && c.pipe.Valid() && c.pipe.Idle() && !c.locked && c.port.Calm()
    && (c.port.disturbed || Fulfilled(c))
  }

  lemma SteadyOpen(c: Common)
    ensures Steady(c) && !c.port.Attention() ==> Open(c)
    ensures Open(c) || Halted(c) ==> Steady(c)
  {
  }

  // A wrapper that counts has been taken, or none.
  ghost predicate WrapperTaken(c: Common, rc: int)
    reads c, c.pipe, c.port, c.lun0, c.pipe.ledger
  {
    || c.GaveUp(rc)
    || (rc != 0 && AtEase(c))
    || (rc == 0 && Accepted(c) && (c.port.disturbed || Pledged(c, c.pipe.past, c.lun0.View())))
  }

  // Without one, or if something has come up, the loop starts again.
  lemma NotTaken(c: Common, rc: int)
    requires !c.locked && WrapperTaken(c, rc) && (rc != 0 || c.port.exc.state != Normal)
    ensures Open(c) || Halted(c)
  {
  }

  // Enter the wrapper into the account.
  ghost method EnterTurn(c: Common, rc: int, w: Arrival, heard: seq<Arrival>, ignoring: bool)
    requires c.running && c.pipe.ledger.Complete(c.pipe.told) && Spoken(c.pipe.ledger.turns) == heard
    requires ignoring == Ignoring(c.pipe.ledger.turns) && Follows(c.pipe.ledger.log, c.lun0.View())
    requires c.pipe.telling == [] && TookCbw(c, rc, w, heard, ignoring)
    modifies c.pipe.ledger`turns
    ensures rc == 0 ==> Pledged(c, c.pipe.past, c.lun0.View())
    ensures rc != 0 ==> Fulfilled(c)
  {
    var l := c.pipe.ledger;
    var t := if rc == 0 then Served(w, []) else Refused(w);
    SpokenSnoc(l.turns, t);
    if rc == 0 {
      AcceptOne(l.turns, l.replies, l.log, c.pipe.told, w);
    } else {
      RefuseOne(l.turns, l.replies, l.log, c.pipe.told, w);
    }
    l.turns := l.turns + [t];
  }

  ghost method Enter(c: Common, rc: int, w: Arrival, heard: seq<Arrival>, ignoring: bool)
    requires c.running && !c.locked && CbwTaken(c, rc, w, heard, ignoring)
    requires c.port.disturbed
             || (c.pipe.ledger.Complete(c.pipe.told) && Spoken(c.pipe.ledger.turns) == heard
                 && ignoring == Ignoring(c.pipe.ledger.turns) && Follows(c.pipe.ledger.log, c.lun0.View()))
    modifies c.pipe.ledger`turns
    ensures WrapperTaken(c, rc)
  {
    if !c.port.disturbed {
      EnterTurn(c, rc, w, heard, ignoring);
    }
  }

  // Wait for a wrapper and enter it into the account.
  method HearWrapper(c: Common) returns (rc: int)
    requires Open(c) && c.running
    modifies c`cmndSize, c`cmnd, c`dataDir, c`dataSize, c`lun, c`curlun, c`tag, c`cbw
    modifies c`ignoreBulkOut, c.pipe, c.port, c.pipe.ledger`turns
    ensures !c.locked && Recorded(c)
    ensures WrapperTaken(c, rc)
    ensures c.port.disturbed || old(c.pipe.past + c.pipe.data) < c.pipe.past + c.pipe.data
  {
    ghost var heard, ignoring := c.pipe.past + c.pipe.data, c.ignoreBulkOut;
    ghost var w;
    rc, w := GetNextCommand(c);
    Enter(c, rc, w, heard, ignoring);
  }

  method TakeWrapper(c: Common) returns (rc: int)
    requires Open(c) && c.running
    modifies c`cmndSize, c`cmnd, c`dataDir, c`dataSize, c`lun, c`curlun, c`tag, c`cbw
    modifies c`ignoreBulkOut, c.pipe, c.port, c.pipe.ledger`turns
    ensures rc != 0 ==> Open(c) || Halted(c)
    ensures rc == 0 ==> WrapperTaken(c, 0)
    ensures Recorded(c)
    ensures c.port.disturbed || old(c.pipe.past + c.pipe.data) < c.pipe.past + c.pipe.data
  {
    rc := HearWrapper(c);
    if rc != 0 || c.port.exc.state != Normal {
      NotTaken(c, rc);
      rc := if rc != 0 then rc else EINTR;
    }
  }

  method PerformCommand(c: Common) returns (rc: int)
    requires Accepted(c) && (c.port.disturbed || Pledged(c, c.pipe.past, c.lun0.View()))
    modifies c, c.pipe, c.port, c.lun0
    ensures Returned(c, rc) && (c.port.disturbed || Owing(c))
    ensures SameTurn(c)
  {
    ghost var v := c.lun0.View();
    rc := DoScsiCommand(c);
    if !c.port.disturbed {
      PledgedOwing(c, v);
    }
  }

  // An exception can have come up although the command was carried out.
  lemma ReturnedHalted(c: Common, rc: int)
    requires Returned(c, rc) && (c.port.disturbed || Owing(c))
    ensures rc == 0 ==> Answering(c)
    ensures rc != 0 || c.port.exc.state != Normal ==> Halted(c)
  {
  }

  // Carry the command out, and look whether an exception has come up.
  method CarryThrough(c: Common) returns (rc: int)
    requires Accepted(c) && (c.port.disturbed || Pledged(c, c.pipe.past, c.lun0.View()))
    modifies c, c.pipe, c.port, c.lun0
    ensures if rc == 0 then Answering(c) else Halted(c)
    ensures SameTurn(c)
  {
    rc := PerformCommand(c);
    ReturnedHalted(c, rc);
    if rc == 0 && c.port.exc.state != Normal {
      rc := EINTR;
    }
  }

  // Take a wrapper and carry its command out.
  method TakeCommand(c: Common) returns (rc: int)
    requires Open(c) && c.running
    modifies c, c.pipe, c.port, c.pipe.ledger, c.lun0
    ensures c.running == old(c.running)
    ensures if rc == 0 then Answering(c) else Open(c) || Halted(c)
    ensures Recorded(c)
    ensures c.port.disturbed || old(c.pipe.past + c.pipe.data) < c.pipe.past + c.pipe.data
  {
    rc := TakeWrapper(c);
    if rc == 0 {
      rc := CarryThrough(c);
    }
  }

  // The reply is finished, or the thread has been stopped.
  ghost predicate Replied(c: Common, rc: int)
    reads c, c.pipe, c.port, c.lun0, c.pipe.ledger
  {
    var stopped := c.GaveUp(rc) || (Aborting(c) && (c.port.disturbed || Owing(c)));
    var finished := rc == 0 && Finished(c) && (c.port.disturbed || Owing(c));
    !c.locked && (stopped || finished)
  }

  method FinishAnswer(c: Common) returns (rc: int)
    requires Answering(c)
    modifies c, c.pipe, c.port
    ensures Grown(c) && Replied(c, rc) && c.running == old(c.running)
  {
    rc := FinishReply(c);
  }

  lemma ReplyStopped(c: Common, rc: int)
    requires Replied(c, rc) && (rc != 0 || c.port.exc.state != Normal)
    ensures Steady(c)
  {
  }

  method ConcludeAnswer(c: Common, rc: int)
    requires Replied(c, rc)
    modifies c.pipe, c.port, c.pipe.ledger
    ensures Steady(c) && Extended(c)
  {
    if rc == 0 && c.port.exc.state == Normal {
      GiveAnswer(c);
    } else {
      ReplyStopped(c, rc);
    }
  }

  // Finish the reply and send the status.
  method AnswerCommand(c: Common)
    requires Answering(c)
    modifies c, c.pipe, c.port, c.pipe.ledger
    ensures Steady(c) && Extended(c) && c.running == old(c.running)
  {
    var rc := FinishAnswer(c);
    ConcludeAnswer(c, rc);
  }

  // Serve one wrapper.
  method ServeOne(c: Common)
    requires Steady(c) && !c.port.Attention() && c.running
    modifies c, c.pipe, c.port, c.pipe.ledger, c.lun0
    ensures Steady(c) && Recorded(c) && c.running == old(c.running)
    ensures c.port.disturbed || old(c.pipe.past + c.pipe.data) < c.pipe.past + c.pipe.data
  {
    SteadyOpen(c);
    var rc := TakeCommand(c);
    if rc == 0 {
      ghost var data := c.pipe.data;
      AnswerCommand(c);
      HeardGrows(c.pipe.past, data, c.pipe.data);
    } else {
      SteadyOpen(c);
    }
  }

  // One turn of the main loop.  It deals with what is pending, and never leaves an answer
  // owing that was owed when it began; with nothing else to do it hears another wrapper.
  method Turn(c: Common) returns (rc: int, taken: Pending, err: int)
    requires Steady(c) && c.port.exc.state != Terminated
    modifies c, c.pipe, c.port, c.pipe.ledger, c.lun0
    ensures Steady(c) && Recorded(c)
    ensures !c.port.disturbed && old(c.port.Attention()) ==> Fulfilled(c) && !c.port.Attention()
    ensures c.port.disturbed || c.running == old(c.running)
    ensures old(c.port.Attention()) ==>
              Dealt(c, rc, taken, err, old(c.port.requests), old(c.port.before), old(c.port.taken),
                    old(c.running), old(c.ignoreBulkOut), old(c.lun0.View()))
    ensures !c.port.disturbed && !old(c.port.Attention()) && old(c.running) ==>
              old(c.pipe.past + c.pipe.data) < c.pipe.past + c.pipe.data
  {
    rc, taken, err := 0, Pending(Normal, 0, None), 0;
    if c.port.Attention() {
      rc, taken, err := HandleException(c);
      HeardGrows(c.pipe.past, old(c.pipe.data), c.pipe.data);
    } else if !c.running {
      c.port.ControlEvents();
    } else {
      ServeOne(c);
    }
  }

  // A gadget before its first command.
  method PowerOn(buffers: nat, packet: nat, lun0: Lun, configured: bool, disturbed: bool)
    returns (c: Common)
    requires buffers >= 1 && packet > 0 && BUFLEN % packet == 0 && lun0.Valid()
    ensures fresh(c) && fresh(c.pipe) && fresh(c.port) && fresh(c.pipe.ledger) && c.lun0 == lun0
    ensures Steady(c) && c.pipe.Heard() == [] && c.pipe.told == [] && c.pipe.ledger.turns == []
    ensures c.running == configured && c.port.disturbed == disturbed
  {
    var port := new Port(disturbed);
    var ledger := new Ledger();
    var pipe := new Pipeline(buffers, packet, port, ledger);
    c := new Common(pipe, lun0, configured);
    NothingYet(lun0.View());
  }

  // fsg_main_thread, observed for n turns.  As long as nothing outside has
  // interfered, all that came in on bulk-out is accounted for in turns, every
  // wrapper that counts has been answered by exactly one status, in order, and the
  // host has been sent nothing else; the last may still be owed while the thread
  // aborts its data phase.
  method Run(c: Common, n: nat)
    requires Steady(c)
    modifies c, c.pipe, c.port, c.pipe.ledger, c.lun0
    ensures c.port.disturbed || Fulfilled(c) || (Aborting(c) && Owing(c))
    ensures Recorded(c) && (c.port.disturbed || Advanced(c, n))
    ensures c.port.exc.state == Terminated ==> c.lun0.filp == None
  {
    Turns(c, n);
    if c.port.exc.state == Terminated && c.lun0.filp.Some? {
      c.lun0.Close();
    }
  }

  // How many transfers have come in.
  ghost function Count(c: Common): nat
    reads c.pipe`past, c.pipe`data
  {
    |c.pipe.past + c.pipe.data|
  }

  // A device that is set up and left alone hears another transfer at least every other
  // turn, unless a turn is spent on the answer still owed from before.
  twostate predicate Advanced(c: Common, n: nat)
    reads c`running, c.pipe`past, c.pipe`data
  {
    c.running == old(c.running) && (c.running ==> n <= 2 * (Count(c) - old(Count(c))) + 1)
  }

  // What the host and the thread have come to between two turns.
  datatype Moment = Moment(heard: seq<Arrival>, told: seq<seq<byte>>, running: bool, pending: bool)

  ghost function Now(c: Common): Moment
    reads c`running, c.pipe`past, c.pipe`data, c.pipe`told, c.port
  {
    Moment(c.pipe.past + c.pipe.data, c.pipe.told, c.running, c.port.Attention())
  }

  // How it can be k turns later: the histories have grown, and, if nothing disturbs it,
  // by something in each turn that was not spent on an abort.
  predicate Reached(b: Moment, k: nat, e: Moment, disturbed: bool) {
    var grown := b.heard <= e.heard && b.told <= e.told;
    var paced := k + (if e.pending then 1 else 0)
                 <= 2 * (|e.heard| - |b.heard|) + (if b.pending then 1 else 0);
    grown && (disturbed || (e.running == b.running && (e.running ==> paced)))
  }

  method PacedTurn(c: Common, ghost b: Moment, ghost k: nat)
    requires Steady(c) && c.port.exc.state != Terminated && Reached(b, k, Now(c), c.port.disturbed)
    modifies c, c.pipe, c.port, c.pipe.ledger, c.lun0
    ensures Steady(c) && Reached(b, k + 1, Now(c), c.port.disturbed)
  {
    var rc, taken, err := Turn(c);
  }

  method Turns(c: Common, n: nat)
    requires Steady(c)
    modifies c, c.pipe, c.port, c.pipe.ledger, c.lun0
    ensures Steady(c) && Recorded(c) && (c.port.disturbed || Advanced(c, n))
  {
    var left := n;
    ghost var b := Now(c);
    while left > 0 && c.port.exc.state != Terminated
      invariant left <= n && Steady(c) && Reached(b, n - left, Now(c), c.port.disturbed)
    {
      PacedTurn(c, b, n - left);
      left := left - 1;
    }
  }

  // The turn that gives the answer still owed, if one is.
  method Settle(c: Common)
    requires Steady(c) && !c.port.disturbed
    modifies c, c.pipe, c.port, c.pipe.ledger, c.lun0
    ensures Steady(c) && Fulfilled(c) && Recorded(c)
  {
    if c.port.Attention() {
      var rc, taken, err := Turn(c);
    }
  }

  // However long it has run, one more turn at most settles the account.
  method RunUntilAnswered(c: Common, n: nat)
    requires Steady(c) && !c.port.disturbed
    modifies c, c.pipe, c.port, c.pipe.ledger, c.lun0
    ensures Steady(c) && Fulfilled(c) && Recorded(c)
  {
    Turns(c, n);
    Settle(c);
  }

  // Nothing is pending, and bulk-out is listened to: so it is when a reset or a change of
  // the configuration has been carried out and nothing has happened since.
  predicate Quiet(c: Common)
    reads c`ignoreBulkOut, c.port
  {
    !c.port.Attention() && !c.ignoreBulkOut
  }

  // From such a moment on the device can be watched anew: it is the same device, with an
  // account that begins there, in surroundings that no longer interfere.
  method Resume(c: Common) returns (d: Common)
    requires Steady(c) && Quiet(c)
    ensures fresh(d) && fresh(d.pipe) && fresh(d.port) && fresh(d.pipe.ledger)
    ensures d.SameFields(c) && d.pipe.SameRing(c.pipe) && d.port.exc == c.port.exc
    ensures Steady(d) && !d.port.disturbed
    ensures d.pipe.Heard() == [] && d.pipe.told == [] && d.pipe.ledger.turns == []
  {
    var port := new Port.Resume(c.port);
    var ledger := new Ledger();
    var pipe := new Pipeline.Resume(c.pipe, port, ledger);
    d := new Common.Resume(c, pipe);
    NothingYet(d.lun0.View());
  }

  // So the account holds from the last reset or change of the configuration on: whatever
  // has happened to a device before, if nothing outside interferes any more, all that comes
  // in from there on is accounted for, and all that is sent are the answers to it.
  method RunFromQuiet(c: Common, n: nat, m: nat) returns (quiet: bool, d: Common)
    requires Steady(c)
    modifies c, c.pipe, c.port, c.pipe.ledger, c.lun0
    ensures quiet == Quiet(c)
    ensures quiet ==> fresh(d) && d.lun0 == c.lun0 && Steady(d) && Fulfilled(d)
  {
    Turns(c, n);
    quiet, d := Quiet(c), c;
    if quiet {
      d := RunAnew(c, m);
    }
  }

  method RunAnew(c: Common, m: nat) returns (d: Common)
    requires Steady(c) && Quiet(c)
    modifies c.lun0
    ensures fresh(d) && d.lun0 == c.lun0 && Steady(d) && Fulfilled(d)
  {
    d := Resume(c);
    RunUntilAnswered(d, m);
  }
}
