// Unit attention over runs of commands: a change of medium is reported once, to
// the first command that may not ignore it, before any command uses the medium; and
// what this makes of a WRITE and a later READ.
module Attention {
  import opened Base
  import opened Ring
  import opened Storage
  import opened Scsi
  import opened Exchanges
  import opened Transcript

  predicate Pending(v: LunView) {
    v.unitAttention != NO_SENSE
  }

  // A command to the unit that must report a unit attention: it passes the size,
  // direction and length checks, and is neither INQUIRY nor REQUEST SENSE.
  predicate Must(c: Command) {
    && c.Ok() && c.present && c.cdb[0] != 0x12 && c.cdb[0] != 0x03
    && var size := Min(c.wants.size, c.Expects().size);
       (size > 0 ==> c.Expects().dir == c.wants.dir) && c.wants.need <= |c.cbw.cdb|
  }

  // The command failed with the unit attention for its sense data, and took it away.
  predicate Reports(e: Exchange) {
    && e.cmd.present && e.cmd.verdict.reply != 0 && Pending(e.cmd.before)
    && e.after.senseData == e.cmd.before.unitAttention && !Pending(e.after)
  }

  // The handler ran and worked on the medium.
  predicate UsesMedium(e: Exchange) {
    e.cmd.present && e.cmd.verdict.reply == 0 && e.cmd.wants.medium
  }

  // START STOP UNIT ejected the medium.
  predicate Ejects(e: Exchange) {
    e.cmd.present && e.cmd.Runs(DoStartStop) && AsksToEject(e.cmd.verdict.cmnd)
  }

  // Somebody loaded or ejected a medium between command k and the next.
  predicate Exchanged(log: seq<Exchange>, k: nat)
    requires k + 1 < |log|
  {
    !log[k + 1].cmd.before.SameDrive(log[k].after)
  }

  // What check_command decides about a pending attention.
  lemma Decided(c: Command)
    requires c.Ok() && c.Sound() && c.present
    ensures var d := c.verdict;
            && d.unit.Some?
            && (if Must(c) && Pending(c.before) then
                  && d.reply == EINVAL && d.unit.value.senseData == c.before.unitAttention
                  && !Pending(d.unit.value)
                else d.unit.value.unitAttention == c.before.unitAttention)
            && (d.reply == 0 && c.wants.medium ==> Must(c))
  {
    DecodeDirections(c.cdb, |c.cbw.cdb|, c.Unit());
    DecodeWellFormed(c.cdb, |c.cbw.cdb|, c.Unit());
    CheckAttention(c.Expects(), c.wants, c.cdb, c.before);
    MediumNotExempt(c.cdb, |c.cbw.cdb|, c.Unit());
  }

  // A handler that works on the bytes of the medium runs with no attention pending
  // and leaves none.
  lemma MediumHandled(e: Exchange)
    requires e.ReadEffect() || e.WriteEffect() || e.VerifyEffect()
    ensures !Pending(e.after)
  {
  }

  lemma SenseHandled(e: Exchange)
    requires e.SenseEffect()
    ensures e.after.unitAttention == e.cmd.before.unitAttention
    ensures e.after.SameMedium(e.cmd.before)
  {
  }

  lemma SmallHandled(e: Exchange)
    requires e.SmallEffect()
    ensures e.after.unitAttention == e.cmd.before.unitAttention
    ensures e.after.SameMedium(e.cmd.before)
  {
  }

  lemma StartStopHandled(e: Exchange)
    requires e.StartStopEffect() && !AsksToEject(e.cmd.verdict.cmnd)
    ensures e.after.unitAttention == e.cmd.before.unitAttention
    ensures e.after.SameMedium(e.cmd.before)
  {
  }

  // A handler that runs leaves the attention as it found it, unless it ejects.
  lemma Handled(e: Exchange)
    requires e.Effect() && e.cmd.verdict.reply == 0
    requires !(e.cmd.wants.handler.DoStartStop? && AsksToEject(e.cmd.verdict.cmnd))
    requires WellFormed(e.cmd.wants) && (e.cmd.wants.medium ==> !Pending(e.cmd.before))
    ensures e.after.unitAttention == e.cmd.before.unitAttention
  {
    match e.cmd.wants.handler
    case DoRead => MediumHandled(e);
    case DoWrite => MediumHandled(e);
    case DoVerify => MediumHandled(e);
    case DoRequestSense => SenseHandled(e);
    case DoStartStop => StartStopHandled(e);
    case _ => SmallHandled(e);
  }

  // check_command has let the command pass.
  lemma Passed(c: Command)
    requires c.Ok() && c.Sound() && c.present && c.verdict.reply == 0
    ensures c.verdict.unit == Some(c.before) || c.verdict.unit == Some(c.before.ClearSense())
    ensures WellFormed(c.wants) && (c.wants.medium ==> c.before.IsOpen() && !Pending(c.before))
    ensures Pending(c.before) ==> c.cdb[0] == 0x12 || c.cdb[0] == 0x03
  {
    DecodeWellFormed(c.cdb, |c.cbw.cdb|, c.Unit());
    HandlersAreSafe(c.Expects(), c.cdb, c.Unit());
    CheckAttention(c.Expects(), c.wants, c.cdb, c.before);
  }

  // A command reports exactly if it must and there is something to report, and
  // uses the medium only if there is not.
  lemma ReportsExactly(e: Exchange)
    requires e.Answered() && e.cmd.present
    ensures Reports(e) <==> Must(e.cmd) && Pending(e.cmd.before)
    ensures UsesMedium(e) ==> !Pending(e.cmd.before) && e.cmd.before.IsOpen()
    ensures Pending(e.cmd.before) && !Reports(e) ==> e.after.unitAttention == e.cmd.before.unitAttention
    ensures !Pending(e.cmd.before) && !Ejects(e) ==> !Pending(e.after)
  {
    Decided(e.cmd);
    if e.cmd.verdict.reply == 0 {
      Passed(e.cmd);
      if !Ejects(e) {
        Handled(e);
      }
    }
  }

  // ------------------------------------------------------------ runs

  // What is pending stays pending between two commands, and what somebody does in
  // between makes it pending.
  lemma Between(log: seq<Exchange>, k: nat)
    requires Run(log) && k + 1 < |log|
    ensures log[k + 1].cmd.before.Touched(log[k].after)
    ensures Pending(log[k].after) || Exchanged(log, k) ==> Pending(log[k + 1].cmd.before)
  {
    assert Linked(log, k);
  }

  // A command to a missing unit, or one that does not report, leaves it pending.
  lemma StillPending(log: seq<Exchange>, k: nat)
    requires Run(log) && k < |log| && Pending(log[k].cmd.before) && !Reports(log[k])
    ensures Pending(log[k].after)
  {
    assert log[k].Answered();
    if log[k].cmd.present {
      ReportsExactly(log[k]);
    }
  }

  // Nothing is lost: until some command reports it, a unit attention is pending.
  lemma {:induction false} PendingUntilReported(log: seq<Exchange>, i: nat, j: nat)
    requires Run(log) && i <= j < |log| && Pending(log[i].cmd.before)
    requires forall k | i <= k < j :: !Reports(log[k])
    ensures Pending(log[j].cmd.before)
    decreases j - i
  {
    if i < j {
      StillPending(log, i);
      Between(log, i);
      PendingUntilReported(log, i + 1, j);
    }
  }

  // With an attention pending when command i begins, the first command from there on
  // that must report does, whatever is loaded or ejected in the meantime; it reports
  // the last of it, and no command up to and including that one uses the medium.
  lemma ReportedByTheFirst(log: seq<Exchange>, i: nat, j: nat)
    requires Run(log) && i <= j < |log| && Pending(log[i].cmd.before)
    requires forall k | i <= k < j :: !Must(log[k].cmd)
    ensures !UsesMedium(log[j]) && (Reports(log[j]) <==> Must(log[j].cmd))
    ensures Must(log[j].cmd) ==> log[j].after.senseData == log[j].cmd.before.unitAttention
    ensures Must(log[j].cmd) && (forall k | i <= k < j :: !Exchanged(log, k)) ==>
              log[j].after.senseData == log[i].cmd.before.unitAttention
  {
    forall k | i <= k < j
      ensures !Reports(log[k])
    {
      assert log[k].Answered();
      if log[k].cmd.present {
        ReportsExactly(log[k]);
      }
    }
    PendingUntilReported(log, i, j);
    assert log[j].Answered();
    if log[j].cmd.present {
      ReportsExactly(log[j]);
    }
    if forall k | i <= k < j :: !Exchanged(log, k) {
      SamePending(log, i, j);
    }
  }

  lemma {:induction false} SamePending(log: seq<Exchange>, i: nat, j: nat)
    requires Run(log) && i <= j < |log| && Pending(log[i].cmd.before)
    requires forall k | i <= k < j :: !Reports(log[k]) && !Exchanged(log, k)
    ensures log[j].cmd.before.unitAttention == log[i].cmd.before.unitAttention
    decreases j - i
  {
    if i < j {
      assert log[i].Answered();
      if log[i].cmd.present {
        ReportsExactly(log[i]);
      }
      assert !Exchanged(log, i);
      SamePending(log, i + 1, j);
    }
  }

  // And once: between two reports somebody has loaded or ejected a medium.
  lemma {:induction false} ReportedOnce(log: seq<Exchange>, i: nat, j: nat)
    requires Run(log) && i < j < |log| && !Pending(log[i].after)
    requires forall k | i <= k < j :: !Exchanged(log, k)
    requires forall k | i < k < j :: !Ejects(log[k])
    ensures !Pending(log[j].cmd.before) && !Reports(log[j])
    decreases j - i
  {
    assert !Exchanged(log, i);
    if i + 1 < j {
      assert log[i + 1].Answered();
      if log[i + 1].cmd.present {
        ReportsExactly(log[i + 1]);
      }
      ReportedOnce(log, i + 1, j);
    }
  }

  // ------------------------------------------------------------ the medium

  // Either what was in the drive is still there, or the drive is empty, or the
  // change has not been reported yet.
  predicate Continues(v: LunView, w: LunView) {
    v.SameMedium(w) || !v.IsOpen() || Pending(v)
  }

  // A command that neither reports a change of medium nor writes.
  predicate Quiet(e: Exchange) {
    !Reports(e) && !(e.cmd.present && e.cmd.Runs(DoWrite))
  }

  lemma BetweenContinues(log: seq<Exchange>, k: nat, w: LunView)
    requires Run(log) && k + 1 < |log| && Continues(log[k].after, w)
    ensures Continues(log[k + 1].cmd.before, w)
  {
    Between(log, k);
  }

  lemma StepContinues(log: seq<Exchange>, k: nat, w: LunView)
    requires Run(log) && k < |log| && Continues(log[k].cmd.before, w)
    requires Quiet(log[k])
    ensures Continues(log[k].after, w)
  {
    var e := log[k];
    assert e.Answered();
    if e.cmd.present {
      ReportsExactly(e);
      KeepsMedium(e);
    }
  }

  lemma OneMore(log: seq<Exchange>, k: nat, w: LunView)
    requires Run(log) && k + 1 < |log| && Continues(log[k].cmd.before, w) && Quiet(log[k])
    ensures Continues(log[k + 1].cmd.before, w)
  {
    StepContinues(log, k, w);
    BetweenContinues(log, k, w);
  }

  // Only a WRITE changes the bytes of the medium, and only START STOP UNIT takes the
  // medium out.
  lemma KeepsMedium(e: Exchange)
    requires e.Answered() && e.cmd.present && !e.cmd.Runs(DoWrite)
    ensures e.after.SameMedium(e.cmd.before) || !e.after.IsOpen() || Pending(e.after)
  {
    if e.cmd.verdict.reply == 0 {
      EffectKeepsMedium(e);
    } else {
      CheckKeepsMedium(e.cmd.Expects(), e.cmd.wants, e.cmd.cdb, e.cmd.before);
    }
  }

  // check_command touches nothing but sense data and attention.
  predicate OnlySense(v: LunView, w: LunView) {
    v == w.(senseData := v.senseData, senseDataInfo := v.senseDataInfo, infoValid := v.infoValid,
            unitAttention := v.unitAttention)
  }

  lemma CheckKeepsMedium(h: Host, r: Request, c: Cdb, v: LunView)
    requires h.length <= CDB_SIZE
    ensures Check(h, r, c, Some(v)).unit.Some? && OnlySense(Check(h, r, c, Some(v)).unit.value, v)
  {
    UnitKeepsMedium(r, h.length, c, v, h.size < r.size, Min(r.size, h.size));
  }

  lemma UnitKeepsMedium(r: Request, length: nat, c: Cdb, v: LunView, phaseError: bool, size: nat)
    requires length <= CDB_SIZE
    ensures var d := CheckUnit(r, length, c, Some(v), phaseError, size);
            d.unit.Some? && OnlySense(d.unit.value, v)
  {
    RestKeepsMedium(r, length, c, v, phaseError, size);
    RestKeepsMedium(r, length, c, v.ClearSense(), phaseError, size);
  }

  lemma RestKeepsMedium(r: Request, length: nat, c: Cdb, v: LunView, phaseError: bool, size: nat)
    requires length <= CDB_SIZE
    ensures var d := CheckRest(r, length, c, Some(v), phaseError, size);
            d.unit.Some? && OnlySense(d.unit.value, v)
  {
  }

  lemma EffectKeepsMedium(e: Exchange)
    requires e.Effect() && e.cmd.verdict.reply == 0 && e.cmd.wants.handler != DoWrite
    ensures e.after.SameMedium(e.cmd.before) || !e.after.IsOpen() || Pending(e.after)
  {
    match e.cmd.wants.handler
    case DoRead =>
    case DoVerify =>
    case DoRequestSense => SenseHandled(e);
    case DoStartStop =>
      if !AsksToEject(e.cmd.verdict.cmnd) {
        StartStopHandled(e);
      }
    case _ => SmallHandled(e);
  }

  // A command that works on the medium finds the one an earlier command left, as
  // long as no unit attention was reported and nothing was written in between.
  lemma {:induction false} MediumKept(log: seq<Exchange>, i: nat, j: nat)
    requires Run(log) && i < j < |log| && UsesMedium(log[j])
    requires forall k | i < k < j :: Quiet(log[k])
    ensures log[j].cmd.before.SameMedium(log[i].after)
  {
    ContinuesTo(log, i, j);
    assert log[j].Answered();
    ReportsExactly(log[j]);
  }

  lemma {:induction false} ContinuesTo(log: seq<Exchange>, i: nat, j: nat)
    requires Run(log) && i < j < |log|
    requires forall k | i < k < j :: Quiet(log[k])
    ensures Continues(log[j].cmd.before, log[i].after)
    decreases j
  {
    if i + 1 < j {
      ContinuesTo(log, i, j - 1);
      OneMore(log, j - 1, log[i].after);
    } else {
      BetweenContinues(log, i, log[i].after);
    }
  }

  // What a WRITE received a later READ sends, as long as no unit attention was
  // reported and nothing was written in between.
  lemma WrittenIsReadBack(log: seq<Exchange>, i: nat, j: nat)
    requires Run(log) && i < j < |log|
    requires Writes(log[i]) && Reads(log[j]) && Start(log[j]) == Start(log[i])
    requires forall k | i < k < j :: Quiet(log[k])
    ensures var n := Min(|log[j].data|, log[i].stored);
            n <= |log[i].received| && log[j].data[..n] == log[i].received[..n]
  {
    assert log[i].Answered() && log[j].Answered();
    Passed(log[j].cmd);
    MediumKept(log, i, j);
    ReadBack(log[i], log[j]);
  }

  lemma PrefixBack(back: seq<byte>, received: seq<byte>, out: seq<byte>, n: int)
    requires 0 <= n <= |back| && n <= |received| && received <= out && back[..n] == received[..n]
    ensures n <= |out| && back[..n] == out[..n]
  {
  }

  // The data sent on bulk-in for the j-th wrapper that counted begins like the data that
  // came in for the i-th, as far as that was stored.
  predicate ComesBack(turns: seq<Turn>, replies: seq<Reply>, sent: seq<seq<byte>>, i: nat, j: nat, stored: nat)
  {
    && i < |ServedOf(turns)| && ServedOf(turns)[i].Served?
    && j < |replies| && Place(replies, j) < Place(replies, j + 1) <= |sent|
    && var out, back := Payloads(ServedOf(turns)[i].data), Bytes(SentFor(replies, sent, j));
       var n := Min(|back|, stored);
       n <= |out| && back[..n] == out[..n]
  }

  // What the host has written it reads back, as long as it has not been told that
  // the medium has changed and has written nothing else: the data of the i-th
  // wrapper that counted comes back with the reply to the j-th.
  lemma WrittenIsRead(turns: seq<Turn>, replies: seq<Reply>, log: seq<Exchange>, sent: seq<seq<byte>>,
                      i: nat, j: nat)
    requires Complete(turns, replies, log, sent) && i < j < |log|
    requires Writes(log[i]) && Reads(log[j]) && Start(log[j]) == Start(log[i])
    requires forall k | i < k < j :: Quiet(log[k])
    ensures |replies| == |log| == |ServedOf(turns)|
    ensures ComesBack(turns, replies, sent, i, j, log[i].stored)
  {
    WrittenIsReadBack(log, i, j);
    ReceivedIsSent(turns, replies, log, sent, i);
    RepliedIs(turns, replies, log, sent, j);
    PrefixBack(log[j].data, log[i].received, Payloads(ServedOf(turns)[i].data), Min(|log[j].data|, log[i].stored));
  }

  // What an eject and a load before any command leave to be reported is the load.
  method EjectThenLoad(lun: Lun, path: string, f: FileNode) returns (rc: int)
    requires lun.Valid() && f.Ok() && StripNewline(path) != "" && !lun.prevent
    modifies lun
    ensures lun.Valid() && (rc >= 0 <==> Loadable(lun.initiallyRo, lun.cdrom, f))
    ensures rc >= 0 ==> lun.filp == Some(StripNewline(path)) && lun.unitAttention == NOT_READY_TO_READY
    ensures rc < 0 ==>
              && lun.filp == None
              && lun.unitAttention
                 == (if old(lun.filp).Some? then MEDIUM_NOT_PRESENT else old(lun.unitAttention))
  {
    assert StripNewline("") == "";
    rc := lun.StoreFile("", f);
    rc := lun.StoreFile(path, f);
  }
}
