// One command as the host sees it, from the wrapper that announced it to the
// status that ended it, and what a run of such exchanges guarantees.
module Exchanges {
  import opened Base
  import opened Storage
  import opened Scsi
  import opened IoEvents

  // A command as check_command finds it.  `cdb` is the command buffer, whose
  // tail past the received command is stale, `before` the unit at that time, and
  // `stale` what the next buffer to fill would send as it is; `wants` is what the
  // opcode asks for and `verdict` what check_command decides.
  datatype Command = Command(
    cbw: Cbw, cdb: Cdb, present: bool, before: LunView, stale: seq<byte>, wants: Request, verdict: Verdict)
  {
    predicate Ok() {
      1 <= |cbw.cdb| <= CDB_SIZE && cbw.tag < U32 && cbw.size < U32
    }

    function Expects(): Host {
      cbw.Expects()
    }

    function Unit(): Option<LunView> {
      if present then Some(before) else None
    }

    // The command buffer holds the command received, there is one unit, number 0, with
    // its medium measured as it should be, and the request and the verdict are what the source makes of the command.
    predicate Sound()
      requires Ok()
    {
      && cdb[..|cbw.cdb|] == cbw.cdb && (present <==> cbw.lun == 0)
      && wants == Decode(cdb, |cbw.cdb|, Unit()) && |stale| <= BUFLEN && before.Well()
      && verdict == Check(Expects(), wants, cdb, Unit())
    }

    // check_command lets the handler run.
    predicate Runs(h: Handler)
    {
      wants.handler == h && verdict.reply == 0
    }

    // The command gets as far as to publish a READ, or a WRITE.
    predicate Reads() {
      present && Runs(DoRead) && ReadAdmitted(verdict.cmnd, before)
    }

    predicate Writes() {
      present && Runs(DoWrite) && WriteAdmitted(verdict.cmnd, before)
    }

    // A data or verify command on zero blocks leaves no reply to send, so that
    // a host that expects data is sent whatever the next buffer held.
    predicate Silent()
    {
      && Expects().dir == ToHost
      && ((Reads() && verdict.size == 0) || (Writes() && verdict.size == 0)
          || (present && Runs(DoVerify) && VerifyAdmitted(verdict.cmnd, before)
              && Be16(verdict.cmnd, 7) == 0))
    }

    // What the command hands to the throttle and to the crossing counter.
    function Published(): seq<IoRequest> {
      if Reads() || Writes() then [PublishedIo(verdict.cmnd, verdict.size, before.blksize, Writes())] else []
    }
  }

  // The request do_read or do_write publishes, in the 32 bits it is passed in.
  function PublishedIo(c: Cdb, size: nat, blksize: nat, isWrite: bool): IoRequest {
    IoRequest(CommandLba(c) % U32, if blksize == 0 then 0 else size / blksize, isWrite)
  }

  // How a command ended: the unit when it had been carried out, what it sent,
  // and its status.  `received` is what it drained from the host in `taken`
  // transfers, of which `stored` bytes count as written; `broken` says that the last
  // of these transfers failed, and `fault` that the file did not take or give what it
  // was asked to.  `io` is what it handed to the throttle and to the crossing counter.
  datatype Exchange = Exchange(
    cmd: Command, after: LunView, data: seq<byte>, taken: nat, received: seq<byte>, broken: bool,
    stored: nat, fault: bool, io: seq<IoRequest>, csw: Csw)
  {
    predicate Ok() {
      cmd.Ok()
    }

    // Every byte the wrapper announced is either moved or in the residue, unless
    // what is sent is a buffer nobody has filled.
    predicate Balanced()
    {
      if cmd.Expects().dir == ToHost then
        && stored == 0
        && (if cmd.Silent() then csw.residue == cmd.cbw.size && data == cmd.stale
            else csw.residue + |data| == cmd.cbw.size)
      else data == [] && csw.residue + stored == cmd.cbw.size
    }

    // The command ended with sense data, or was refused on a missing unit.
    predicate Failed()
    {
      if cmd.present then after.senseData != NO_SENSE else cmd.verdict.reply != 0
    }

    predicate StatusRight()
    {
      csw.status == (if cmd.verdict.phaseError then StatPhase else if Failed() then StatFail else StatOk)
    }

    // Why a READ did not send all it was asked for, if it did not: the file could not
    // be read, or it ends where the data does.  The information field names the first
    // block that is missing.
    predicate Explained(off: nat, size: nat)
      requires cmd.before.blksize > 0
    {
      && after.senseData == (if fault then UNRECOVERED_READ_ERROR
                             else if |data| < size then LBA_OUT_OF_RANGE else NO_SENSE)
      && (fault ==> |data| < size)
      && (after.senseData == LBA_OUT_OF_RANGE ==> off + |data| == |cmd.before.image|)
      && after.infoValid == (|data| < size)
      && (|data| < size ==> after.senseDataInfo == (off + |data|) / cmd.before.blksize % U32)
    }

    // READ sends consecutive bytes of the image from the addressed block on, as many
    // as the command asks for and the file has, if the file can be read.
    predicate ReadEffect()
    {
      var c, size := cmd.verdict.cmnd, cmd.verdict.size;
      var off := CommandOffset(c, cmd.before.blksize);
      && stored == 0 && after.SameButSense(cmd.before) && after.unitAttention == NO_SENSE
      && (!ReadAdmitted(c, cmd.before) ==> data == [] && after.senseData == ReadRefusal(c))
      && (ReadAdmitted(c, cmd.before) && size == 0 ==> after.senseData == NO_SENSE)
      && (ReadAdmitted(c, cmd.before) && size > 0 ==>
            && LiesAt(cmd.before.image, off, data) && |data| <= size
            && cmd.before.blksize > 0 && Explained(off, size))
    }

    // The first n bytes received are what a WRITE has changed in the file: all
    // that count, and less than a block more if kernel_write failed in the middle.
    predicate Landed(n: nat) {
      var off := CommandOffset(cmd.verdict.cmnd, cmd.before.blksize);
      && stored <= n <= |received| && n < stored + cmd.before.blksize
      && off + n <= |cmd.before.image|
      && after.SameButSense(cmd.before.(image := Patch(cmd.before.image, off, received[..n])))
      && (n == stored || after.senseData == WRITE_ERROR)
    }

    // Every transfer taken brought what it was asked for.
    predicate Uncut(size: nat) {
      Min(size, taken * BUFLEN) <= |received|
    }

    // How much of what was received counts: unless a transfer failed or the file could
    // not be written, all the whole blocks of it that were asked for and lie inside
    // the file.
    predicate Accounted(size: nat, space: nat)
      requires BlockSize(cmd.before.blksize)
    {
      && |received| <= taken * BUFLEN
      && (broken <==> after.senseData == COMMUNICATION_FAILURE)
      && (fault <==> after.senseData == WRITE_ERROR)
      && (!broken && !fault ==>
            && (after.senseData == NO_SENSE || after.senseData == LBA_OUT_OF_RANGE)
            && stored == RoundDown(Min(Min(|received|, size), space), cmd.before.blksize))
    }

    // If the last request would have begun past the end of the file, that is reported
    // once all that fits has come in.  If it begins inside the file, nothing is, and
    // what came of it is taken in.
    predicate Complete(size: nat, space: nat)
      requires size > 0
    {
      && (after.senseData == LBA_OUT_OF_RANGE ==>
            space <= LastStart(size) && (Uncut(size) ==> space <= |received|))
      && (after.senseData == NO_SENSE ==>
            if |received| < size then !Uncut(size) else LastStart(size) < space)
    }

    // WRITE stores consecutive bytes of the host's stream, whole blocks of them
    // but for the block in which kernel_write failed, and touches nothing else.
    ghost predicate WriteEffect()
    {
      var c, size := cmd.verdict.cmnd, cmd.verdict.size;
      var off := CommandOffset(c, cmd.before.blksize);
      && after.unitAttention == NO_SENSE
      && if !WriteAdmitted(c, cmd.before) then
           stored == 0 && after.SameButSense(cmd.before) && after.senseData == WriteRefusal(c, cmd.before)
         else if size == 0 then
           stored == 0 && after.SameButSense(cmd.before) && after.senseData == NO_SENSE
         else
           && BlockSize(cmd.before.blksize)
           && stored <= size && stored % cmd.before.blksize == 0 && off <= |cmd.before.image|
           && (exists n :: Landed(n))
           && Accounted(size, |cmd.before.image| - off)
           && Complete(size, |cmd.before.image| - off)
    }

    // VERIFY moves nothing.  It succeeds exactly if its blocks lie inside the file and
    // could be read.
    predicate VerifyEffect()
    {
      var c := cmd.verdict.cmnd;
      var off, total := Times(Be32(c, 2), cmd.before.blksize), Times(Be16(c, 7), cmd.before.blksize);
      && stored == 0 && after.SameButSense(cmd.before) && after.unitAttention == NO_SENSE
      && (!VerifyAdmitted(c, cmd.before) ==> after.senseData == VerifyRefusal(c, cmd.before))
      && (VerifyAdmitted(c, cmd.before) && Be16(c, 7) == 0 ==> after.senseData == NO_SENSE)
      && (VerifyAdmitted(c, cmd.before) && Be16(c, 7) > 0 ==>
            if after.senseData == NO_SENSE then off + total <= |cmd.before.image|
            else if after.senseData == LBA_OUT_OF_RANGE then |cmd.before.image| < off + total
            else fault && after.senseData == UNRECOVERED_READ_ERROR)
    }

    // START STOP UNIT ejects exactly when it is asked to and may; otherwise it
    // changes nothing but the sense data.
    predicate StartStopEffect()
    {
      var c, v := cmd.verdict.cmnd, cmd.before.ClearSense();
      var sense := StartStopSense(c, v);
      && stored == 0
      && (if sense == NO_SENSE && AsksToEject(c) then after.Ejected(v) else after == v.WithSense(sense))
    }

    // What the other commands leave: sense data, and the door as PREVENT ALLOW
    // MEDIUM REMOVAL asks for it.  Only SYNCHRONIZE CACHE can fail by itself, if the
    // file could not be written out.
    predicate SmallEffect()
    {
      var h, c, v := cmd.wants.handler, cmd.verdict.cmnd, cmd.before.ClearSense();
      var sense := SmallSense(h, c, v);
      && stored == 0
      && after == (if h.DoSynchronizeCache? && fault then v.WithSense(WRITE_ERROR)
                   else v.WithSense(sense).(prevent := if h.DoPreventAllow? && sense == NO_SENSE then c[4] == 1
                                                       else v.prevent))
      && (cmd.Expects().dir == ToHost ==> |data| == Replied(sense))
      && (cmd.Expects().dir == ToHost && Described(h) && sense == NO_SENSE ==> data <= Table(h, c, v))
    }

    // How many bytes a command with a single reply buffer sends.
    function Replied(sense: SenseCode): int {
      if sense != NO_SENSE then 0
      else Min(SmallLength(cmd.wants.handler, cmd.verdict.cmnd), cmd.verdict.size)
    }

    // REQUEST SENSE sends the sense data, cut to what was asked for, and clears it.
    predicate SenseEffect()
    {
      && cmd.verdict.unit == Some(cmd.before) && after == cmd.before.ClearSense() && stored == 0
      && data == (if cmd.Expects().dir == ToHost
                  then SenseReply(SenseOf(cmd.before))[..Min(SENSE_LENGTH, cmd.verdict.size)] else [])
    }

    // A missing unit answers REQUEST SENSE with a reply of its own, and INQUIRY with one
    // of the usual length.
    predicate AbsentEffect()
    {
      && after == cmd.before
      && (cmd.Expects().dir == ToHost && cmd.Runs(DoRequestSense) ==>
            data == SenseReply(Sense(UNIT_NOT_SUPPORTED, 0, false))[..Min(SENSE_LENGTH, cmd.verdict.size)])
      && (cmd.Expects().dir == ToHost && cmd.Runs(DoInquiry) ==> |data| == Min(36, cmd.verdict.size))
    }

    // What the command did to the unit and what it sent.
    ghost predicate Effect()
    {
      var v := cmd.verdict;
      if v.reply != 0 then v.unit == Some(after) && stored == 0
      else if cmd.wants.handler == DoRequestSense then SenseEffect()
      else if cmd.wants.handler == DoRead then ReadEffect()
      else if cmd.wants.handler == DoWrite then WriteEffect()
      else if cmd.wants.handler == DoVerify then VerifyEffect()
      else if cmd.wants.handler == DoStartStop then StartStopEffect()
      else SmallEffect()
    }

    // The command was carried out and reported according to the verdict on it.
    ghost predicate Right() {
      && Ok() && csw.tag == cmd.cbw.tag
      && Balanced() && StatusRight() && io == cmd.Published()
      && (cmd.verdict.reply != 0 || (cmd.verdict.size == 0 && !cmd.Silent()) ==> data == [])
      && (if cmd.present then Effect() else AbsentEffect())
    }

    ghost predicate Answered() {
      Right() && cmd.Sound()
    }
  }

  // ---------------------------------------------------------- runs of commands

  // Every command was answered, and between two of them nothing but writers of the
  // attributes have touched the unit.
  ghost predicate Run(log: seq<Exchange>) {
    && (forall i {:trigger log[i].Answered()} | 0 <= i < |log| :: log[i].Answered())
    && (forall i | 0 <= i < |log| - 1 :: Linked(log, i))
  }

  predicate Linked(log: seq<Exchange>, i: nat)
    requires i < |log| - 1
  {
    log[i + 1].cmd.before.Touched(log[i].after)
  }

  // An exchange can follow that finds the unit as v.
  ghost predicate Follows(log: seq<Exchange>, v: LunView) {
    log == [] || v.Touched(log[|log| - 1].after)
  }

  lemma RunMore(log: seq<Exchange>, e: Exchange)
    requires Run(log) && e.Answered() && Follows(log, e.cmd.before)
    ensures Run(log + [e])
  {
    var more := log + [e];
    forall i | 0 <= i < |more|
      ensures more[i].Answered()
    {
      assert i < |log| ==> log[i].Answered();
    }
    forall i | 0 <= i < |more| - 1
      ensures Linked(more, i)
    {
      if i + 1 < |log| {
        assert Linked(log, i);
      }
    }
  }

  // REQUEST SENSE with room for the code reports exactly the sense data that was
  // pending, succeeds, and leaves none pending.
  lemma SenseDelivered(e: Exchange)
    requires e.Answered() && e.cmd.present && e.cmd.Runs(DoRequestSense)
    requires e.cmd.Expects().dir == ToHost && e.cmd.verdict.size >= 14
    ensures |e.data| >= 14 && ParseSense(e.data) == SenseOf(e.cmd.before)
    ensures SenseOf(e.after) == Sense(NO_SENSE, 0, false)
    ensures e.csw.status == (if e.cmd.verdict.phaseError then StatPhase else StatOk)
  {
    SenseRoundTrip(SenseOf(e.cmd.before), Min(SENSE_LENGTH, e.cmd.verdict.size));
  }

  // REQUEST SENSE to a missing unit says that there is none, and nothing else changes.
  lemma AbsentSense(e: Exchange)
    requires e.Answered() && !e.cmd.present && e.cmd.Runs(DoRequestSense)
    requires e.cmd.Expects().dir == ToHost && e.cmd.verdict.size >= 14
    ensures |e.data| >= 14 && ParseSense(e.data) == Sense(UNIT_NOT_SUPPORTED, 0, false)
    ensures e.after == e.cmd.before
    ensures e.csw.status == (if e.cmd.verdict.phaseError then StatPhase else StatOk)
  {
    SenseRoundTrip(Sense(UNIT_NOT_SUPPORTED, 0, false), Min(SENSE_LENGTH, e.cmd.verdict.size));
  }

  // A phase error is reported in exactly six of the thirteen cases of section
  // 6.7 of the Bulk-Only Transport specification, and for a command block
  // shorter than its opcode needs.
  lemma PhaseStatusExactly(e: Exchange)
    requires e.Answered()
    ensures var h, r := e.cmd.Expects(), e.cmd.wants;
            e.csw.status == StatPhase
            <==> PhaseErrorCase(ThirteenCase(h, r.dir, r.size)) || r.need > h.length
  {
    DecodeDirections(e.cmd.cdb, |e.cmd.cbw.cdb|, e.cmd.Unit());
    PhaseErrorExactly(e.cmd.Expects(), e.cmd.wants, e.cmd.cdb, e.cmd.Unit());
  }

  // Data sent and residue make up what the wrapper announced, and no more is sent
  // than that, unless the command was one for no blocks, which has nothing to send:
  // then they do exactly if the next buffer, which is sent as it is, would send
  // nothing.
  lemma ResidueExactly(e: Exchange)
    requires e.Answered() && e.cmd.Expects().dir == ToHost
    ensures e.csw.residue <= e.cmd.cbw.size
    ensures e.csw.residue + |e.data| == e.cmd.cbw.size <==> !e.cmd.Silent() || e.cmd.stale == []
    ensures !e.cmd.Silent() ==> |e.data| <= e.cmd.cbw.size
    ensures e.cmd.Silent() ==> e.data == e.cmd.stale
  {
  }

  // Commands to a missing unit leave the sense data of the present one alone.
  lemma {:induction false} SenseWaits(log: seq<Exchange>, i: nat, j: nat)
    requires Run(log) && i < j < |log|
    requires forall k | i < k < j :: !log[k].cmd.present
    ensures log[j].cmd.before.SameSense(log[i].after)
    decreases j
  {
    if i + 1 < j {
      SenseWaits(log, i, j - 1);
      assert Linked(log, j - 1);
      assert log[j - 1].Answered();
    } else {
      assert Linked(log, i);
    }
  }

  // A failed status is explained by the next REQUEST SENSE to the unit, once.
  lemma FailureExplainedOnce(log: seq<Exchange>, i: nat, j: nat, k: nat)
    requires Run(log) && i < j < k < |log|
    requires log[i].cmd.present && log[j].cmd.present && log[k].cmd.present
    requires forall l | i < l < j || j < l < k :: !log[l].cmd.present
    requires log[j].cmd.Runs(DoRequestSense) && log[k].cmd.Runs(DoRequestSense)
    requires log[j].cmd.Expects().dir == ToHost && log[j].cmd.verdict.size >= 14
    requires log[k].cmd.Expects().dir == ToHost && log[k].cmd.verdict.size >= 14
    ensures |log[j].data| >= 14 && ParseSense(log[j].data) == SenseOf(log[i].after)
    ensures log[i].csw.status == StatFail ==> ParseSense(log[j].data).code != NO_SENSE
    ensures log[i].csw.status == StatOk ==> ParseSense(log[j].data).code == NO_SENSE
    ensures !log[j].cmd.verdict.phaseError ==> log[j].csw.status == StatOk
    ensures |log[k].data| >= 14 && ParseSense(log[k].data) == Sense(NO_SENSE, 0, false)
  {
    assert log[i].Answered() && log[j].Answered() && log[k].Answered();
    SenseWaits(log, i, j);
    SenseDelivered(log[j]);
    SenseWaits(log, j, k);
    SenseDelivered(log[k]);
  }

  // Fourteen bytes are what it takes: any shorter reply stands for several
  // different conditions, and the condition is gone once it has been sent.
  lemma SenseNeedsFourteen(n: nat)
    requires n <= SENSE_LENGTH
    ensures (forall s, t :: SenseReply(s)[..n] == SenseReply(t)[..n] ==> s == t) <==> n >= 14
  {
    if n >= 14 {
      forall s, t | SenseReply(s)[..n] == SenseReply(t)[..n]
        ensures s == t
      {
        SenseRoundTrip(s, n);
        SenseRoundTrip(t, n);
      }
    } else {
      var s, t := Sense(RESET_OCCURRED, 0, false), Sense(RESET_OCCURRED + 1, 0, false);
      assert SenseReply(s)[..13] == SenseReply(t)[..13];
      assert SenseReply(s)[..13][..n] == SenseReply(s)[..n];
      assert SenseReply(t)[..13][..n] == SenseReply(t)[..n];
    }
  }

  // ------------------------------------------------------------ round trips

  // Where a READ or WRITE addresses the image.
  function Start(e: Exchange): nat
  {
    CommandOffset(e.cmd.verdict.cmnd, e.cmd.before.blksize)
  }

  // The command gets to the data phase of a READ, or of a WRITE.
  predicate Reads(e: Exchange) {
    e.Ok() && e.cmd.Reads() && e.cmd.verdict.size > 0
  }

  predicate Writes(e: Exchange) {
    e.Ok() && e.cmd.Writes() && e.cmd.verdict.size > 0
  }

  lemma WhatWasWritten(w: Exchange) returns (n: nat)
    requires w.Answered() && Writes(w)
    ensures w.Landed(n) && BlockSize(w.cmd.before.blksize)
  {
    n :| w.Landed(n);
  }

  // What a READ sent are the bytes of the image from where it begins.
  predicate Fetches(r: Exchange) {
    && Start(r) + |r.data| <= |r.cmd.before.image|
    && r.data == r.cmd.before.image[Start(r)..Start(r) + |r.data|]
  }

  lemma WhatWasRead(r: Exchange)
    requires r.Answered() && Reads(r)
    ensures Fetches(r)
  {
  }

  lemma LandedIsRead(w: Exchange, r: Exchange, n: nat)
    requires w.Landed(n) && Fetches(r)
    requires r.cmd.before.SameMedium(w.after) && Start(r) == Start(w)
    ensures var k := Min(|r.data|, w.stored);
            k <= |w.received| && r.data[..k] == w.received[..k]
  {
    PatchReadBack(w.cmd.before.image, Start(w), w.received, n, r.data, Min(|r.data|, w.stored));
  }

  // What a WRITE stored, a READ of the same place of the same medium returns.
  lemma ReadBack(w: Exchange, r: Exchange)
    requires w.Answered() && Writes(w) && r.Answered() && Reads(r)
    requires r.cmd.before.SameMedium(w.after) && Start(r) == Start(w)
    ensures var n := Min(|r.data|, w.stored);
            n <= |w.received| && r.data[..n] == w.received[..n]
  {
    var touched := WhatWasWritten(w);
    WhatWasRead(r);
    LandedIsRead(w, r, touched);
  }

  // The READ lies before the blocks the WRITE stored, or after them, and after the
  // block it failed to write if it did.
  predicate Apart(w: Exchange, r: Exchange) {
    || Start(r) + |r.data| <= Start(w)
    || Start(w) + w.stored + (if w.after.senseData == WRITE_ERROR then w.cmd.before.blksize else 0) <= Start(r)
  }

  lemma LandedElsewhere(w: Exchange, r: Exchange, n: nat)
    requires w.Landed(n) && Fetches(r) && r.cmd.before.SameMedium(w.after) && Apart(w, r)
    ensures Start(r) + |r.data| <= |w.cmd.before.image|
    ensures r.data == w.cmd.before.image[Start(r)..Start(r) + |r.data|]
  {
    PatchSlices(w.cmd.before.image, Start(w), w.received[..n], Start(r), Start(r) + |r.data|);
  }

  // What lies elsewhere reads as it did before.
  lemma ReadElsewhere(w: Exchange, r: Exchange)
    requires w.Answered() && Writes(w) && r.Answered() && Reads(r)
    requires r.cmd.before.SameMedium(w.after) && Apart(w, r)
    ensures Start(r) + |r.data| <= |w.cmd.before.image|
    ensures r.data == w.cmd.before.image[Start(r)..Start(r) + |r.data|]
  {
    var touched := WhatWasWritten(w);
    WhatWasRead(r);
    LandedElsewhere(w, r, touched);
  }

  // A whole write followed by a whole read of the same blocks is a round trip.
  lemma WriteThenRead(w: Exchange, r: Exchange)
    requires w.Answered() && Writes(w) && r.Answered() && Reads(r)
    requires r.cmd.before.SameMedium(w.after) && Start(r) == Start(w)
    requires r.cmd.verdict.size == w.cmd.verdict.size == w.stored && r.csw.status == StatOk
    ensures w.stored <= |w.received| && r.data == w.received[..w.stored]
  {
    ReadBack(w, r);
    WholeRead(r);
    assert r.data[..|r.data|] == r.data;
  }

  // How many bytes the file has from where the command begins.
  function Space(e: Exchange): int {
    |e.cmd.before.image| - Start(e)
  }

  // Nothing went wrong on the wire or in the file, and the host has cut nothing short.
  predicate Undisturbed(w: Exchange) {
    w.Uncut(w.cmd.verdict.size) && !w.broken && !w.fault
  }

  // What the effect of a WRITE says about what was stored.
  lemma WriteAccount(w: Exchange)
    requires w.Answered() && Writes(w)
    ensures BlockSize(w.cmd.before.blksize) && Space(w) >= 0
    ensures w.Accounted(w.cmd.verdict.size, Space(w)) && w.Complete(w.cmd.verdict.size, Space(w))
  {
  }

  // What it comes to if nothing went wrong.
  lemma WholeAccount(w: Exchange, size: nat)
    requires BlockSize(w.cmd.before.blksize) && Space(w) >= 0 && size > 0
    requires w.Accounted(size, Space(w)) && w.Complete(size, Space(w))
    requires w.Uncut(size) && !w.broken && !w.fault
    ensures w.stored == RoundDown(Min(size, Space(w)), w.cmd.before.blksize)
    ensures w.after.senseData == (if LastStart(size) < Space(w) then NO_SENSE else LBA_OUT_OF_RANGE)
  {
  }

  // What becomes of a WRITE if nothing goes wrong is in its size and in the space from
  // where it begins: all the whole blocks that fit are stored; and it is reported
  // exactly if not even the last of its requests would begin inside the file.
  lemma WholeWrite(w: Exchange)
    requires w.Answered() && Writes(w) && Undisturbed(w)
    ensures var bs, size := w.cmd.before.blksize, w.cmd.verdict.size;
            && bs > 0 && Space(w) >= 0
            && w.stored == RoundDown(Min(size, Space(w)), bs)
            && (w.stored == size <==> size % bs == 0 && size <= Space(w))
            && w.after.senseData == (if LastStart(size) < Space(w) then NO_SENSE else LBA_OUT_OF_RANGE)
            && (w.csw.status == StatOk <==> !w.cmd.verdict.phaseError && LastStart(size) < Space(w))
  {
    WriteAccount(w);
    WholeAccount(w, w.cmd.verdict.size);
    RoundDownFacts(0, Min(w.cmd.verdict.size, Space(w)), w.cmd.before.blksize);
  }

  // So data past the end of the file is dropped behind the host's back exactly if the
  // request that carries the last byte begins inside the file and the file ends before
  // that byte.
  lemma DroppedSilently(w: Exchange)
    requires w.Answered() && Writes(w) && Undisturbed(w) && !w.cmd.verdict.phaseError
    requires w.cmd.verdict.size % w.cmd.before.blksize == 0
    ensures w.csw.status == StatOk && w.stored < w.cmd.verdict.size
            <==> (w.cmd.verdict.size - 1) / 16384 * 16384 < Space(w) < w.cmd.verdict.size
  {
    WholeWrite(w);
  }

  // A READ sends all it was asked for that the file has, if the file can be read, and
  // fails exactly if that is not all.
  lemma WholeRead(r: Exchange)
    requires r.Answered() && Reads(r)
    ensures r.csw.status == StatOk ==> |r.data| == r.cmd.verdict.size
    ensures !r.fault ==>
              && |r.data| == Min(r.cmd.verdict.size, Space(r))
              && r.after.senseData == (if r.cmd.verdict.size <= Space(r) then NO_SENSE else LBA_OUT_OF_RANGE)
  {
  }
}
