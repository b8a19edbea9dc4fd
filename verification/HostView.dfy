// What a host can tell from the bytes on the wire alone: that what it has written it
// reads back, and what INQUIRY and REQUEST SENSE do to a change of medium.
module HostView {
  import opened Base
  import opened Ring
  import opened Storage
  import opened Scsi
  import opened Exchanges
  import opened Transcript
  import opened Attention
  import opened CommandBlocks

  // ------------------------------------------------------------ INQUIRY, REQUEST SENSE

  // Neither ever reports a change of medium, nor takes it away, whatever its form.
  lemma AttentionWaits(e: Exchange)
    requires e.Answered() && (e.cmd.cbw.cdb[0] == 0x12 || e.cmd.cbw.cdb[0] == 0x03)
    ensures !Reports(e) && e.after.unitAttention == e.cmd.before.unitAttention
  {
    assert e.cmd.cdb[0] == e.cmd.cdb[..|e.cmd.cbw.cdb|][0];
    if e.cmd.present {
      ReportsExactly(e);
    }
  }

  // ------------------------------------------------------------ one command

  // A READ or WRITE that ends with OK status has found a medium that was reported.
  lemma OkIsProper(e: Exchange, t: Transfer)
    requires e.Answered() && Directed(e.cmd, t) && e.cmd.present && e.csw.status == StatOk
    ensures Proper(e.cmd, t)
  {
    if e.cmd.before.unitAttention != 0 {
      TransferTold(e, t);
    } else if !e.cmd.before.IsOpen() {
      TransferLacks(e, t);
    }
  }

  // So many blocks that their bytes have not outgrown 32 bits.
  predicate Countable(t: Transfer) {
    1 <= t.count < 262144
  }

  lemma BytesCounted(c: Command, t: Transfer)
    requires Countable(t) && BlockSize(c.before.blksize)
    ensures 0 < BytesOf(c, t) == t.count * c.before.blksize
  {
    assert c.before.blksize <= BUFLEN;
    assert 1 * 1 <= t.count * c.before.blksize <= 262144 * BUFLEN - 1;
  }

  lemma OkRead(e: Exchange, t: Transfer)
    requires e.Answered() && Directed(e.cmd, t) && e.cmd.present && e.csw.status == StatOk
    requires !t.write && Countable(t)
    ensures Reads(e) && Start(e) == t.lba * e.cmd.before.blksize
    ensures |e.data| == t.count * e.cmd.before.blksize
  {
    OkIsProper(e, t);
    ProperUnderstood(e.cmd, t);
    BytesCounted(e.cmd, t);
    HostRead(e, t);
    EveryBlock(e.cmd.before, t.lba);
  }

  lemma OkWrite(e: Exchange, t: Transfer)
    requires e.Answered() && Directed(e.cmd, t) && e.cmd.present && e.csw.status == StatOk
    requires t.write && e.cmd.cbw.size > 0 && e.csw.residue == 0
    ensures Writes(e) && Start(e) == t.lba * e.cmd.before.blksize && e.stored == e.cmd.cbw.size
  {
    OkIsProper(e, t);
    ProperUnderstood(e.cmd, t);
    var n := HostWrite(e, t);
    EveryBlock(e.cmd.before, t.lba);
  }

  // ------------------------------------------------------------ the wire

  // The wrapper announces this READ or WRITE, and so much data, to unit 0.
  predicate Asks(turn: Turn, t: Transfer, size: nat) {
    var r := turn.wrapper.payload;
    t.Fits() && |r| == 31 && IsWrapper(r, LittleEndian(r, 4), size, !t.write, 0, t.Block())
  }

  // It announces nothing that writes.
  predicate Harmless(turn: Turn) {
    var r := turn.wrapper.payload;
    |r| == 31 && r[15] != 0x0a && r[15] != 0x2a && r[15] != 0x8a && r[15] != 0xaa
  }

  // The k-th status has code zero.
  predicate WentWell(replies: seq<Reply>, sent: seq<seq<byte>>, k: nat) {
    && k < |replies| && 0 < Place(replies, k + 1) <= |sent|
    && |StatusFor(replies, sent, k)| == 13 && StatusFor(replies, sent, k)[12] == 0
  }

  // How much it says has not moved.
  function LeftOver(replies: seq<Reply>, sent: seq<seq<byte>>, k: nat): nat
    requires WentWell(replies, sent, k)
  {
    LittleEndian(StatusFor(replies, sent, k), 8)
  }

  // The exchange is what the wire shows.
  lemma Shown(turns: seq<Turn>, replies: seq<Reply>, log: seq<Exchange>, sent: seq<seq<byte>>, k: nat)
    requires Complete(turns, replies, log, sent) && k < |ServedOf(turns)| && WentWell(replies, sent, k)
    ensures |log| == |ServedOf(turns)| && log[k].Answered()
    ensures log[k].csw.status == StatOk && log[k].csw.residue == LeftOver(replies, sent, k)
    ensures ParseCbw(ServedOf(turns)[k].wrapper.payload) == Accepted(log[k].cmd.cbw)
  {
    AnsweredInOrder(turns, replies, log, sent, k);
    WrapperBytes(ServedOf(turns)[k].wrapper.payload, log[k].cmd.cbw);
  }

  lemma AskedIs(turn: Turn, t: Transfer, size: nat, c: Command)
    requires Asks(turn, t, size) && ParseCbw(turn.wrapper.payload) == Accepted(c.cbw)
    requires c.Ok() && c.Sound()
    ensures Directed(c, t) && c.cbw.size == size && c.present
  {
    var r := turn.wrapper.payload;
    WrapperBytes(r, Cbw(LittleEndian(r, 4), size, !t.write, 0, t.Block()));
  }

  lemma NoWrite(c: Cdb, length: nat, unit: Option<LunView>)
    requires c[0] != 0x0a && c[0] != 0x2a && c[0] != 0x8a && c[0] != 0xaa
    ensures !Decode(c, length, unit).handler.DoWrite?
  {
  }

  lemma HarmlessIsQuiet(turn: Turn, e: Exchange)
    requires e.Answered() && Harmless(turn) && ParseCbw(turn.wrapper.payload) == Accepted(e.cmd.cbw)
    requires e.csw.status == StatOk
    ensures Quiet(e)
  {
    WrapperBytes(turn.wrapper.payload, e.cmd.cbw);
    assert e.cmd.cdb[0] == e.cmd.cdb[..|e.cmd.cbw.cdb|][0];
    assert turn.wrapper.payload[15..15 + |e.cmd.cbw.cdb|][0] == turn.wrapper.payload[15];
    NoWrite(e.cmd.cdb, |e.cmd.cbw.cdb|, e.cmd.Unit());
  }

  // The medium is the same throughout.
  lemma SamePlace(log: seq<Exchange>, i: nat, j: nat)
    requires Run(log) && i < j < |log| && Reads(log[j])
    requires forall k | i < k < j :: Quiet(log[k])
    ensures log[j].cmd.before.blksize == log[i].after.blksize
  {
    assert log[j].Answered();
    Passed(log[j].cmd);
    MediumKept(log, i, j);
  }

  // The host has sent a WRITE in any of its forms, by which all it announced has moved,
  // and later a READ in any of them from the same block on; both have gone well, and in
  // between everything has, and nothing was written.  Then the data of the READ begins
  // like that of the WRITE, and there is as much of it as the residue says.
  lemma HostReadsBack(turns: seq<Turn>, replies: seq<Reply>, log: seq<Exchange>, sent: seq<seq<byte>>,
                      i: nat, j: nat, w: Transfer, r: Transfer, offered: nat, wanted: nat)
    requires Complete(turns, replies, log, sent) && i < j < |ServedOf(turns)|
    requires Asks(ServedOf(turns)[i], w, offered) && Asks(ServedOf(turns)[j], r, wanted)
    requires w.write && !r.write && w.lba == r.lba && offered > 0 && Countable(r)
    requires WentWell(replies, sent, i) && LeftOver(replies, sent, i) == 0 && WentWell(replies, sent, j)
    requires forall k | i < k < j :: WentWell(replies, sent, k) && Harmless(ServedOf(turns)[k])
    ensures ComesBack(turns, replies, sent, i, j, offered)
    ensures |Bytes(SentFor(replies, sent, j))| + LeftOver(replies, sent, j) == wanted
  {
    Shown(turns, replies, log, sent, i);
    Shown(turns, replies, log, sent, j);
    AskedIs(ServedOf(turns)[i], w, offered, log[i].cmd);
    AskedIs(ServedOf(turns)[j], r, wanted, log[j].cmd);
    OkWrite(log[i], w);
    OkRead(log[j], r);
    forall k | i < k < j
      ensures Quiet(log[k])
    {
      Shown(turns, replies, log, sent, k);
      HarmlessIsQuiet(ServedOf(turns)[k], log[k]);
    }
    SamePlace(log, i, j);
    WrittenIsRead(turns, replies, log, sent, i, j);
    AnsweredInOrder(turns, replies, log, sent, j);
  }
}
