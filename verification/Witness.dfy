// Runs that meet the hypotheses of the results about exchanges, so that those
// results are about something.
module Witness {
  import opened Base
  import opened Storage
  import opened Scsi
  import opened IoEvents
  import opened Exchanges

  // A command block of these bytes, zero to the end.
  function Block(op: byte, b4: byte, b8: byte): Cdb {
    [op, 0, 0, 0, b4, 0, 0, 0, b8, 0, 0, 0, 0, 0, 0, 0]
  }

  // The command, with what the source makes of it.
  function Issue(cbw: Cbw, cdb: Cdb, before: LunView, stale: seq<byte>): Command
    requires |cbw.cdb| <= CDB_SIZE
  {
    var wants := Decode(cdb, |cbw.cdb|, Some(before));
    Command(cbw, cdb, true, before, stale, wants, Check(cbw.Expects(), wants, cdb, Some(before)))
  }

  // No byte of the block outside these two is set.
  lemma NoStray(op: byte, b4: byte, b8: byte, n: nat, mask: set<nat>)
    requires n <= CDB_SIZE && (b4 == 0 || 4 in mask) && (b8 == 0 || 8 in mask)
    ensures MaskLun(Block(op, b4, b8)) == Block(op, b4, b8)
    ensures !StrayByte(Block(op, b4, b8), n, mask)
  {
  }

  // A removable drive of one block of this size.
  function Drive(image: seq<byte>, blksize: nat, attention: SenseCode): LunView {
    LunView(Some("disk"), image, |image|, 1, blksize, false, false, true, false, false, false, 0, 0, attention)
  }

  const READY := Block(TEST_UNIT_READY, 0, 0)
  const SENSE := Block(REQUEST_SENSE, 18, 0)

  // The answer to TEST UNIT READY after a load.
  function Refusal(before: LunView): Exchange {
    var cmd := Issue(Cbw(1, 0, false, 0, READY[..6]), READY, before, []);
    Exchange(cmd, before.ClearSense().(senseData := before.unitAttention, unitAttention := NO_SENSE),
             [], 0, [], false, 0, false, [], Csw(1, 0, StatFail))
  }

  // The answer to REQUEST SENSE.
  function SenseAnswer(tag: nat, before: LunView): Exchange {
    var cmd := Issue(Cbw(tag, 18, true, 0, SENSE[..6]), SENSE, before, []);
    Exchange(cmd, before.ClearSense(), SenseReply(SenseOf(before)), 0, [], false, 0, false, [],
             Csw(tag, 0, StatOk))
  }

  lemma RefusalAnswered(before: LunView)
    requires before.unitAttention != NO_SENSE && before.Well()
    ensures Refusal(before).Answered() && Refusal(before).cmd.Ok()
  {
  }

  // check_command lets REQUEST SENSE pass.
  lemma SensePasses(tag: nat, before: LunView)
    requires tag < U32 && before.Well()
    ensures var c := SenseAnswer(tag, before).cmd;
            c.Ok() && c.Sound() && c.Runs(DoRequestSense) && !c.verdict.phaseError && c.verdict.size == 18
            && c.verdict.unit == Some(before)
  {
    NoStray(REQUEST_SENSE, 18, 0, 6, {4});
  }

  lemma SenseAnswered(tag: nat, before: LunView)
    requires tag < U32 && before.Well()
    ensures SenseAnswer(tag, before).Answered()
    ensures SenseAnswer(tag, before).cmd.Runs(DoRequestSense)
    ensures SenseAnswer(tag, before).cmd.verdict.size == 18
  {
    SensePasses(tag, before);
    assert SenseReply(SenseOf(before))[..18] == SenseReply(SenseOf(before));
  }

  // The hypotheses of FailureExplainedOnce hold of three commands in a row.
  ghost predicate Explains(log: seq<Exchange>) {
    && Run(log) && |log| == 3 && log[0].csw.status == StatFail
    && (forall i | 0 <= i < 3 :: log[i].cmd.present)
    && (forall i | 1 <= i < 3 ::
          log[i].cmd.Runs(DoRequestSense) && log[i].cmd.Expects().dir == ToHost
          && log[i].cmd.verdict.size >= 14)
  }

  lemma RunOfThree(a: Exchange, b: Exchange, c: Exchange)
    requires a.Answered() && b.Answered() && c.Answered()
    requires b.cmd.before.Touched(a.after) && c.cmd.before.Touched(b.after)
    ensures Run([a, b, c])
  {
    RunMore([], a);
    RunMore([] + [a], b);
    RunMore([] + [a] + [b], c);
    assert [] + [a] + [b] + [c] == [a, b, c];
  }

  // The commands that follow the load of this medium.
  function AfterLoad(v: LunView): seq<Exchange> {
    var a := Refusal(v);
    var b := SenseAnswer(2, a.after);
    [a, b, SenseAnswer(3, b.after)]
  }

  lemma AfterLoadRuns(v: LunView)
    requires v.unitAttention != NO_SENSE && v.Well()
    ensures Run(AfterLoad(v))
  {
    var a := Refusal(v);
    var b := SenseAnswer(2, a.after);
    RefusalAnswered(v);
    SenseAnswered(2, a.after);
    SenseAnswered(3, b.after);
    RunOfThree(a, b, SenseAnswer(3, b.after));
  }

  // After a load: a command fails, REQUEST SENSE explains it, and has nothing
  // more to say the second time.
  lemma SenseRun() returns (log: seq<Exchange>)
    ensures Explains(log)
    ensures log[1].data == SenseReply(Sense(NOT_READY_TO_READY, 0, false))
    ensures log[2].data == SenseReply(Sense(NO_SENSE, 0, false))
  {
    var v := Drive(seq(512, i => 0), 512, NOT_READY_TO_READY);
    log := AfterLoad(v);
    AfterLoadRuns(v);
    SensePasses(2, log[0].after);
    SensePasses(3, log[1].after);
  }

  // A 10-byte READ or WRITE of these blocks, from the first on.
  lemma AtBlockZero(op: byte, count: byte, blksize: nat)
    requires op as nat == READ_10 || op as nat == WRITE_10
    ensures FlagsOk(Block(op, 0, count)) && CommandLba(Block(op, 0, count)) == 0
    ensures CommandOffset(Block(op, 0, count), blksize) == 0
    ensures Be16(Block(op, 0, count), 7) == count as nat
  {
  }

  // What the host sends for a command with a 10-byte command block.
  function Ten(size: nat, toHost: bool, cdb: Cdb): Cbw {
    Cbw(1, size, toHost, 0, cdb[..10])
  }

  // What the opcode asks for.
  lemma TenDecoded(op: byte, count: byte, before: LunView)
    requires op as nat == READ_10 || op as nat == WRITE_10
    requires before.blksize * count as nat < U32
    ensures var r := Decode(Block(op, 0, count), 10, Some(before));
            && r.handler == (if op as nat == READ_10 then DoRead else DoWrite)
            && r.dir == (if op as nat == READ_10 then ToHost else FromHost)
            && r.size == count as nat * before.blksize && r.need == 10 && r.medium
            && r.mask == {1, 2, 3, 4, 5, 7, 8}
  {
    AtBlockZero(op, count, before.blksize);
  }

  // check_command lets it pass, if it announces the data it asks for, or if there
  // is none.
  lemma TenPasses(op: byte, count: byte, size: nat, before: LunView, stale: seq<byte>)
    requires op as nat == READ_10 || op as nat == WRITE_10
    requires before.blksize * count as nat < U32 && size < U32
    requires count == 0 || size == count as nat * before.blksize
    requires before.IsOpen() && before.Well() && before.unitAttention == NO_SENSE && |stale| <= BUFLEN
    ensures var c := Issue(Ten(size, op as nat == READ_10, Block(op, 0, count)), Block(op, 0, count), before, stale);
            && c.Ok() && c.Sound() && c.Runs(if op as nat == READ_10 then DoRead else DoWrite)
            && !c.verdict.phaseError && c.verdict.cmnd == Block(op, 0, count)
            && c.verdict.size == count as nat * before.blksize
  {
    NoStray(op, 0, count, 10, {1, 2, 3, 4, 5, 7, 8});
    TenDecoded(op, count, before);
  }

  // The answer to a WRITE of the one block, and to a READ of it.
  function Stored(image: seq<byte>, data: seq<byte>): Exchange {
    var cdb, n := Block(WRITE_10, 0, 1), |image|;
    Exchange(Issue(Ten(n, false, cdb), cdb, Drive(image, n, NO_SENSE), []), Drive(data, n, NO_SENSE),
             [], 1, data, false, n, false, [IoRequest(0, 1, true)], Csw(1, 0, StatOk))
  }

  function Fetched(image: seq<byte>): Exchange {
    var cdb, n := Block(READ_10, 0, 1), |image|;
    Exchange(Issue(Ten(n, true, cdb), cdb, Drive(image, n, NO_SENSE), []), Drive(image, n, NO_SENSE),
             image, 0, [], false, 0, false, [IoRequest(0, 1, false)], Csw(1, 0, StatOk))
  }

  // A WRITE is answered if what was stored is accounted for.
  lemma WriteAnswered(w: Exchange, n: nat, size: nat, space: nat)
    requires w.Ok() && w.cmd.Sound() && Writes(w) && size == w.cmd.verdict.size
    requires w.csw.tag == w.cmd.cbw.tag && w.Balanced() && w.StatusRight() && w.io == w.cmd.Published()
    requires w.after.unitAttention == NO_SENSE && BlockSize(w.cmd.before.blksize)
    requires w.stored <= size && w.stored % w.cmd.before.blksize == 0
    requires w.Landed(n) && Start(w) + space == |w.cmd.before.image|
    requires w.Accounted(size, space) && w.Complete(size, space)
    ensures w.Answered()
  {
  }

  lemma StoredLands(image: seq<byte>, data: seq<byte>)
    requires BlockSize(|image|) && |data| == |image| < U32
    ensures var w, n := Stored(image, data), |image|;
            && w.Landed(n) && w.Ok() && w.cmd.Sound() && Writes(w) && Start(w) == 0
            && w.cmd.verdict.size == n && w.Balanced() && w.StatusRight() && w.io == w.cmd.Published()
  {
    var n := |image|;
    TenPasses(WRITE_10, 1, n, Drive(image, n, NO_SENSE), []);
    AtBlockZero(WRITE_10, 1, n);
    assert Patch(image, 0, data[..n]) == data;
  }

  lemma TwoBlocks(n: nat)
    requires n > 0
    ensures 2 * n / n == 2 && n % n == 0
  {
  }

  lemma StoredAccounted(image: seq<byte>, data: seq<byte>)
    requires BlockSize(|image|) && |data| == |image|
    ensures var w, n := Stored(image, data), |image|;
            w.Accounted(n, n) && w.Complete(n, n) && n % n == 0
  {
    TwoBlocks(|image|);
    RoundDownUnique(|image|, |image|, |image|);
    LastStartIs(|image|, 0);
  }

  lemma StoredAnswered(image: seq<byte>, data: seq<byte>)
    requires BlockSize(|image|) && |data| == |image| < U32
    ensures Stored(image, data).Answered() && Writes(Stored(image, data))
    ensures Stored(image, data).cmd.verdict.size == |image| && Start(Stored(image, data)) == 0
  {
    StoredLands(image, data);
    StoredAccounted(image, data);
    WriteAnswered(Stored(image, data), |image|, |image|, |image|);
  }

  lemma FetchedAnswered(image: seq<byte>)
    requires BlockSize(|image|) && |image| < U32
    ensures Fetched(image).Answered() && Reads(Fetched(image))
    ensures Fetched(image).cmd.verdict.size == |image| && Start(Fetched(image)) == 0
  {
    var n := |image|;
    TenPasses(READ_10, 1, n, Drive(image, n, NO_SENSE), []);
    AtBlockZero(READ_10, 1, n);
    assert LiesAt(image, 0, image);
  }

  // The hypotheses of WriteThenRead hold of a block written and read back.
  lemma BlockRoundTrip(image: seq<byte>, data: seq<byte>)
    requires BlockSize(|image|) && |data| == |image| < U32
    ensures var w, r := Stored(image, data), Fetched(data);
            && w.Answered() && Writes(w) && r.Answered() && Reads(r)
            && r.cmd.before.SameMedium(w.after) && Start(r) == Start(w)
            && r.cmd.verdict.size == w.cmd.verdict.size == w.stored && r.csw.status == StatOk
            && r.data == data
  {
    StoredAnswered(image, data);
    FetchedAnswered(data);
  }

  // The answer to a READ of no blocks for which the host announces n bytes, when
  // the next buffer holds these.
  function Leaked(image: seq<byte>, n: nat, stale: seq<byte>): Exchange {
    var cdb, v := Block(READ_10, 0, 0), Drive(image, |image|, NO_SENSE);
    Exchange(Issue(Ten(n, true, cdb), cdb, v, stale), v, stale, 0, [], false, 0, false, [IoRequest(0, 0, false)],
             Csw(1, n, StatOk))
  }

  // A READ of no blocks succeeds and sends whatever the next buffer holds, however
  // much was announced, and all that was announced is in the residue.
  lemma NothingReadSomethingSent(image: seq<byte>, n: nat, stale: seq<byte>)
    requires BlockSize(|image|) && 0 < n < U32 && |stale| <= BUFLEN
    ensures var e := Leaked(image, n, stale);
            && e.Answered() && e.cmd.Silent() && e.csw.status == StatOk && e.data == stale
            && e.cmd.cbw.size == e.csw.residue == n
  {
    TenPasses(READ_10, 0, n, Drive(image, |image|, NO_SENSE), stale);
    AtBlockZero(READ_10, 0, |image|);
  }

  // The answer to a WRITE of two blocks, of which the file has room for the first, when
  // `taken` transfers have brought this data and left this sense data.
  function Cut(image: seq<byte>, n: nat, taken: nat, data: seq<byte>, sense: SenseCode, info: u32): Exchange
    requires |image| >= n && |data| >= n
  {
    var cdb, v := Block(WRITE_10, 0, 2), Drive(Patch(image, 0, data[..n]), n, NO_SENSE);
    Exchange(Issue(Ten(2 * n, false, cdb), cdb, Drive(image, n, NO_SENSE), []),
             v.(senseData := sense, senseDataInfo := info, infoValid := sense != NO_SENSE),
             [], taken, data, false, n, false, [IoRequest(0, 2, true)],
             Csw(1, n, if sense == NO_SENSE then StatOk else StatFail))
  }

  // What they have in common.
  lemma CutLands(image: seq<byte>, n: nat, taken: nat, data: seq<byte>, sense: SenseCode, info: u32)
    requires BlockSize(n) && n <= |image| < 2 * n < U32 && |data| >= n
    ensures var w := Cut(image, n, taken, data, sense, info);
            && w.Landed(n) && w.Ok() && w.cmd.Sound() && Writes(w) && Start(w) == 0
            && w.cmd.verdict.size == 2 * n && w.Balanced() && w.StatusRight() && w.io == w.cmd.Published()
            && !w.cmd.verdict.phaseError
  {
    TenPasses(WRITE_10, 2, 2 * n, Drive(image, n, NO_SENSE), []);
    AtBlockZero(WRITE_10, 2, n);
    TwoBlocks(n);
  }

  lemma CutAccounted(image: seq<byte>, n: nat, taken: nat, data: seq<byte>, sense: SenseCode, info: u32)
    requires BlockSize(n) && n <= |image| < 2 * n && n <= |data| <= taken * BUFLEN
    requires if sense == LBA_OUT_OF_RANGE then |image| <= LastStart(2 * n) && |image| <= |data|
             else sense == NO_SENSE && LastStart(2 * n) < |image| && 2 * n <= |data|
    ensures var w := Cut(image, n, taken, data, sense, info);
            w.Accounted(2 * n, |image|) && w.Complete(2 * n, |image|)
  {
    TwoBlocks(n);
    RoundDownUnique(Min(Min(|data|, 2 * n), |image|), n, n);
  }

  lemma CutAnswered(image: seq<byte>, n: nat, taken: nat, data: seq<byte>, sense: SenseCode, info: u32)
    requires BlockSize(n) && n <= |image| < 2 * n < U32 && n <= |data| <= taken * BUFLEN
    requires if sense == LBA_OUT_OF_RANGE then |image| <= LastStart(2 * n) && |image| <= |data|
             else sense == NO_SENSE && LastStart(2 * n) < |image| && 2 * n <= |data|
    requires Min(2 * n, taken * BUFLEN) <= |data|
    ensures var w := Cut(image, n, taken, data, sense, info);
            && w.Answered() && Writes(w) && Undisturbed(w) && w.cmd.verdict.size == 2 * n && w.stored == n
            && w.received == data && w.after.senseData == sense
            && w.csw.status == (if sense == NO_SENSE then StatOk else StatFail)
  {
    CutLands(image, n, taken, data, sense, info);
    CutAccounted(image, n, taken, data, sense, info);
    TwoBlocks(n);
    WriteAnswered(Cut(image, n, taken, data, sense, info), n, 2 * n, |image|);
  }

  // If the last request begins inside the file it succeeds, without any sense data, and
  // half of what came is gone.
  lemma WrittenOverTheEnd(image: seq<byte>, n: nat, data: seq<byte>)
    requires BlockSize(n) && n <= |image| < 2 * n == |data| && LastStart(2 * n) < |image|
    ensures var w := Cut(image, n, LastStart(2 * n) / BUFLEN + 1, data, NO_SENSE, 0);
            && w.Answered() && Writes(w) && Undisturbed(w)
            && w.csw.status == StatOk && w.after.senseData == NO_SENSE
            && w.received == data && w.cmd.verdict.size == 2 * n && w.stored == n
  {
    if n > BUFLEN {
      SmallMod(BUFLEN, n);
    }
    CutAnswered(image, n, LastStart(2 * n) / BUFLEN + 1, data, NO_SENSE, 0);
  }

  // Two blocks of which each takes a request of its own, when the file ends with the
  // first: the second is not asked for, and that is reported.
  lemma StoppedAtTheEnd(image: seq<byte>, n: nat, data: seq<byte>)
    requires n == BUFLEN == |image| == |data|
    ensures var w := Cut(image, n, 1, data, LBA_OUT_OF_RANGE, 1);
            && w.Answered() && Writes(w) && Undisturbed(w) && w.csw.status == StatFail
            && w.received == data && w.cmd.verdict.size == 2 * n && w.stored == n
  {
    LastStartIs(2 * n, 1);
    CutAnswered(image, n, 1, data, LBA_OUT_OF_RANGE, 1);
  }
}
