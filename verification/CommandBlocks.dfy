// Command blocks as a host writes them, byte by byte, and what each of them comes to.
// The numbers here are those of the SCSI standards; nothing is said in terms of how the
// driver takes a block apart.
module CommandBlocks {
  import opened Base
  import opened Storage
  import opened Scsi
  import opened IoEvents
  import opened Exchanges

  // Numbers in big-endian bytes.
  function Two(x: nat): (s: seq<byte>)
    ensures |s| == 2
  {
    [x / 0x100 % 0x100, x % 0x100]
  }

  function Three(x: nat): (s: seq<byte>)
    ensures |s| == 3
  {
    [x / 0x1_0000 % 0x100, x / 0x100 % 0x100, x % 0x100]
  }

  function Four(x: nat): (s: seq<byte>)
    ensures |s| == 4
  {
    Two(x / 0x1_0000) + Two(x % 0x1_0000)
  }

  function Eight(x: nat): (s: seq<byte>)
    ensures |s| == 8
  {
    Four(x / 0x1_0000_0000) + Four(x % 0x1_0000_0000)
  }

  // The driver writes them like that.
  lemma FourIs(x: nat)
    ensures Be32Bytes(x) == Four(x)
  {
    var k, l := x / 0x1_0000, x % 0x1_0000;
    Digits(k / 0x100, k % 0x100, l / 0x100, l % 0x100);
  }

  lemma Digits(k: nat, a: byte, b: byte, c: byte)
    ensures var x := 0x100_0000 * k + 0x1_0000 * a as nat + 0x100 * b as nat + c as nat;
            && x / 0x100_0000 == k && x / 0x1_0000 == 0x100 * k + a as nat
            && x / 0x100 % 0x100 == b as nat && x % 0x100 == c as nat
  {
    DivideBy(0x100_0000, k, 0x1_0000 * a as nat + 0x100 * b as nat + c as nat);
    DivideBy(0x1_0000, 0x100 * k + a as nat, 0x100 * b as nat + c as nat);
    DivideBy(0x100, 0x1_0000 * k + 0x100 * a as nat + b as nat, c as nat);
    DivideBy(0x100, 0x100 * k + a as nat, b as nat);
  }

  lemma DivideBy(d: nat, q: nat, r: nat)
    requires d == 0x100 || d == 0x1_0000 || d == 0x100_0000
    requires r < d
    ensures (d * q + r) / d == q && (d * q + r) % d == r
  {
    if d == 0x100 {
    } else if d == 0x1_0000 {
    }
  }

  // And reads them as they are meant, wherever they stand.
  lemma TwoRead(c: Cdb, i: nat, x: nat)
    requires i + 2 <= CDB_SIZE && x < 0x1_0000 && c[i..i + 2] == Two(x)
    ensures Be16(c, i) == x
  {
    assert c[i] == c[i..i + 2][0] && c[i + 1] == c[i..i + 2][1];
  }

  lemma ThreeRead(c: Cdb, i: nat, x: nat)
    requires i + 3 <= CDB_SIZE && x < 0x100_0000 && c[i..i + 3] == Three(x)
    ensures Be24(c, i) == x
  {
    assert c[i] == c[i..i + 3][0] && c[i + 1] == c[i..i + 3][1] && c[i + 2] == c[i..i + 3][2];
    Bytes3(x);
  }

  lemma FourRead(c: Cdb, i: nat, x: nat)
    requires i + 4 <= CDB_SIZE && x < 0x1_0000_0000 && c[i..i + 4] == Four(x)
    ensures Be32(c, i) == x
  {
    assert c[i] == c[i..i + 4][0] && c[i + 1] == c[i..i + 4][1];
    assert c[i + 2] == c[i..i + 4][2] && c[i + 3] == c[i..i + 4][3];
    Bytes4(x);
  }

  lemma EightRead(c: Cdb, i: nat, x: nat)
    requires i + 8 <= CDB_SIZE && x < 0x1_0000_0000 * 0x1_0000_0000 && c[i..i + 8] == Eight(x)
    ensures Be64(c, i) == x
  {
    assert c[i..i + 4] == c[i..i + 8][..4] == Four(x / 0x1_0000_0000);
    assert c[i + 4..i + 8] == c[i..i + 8][4..] == Four(x % 0x1_0000_0000);
    FourRead(c, i, x / 0x1_0000_0000);
    FourRead(c, i + 4, x % 0x1_0000_0000);
  }

  // ------------------------------------------------------------ READ and WRITE

  datatype Form = Six | Ten | Twelve | Sixteen

  // A READ or WRITE of `count` blocks from block `lba` on.  The short form has neither of
  // the cache hints.
  datatype Transfer = Transfer(form: Form, write: bool, dpo: bool, fua: bool, lba: nat, count: nat) {
    function Length(): nat {
      match form
      case Six => 6
      case Ten => 10
      case Twelve => 12
      case Sixteen => 16
    }

    // The numbers fit the fields; the short form cannot ask for nothing.
    predicate Fits() {
      match form
      case Six => lba < 0x20_0000 && 1 <= count <= 256
      case Ten => lba < 0x1_0000_0000 && count < 0x1_0000
      case Twelve => lba < 0x1_0000_0000 && count < 0x1_0000_0000
      case Sixteen => lba < 0x1_0000_0000 * 0x1_0000_0000 && count < 0x1_0000_0000
    }

    function Flags(): byte {
      (if dpo then 0x10 else 0) + (if fua then 0x08 else 0)
    }

    function Block(): (b: seq<byte>)
      ensures |b| == Length()
    {
      match form
      case Six => [if write then 0x0a else 0x08] + Three(lba) + [count % 0x100, 0]
      case Ten => [if write then 0x2a else 0x28, Flags()] + Four(lba) + [0] + Two(count) + [0]
      case Twelve => [if write then 0xaa else 0xa8, Flags()] + Four(lba) + Four(count) + [0, 0]
      case Sixteen => [if write then 0x8a else 0x88, Flags()] + Eight(lba) + Four(count) + [0, 0]
    }
  }

  // The first bytes of the command buffer are this block.
  predicate Holds(c: Cdb, b: seq<byte>) {
    |b| <= CDB_SIZE && c[..|b|] == b
  }

  // What the driver makes of a block whose LUN bits are clear.
  ghost predicate Means(c: Cdb, t: Transfer, unit: Option<LunView>) {
    var r := Decode(c, t.Length(), unit);
    && MaskLun(c) == c && CommandLba(c) == t.lba && FlagsOk(c)
    && r.handler == (if t.write then DoWrite else DoRead) && r.size == InBlocks(unit, t.count)
    && r.dir == (if t.write then FromHost else ToHost) && r.need == t.Length() && r.medium
    && !StrayByte(c, t.Length(), r.mask)
  }

  lemma SixNumbers(c: Cdb, t: Transfer)
    requires t.form.Six? && t.Fits() && Holds(c, t.Block())
    ensures c[0] == (if t.write then 0x0a else 0x08) && c[1] < 32 && c[4] as nat == t.count % 0x100 && c[5] == 0
    ensures Be24(c, 1) == t.lba
  {
    assert c[1..4] == c[..6][1..4] == Three(t.lba);
    ThreeRead(c, 1, t.lba);
    assert c[0] == c[..6][0] && c[1] == c[..6][1] && c[4] == c[..6][4] && c[5] == c[..6][5];
  }

  lemma SixMeans(c: Cdb, t: Transfer, unit: Option<LunView>)
    requires t.form.Six? && t.Fits() && Holds(c, t.Block())
    ensures Means(c, t, unit)
  {
    SixNumbers(c, t);
    assert Count6(c) == t.count;
  }

  lemma TenNumbers(c: Cdb, t: Transfer)
    requires t.form.Ten? && t.Fits() && Holds(c, t.Block())
    ensures c[0] == (if t.write then 0x2a else 0x28) && c[1] == t.Flags() && c[6] == c[9] == 0
    ensures Be32(c, 2) == t.lba && Be16(c, 7) == t.count
  {
    assert c[2..6] == c[..10][2..6] == Four(t.lba);
    assert c[7..9] == c[..10][7..9] == Two(t.count);
    FourRead(c, 2, t.lba);
    TwoRead(c, 7, t.count);
    assert c[0] == c[..10][0] && c[1] == c[..10][1] && c[6] == c[..10][6] && c[9] == c[..10][9];
  }

  lemma TenMeans(c: Cdb, t: Transfer, unit: Option<LunView>)
    requires t.form.Ten? && t.Fits() && Holds(c, t.Block())
    ensures Means(c, t, unit)
  {
    TenNumbers(c, t);
  }

  lemma TwelveNumbers(c: Cdb, t: Transfer)
    requires t.form.Twelve? && t.Fits() && Holds(c, t.Block())
    ensures c[0] == (if t.write then 0xaa else 0xa8) && c[1] == t.Flags() && c[10] == c[11] == 0
    ensures Be32(c, 2) == t.lba && Be32(c, 6) == t.count
  {
    assert c[2..6] == c[..12][2..6] == Four(t.lba);
    assert c[6..10] == c[..12][6..10] == Four(t.count);
    FourRead(c, 2, t.lba);
    FourRead(c, 6, t.count);
    assert c[0] == c[..12][0] && c[1] == c[..12][1] && c[10] == c[..12][10] && c[11] == c[..12][11];
  }

  lemma TwelveMeans(c: Cdb, t: Transfer, unit: Option<LunView>)
    requires t.form.Twelve? && t.Fits() && Holds(c, t.Block())
    ensures Means(c, t, unit)
  {
    TwelveNumbers(c, t);
  }

  lemma SixteenNumbers(c: Cdb, t: Transfer)
    requires t.form.Sixteen? && t.Fits() && Holds(c, t.Block())
    ensures c[0] == (if t.write then 0x8a else 0x88) && c[1] == t.Flags() && c[14] == c[15] == 0
    ensures Be64(c, 2) == t.lba && Be32(c, 10) == t.count
  {
    assert c[2..10] == c[..16][2..10] == Eight(t.lba);
    assert c[10..14] == c[..16][10..14] == Four(t.count);
    EightRead(c, 2, t.lba);
    FourRead(c, 10, t.count);
    assert c[0] == c[..16][0] && c[1] == c[..16][1] && c[14] == c[..16][14] && c[15] == c[..16][15];
  }

  // Nothing but these numbers matters.
  lemma SixteenDecoded(c: Cdb, t: Transfer, unit: Option<LunView>)
    requires t.form.Sixteen? && c[0] == (if t.write then 0x8a else 0x88) && c[1] == t.Flags()
    requires c[14] == c[15] == 0 && Be64(c, 2) == t.lba && Be32(c, 10) == t.count
    ensures Means(c, t, unit)
  {
  }

  lemma SixteenMeans(c: Cdb, t: Transfer, unit: Option<LunView>)
    requires t.form.Sixteen? && t.Fits() && Holds(c, t.Block())
    ensures Means(c, t, unit)
  {
    SixteenNumbers(c, t);
    SixteenDecoded(c, t, unit);
  }

  lemma TransferMeans(c: Cdb, t: Transfer, unit: Option<LunView>)
    requires t.Fits() && Holds(c, t.Block())
    ensures Means(c, t, unit)
  {
    match t.form
    case Six => SixMeans(c, t, unit);
    case Ten => TenMeans(c, t, unit);
    case Twelve => TwelveMeans(c, t, unit);
    case Sixteen => SixteenMeans(c, t, unit);
  }

  // A READ or WRITE as it should be: the data, if any is announced, goes the way the
  // command says.
  predicate Directed(c: Command, t: Transfer) {
    && c.Ok() && c.Sound() && c.cbw.cdb == t.Block() && t.Fits()
    && (c.cbw.size > 0 ==> c.cbw.toHost == !t.write)
  }

  // To a unit whose medium the host has been told of.
  predicate Proper(c: Command, t: Transfer) {
    Directed(c, t) && c.present && c.before.IsOpen() && c.before.unitAttention == 0
  }

  // How many bytes the blocks are, in the 32 bits the driver has for them.
  function BytesOf(c: Command, t: Transfer): nat {
    t.count * c.before.blksize % 0x1_0000_0000
  }

  // The driver understands the command as it is meant.
  ghost predicate Understood(c: Command, t: Transfer) {
    && c.Runs(if t.write then DoWrite else DoRead) && c.present
    && c.verdict.size == Min(BytesOf(c, t), c.cbw.size)
    && c.verdict.phaseError == (c.cbw.size < BytesOf(c, t))
    && FlagsOk(c.verdict.cmnd) && CommandLba(c.verdict.cmnd) == t.lba
    && CommandOffset(c.verdict.cmnd, c.before.blksize) == t.lba * c.before.blksize
    && c.before.Well() && c.before.IsOpen() && BlockSize(c.before.blksize)
  }

  // A request in form, for an open medium that has been reported, is let pass.
  lemma Passes(h: Host, r: Request, c: Cdb, v: LunView)
    requires h.length <= CDB_SIZE && r.need <= h.length && !StrayByte(c, h.length, r.mask) && MaskLun(c) == c
    requires (v.unitAttention == NO_SENSE || c[0] == 0x12 || c[0] == 0x03) && (r.medium ==> v.IsOpen())
    requires r.size > 0 && h.size > 0 ==> h.dir == r.dir
    ensures var d := Check(h, r, c, Some(v));
            d.reply == 0 && d.size == Min(r.size, h.size) && d.phaseError == (h.size < r.size) && d.cmnd == c
  {
  }

  lemma ProperUnderstood(c: Command, t: Transfer)
    requires Proper(c, t)
    ensures Understood(c, t)
  {
    TransferMeans(c.cdb, t, c.Unit());
    Passes(c.Expects(), c.wants, c.cdb, c.before);
  }

  // The block is one of the medium: all of it lies in the file.  Of a CD-ROM, only the
  // first 1151999 do.
  predicate OnMedium(v: LunView, lba: nat) {
    (lba + 1) * v.blksize <= |v.image| && (v.cdrom ==> lba < 1151999)
  }

  lemma EveryBlock(v: LunView, lba: nat)
    requires v.IsOpen() && v.Well()
    ensures lba < v.numSectors <==> OnMedium(v, lba)
  {
    if lba < v.numSectors {
      MulMonotone(lba + 1, v.numSectors, v.blksize);
    } else {
      MulMonotone(v.numSectors + 1, lba + 1, v.blksize);
    }
  }

  // Those of a whole floppy are the 2880 from the first on.
  lemma FloppyBlocks(v: LunView, lba: nat)
    requires v.IsOpen() && v.Well() && !v.cdrom && v.blksize == 512 && |v.image| == 1474560
    ensures OnMedium(v, lba) <==> lba < 2880
  {
    EveryBlock(v, lba);
    FloppySectors(v.numSectors);
  }

  // The status is a phase error if less was announced than the blocks are, and otherwise
  // says whether there is sense data.
  predicate StatusOf(e: Exchange, t: Transfer) {
    e.csw.status == if e.cmd.cbw.size < BytesOf(e.cmd, t) then StatPhase
                    else if e.after.senseData != 0 then StatFail else StatOk
  }

  // A READ sends the bytes of the image from the block it names on, as many as it asks
  // for and the file has, if the file can be read; and it is refused exactly if that
  // block is not on the medium.
  ghost predicate ReadComesTo(e: Exchange, t: Transfer, size: nat) {
    var v, off := e.cmd.before, t.lba * e.cmd.before.blksize;
    && v.blksize > 0 && e.after.SameButSense(v) && StatusOf(e, t)
    && (!OnMedium(v, t.lba) ==> e.data == [] && e.after.senseData == 0x052100 && e.io == [])
    && (OnMedium(v, t.lba) ==> e.io == [IoRequest(t.lba % 0x1_0000_0000, size / v.blksize, false)])
    && (OnMedium(v, t.lba) && size == 0 ==>
          e.after.senseData == 0 && e.data == if e.cmd.cbw.size > 0 then e.cmd.stale else [])
    && (OnMedium(v, t.lba) && size > 0 ==>
          && off + |e.data| <= |v.image| && e.data == v.image[off..off + |e.data|]
          && (!e.fault ==> |e.data| == Min(size, |v.image| - off))
          && e.after.senseData == (if e.fault then 0x031100 else if |e.data| < size then 0x052100 else 0)
          && (e.fault ==> |e.data| < size)
          && e.after.infoValid == (|e.data| < size)
          && (|e.data| < size ==> e.after.senseDataInfo == (off + |e.data|) / v.blksize % 0x1_0000_0000))
  }

  lemma ReadLaw(e: Exchange, t: Transfer)
    requires Understood(e.cmd, t) && !t.write && e.ReadEffect() && e.StatusRight() && e.io == e.cmd.Published()
    requires e.Balanced() && (e.cmd.cbw.size > 0 ==> e.cmd.cbw.toHost)
    requires t.lba < e.cmd.before.numSectors <==> OnMedium(e.cmd.before, t.lba)
    ensures ReadComesTo(e, t, e.cmd.verdict.size)
  {
  }

  // What a WRITE or READ that was let pass has come to.
  lemma ReadPassed(e: Exchange)
    requires e.Answered() && e.cmd.present && e.cmd.Runs(DoRead)
    ensures e.ReadEffect() && e.StatusRight() && e.io == e.cmd.Published() && e.Balanced()
  {
  }

  lemma WritePassed(e: Exchange)
    requires e.Answered() && e.cmd.present && e.cmd.Runs(DoWrite)
    ensures e.WriteEffect() && e.StatusRight() && e.io == e.cmd.Published() && e.Balanced()
  {
  }

  lemma HostRead(e: Exchange, t: Transfer)
    requires e.Answered() && Proper(e.cmd, t) && !t.write
    ensures ReadComesTo(e, t, Min(BytesOf(e.cmd, t), e.cmd.cbw.size))
  {
    ProperUnderstood(e.cmd, t);
    ReadPassed(e);
    EveryBlock(e.cmd.before, t.lba);
    ReadLaw(e, t);
  }

  // All the whole blocks that were sent and fit are stored; and the end of the file is
  // reported exactly if the last request of 16 KiB would begin there or beyond.
  predicate WholeBlocks(e: Exchange, size: nat, space: int)
    requires size > 0
  {
    && e.stored % Max(1, e.cmd.before.blksize) == 0
    && e.stored <= Min(size, space) < e.stored + e.cmd.before.blksize
    && e.after.senseData == (if (size - 1) / 16384 * 16384 < space then 0 else 0x052100)
  }

  // These bytes, and no others, differ at most.
  predicate Overwritten(was: seq<byte>, now: seq<byte>, off: nat, data: seq<byte>) {
    && |now| == |was| && (data != [] ==> off + |data| <= |was|)
    && forall i | 0 <= i < |was| :: now[i] == if off <= i < off + |data| then data[i - off] else was[i]
  }

  lemma PatchOverwrites(was: seq<byte>, off: nat, data: seq<byte>)
    requires off + |data| <= |was|
    ensures Overwritten(was, Patch(was, off, data), off, data)
  {
  }

  // A WRITE changes the bytes of the image from the block it names on to the first n
  // bytes received, all that count and less than a block more, and nothing else; and it
  // is refused exactly if the medium is write-protected or that block is not on it.
  ghost predicate WriteComesTo(e: Exchange, t: Transfer, size: nat, n: nat) {
    var v, off := e.cmd.before, t.lba * e.cmd.before.blksize;
    && v.blksize > 0 && n <= |e.received| && e.data == []
    && e.after.SameButSense(v.(image := e.after.image)) && StatusOf(e, t)
    && Overwritten(v.image, e.after.image, off, e.received[..n])
    && (v.ro ==> n == e.stored == 0 && e.after.senseData == 0x072700 && e.io == [])
    && (!v.ro && !OnMedium(v, t.lba) ==> n == e.stored == 0 && e.after.senseData == 0x052100 && e.io == [])
    && (!v.ro && OnMedium(v, t.lba) ==>
          e.io == [IoRequest(t.lba % 0x1_0000_0000, size / v.blksize, true)])
    && (!v.ro && OnMedium(v, t.lba) && size == 0 ==> n == e.stored == 0 && e.after.senseData == 0)
    && (!v.ro && OnMedium(v, t.lba) && size > 0 ==>
          && e.stored <= n < e.stored + v.blksize && (!e.fault ==> n == e.stored)
          && (e.fault <==> e.after.senseData == 0x030c02) && (e.broken <==> e.after.senseData == 0x040800)
          && (Undisturbed(e) ==> WholeBlocks(e, size, |v.image| - off)))
  }

  // A WRITE that moves no data.
  lemma NothingWritten(e: Exchange, t: Transfer)
    requires Understood(e.cmd, t) && t.write && e.WriteEffect() && e.StatusRight() && e.io == e.cmd.Published()
    requires t.lba < e.cmd.before.numSectors <==> OnMedium(e.cmd.before, t.lba)
    requires e.cmd.before.ro || !OnMedium(e.cmd.before, t.lba) || e.cmd.verdict.size == 0
    requires e.data == []
    ensures WriteComesTo(e, t, e.cmd.verdict.size, 0)
  {
    assert e.received[..0] == [];
  }

  lemma SomethingWritten(e: Exchange, t: Transfer, n: nat)
    requires Understood(e.cmd, t) && t.write && e.StatusRight() && e.io == e.cmd.Published()
    requires t.lba < e.cmd.before.numSectors && OnMedium(e.cmd.before, t.lba) && !e.cmd.before.ro
    requires e.cmd.verdict.size > 0 && e.Landed(n) && e.data == []
    requires (e.fault <==> e.after.senseData == WRITE_ERROR)
             && (e.broken <==> e.after.senseData == COMMUNICATION_FAILURE)
    requires Undisturbed(e) ==> WholeBlocks(e, e.cmd.verdict.size, Space(e))
    ensures WriteComesTo(e, t, e.cmd.verdict.size, n)
  {
    PatchOverwrites(e.cmd.before.image, t.lba * e.cmd.before.blksize, e.received[..n]);
  }

  lemma HostWrite(e: Exchange, t: Transfer) returns (n: nat)
    requires e.Answered() && Proper(e.cmd, t) && t.write
    ensures WriteComesTo(e, t, Min(BytesOf(e.cmd, t), e.cmd.cbw.size), n)
  {
    ProperUnderstood(e.cmd, t);
    WritePassed(e);
    EveryBlock(e.cmd.before, t.lba);
    assert e.data == [];
    n := 0;
    if e.cmd.before.ro || !OnMedium(e.cmd.before, t.lba) || e.cmd.verdict.size == 0 {
      NothingWritten(e, t);
    } else {
      n := WhatWasWritten(e);
      WriteAccount(e);
      if Undisturbed(e) {
        WholeWrite(e);
        RoundDownFacts(0, Min(e.cmd.verdict.size, Space(e)), e.cmd.before.blksize);
      }
      SomethingWritten(e, t, n);
    }
  }

  // ------------------------------------------------------------ unit attention

  // It becomes the sense data; nothing else happens.
  predicate Told(e: Exchange) {
    && e.data == [] && e.stored == 0
    && e.after == e.cmd.before.(senseData := e.cmd.before.unitAttention, senseDataInfo := 0,
                                infoValid := false, unitAttention := 0)
  }

  lemma Waiting(h: Host, r: Request, c: Cdb, v: LunView)
    requires h.length <= CDB_SIZE && r.need <= h.length && v.unitAttention != 0 && c[0] != 0x12 && c[0] != 0x03
    requires r.size > 0 && h.size > 0 ==> h.dir == r.dir
    ensures var d := Check(h, r, c, Some(v));
            && d.reply != 0 && d.phaseError == (h.size < r.size)
            && d.unit == Some(v.(senseData := v.unitAttention, senseDataInfo := 0, infoValid := false,
                                 unitAttention := 0))
  {
  }

  lemma CheckFailed(e: Exchange)
    requires e.Answered() && e.cmd.present && e.cmd.verdict.reply != 0
    ensures e.cmd.verdict.unit == Some(e.after) && e.stored == 0 && e.data == [] && e.StatusRight()
  {
  }

  lemma TransferByte(c: Cdb, t: Transfer)
    requires Holds(c, t.Block())
    ensures c[0] != 0x12 && c[0] != 0x03
  {
    assert t.Block()[0] == c[..t.Length()][0];
  }

  // With a change of medium waiting, a READ or WRITE tells of it instead.
  lemma TransferTold(e: Exchange, t: Transfer)
    requires e.Answered() && Directed(e.cmd, t) && e.cmd.present && e.cmd.before.unitAttention != 0
    ensures Told(e) && e.csw.status == if e.cmd.cbw.size < BytesOf(e.cmd, t) then StatPhase else StatFail
  {
    TransferMeans(e.cmd.cdb, t, e.cmd.Unit());
    TransferByte(e.cmd.cdb, t);
    Waiting(e.cmd.Expects(), e.cmd.wants, e.cmd.cdb, e.cmd.before);
    CheckFailed(e);
  }

  // ------------------------------------------------------------ nothing there

  // Without its medium a command in form is refused for that.
  lemma Stopped(h: Host, r: Request, c: Cdb, v: LunView)
    requires h.length <= CDB_SIZE && r.need <= h.length && !StrayByte(c, h.length, r.mask) && MaskLun(c) == c
    requires v.unitAttention == NO_SENSE && r.medium && !v.IsOpen() && c[0] != 0x03
    requires r.size > 0 && h.size > 0 ==> h.dir == r.dir
    ensures var d := Check(h, r, c, Some(v));
            && d.reply != 0 && d.size == Min(r.size, h.size) && d.phaseError == (h.size < r.size) && d.cmnd == c
            && d.unit == Some(v.ClearSense().WithSense(MEDIUM_NOT_PRESENT))
  {
  }

  lemma NobodyThere(h: Host, r: Request, c: Cdb)
    requires h.length <= CDB_SIZE && r.need <= h.length && !StrayByte(c, h.length, r.mask) && MaskLun(c) == c
    requires r.size > 0 && h.size > 0 ==> h.dir == r.dir
    ensures var d := Check(h, r, c, None);
            && d.size == Min(r.size, h.size) && d.phaseError == (h.size < r.size)
            && (d.reply == 0 <==> c[0] == 0x12 || c[0] == 0x03)
  {
  }

  // With no medium in the drive a READ or WRITE is refused for that.
  lemma TransferLacks(e: Exchange, t: Transfer)
    requires e.Answered() && Directed(e.cmd, t) && e.cmd.present
    requires e.cmd.before.unitAttention == 0 && e.cmd.before.filp.None?
    ensures e.data == [] && e.stored == 0
    ensures e.after == e.cmd.before.(senseData := 0x023a00, senseDataInfo := 0, infoValid := false)
    ensures e.csw.status == if e.cmd.cbw.size < BytesOf(e.cmd, t) then StatPhase else StatFail
  {
    TransferMeans(e.cmd.cdb, t, e.cmd.Unit());
    TransferByte(e.cmd.cdb, t);
    Stopped(e.cmd.Expects(), e.cmd.wants, e.cmd.cdb, e.cmd.before);
    CheckFailed(e);
  }
}
