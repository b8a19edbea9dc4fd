// The logical unit: its medium, its sense data and its unit attention.
module Storage {
  import opened Base

  // Sense key, additional sense code and qualifier, packed as 0xKKAAQQ.
  type SenseCode = x: nat | x < 0x100_0000

  const NO_SENSE: SenseCode := 0
  const COMMUNICATION_FAILURE: SenseCode := 0x040800
  const INVALID_COMMAND: SenseCode := 0x052000
  const INVALID_FIELD_IN_CDB: SenseCode := 0x052400
  const LBA_OUT_OF_RANGE: SenseCode := 0x052100
  const UNIT_NOT_SUPPORTED: SenseCode := 0x052500
  const MEDIUM_NOT_PRESENT: SenseCode := 0x023a00
  const MEDIUM_REMOVAL_PREVENTED: SenseCode := 0x055302
  const NOT_READY_TO_READY: SenseCode := 0x062800
  const RESET_OCCURRED: SenseCode := 0x062900
  const SAVING_NOT_SUPPORTED: SenseCode := 0x053900
  const UNRECOVERED_READ_ERROR: SenseCode := 0x031100
  const WRITE_ERROR: SenseCode := 0x030c02
  const WRITE_PROTECTED: SenseCode := 0x072700

  // Error numbers of filp_open that fsg_lun_open treats specially.
  const EROFS := -30
  const EACCES := -13

  datatype FileKind = Regular | BlockDevice(blksize: nat) | OtherKind

  // What the file system answers about one path: the result of opening it
  // read-write and read-only (0 or an error), its kind, whether the file can be
  // read and written at all, and its size (negative if that cannot be found).
  datatype FileNode = FileNode(
    rwResult: int, roResult: int, kind: FileKind, canRead: bool, canWrite: bool,
    size: int, content: seq<byte>)
  {
    predicate Ok() {
      && rwResult <= 0 && roResult <= 0
      && (kind.BlockDevice? ==> BlockSize(kind.blksize))
      && (size >= 0 ==> size == |content|)
    }
  }

  // struct fsg_lun as a value, for specifications.
  datatype LunView = LunView(
    filp: Option<string>, image: seq<byte>, fileLength: nat, numSectors: nat, blksize: nat,
    initiallyRo: bool, ro: bool, removable: bool, cdrom: bool, prevent: bool,
    infoValid: bool, senseData: SenseCode, senseDataInfo: u32, unitAttention: SenseCode)
  {
    predicate IsOpen() {
      filp.Some?
    }

    // A medium that is in the drive has whole sectors, as many as its file has room for.
    predicate Well() {
      filp.Some? ==>
        BlockSize(blksize) && |image| == fileLength && AllSectors(cdrom, fileLength, blksize, numSectors)
    }

    // The same medium: everything do_read and do_write depend on.
    predicate SameMedium(v: LunView) {
      && filp == v.filp && image == v.image && fileLength == v.fileLength
      && numSectors == v.numSectors && blksize == v.blksize && ro == v.ro
    }

    // The same sense data.
    predicate SameSense(v: LunView) {
      senseData == v.senseData && senseDataInfo == v.senseDataInfo && infoValid == v.infoValid
    }

    // The same but for the sense data.
    predicate SameButSense(v: LunView) {
      && filp == v.filp && image == v.image && fileLength == v.fileLength
      && numSectors == v.numSectors && blksize == v.blksize
      && initiallyRo == v.initiallyRo && ro == v.ro && removable == v.removable && cdrom == v.cdrom
      && prevent == v.prevent && unitAttention == v.unitAttention
    }

    // No medium has come or gone.
    predicate SameDrive(v: LunView) {
      && filp == v.filp && unitAttention == v.unitAttention
      && (filp.Some? ==> SameMedium(v))
    }

    // A medium loaded or ejected leaves its unit attention.
    predicate Changed() {
      unitAttention == (if filp.Some? then NOT_READY_TO_READY else MEDIUM_NOT_PRESENT)
    }

    // What writers of the attributes can have made of v.  They leave the sense
    // data alone and never lock the door.
    predicate Touched(v: LunView) {
      var kept := SameSense(v) && removable == v.removable && cdrom == v.cdrom;
      kept && (SameDrive(v) || Changed()) && (prevent ==> v.prevent)
    }

    // What START STOP UNIT can have left of v when it has ejected the medium:
    // nothing, or a medium that was loaded afterwards.
    predicate Ejected(v: LunView) {
      var kept := SameSense(v) && removable == v.removable && cdrom == v.cdrom;
      kept && (filp.Some? ==> unitAttention == NOT_READY_TO_READY)
    }

    function WithSense(sense: SenseCode): LunView {
      this.(senseData := sense)
    }

    // Door, sense data and attention as an exception leaves them.
    function Restarted(): LunView {
      this.(prevent := false, senseData := NO_SENSE, senseDataInfo := 0, infoValid := false,
            unitAttention := NO_SENSE)
    }

    function ClearSense(): LunView {
      this.(senseData := NO_SENSE, senseDataInfo := 0, infoValid := false)
    }
  }

  // The block size fsg_lun_open gives a file.
  function BlockSizeOf(cdrom: bool, kind: FileKind): nat {
    if cdrom then 2048 else if kind.BlockDevice? then kind.blksize else 512
  }

  const MAX_CDROM_SECTORS: nat := 256 * 60 * 75

  function SectorsOf(cdrom: bool, size: nat, blksize: nat): nat
    requires blksize > 0
  {
    var n := size / blksize;
    if cdrom && n >= MAX_CDROM_SECTORS then MAX_CDROM_SECTORS - 1 else n
  }

  // So many sectors fit, and no more do; but a CD-ROM has at most 1151999.
  predicate AllSectors(cdrom: bool, size: nat, blksize: nat, n: nat) {
    && 0 < n && n * blksize <= size
    && (size < (n + 1) * blksize || (cdrom && n == 1151999)) && (cdrom ==> n <= 1151999)
  }

  // Whether fsg_lun_open opens the file read-only.
  function OpensReadOnly(initiallyRo: bool, f: FileNode): bool {
    initiallyRo || f.rwResult == EROFS || f.rwResult == EACCES
  }

  // The file can serve as a backing file of this unit.
  predicate Loadable(initiallyRo: bool, cdrom: bool, f: FileNode)
    requires f.Ok()
  {
    && (if OpensReadOnly(initiallyRo, f) then f.roResult == 0 else f.rwResult == 0)
    && !f.kind.OtherKind? && f.canRead && f.size >= 0
    && SectorsOf(cdrom, f.size, BlockSizeOf(cdrom, f.kind)) >= (if cdrom then 300 else 1)
  }

  // A trailing newline of a sysfs write is dropped.
  function StripNewline(buf: string): string {
    if |buf| > 0 && buf[|buf| - 1] == '\n' then buf[..|buf| - 1] else buf
  }

  // What is written is taken as it is, but for one newline at the end.
  lemma Written(name: string)
    ensures StripNewline(name + "\n") == name
    ensures name == "" || name[|name| - 1] != '\n' ==> StripNewline(name) == name
  {
  }

  class Lun {
    var filp: Option<string>
    var image: seq<byte>
    var fileLength: nat
    var numSectors: nat
    var blksize: nat
    var initiallyRo: bool
    var ro: bool
    var removable: bool
    const cdrom: bool
    var prevent: bool
    var infoValid: bool
    var senseData: SenseCode
    var senseDataInfo: u32
    var unitAttention: SenseCode

    // A medium was loaded and no command has reported the change yet.
    ghost var loadPending: bool

    function View(): LunView
      reads this`filp, this`image, this`fileLength, this`numSectors, this`blksize
      reads this`initiallyRo, this`ro, this`removable, this`prevent
      reads this`infoValid, this`senseData, this`senseDataInfo, this`unitAttention
    {
      LunView(filp, image, fileLength, numSectors, blksize, initiallyRo, ro, removable, cdrom,
              prevent, infoValid, senseData, senseDataInfo, unitAttention)
    }

    ghost predicate Valid()
      reads this`filp, this`image, this`fileLength, this`numSectors, this`blksize
      reads this`loadPending, this`unitAttention
    {
      var fits := BlockSize(blksize) && |image| == fileLength
                  && AllSectors(cdrom, fileLength, blksize, numSectors);
      var pending := filp.Some? && unitAttention == NOT_READY_TO_READY;
      (filp.Some? ==> fits) && (loadPending ==> pending)
    }

    // fsg_common_create_lun, before the first medium: a CD-ROM is read-only.
    constructor (removable: bool, cdrom: bool, ro: bool)
      ensures Valid() && filp == None && unitAttention == NO_SENSE && senseData == NO_SENSE
      ensures this.removable == removable && this.cdrom == cdrom
      ensures this.ro == this.initiallyRo == (cdrom || ro) && !prevent && !loadPending
    {
      filp, image, fileLength, numSectors, blksize := None, [], 0, 0, 1;
      this.initiallyRo, this.ro, this.removable, this.cdrom := cdrom || ro, cdrom || ro, removable, cdrom;
      prevent, infoValid, senseData, senseDataInfo, unitAttention := false, false, 0, 0, 0;
      loadPending := false;
    }

    // fsg_lun_close
    method Close()
      requires Valid()
      modifies this`filp, this`loadPending
      ensures Valid() && filp == None && !loadPending
    {
      filp := None;
      loadPending := false;
    }

    // The two filp_open attempts of fsg_lun_open.
    method FilpOpen(f: FileNode) returns (err: int, readOnly: bool)
      requires f.Ok()
      ensures err <= 0 && readOnly == OpensReadOnly(initiallyRo, f)
      ensures err == (if readOnly then f.roResult else f.rwResult)
    {
      readOnly := initiallyRo;
      err := 0;
      if !readOnly {
        err := f.rwResult;
        if err == EROFS || err == EACCES {
          readOnly := true;
        }
      }
      if readOnly {
        err := f.roResult;
      }
    }

    // The last part of fsg_lun_open: the old medium gives way to the new one.
    method Install(path: string, content: seq<byte>, size: nat, sectors: nat, readOnly: bool)
      requires Valid() && BlockSize(size) && AllSectors(cdrom, |content|, size, sectors)
      modifies this`filp, this`image, this`fileLength, this`numSectors, this`blksize, this`ro
      modifies this`loadPending
      ensures Valid() && !loadPending
      ensures filp == Some(path) && image == content && fileLength == |content| && blksize == size
      ensures numSectors == sectors && ro == readOnly
    {
      if filp.Some? {
        Close();
      }
      blksize, ro, filp, image, fileLength, numSectors :=
        size, readOnly, Some(path), content, |content|, sectors;
      loadPending := false;
    }

    // fsg_lun_open: read-write if possible, read-only if necessary, and no
    // change at all to the unit unless the file can be used.
    method Open(path: string, f: FileNode) returns (rc: int)
      requires Valid() && f.Ok()
      modifies this`filp, this`image, this`fileLength, this`numSectors, this`blksize, this`ro
      modifies this`loadPending
      ensures Valid() && rc <= 0
      ensures rc == 0 <==> Loadable(initiallyRo, cdrom, f)
      ensures rc != 0 ==> View() == old(View()) && loadPending == old(loadPending)
      ensures rc == 0 ==>
                && filp == Some(path) && image == f.content && fileLength == |image|
                && blksize == (if cdrom then 2048 else if f.kind.BlockDevice? then f.kind.blksize else 512)
                && AllSectors(cdrom, fileLength, blksize, numSectors)
                && ro == (OpensReadOnly(initiallyRo, f) || !f.canWrite)
                && !loadPending
    {
      var err, readOnly := FilpOpen(f);
      if err != 0 {
        return err;
      }
      if f.kind.OtherKind? || !f.canRead {
        return EINVAL;
      }
      if !f.canWrite {
        readOnly := true;
      }
      if f.size < 0 {
        return f.size;
      }
      var size := BlockSizeOf(cdrom, f.kind);
      var sectors := SectorsOf(cdrom, f.size, size);
      if sectors < (if cdrom then 300 else 1) {
        return ETOOSMALL;
      }
      SectorsFit(cdrom, f.size, size);
      Install(path, f.content, size, sectors, readOnly);
      rc := 0;
    }

    // _fsg_store_ro: the flag changes only while no file is attached.
    method StoreRo(value: bool) returns (rc: int)
      requires Valid()
      modifies this`ro, this`initiallyRo
      ensures Valid() && rc == (if filp.Some? then EBUSY else 0)
      ensures rc == 0 ==> ro == value && initiallyRo == value
      ensures rc != 0 ==> View() == old(View())
    {
      if filp.Some? {
        return EBUSY;
      }
      ro := value;
      initiallyRo := value;
      rc := 0;
    }

    // fsg_store_file once it has found the door unlocked: load the medium with this
    // name, or eject the one there is if the name is empty.  A loaded medium and an
    // ejected one each leave a unit attention.
    method Replace(path: string, f: FileNode) returns (rc: int)
      requires Valid() && f.Ok()
      modifies this`filp, this`image, this`fileLength, this`numSectors, this`blksize, this`ro
      modifies this`unitAttention, this`loadPending
      ensures Valid() && View().Touched(old(View()))
      ensures rc < 0 ==> View() == old(View()) && loadPending == old(loadPending)
      ensures rc >= 0 && path == "" ==>
                && filp == None && !loadPending
                && View() == old(View()).(filp := None,
                     unitAttention := if old(filp).Some? then MEDIUM_NOT_PRESENT else old(unitAttention))
      ensures rc >= 0 && path != "" ==>
                && filp == Some(path) && image == f.content
                && blksize == (if cdrom then 2048 else if f.kind.BlockDevice? then f.kind.blksize else 512)
                && ro == (OpensReadOnly(initiallyRo, f) || !f.canWrite)
                && unitAttention == NOT_READY_TO_READY && loadPending
      ensures rc >= 0 <==> path == "" || Loadable(initiallyRo, cdrom, f)
    {
      rc := 0;
      if path != "" {
        rc := Open(path, f);
        if rc == 0 {
          unitAttention := NOT_READY_TO_READY;
          loadPending := true;
        }
      } else if filp.Some? {
        Close();
        unitAttention := MEDIUM_NOT_PRESENT;
      }
    }

    // fsg_store_file
    method StoreFile(buf: string, f: FileNode) returns (rc: int)
      requires Valid() && f.Ok()
      modifies this`filp, this`image, this`fileLength, this`numSectors, this`blksize, this`ro
      modifies this`unitAttention, this`loadPending
      ensures Valid() && View().Touched(old(View()))
      ensures prevent && old(filp).Some? ==> rc == EBUSY
      ensures rc < 0 ==> View() == old(View()) && loadPending == old(loadPending)
      ensures rc >= 0 && StripNewline(buf) == "" ==>
                && filp == None && !loadPending
                && View() == old(View()).(filp := None,
                     unitAttention := if old(filp).Some? then MEDIUM_NOT_PRESENT else old(unitAttention))
      ensures rc >= 0 && StripNewline(buf) != "" ==>
                && Loadable(initiallyRo, cdrom, f)
                && filp == Some(StripNewline(buf)) && image == f.content
                && blksize == (if cdrom then 2048 else if f.kind.BlockDevice? then f.kind.blksize else 512)
                && ro == (OpensReadOnly(initiallyRo, f) || !f.canWrite)
                && unitAttention == NOT_READY_TO_READY && loadPending
      ensures !(prevent && old(filp).Some?) ==>
                (rc >= 0 <==> StripNewline(buf) == "" || Loadable(initiallyRo, cdrom, f))
    {
      if prevent && filp.Some? {
        return EBUSY;
      }
      rc := Replace(StripNewline(buf), f);
    }

    // What handle_exception does to each unit, except to abort a data phase.  A
    // load that no command has reported yet is forgotten.
    method Reset()
      requires Valid()
      modifies this`prevent, this`senseData, this`senseDataInfo, this`infoValid
      modifies this`unitAttention, this`loadPending
      ensures Valid() && !loadPending
      ensures View() == old(View()).(prevent := false, senseData := NO_SENSE, senseDataInfo := 0,
                                     infoValid := false, unitAttention := NO_SENSE)
    {
      prevent, senseData, senseDataInfo, infoValid := false, NO_SENSE, 0, false;
      unitAttention, loadPending := NO_SENSE, false;
    }

    // fsg_store_forced_eject: eject even if the host has locked the door.
    method ForcedEject(f: FileNode)
      requires Valid() && f.Ok()
      modifies this
      ensures Valid() && !loadPending
      ensures View() == old(View()).(filp := None, prevent := false,
                unitAttention := if old(filp).Some? then MEDIUM_NOT_PRESENT else old(unitAttention))
    {
      prevent := false;
      var rc := StoreFile("", f);
      assert StripNewline("") == "";
    }
  }

  // However many of them write.
  lemma TouchedTwice(u: LunView, v: LunView, w: LunView)
    requires v.Touched(u) && w.Touched(v)
    ensures w.Touched(u)
  {
  }

  // Every sector counted lies inside the file, and every whole block of the file is
  // counted, up to the largest CD-ROM.
  lemma SectorsFit(cdrom: bool, size: nat, blksize: nat)
    requires blksize > 0 && SectorsOf(cdrom, size, blksize) > 0
    ensures AllSectors(cdrom, size, blksize, SectorsOf(cdrom, size, blksize))
  {
    var n := size / blksize;
    DivMod(size, blksize);
    Distribute(blksize, n, 1);
    MulMonotone(SectorsOf(cdrom, size, blksize), n, blksize);
  }

  // In numbers: which errors make the open fall back to read-only, and how long a file
  // must at least be.
  lemma LoadableExactly(initiallyRo: bool, cdrom: bool, f: FileNode)
    requires f.Ok()
    ensures Loadable(initiallyRo, cdrom, f) <==>
              && (if initiallyRo || f.rwResult == -30 || f.rwResult == -13 then f.roResult == 0
                  else f.rwResult == 0)
              && (f.kind.Regular? || f.kind.BlockDevice?) && f.canRead
              && f.size >= (if cdrom then 614400 else if f.kind.BlockDevice? then f.kind.blksize else 512)
  {
    if f.size >= 0 {
      DivMod(f.size, BlockSizeOf(cdrom, f.kind));
    }
  }

  // A floppy has 2880 sectors.
  lemma FloppySectors(n: nat)
    requires AllSectors(false, 1474560, 512, n)
    ensures n == 2880
  {
  }

  lemma MulMonotone(a: nat, b: nat, c: nat)
    requires a <= b
    ensures a * c <= b * c
  {
  }
}
