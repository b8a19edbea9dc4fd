// The mount controller and the sysfs back end, on top of the unit's attributes.
//
// mount and eject are coroutines: others run while a mount waits for the host to
// notice that the medium is gone.  A mount is therefore two segments.  The methods
// of the class are proved against functions on the state as a value, and the results
// are about runs of these.
module Controller {
  import opened Base
  import opened Storage

  const FLOPPY_SIZE: nat := 1474560

  type Files = map<string, seq<byte>>

  datatype FloppySet = FloppySet(name: string, disks: seq<string>, readOnly: bool)

  // MountedImage, with the source kept beside the backing file.
  datatype Mounted = Mounted(source: string, backing: string, readOnly: bool, session: bool)

  datatype Error = NotInSet | NoSuchFile | TooLarge

  // What an operation came to.  Broken: a write to an attribute failed.  Started: a
  // mount is inside the delay.
  datatype Outcome =
    | Rejected(error: Error)
    | Broken
    | Started(p: Mounted)
    | Landed(m: Mounted)
    | Ejected
    | HostTook
    | Nothing

  // How the file system answers when a path is opened: the errors of opening it
  // read-write and read-only, and whether it can be read and written at all.
  datatype Access = Access(rw: int, ro: int, canRead: bool, canWrite: bool)

  // The unit as far as the controller has to do with it.
  datatype Slot = Slot(file: Option<string>, ro: bool, content: seq<byte>, prevent: bool)

  // The controller, the files, the unit, and the mounts inside the delay.
  datatype World = World(
    files: Files, link: string, current: Option<Mounted>, slot: Slot, delayed: seq<Mounted>)

  // What can happen next.  `asleep` is what the host does to the door while the back
  // end waits for the unit to come free.
  datatype Op =
    | Mount(set_: FloppySet, disk: string, session: bool, asleep: Option<bool>)
    | Finish(i: nat, asleep: Option<bool>)
    | Eject
    | HostEject
    | HostPrevent(on: bool)

  function Zeros(n: nat): (z: seq<byte>)
    ensures |z| == n
  {
    seq(n, i => 0)
  }

  // The source, extended with zeros to the size of a floppy.
  function Padded(s: seq<byte>): (r: seq<byte>)
    requires |s| <= FLOPPY_SIZE
    ensures |r| == FLOPPY_SIZE && s <= r
    ensures |s| == FLOPPY_SIZE ==> r == s
  {
    s + Zeros(FLOPPY_SIZE - |s|)
  }

  // A path that can be written to lun0_file and read back as it is.
  predicate Plain(path: string) {
    path != "" && path[|path| - 1] != '\n'
  }

  lemma PlainPaths(path: string)
    ensures Plain(path) ==> StripNewline(path) == path
    ensures StripNewline("\n") == ""
  {
  }

  ghost function WritableDisks(library: seq<FloppySet>): set<string> {
    set s, d | s in library && !s.readOnly && d in s.disks :: d
  }

  // ------------------------------------------------------ the state as a value

  // Where the session files and the blank image are, and who may open what.
  datatype Setup = Setup(
    sessionImage: string, paddedImage: string, blank: string, access: map<string, Access>)
  {
    predicate Ok() {
      Plain(sessionImage) && Plain(paddedImage) && sessionImage != paddedImage
    }

    // A path inside the session directory.
    predicate InSession(path: string) {
      path == sessionImage || path == paddedImage
    }

    predicate OpOk(op: Op) {
      op.Mount? ==> Plain(op.disk) && !InSession(op.disk)
    }

    // What the file system says about a path.
    function Node(files: Files, path: string): (f: FileNode)
      ensures f.Ok()
    {
      if path in files && path in access then
        var a := access[path];
        FileNode(Min(a.rw, 0), Min(a.ro, 0), Regular, a.canRead, a.canWrite, |files[path]|, files[path])
      else FileNode(-2, -2, Regular, false, false, -1, [])
    }

    // The file may be written, so that only the flag can make the unit read-only.
    predicate CanWrite(path: string) {
      path in access && access[path].canWrite && access[path].rw != EROFS && access[path].rw != EACCES
    }

    // The file can be attached to a unit with this flag.
    predicate CanAttach(files: Files, path: string, ro: bool) {
      path in files && Loadable(ro, false, Node(files, path))
    }

    // The backing file a mount uses.
    function BackingOf(set_: FloppySet, disk: string, session: bool, size: nat): string {
      if session then sessionImage
      else if size < FLOPPY_SIZE && set_.readOnly then paddedImage
      else disk
    }

    // _cleanup_session
    function Cleaned(files: Files): Files {
      map p | p in files && !InSession(p) :: files[p]
    }

    // The files once the backing file has been made from the source.
    function Prepared(files: Files, backing: string, disk: string): Files
      requires disk in files && |files[disk]| <= FLOPPY_SIZE
    {
      (if InSession(backing) then Cleaned(files) else files)[backing := Padded(files[disk])]
    }

    // configure_lun(file=None): refused only if the host has locked the door.
    function Detach(s: Slot): (Slot, bool) {
      if s.prevent && s.file.Some? then (s, false) else (s.(file := None), true)
    }

    // configure_lun with a file: detach, set the flag, attach.
    function Attach(s: Slot, files: Files, path: string, ro: bool, asleep: Option<bool>): (Slot, bool) {
      if !Detach(s).1 then (s, false)
      else
        var prevent := if asleep.Some? then asleep.value else s.prevent;
        if CanAttach(files, path, ro) then
          (Slot(Some(path), ro || !CanWrite(path), files[path], prevent), true)
        else (s.(file := None, ro := ro, prevent := prevent), false)
    }

    // The second half of mount.
    function Put(w: World, p: Mounted, asleep: Option<bool>): (World, Outcome) {
      var (slot, ok) := Attach(w.slot, w.files, p.backing, p.readOnly, asleep);
      var w' := w.(link := p.backing, slot := slot);
      if ok then (w'.(current := Some(p)), Landed(p)) else (w', Broken)
    }

    // mount, up to the delay, or to the end if nothing is mounted yet.
    function Begin(w: World, set_: FloppySet, disk: string, session: bool, asleep: Option<bool>): (World, Outcome) {
      if disk !in set_.disks then (w, Rejected(NotInSet))
      else if disk !in w.files then (w, Rejected(NoSuchFile))
      else if |w.files[disk]| > FLOPPY_SIZE then (w, Rejected(TooLarge))
      else
        var backing := BackingOf(set_, disk, session, |w.files[disk]|);
        var p := Mounted(disk, backing, set_.readOnly && !session, session);
        var w' := w.(files := Prepared(w.files, backing, disk));
        if w.current.Some? then
          var (slot, ok) := Detach(w.slot);
          var w'' := w'.(link := blank, slot := slot);
          if ok then (w''.(delayed := w.delayed + [p]), Started(p)) else (w'', Broken)
        else Put(w', p, asleep)
    }

    function EjectNow(w: World): (World, Outcome) {
      var (slot, ok) := Detach(w.slot);
      var w' := w.(link := blank, slot := slot);
      if ok then (w'.(files := Cleaned(w.files), current := None), Ejected) else (w', Broken)
    }

    // START STOP UNIT from the host, which the controller is not told of.
    function HostEjects(w: World): (World, Outcome) {
      if w.slot.prevent || w.slot.file.None? then (w, Nothing)
      else (w.(slot := w.slot.(file := None)), HostTook)
    }

    function Step(w: World, op: Op): (World, Outcome) {
      match op
      case Mount(set_, disk, session, asleep) => Begin(w, set_, disk, session, asleep)
      case Finish(i, asleep) =>
        if i < |w.delayed| then
          Put(w.(delayed := w.delayed[..i] + w.delayed[i + 1..]), w.delayed[i], asleep)
        else (w, Nothing)
      case Eject => EjectNow(w)
      case HostEject => HostEjects(w)
      case HostPrevent(on) => (w.(slot := w.slot.(prevent := on)), Nothing)
    }

    // Any interleaving of mounts, ejects and the host.
    function Run(w: World, ops: seq<Op>): (r: (World, seq<Outcome>))
      ensures |r.1| == |ops|
    {
      if ops == [] then (w, [])
      else
        var (w', outcomes) := Run(w, ops[..|ops| - 1]);
        var (w'', o) := Step(w', ops[|ops| - 1]);
        (w'', outcomes + [o])
    }

    predicate AllOk(ops: seq<Op>) {
      forall i | 0 <= i < |ops| :: OpOk(ops[i])
    }

    // ------------------------------------------------------ agreement

    // The unit, its read-only flag and current.img all show what the controller
    // believes is mounted.
    predicate Agrees(w: World) {
      match w.current
      case None => w.slot.file == None && w.link == blank
      case Some(m) =>
        && w.slot.file == Some(m.backing) && w.link == m.backing
        && w.slot.ro == (m.readOnly || !CanWrite(m.backing))
    }

    // The last operation that did anything went well.
    function Good(outcomes: seq<Outcome>): bool {
      if outcomes == [] then true
      else
        match outcomes[|outcomes| - 1]
        case Landed(_) => true
        case Ejected => true
        case Rejected(_) => Good(outcomes[..|outcomes| - 1])
        case Nothing => Good(outcomes[..|outcomes| - 1])
        case _ => false
    }

    // An eject is refused exactly if the host has locked the door on a medium.  Then only
    // the link has changed; otherwise the drive is empty, the controller knows, and of
    // the files only those of the session are gone.
    lemma EjectEnds(w: World)
      ensures var (w', o) := EjectNow(w);
              && w'.link == blank && w'.delayed == w.delayed
              && (if w.slot.prevent && w.slot.file.Some? then
                    o == Broken && w'.slot == w.slot && w'.current == w.current && w'.files == w.files
                  else
                    && o == Outcome.Ejected && w'.slot == w.slot.(file := None) && w'.current == None
                    && forall p :: p in w'.files
                                   <==> p in w.files && p != sessionImage && p != paddedImage)
      ensures forall p | p in EjectNow(w).0.files :: EjectNow(w).0.files[p] == w.files[p]
    {
    }

    // When a mount goes on, the link is set and no file changes, whatever comes of it.
    // Behind a locked door all else stays as it was; if the file cannot be attached the
    // drive is left empty.
    lemma PutEnds(w: World, p: Mounted, asleep: Option<bool>)
      ensures var (w', o) := Put(w, p, asleep);
              && w'.link == p.backing && w'.files == w.files && w'.delayed == w.delayed
              && (if w.slot.prevent && w.slot.file.Some? then
                    o == Broken && w'.slot == w.slot && w'.current == w.current
                  else if CanAttach(w.files, p.backing, p.readOnly) then
                    && o == Landed(p) && w'.current == Some(p) && w'.slot.file == Some(p.backing)
                    && w'.slot.content == w.files[p.backing]
                  else o == Broken && w'.slot.file == None && w'.current == w.current)
    {
    }

    // A mount that is refused outright changes nothing; one that finds the drive in use
    // leaves it empty and waits, unless the host has locked the door on the medium, which
    // then stays.
    lemma BeginEnds(w: World, set_: FloppySet, disk: string, session: bool, asleep: Option<bool>)
      ensures var (w', o) := Begin(w, set_, disk, session, asleep);
              if disk !in set_.disks then o == Rejected(NotInSet) && w' == w
              else if disk !in w.files then o == Rejected(NoSuchFile) && w' == w
              else if |w.files[disk]| > 1474560 then o == Rejected(TooLarge) && w' == w
              else if w.current.None? then w'.delayed == w.delayed && (o.Landed? || o.Broken?)
              else
                && w'.link == blank && w'.current == w.current
                && (if w.slot.prevent && w.slot.file.Some? then
                      o == Broken && w'.slot == w.slot && w'.delayed == w.delayed
                    else o.Started? && w'.slot == w.slot.(file := None) && w'.delayed == w.delayed + [o.p])
    {
    }

    lemma StepAgrees(w: World, op: Op)
      ensures var (w', o) := Step(w, op);
              && (o.Landed? || o.Ejected? ==> Agrees(w'))
              && (o.Rejected? || o.Nothing? ==> (Agrees(w') <==> Agrees(w)))
              && (o.HostTook? && Agrees(w) ==> !Agrees(w'))
              && (o.Started? ==> w'.delayed != [])
              && (o.Rejected? || o.Nothing? || o.HostTook? ==> w'.delayed == w.delayed)
    {
    }

    // Whenever the last effective operation went well, everything agrees.
    lemma {:induction false} Agreement(w: World, ops: seq<Op>)
      requires Agrees(w) && Good(Run(w, ops).1)
      ensures Agrees(Run(w, ops).0)
      decreases |ops|
    {
      if ops != [] {
        var front := ops[..|ops| - 1];
        var (w', outcomes) := Run(w, front);
        StepAgrees(w', ops[|ops| - 1]);
        assert Run(w, ops).1[..|front|] == outcomes;
        if Good(outcomes) {
          Agreement(w, front);
        }
      }
    }

    // The mounts and ejects have returned normally, and the host has left the medium
    // alone.
    predicate Normal(outcomes: seq<Outcome>) {
      forall i | 0 <= i < |outcomes| :: !outcomes[i].Broken? && !outcomes[i].HostTook?
    }

    lemma {:induction false} GoodOrDelayed(w: World, ops: seq<Op>)
      requires Normal(Run(w, ops).1)
      ensures Good(Run(w, ops).1) || Run(w, ops).0.delayed != []
      decreases |ops|
    {
      if ops != [] {
        var front := ops[..|ops| - 1];
        var (w', outcomes) := Run(w, front);
        StepAgrees(w', ops[|ops| - 1]);
        assert Run(w, ops).1[..|front|] == outcomes;
        forall i | 0 <= i < |outcomes|
          ensures !outcomes[i].Broken? && !outcomes[i].HostTook?
        {
          assert Run(w, ops).1[i] == outcomes[i];
        }
        GoodOrDelayed(w, front);
        assert !Run(w, ops).1[|front|].Broken? && !Run(w, ops).1[|front|].HostTook?;
      }
    }

    // Mounts and ejects that return normally, interleaved in any way at the delay:
    // whenever no mount is inside it, everything agrees.
    lemma NobodyWaiting(w: World, ops: seq<Op>)
      requires Agrees(w) && Normal(Run(w, ops).1) && Run(w, ops).0.delayed == []
      ensures Agrees(Run(w, ops).0)
    {
      GoodOrDelayed(w, ops);
      Agreement(w, ops);
    }

    // ------------------------------------------------------ what the unit holds

    predicate Accepted(w: World, op: Op) {
      op.Mount? && op.disk in op.set_.disks && op.disk in w.files && |w.files[op.disk]| <= FLOPPY_SIZE
    }

    // The backing file of an accepted mount.
    function Backing(w: World, op: Op): string
      requires Accepted(w, op)
    {
      BackingOf(op.set_, op.disk, op.session, |w.files[op.disk]|)
    }

    // The operation makes this file anew, or cleans it up.
    predicate Touches(w: World, op: Op, path: string) {
      || (Accepted(w, op) && (Backing(w, op) == path || (InSession(Backing(w, op)) && InSession(path))))
      || (Step(w, op).1.Ejected? && InSession(path))
    }

    // It leaves these bytes in it.
    predicate Leaves(w: World, op: Op, path: string, c: seq<byte>) {
      Accepted(w, op) && Backing(w, op) == path && Padded(w.files[op.disk]) == c
    }

    predicate Holds(files: Files, path: string, c: seq<byte>) {
      path in files && files[path] == c
    }

    lemma StepFiles(w: World, op: Op, path: string, c: seq<byte>)
      ensures Touches(w, op, path) ==> (Holds(Step(w, op).0.files, path, c) <==> Leaves(w, op, path, c))
      ensures !Touches(w, op, path) ==> (Holds(Step(w, op).0.files, path, c) <==> Holds(w.files, path, c))
    {
    }

    // The last of these operations that touches the file, if any does, leaves these
    // bytes in it.
    predicate LeftAtLast(w: World, ops: seq<Op>, path: string, c: seq<byte>) {
      if ops == [] then true
      else
        var front, op := ops[..|ops| - 1], ops[|ops| - 1];
        var w' := Run(w, front).0;
        if Touches(w', op, path) then Leaves(w', op, path, c) else LeftAtLast(w, front, path, c)
    }

    lemma {:induction false} HoldsExactly(w: World, ops: seq<Op>, path: string, c: seq<byte>)
      requires Holds(w.files, path, c)
      ensures Holds(Run(w, ops).0.files, path, c) <==> LeftAtLast(w, ops, path, c)
      decreases |ops|
    {
      if ops != [] {
        HoldsExactly(w, ops[..|ops| - 1], path, c);
        StepFiles(Run(w, ops[..|ops| - 1]).0, ops[|ops| - 1], path, c);
      }
    }

    // The file system lets the file be opened the way the flag demands.
    predicate Openable(path: string, ro: bool) {
      && path in access && access[path].canRead
      && (if ro || access[path].rw == EROFS || access[path].rw == EACCES then access[path].ro >= 0
          else access[path].rw >= 0)
    }

    lemma FloppyAttaches(files: Files, path: string, ro: bool)
      requires path in files && |files[path]| == FLOPPY_SIZE
      ensures CanAttach(files, path, ro) <==> Openable(path, ro)
    {
    }

    // A mount that has waited lands with the bytes its backing file had when it began
    // exactly if the door is open, the file can be opened, and the last operation
    // that made the file anew or cleaned it up in the meantime, if there was one,
    // made it of the same bytes.
    lemma FinishExactly(w: World, ops: seq<Op>, i: nat, p: Mounted, c: seq<byte>, asleep: Option<bool>)
      requires Holds(w.files, p.backing, c) && |c| == FLOPPY_SIZE
      requires i < |Run(w, ops).0.delayed| && Run(w, ops).0.delayed[i] == p
      ensures var w' := Run(w, ops).0;
              var (after, o) := Step(w', Finish(i, asleep));
              o == Landed(p) && after.slot.content == c
              <==> && !(w'.slot.prevent && w'.slot.file.Some?) && Openable(p.backing, p.readOnly)
                   && LeftAtLast(w, ops, p.backing, c)
    {
      HoldsExactly(w, ops, p.backing, c);
      var w' := Run(w, ops).0;
      if Holds(w'.files, p.backing, c) {
        FloppyAttaches(w'.files, p.backing, p.readOnly);
      }
    }

    // What a mount that starts finds at its backing file when it starts.
    lemma StartsPadded(w: World, op: Op)
      requires Step(w, op).1.Started?
      ensures Accepted(w, op)
      ensures var (w', o) := Step(w, op);
              Holds(w'.files, o.p.backing, Padded(w.files[op.disk]))
              && w'.delayed == w.delayed + [o.p] && o.p.source == op.disk
    {
    }

    // A mount with nobody else about lands exactly if the disk is one of the set and not
    // too large, the door is open and the backing file can be opened; and the unit then
    // holds the source and zeros.
    lemma MountAlone(w: World, op: Op, asleep: Option<bool>)
      requires op.Mount? && w.delayed == []
      ensures var (w1, o1) := Step(w, op);
              var (w2, o2) := if o1.Started? then Step(w1, Finish(0, asleep)) else (w1, o1);
              && (o2.Landed? <==>
                    && Accepted(w, op) && !(w.slot.prevent && w.slot.file.Some?)
                    && Openable(Backing(w, op), op.set_.readOnly && !op.session))
              && (o2.Landed? ==>
                    && w2.slot.content == Padded(w.files[op.disk]) && |w2.slot.content| == 1474560
                    && w2.slot.file == Some(Backing(w, op)) && Agrees(w2)
                    && (op.set_.readOnly && !op.session ==> w2.slot.ro)
                    && w2.current.Some? && w2.current.value.source == op.disk)
    {
      if Accepted(w, op) {
        var backing := Backing(w, op);
        FloppyAttaches(Prepared(w.files, backing, op.disk), backing, op.set_.readOnly && !op.session);
      }
    }

    // A backing file that waits to be attached is as large as a floppy.
    predicate Sized(w: World) {
      forall i | 0 <= i < |w.delayed| ::
        w.delayed[i].backing in w.files ==> |w.files[w.delayed[i].backing]| == FLOPPY_SIZE
    }

    lemma StepSized(w: World, op: Op)
      requires Sized(w)
      ensures Sized(Step(w, op).0)
      ensures Step(w, op).1.Landed? ==> |Step(w, op).0.slot.content| == FLOPPY_SIZE
    {
    }

    // However mounts overlap, what lands is a whole floppy.
    lemma {:induction false} LandsWhole(w: World, ops: seq<Op>)
      requires Sized(w)
      ensures Sized(Run(w, ops).0)
      ensures ops != [] && Run(w, ops).1[|ops| - 1].Landed? ==> |Run(w, ops).0.slot.content| == 1474560
      decreases |ops|
    {
      if ops != [] {
        LandsWhole(w, ops[..|ops| - 1]);
        StepSized(Run(w, ops[..|ops| - 1]).0, ops[|ops| - 1]);
      }
    }

    // ------------------------------------------------------ the sources

    // Outside the session directory files change only by being extended with zeros to
    // the size of a floppy, and only these.
    predicate KeptOrPadded(first: Files, last: Files, writable: set<string>) {
      forall p | p in first && !InSession(p) ::
        && p in last
        && (last[p] == first[p]
            || (p in writable && |first[p]| <= FLOPPY_SIZE && last[p] == Padded(first[p])))
    }

    lemma PaddedOnce(first: Files, mid: Files, last: Files, writable: set<string>)
      requires KeptOrPadded(first, mid, writable) && KeptOrPadded(mid, last, writable)
      ensures KeptOrPadded(first, last, writable)
    {
      forall p | p in first && !InSession(p)
        ensures p in last
        ensures last[p] == first[p]
                || (p in writable && |first[p]| <= FLOPPY_SIZE && last[p] == Padded(first[p]))
      {
        if mid[p] != first[p] {
          assert |mid[p]| == FLOPPY_SIZE;
        }
      }
    }

    predicate FromLibrary(ops: seq<Op>, library: seq<FloppySet>) {
      forall i | 0 <= i < |ops| :: ops[i].Mount? ==> ops[i].set_ in library
    }

    lemma StepKeepsSources(w: World, op: Op, library: seq<FloppySet>)
      requires op.Mount? ==> op.set_ in library
      ensures KeptOrPadded(w.files, Step(w, op).0.files, WritableDisks(library))
    {
      if Accepted(w, op) && !InSession(Backing(w, op)) && |w.files[op.disk]| < FLOPPY_SIZE {
        assert op.disk in WritableDisks(library);
      }
    }

    // However mounts and ejects of sets in a library overlap, a disk that only
    // read-only sets have is never changed, and a writable one only by zeros.
    lemma {:induction false} SourcesKept(w: World, ops: seq<Op>, library: seq<FloppySet>)
      requires FromLibrary(ops, library)
      ensures KeptOrPadded(w.files, Run(w, ops).0.files, WritableDisks(library))
      decreases |ops|
    {
      if ops != [] {
        var front := ops[..|ops| - 1];
        var w' := Run(w, front).0;
        SourcesKept(w, front, library);
        StepKeepsSources(w', ops[|ops| - 1], library);
        PaddedOnce(w.files, w'.files, Run(w, ops).0.files, WritableDisks(library));
      }
    }

    // ------------------------------------------------------ two mounts that overlap

    // The mounts of a and then of b begin, and a's is the one that goes on.
    function Overlap(set_: FloppySet, a: string, b: string, session: bool): seq<Op> {
      [Mount(set_, a, session, None), Mount(set_, b, session, None), Finish(0, None)]
    }

    // Both make their backing file at the same path.
    predicate SharePath(w: World, set_: FloppySet, a: string, b: string, session: bool) {
      && a in set_.disks && b in set_.disks && a in w.files && b in w.files
      && |w.files[a]| <= FLOPPY_SIZE && |w.files[b]| <= FLOPPY_SIZE
      && !InSession(a) && !InSession(b)
      && (session || (set_.readOnly && |w.files[a]| < FLOPPY_SIZE && |w.files[b]| < FLOPPY_SIZE))
    }

    lemma BothStart(w: World, set_: FloppySet, a: string, b: string, session: bool)
      requires sessionImage != paddedImage && w.current.Some? && !w.slot.prevent && w.delayed == []
      requires SharePath(w, set_, a, b, session)
      ensures var (w1, o1) := Step(w, Mount(set_, a, session, None));
              var (w2, o2) := Step(w1, Mount(set_, b, session, None));
              var path := if session then sessionImage else paddedImage;
              && o1 == Started(Mounted(a, path, !session && set_.readOnly, session)) && o2.Started?
              && |w2.delayed| == 2 && w2.delayed[0] == o1.p && !w2.slot.prevent
              && Holds(w2.files, path, Padded(w.files[b]))
    {
    }

    // With something mounted and the door open, all three go well, and the controller
    // believes in disk a while the unit holds disk b.
    lemma OverlapsShare(w: World, set_: FloppySet, a: string, b: string, session: bool)
      requires sessionImage != paddedImage && w.current.Some? && !w.slot.prevent && w.delayed == []
      requires SharePath(w, set_, a, b, session)
      requires Openable(if session then sessionImage else paddedImage, !session)
      ensures var (w', outcomes) := Run(w, Overlap(set_, a, b, session));
              && outcomes[2].Landed? && Normal(outcomes)
              && w'.current.Some? && w'.current.value.source == a
              && w'.slot.content == Padded(w.files[b])
    {
      var ops := Overlap(set_, a, b, session);
      var (w1, o1) := Step(w, ops[0]);
      var (w2, o2) := Step(w1, ops[1]);
      BothStart(w, set_, a, b, session);
      FloppyAttaches(w2.files, w2.delayed[0].backing, w2.delayed[0].readOnly);
      RunThree(w, ops[0], ops[1], ops[2]);
    }

    lemma RunSnoc(w: World, ops: seq<Op>, op: Op)
      ensures var (w', outcomes) := Run(w, ops);
              Run(w, ops + [op]) == (Step(w', op).0, outcomes + [Step(w', op).1])
    {
      assert (ops + [op])[..|ops|] == ops;
    }

    lemma RunThree(w: World, a: Op, b: Op, c: Op)
      ensures var (w1, o1) := Step(w, a);
              var (w2, o2) := Step(w1, b);
              var (w3, o3) := Step(w2, c);
              Run(w, [a, b, c]) == (w3, [] + [o1] + [o2] + [o3])
    {
      RunSnoc(w, [], a);
      RunSnoc(w, [a], b);
      RunSnoc(w, [a, b], c);
      assert [] + [a] == [a] && [a] + [b] == [a, b] && [a, b] + [c] == [a, b, c];
    }
  }

  // ------------------------------------------------------ the objects

  class GadgetController {
    const lun: Lun
    const setup: Setup

    var files: Files
    var link: string                 // the target of current.img
    var current: Option<Mounted>
    var delayed: seq<Mounted>        // the mounts that sleep

    ghost predicate Valid()
      reads lun
    {
      lun.Valid() && !lun.cdrom && setup.Ok()
    }

    function Held(): Slot
      reads lun
    {
      Slot(lun.filp, lun.ro, lun.image, lun.prevent)
    }

    function Now(): World
      reads this, lun
    {
      World(files, link, current, Held(), delayed)
    }

    constructor (lun: Lun, files: Files, setup: Setup)
      requires lun.Valid() && !lun.cdrom && lun.filp == None && setup.Ok()
      ensures Valid() && Now() == World(files, setup.blank, None, Held(), [])
      ensures this.lun == lun && this.setup == setup && setup.Agrees(Now())
    {
      this.lun, this.files, this.setup := lun, files, setup;
      link, current, delayed := setup.blank, None, [];
    }

    // _update_current_symlink
    method UpdateLink(file: Option<string>)
      modifies this`link
      ensures link == (if file.Some? then file.value else setup.blank)
    {
      link := if file.Some? then file.value else setup.blank;
    }

    // A newline written to lun0_file.
    method DetachLun() returns (ok: bool)
      requires Valid()
      modifies lun
      ensures Valid() && (Held(), ok) == setup.Detach(old(Held()))
    {
      PlainPaths("");
      var rc := lun.StoreFile("\n", setup.Node(files, ""));
      ok := rc >= 0;
    }

    // The read-only flag and then the file.  The flag never meets an attached file.
    method AttachLun(path: string, ro: bool) returns (ok: bool)
      requires Valid() && Plain(path) && lun.filp == None
      modifies lun
      ensures Valid() && ok == setup.CanAttach(files, path, ro) && lun.prevent == old(lun.prevent)
      ensures Held() == if ok then Slot(Some(path), ro || !setup.CanWrite(path), files[path], lun.prevent)
                        else old(Held()).(ro := ro)
    {
      var rc := lun.StoreRo(ro);
      assert rc == 0;
      PlainPaths(path);
      rc := lun.StoreFile(path, setup.Node(files, path));
      ok := rc >= 0;
    }

    // SysfsBackend.configure_lun: symlink, detach, read-only flag, attach.
    method ConfigureLun(file: Option<string>, ro: bool, asleep: Option<bool>) returns (ok: bool)
      requires Valid() && (file.Some? ==> Plain(file.value))
      modifies this`link, lun
      ensures Valid() && link == (if file.Some? then file.value else setup.blank)
      ensures (Held(), ok) == if file.None? then setup.Detach(old(Held()))
                              else setup.Attach(old(Held()), files, file.value, ro, asleep)
    {
      UpdateLink(file);
      ok := DetachLun();
      if !ok || file.None? {
        return;
      }
      if asleep.Some? {
        lun.prevent := asleep.value;
      }
      ok := AttachLun(file.value, ro);
    }

    // ---------------------------------------------------------- files

    // _cleanup_session
    method CleanupSession()
      modifies this`files
      ensures files == setup.Cleaned(old(files))
    {
      files := map p | p in files && !setup.InSession(p) :: files[p];
    }

    method CopyFile(from: string, to: string)
      requires from in files
      modifies this`files
      ensures files == old(files)[to := old(files)[from]]
    {
      files := files[to := files[from]];
    }

    // _pad_to_full
    method PadToFull(path: string)
      requires path in files && |files[path]| <= FLOPPY_SIZE
      modifies this`files
      ensures files == old(files)[path := Padded(old(files)[path])]
    {
      files := files[path := files[path] + Zeros(FLOPPY_SIZE - |files[path]|)];
    }

    // Copy and pad as the mode of the mount demands.
    method PrepareBacking(set_: FloppySet, disk: string, session: bool) returns (backing: string)
      requires disk in files && |files[disk]| <= FLOPPY_SIZE && !setup.InSession(disk) && setup.Ok()
      modifies this`files
      ensures backing == setup.BackingOf(set_, disk, session, |old(files)[disk]|)
      ensures files == setup.Prepared(old(files), backing, disk)
    {
      var size := |files[disk]|;
      backing := disk;
      if session || (size < FLOPPY_SIZE && set_.readOnly) {
        CleanupSession();
        backing := if session then setup.sessionImage else setup.paddedImage;
        CopyFile(disk, backing);
      }
      if size < FLOPPY_SIZE {
        PadToFull(backing);
      }
    }

    // ---------------------------------------------------------- mount and eject

    // The backing file goes to the unit and the mount is recorded.
    method AttachFor(p: Mounted, asleep: Option<bool>) returns (o: Outcome)
      requires Valid() && Plain(p.backing)
      modifies this`link, this`current, lun
      ensures Valid() && (Now(), o) == setup.Put(old(Now()), p, asleep)
    {
      var ok := ConfigureLun(Some(p.backing), p.readOnly, asleep);
      if !ok {
        return Broken;
      }
      current := Some(p);
      o := Landed(p);
    }

    // The first segment of mount: up to the delay, or to the end if nothing is
    // mounted yet.
    method MountBegin(set_: FloppySet, disk: string, session: bool, asleep: Option<bool>) returns (o: Outcome)
      requires Valid() && Plain(disk) && !setup.InSession(disk)
      modifies this, lun
      ensures Valid() && (Now(), o) == setup.Begin(old(Now()), set_, disk, session, asleep)
      ensures o.Started? ==> Plain(o.p.backing)
    {
      if disk !in set_.disks {
        return Rejected(NotInSet);
      }
      if disk !in files {
        return Rejected(NoSuchFile);
      }
      if |files[disk]| > FLOPPY_SIZE {
        return Rejected(TooLarge);
      }
      var backing := PrepareBacking(set_, disk, session);
      var p := Mounted(disk, backing, set_.readOnly && !session, session);
      if current.Some? {
        var ok := ConfigureLun(None, false, None);
        if !ok {
          return Broken;
        }
        delayed := delayed + [p];
        o := Started(p);
      } else {
        o := AttachFor(p, asleep);
      }
    }

    // The second segment of mount, after the delay.
    method MountFinish(i: nat, asleep: Option<bool>) returns (o: Outcome)
      requires Valid() && i < |delayed| && Plain(delayed[i].backing)
      modifies this, lun
      ensures Valid() && (Now(), o) == setup.Step(old(Now()), Finish(i, asleep))
    {
      var p := delayed[i];
      delayed := delayed[..i] + delayed[i + 1..];
      o := AttachFor(p, asleep);
    }

    // eject
    method EjectDisk() returns (o: Outcome)
      requires Valid()
      modifies this, lun
      ensures Valid() && (Now(), o) == setup.EjectNow(old(Now()))
    {
      var ok := ConfigureLun(None, false, None);
      if !ok {
        return Broken;
      }
      CleanupSession();
      current := None;
      o := Ejected;
    }

    // START STOP UNIT from the host.  The controller is not told.
    method HostEjectDisk() returns (o: Outcome)
      requires Valid()
      modifies lun
      ensures Valid() && (Now(), o) == setup.HostEjects(old(Now()))
    {
      o := Nothing;
      if !lun.prevent && lun.filp.Some? {
        lun.Close();
        o := HostTook;
      }
    }

    // Every mount that sleeps can go on.
    ghost predicate AllPlain()
      reads this`delayed
    {
      forall i | 0 <= i < |delayed| :: Plain(delayed[i].backing)
    }

    method Perform(op: Op) returns (o: Outcome)
      requires Valid() && AllPlain() && setup.OpOk(op)
      modifies this, lun
      ensures Valid() && AllPlain() && (Now(), o) == setup.Step(old(Now()), op)
    {
      o := Nothing;
      match op
      case Mount(set_, disk, session, asleep) => o := MountBegin(set_, disk, session, asleep);
      case Finish(i, asleep) =>
        if i < |delayed| {
          o := MountFinish(i, asleep);
        }
      case Eject => o := EjectDisk();
      case HostEject => o := HostEjectDisk();
      case HostPrevent(on) => lun.prevent := on;
    }

    // Any interleaving of mounts, ejects and the host comes to what Run says.
    method Interleave(ops: seq<Op>) returns (outcomes: seq<Outcome>)
      requires Valid() && AllPlain() && setup.AllOk(ops)
      modifies this, lun
      ensures Valid() && (Now(), outcomes) == setup.Run(old(Now()), ops)
      ensures old(setup.Agrees(Now())) && setup.Good(outcomes) ==> setup.Agrees(Now())
    {
      outcomes := [];
      var i := 0;
      while i < |ops|
        invariant i <= |ops| && Valid() && AllPlain()
        invariant (Now(), outcomes) == setup.Run(old(Now()), ops[..i])
      {
        var o := Perform(ops[i]);
        outcomes := outcomes + [o];
        setup.RunSnoc(old(Now()), ops[..i], ops[i]);
        assert ops[..i + 1] == ops[..i] + [ops[i]];
        i := i + 1;
      }
      assert ops[..i] == ops;
      if old(setup.Agrees(Now())) && setup.Good(outcomes) {
        setup.Agreement(old(Now()), ops);
      }
    }
  }
}
