# A model of the floppy gadget

The repository turns a small computer into a USB floppy drive. A kernel thread
speaks the Bulk-Only Transport of the USB Mass Storage Class (revision 1.0),
carries SCSI commands out on an image file, slows them down like a real drive,
and counts the tracks the head would cross; a daemon swaps the images and makes
the clicks. This project models that engine and what sits on top of it, and
proves what each part promises.

The thread is modelled step by step over shared state, as the source has it:
`Pipeline` is the cyclic list of buffers with the two endpoint queues, `Port` the
exception registers, `Lun` the logical unit, `Common` the rest of the driver's
state. Wherever the source can sleep, any number of completions, control
requests and signals may run, and wherever it does not hold `filesem`, any number
of sysfs writers. What an environment step may do is its contract, not its body:
the thread is verified against every behaviour the contract allows.

| file | part of the system |
|---|---|
| `Base.dfy` | bytes, rounding to blocks, writes into a file's content |
| `Ring.dfy` | the cyclic list and the window of bulk-out requests in it, as sequences |
| `Exceptions.dfy` | what a history of exception requests leaves pending |
| `Storage.dfy` | the logical unit: open, close, the sysfs writers |
| `Scsi.dfy` | command blocks, `check_command`, sense data, both wrappers |
| `WritePath.dfy` | the counters of WRITE |
| `Exchanges.dfy` | one command as the host sees it, and runs of them |
| `Transcript.dfy` | everything the host says and is told, in turns |
| `Endpoints.dfy` | buffers, endpoints, completions, exception registers, sleeping |
| `Engine.dfy` | READ, VERIFY and WRITE |
| `Commands.dfy` | `check_command` as the source runs it, the small commands, START STOP UNIT |
| `Dispatch.dfy` | running one handler, and what it leaves to be finished |
| `Thread.dfy` | `do_scsi_command`, reply, status, wrapper, exceptions, main loop |
| `Witness.dfy` | runs that meet the hypotheses of the results about exchanges |
| `Attention.dfy` | unit attention over runs of commands, and reading back what was written |
| `CommandBlocks.dfy` | READ and WRITE as a host writes them, byte by byte, and what each comes to |
| `ControlCommands.dfy` | the same for the commands that move no data of the medium |
| `OddBlocks.dfy` | VERIFY, the commands of a CD-ROM, reserved bytes, unknown opcodes, what can change the drive |
| `HostView.dfy` | what a host can tell from the bytes on the wire |
| `FileSem.dfy` | `filesem` at the grain of single lock operations |
| `IoEvents.dfy` | the track-crossing counter |
| `Throttle.dfy` | the rate limiter |
| `StepDetector.dfy` | from counters to sound commands |
| `Drive.dfy` | from the commands of a run to delays and clicks |
| `Controller.dfy` | mount and eject, composed with the unit's attributes |

What the claims about the host rest on are two histories: everything that came in on
bulk-out, with the bytes, the status and the length asked for of every transfer, to which
only completions add; and the bytes of every transfer submitted on bulk-in, to which only
`start_in_transfer` adds.  What the thread has received, accepted and answered is tied to
them.

The main results:

- `Thread.Run`, `RunUntilAnswered`: on every run that no reset, configuration change
  or signal from outside disturbs, all that came in on bulk-out is accounted for in
  turns of a wrapper and its data; exactly the transfers that are acceptable wrappers
  count; all that has been sent on bulk-in is, transfer by transfer, the data and one
  status for each of them, in order; an answer still owed is given by the next turn.
  Each answer is `Answered`, which says what the command did to the image, the sense data
  and the door, what data went which way, and that residue and data moved make up what
  was announced.
- `Thread.RunFromQuiet`: whatever resets, configuration changes and signals came before,
  the same holds from any moment on at which none is left to deal with and bulk-out is
  listened to, as it is after each configuration change that sets an interface up.
- `Attention.WrittenIsRead`, `Transcript.ReceivedIsSent`, `AnsweredInOrder`: on any such
  run, what the host sent for a WRITE comes back to it from a later READ, unless it has
  written something else or was told that the medium has changed.
- `HostView.HostReadsBack`: the same in bytes alone. The host sends a wrapper with a 6-,
  10-, 12- or 16-byte WRITE and its data, and later one with a READ of any form from the
  same block; where the status bytes say that all went well and no wrapper in between
  writes, the READ brings back what the WRITE sent.
- `CommandBlocks.HostRead`, `HostWrite`, `ControlCommands.HostQuery`, `HostStartStop`,
  `HostSense`, `HostAbsent`, `OddBlocks.HostVerify`, `HostStrays`, `HostUnknown`,
  `HostKeeps`: for every command block, given by its bytes, what the unit is afterwards,
  what was sent, and the status; which bytes of a block must be zero; and which commands
  can change medium or door at all.  Opcodes, sense codes, limits and lengths are written
  out there in numbers, and blocks are built by division and remainder; none of it is in
  terms of how the driver takes a block apart.
- `Exchanges.WholeWrite`, `WholeRead`, `ReadElsewhere`, `FailureExplainedOnce`: what else
  follows for a host; if neither wire nor file fails, size and space decide what a READ or
  WRITE moves and reports.  `Witness` shows runs that meet the hypotheses, and the runs
  below.
- `Thread.HandleException`, `Exceptions.PendingIsLastMostUrgent`: no exception
  request is lost or overtaken by a less urgent one, and the one taken is carried out, on
  disturbed runs too.
- `Attention.ReportedByTheFirst`, `ReportedOnce`, `FileSem.MediumStays`: a change of
  medium is reported once, before it is used, whenever it happens between commands, and
  never happens under a running one.
- `IoEvents.Tracker.Record`, `Throttle.Serve`, `Drive.Play`: head travel, seek delays and
  clicks agree, from the commands of a run to the sound.
- `Controller.Setup.NobodyWaiting`, `FinishExactly`, `SourcesKept`: the daemon's belief,
  the kernel's medium and the boot link agree, a mount lands with what it began with
  exactly under a stated condition, and sources are only padded, under any interleaving.

What the code does that one might not expect, each with the condition under which
it does:

- A READ, WRITE or VERIFY of zero blocks to which the host announced data it
  wants sends whatever the next buffer holds, however much was announced
  (`Exchanges.ResidueExactly`, `Witness.NothingReadSomethingSent`).
- A WRITE that runs past the end of the file ends with OK status, no sense data and a
  residue exactly if the last of its 16 KiB requests begins inside the file
  (`Exchanges.DroppedSilently`, `Witness.WrittenOverTheEnd`, `StoppedAtTheEnd`).
- The bytes a READ or WRITE asks for are counted in 32 bits, so that a command for 2^32
  bytes or more is taken for one for the remainder (`CommandBlocks.BytesOf`).
- REQUEST SENSE with fewer than fourteen bytes of room loses the condition it
  reports (`Exchanges.SenseNeedsFourteen`).
- The door lock is looked at before `filesem` is taken: a medium is swapped out behind
  a locked door exactly if the door has been locked, or a medium loaded, in between and
  nothing has undone that (`FileSem.DoorLockedExactly`, `LockedLate`, `LockedEarly`).
- The medium START STOP UNIT closes is not the one the command saw exactly if the last
  swap between the two locks has left another (`FileSem.ClosesTheOneSeen`, `HandedOver`).
- A request whose last block number exceeds 32 bits leaves the crossing counter
  on the wrong track, and its inner crossings uncounted (`IoEvents.EndTrackRight`,
  `Tracker.Crossings`); each request for no blocks can cost two seek delays that no
  crossing pays for (`Throttle.EmptyRequestsCostTwo`).
- The motor sound does not wait for the activity interval
  (`StepDetector.SpacedExactly`).
- The controller is not told when the host ejects (`Controller.Setup.StepAgrees`), and
  mounts that overlap share a backing file if both make session copies, or both pad
  disks of read-only sets: the first to go on then lands with the bytes of the other
  (`Controller.Setup.FinishExactly`, `OverlapsShare`).

Where the code and its comments differ, the model follows the code: the comment
beside the transfer delay promises 10240 microseconds for a sector at 50 KB/s and
the code charges 9846 (`kernel/floppy_throttle.c:149-157`); the file's header
promises jitter of ten per cent either way and the code only ever adds it.

## Model

| member | source | states |
|---|---|---|
| Ring.CompleteKeeps | kernel/f_floppy.c:513-528 | a bulk-out completion turns the oldest queued request of the window Full and leaves the rest of the window and queue in place |
| Ring.SubmitKeeps | kernel/f_floppy.c:647-663 | submitting the buffer after the window extends window and queue by exactly it |
| Ring.DrainKeeps | kernel/f_floppy.c:963-964 | emptying the oldest buffer advances the window by one place and its end stays where it was |
| Ring.PipeComplete | kernel/f_floppy.c:513-528 | a bulk-out completion adds exactly the transfer that came in, with its bytes and its status, to the history that the window carries, and moves it from what is outstanding to what waits |
| Ring.PipeRequest | kernel/f_floppy.c:415-425 | the rounded request fits the buffer, keeps window, queue and history coupled, and adds its length to what the host has been asked for |
| Ring.PipeDrain | kernel/f_floppy.c:1655-1661 | taking the head of the window out drains exactly the next transfer of the history |
| Ring.RoundUpFits | kernel/f_floppy.c:415-425 | a request rounded up to whole packets never exceeds the buffer, and whole buffers are not rounded |
| Ring.RoundUpPackets | kernel/f_floppy.c:415-425 | a request is rounded up to whole packets, by less than one |
| Ring.OutRingEnds | kernel/f_floppy.c:909-961 | the buffer to drain is Empty exactly if nothing is outstanding, the buffer to fill exactly if the ring is not full |
| Ring.ReceivedOne | kernel/f_floppy.c:2391-2397 | once the single wrapper request has completed no buffer is Receiving |
| Exceptions.PendingIsLastMostUrgent | kernel/f_floppy.c:449-469 | after any sequence of requests the registers hold the last of the most urgent ones, with its argument and its ep0 tag |
| Exceptions.ApplyReports | kernel/f_floppy.c:449-469 | one more request keeps the registers in agreement with that reference |
| Exceptions.NothingLost | kernel/f_floppy.c:449-469 | every request is held, or superseded by something more urgent or later and as urgent |
| Exceptions.HeldByName | kernel/storage_common.h:159-166 | by name: an exit is held if one was requested; or else the last configuration change; or else the last bulk-only reset; or else the last abort of a data phase; each with its tag and argument |
| Storage.Lun.Open | kernel/storage_common.c:179-275 | succeeds exactly for a usable file, then holds its content, its length, a block size of 2048, of the device or of 512 bytes, the greatest number of sectors that fits (for a CD-ROM at most 1151999), and the write protection; otherwise changes nothing |
| Storage.SectorsFit | kernel/storage_common.c:232-252 | every sector counted lies inside the file, and no more would, unless a CD-ROM has reached its 1151999 |
| Storage.LoadableExactly | kernel/storage_common.c:179-275 | a file can be loaded exactly if it opens read-write, or read-only where that is asked for or the error is -30 or -13; is a regular file or block device; can be read; and has 614400 bytes for a CD-ROM, or a block otherwise |
| Storage.Written | kernel/storage_common.c:447-449 | a name written to an attribute is taken as it is, but for one newline at its end |
| Storage.Lun.StoreRo | kernel/storage_common.c:380-393 | the flag changes exactly if no file is attached |
| Storage.Lun.StoreFile | kernel/storage_common.c:437-465 | load, eject or refusal by name, door and file; a load leaves the ready-transition attention, an eject the no-medium one, a failure nothing |
| Storage.Lun.Replace | kernel/storage_common.c:446-464 | once the door has been looked at: succeeds exactly for an empty name or a loadable file, and nothing it does goes without its unit attention |
| Storage.Lun.ForcedEject | kernel/storage_common.c:525-537 | the medium goes and the door opens whatever the host has locked |
| Storage.Lun.Reset | kernel/f_floppy.c:2604-2615 | an exception clears door, sense data and attention, including a load nobody has reported |
| Storage.TouchedTwice | kernel/storage_common.c:380-537 | what any number of attribute writers can make of a unit is what one can |
| Scsi.HandlersAreSafe | kernel/f_floppy.c:1910-1962 | for every command block and unit, no handler runs without its unit, no medium command without an open medium whose arrival was reported, and none against the host's direction |
| Scsi.CheckAttention | kernel/f_floppy.c:1932-1942 | a pending attention is reported and cleared exactly by a command in form whose opcode is neither 0x12 nor 0x03 |
| Scsi.MediumNotExempt | kernel/f_floppy.c:1995-2250 | no command on the medium has opcode 0x12 or 0x03, which unit attention lets pass |
| Scsi.PhaseErrorExactly | kernel/f_floppy.c:1854-1903 | a phase error in exactly cases 2, 3, 7, 8, 10 and 13 of section 6.7 of Bulk-Only Transport 1.0 and for a short command block; never more data than announced |
| Scsi.SenseRoundTrip | kernel/f_floppy.c:1196-1247 | a host that takes fourteen bytes of the reply reads back key, code, qualifier and information field exactly |
| Scsi.CswRoundTrip | kernel/f_floppy.c:1811-1817 | the status wrapper decodes to the tag, residue and status it was built from |
| Scsi.StatusBytes | kernel/f_floppy.c:1811-1817 | a status is thirteen bytes: 0x53425355, the tag and the residue as little-endian numbers, and 0, 1 or 2, as section 5.2 of Bulk-Only Transport 1.0 has it |
| Scsi.ParseCbw | kernel/f_floppy.c:2295-2362 | an accepted wrapper has a command of 1 to 16 bytes and a unit number under 16 |
| Scsi.WrapperBytes | kernel/f_floppy.c:2306-2362 | a transfer is no wrapper exactly if it is not 31 bytes long or does not begin with 0x43425355; and it is accepted as a command exactly if its bytes, as section 5.1 lays them out, announce that command to a unit under 16 with a block of 1 to 16 bytes |
| Scsi.CbwRoundTrip | kernel/f_floppy.c:2295-2362 | a wrapper the host builds is the wrapper accepted |
| Exchanges.PhaseStatusExactly | kernel/f_floppy.c:1799-1811 | an answered command has phase-error status exactly in those six cases or if its block was too short |
| Exchanges.ResidueExactly | kernel/f_floppy.c:746-831 | data and residue make up what was announced, and no more is sent, unless the command was one for zero blocks; then the data is what the next buffer held, and they do exactly if that is nothing |
| Exchanges.SenseDelivered | kernel/f_floppy.c:1196-1247 | REQUEST SENSE delivers exactly the pending sense data, succeeds, and leaves none |
| Exchanges.AbsentSense | kernel/f_floppy.c:1224-1229 | REQUEST SENSE to a missing unit delivers the not-supported code, succeeds, and leaves the sense data of the present one alone |
| Exchanges.SenseWaits | kernel/f_floppy.c:1910-1917 | commands to a missing unit leave the sense data of the present one alone |
| Exchanges.FailureExplainedOnce | kernel/f_floppy.c:1791-1809 | over any run, a failed status is explained by the next REQUEST SENSE to the unit and the one after reports nothing |
| Exchanges.SenseNeedsFourteen | kernel/f_floppy.c:1238-1246 | the reply determines the condition if and only if at least fourteen bytes of it are sent |
| Exchanges.RunMore | kernel/f_floppy.c:2692-2710 | a run of answered commands is extended by the next, if nothing but attribute writers came between |
| Exchanges.WhatWasWritten | kernel/f_floppy.c:975-1013 | a WRITE changed the image by consecutive bytes of the host's stream and nothing else |
| Exchanges.WhatWasRead | kernel/f_floppy.c:749-830 | a READ sent consecutive bytes of the image from the addressed block on |
| Exchanges.ReadBack | kernel/f_floppy.c:836-1034 | a READ of where a WRITE stored returns what the WRITE received |
| Exchanges.ReadElsewhere | kernel/f_floppy.c:836-1034 | a READ of anywhere else returns what was there before |
| Exchanges.WriteThenRead | kernel/f_floppy.c:689-1034 | a complete WRITE and a complete READ of the same blocks are a round trip |
| Exchanges.WholeWrite | kernel/f_floppy.c:909-1031 | if no transfer and no write to the file failed and the host cut nothing short, a WRITE stores all whole blocks that fit, and reports the end of the file if and only if its last 16 KiB request would begin there or beyond; OK status exactly if it does not and there is no phase error |
| Exchanges.DroppedSilently | kernel/f_floppy.c:919-932 | a WRITE drops data with OK status if and only if its last request, at the last multiple of 16384 below its size, begins inside the file and the file ends before its last byte |
| Exchanges.WholeRead | kernel/f_floppy.c:793-820 | a READ with OK status sent everything asked for; unless reading the file failed it sends what was asked for as far as the file goes, and reports the end of the file exactly if that is less |
| Witness.SenseRun | kernel/f_floppy.c:1791-1809 | a run in which a failure is explained and the explanation is gone |
| Witness.BlockRoundTrip | kernel/f_floppy.c:689-1034 | for any block size and any bytes, a block written and read back |
| Witness.NothingReadSomethingSent | kernel/f_floppy.c:744-747 | for any length announced and any bytes a buffer can hold, a READ of no blocks that succeeds and sends them, with all of that length in the residue |
| Witness.WrittenOverTheEnd | kernel/f_floppy.c:919-993 | for any block size, a WRITE of two blocks to a file that ends within the second but not before the last request begins: OK status, no sense data, one block gone |
| Witness.StoppedAtTheEnd | kernel/f_floppy.c:924-932 | for blocks of 16384 bytes, the same WRITE to a file of one block: the second is never asked for and the end of the file is reported |
| Transcript.RefuseOne | kernel/f_floppy.c:2295-2344 | a transfer that is no acceptable wrapper leaves nothing to answer |
| Transcript.AcceptOne | kernel/f_floppy.c:2345-2364 | one that is acceptable is owed exactly one answer |
| Transcript.Answer | kernel/f_floppy.c:2692-2710 | the answer, with the data that came in for it, settles the account |
| Transcript.AnsweredInOrder | kernel/f_floppy.c:1776-1827 | cut at the statuses, what was sent on bulk-in is one reply for each wrapper that counted, from the first transfer to the last; the i-th ends with thirteen bytes that are, as numbers, signature, the tag in the i-th wrapper, a residue equal to what was announced less what moved, and the code; it has no data transfer if the host expects no data |
| Transcript.GarbageSilences | kernel/f_floppy.c:2306-2327 | after a good transfer that is not 31 bytes long or lacks the signature, where a wrapper is due, no wrapper counts |
| Transcript.OtherwiseHeard | kernel/f_floppy.c:2301-2364 | and a good transfer whose bytes announce a command counts if every good one before it was a wrapper |
| Transcript.OnTheWire | kernel/f_floppy.c:1776-1827 | the data and the status of the i-th reply lie in the history of bulk-in transfers between where it begins and where the next one does |
| Transcript.ReceivedIsSent | kernel/f_floppy.c:953-999 | what a command received is the beginning of what the host sent after its wrapper |
| Transcript.RepliedIs | kernel/f_floppy.c:1702-1732 | what a command sent are the bytes of the bulk-in transfers before its status |
| WritePath.NextRequest | kernel/f_floppy.c:913-951 | each request for data is non-empty, at most a buffer, begins inside the file, and the counters of the loop stay what the requests made so far fix |
| WritePath.UsableMeansComplete | kernel/f_floppy.c:975-993 | if a buffer contributes anything then nothing before it was dropped |
| WritePath.CompleteOrDead | kernel/f_floppy.c:975-1031 | after a full-length buffer everything consumed is stored, or nothing more can be |
| WritePath.StoreAll | kernel/f_floppy.c:975-1031 | the account of drained, outstanding, stored and consumed bytes is kept by a full-length buffer |
| WritePath.StoreReached | kernel/f_floppy.c:996-1024 | and by one whose data kernel_write took only in part |
| WritePath.StoredStorable | kernel/f_floppy.c:975-1013 | as long as every buffer was as long as its request all that came and fits is stored |
| WritePath.StoreShort | kernel/f_floppy.c:975-1031 | and still after a buffer the host cut off |
| WritePath.StoreEnds | kernel/f_floppy.c:975-1031 | a buffer whose usable part is stored keeps the account, or ends the loop with all that came stored |
| WritePath.AllStored | kernel/f_floppy.c:1738-1741 | residue zero means everything was asked for and nothing is outstanding |
| WritePath.LoopEnds | kernel/f_floppy.c:909-956 | when the loop ends by itself, the end of the file has been reported exactly if the request for the last byte would begin there or beyond, and all that fits, or all, has come in |
| WritePath.StoreData | kernel/f_floppy.c:996-999 | the next n bytes written after the first k of the stream leave its first k + n in the file |
| Endpoints.Port.RaiseException | kernel/f_floppy.c:449-469 | the registers become what the request makes of them, and the history it is part of |
| Endpoints.Port.DequeueSignals | kernel/f_floppy.c:2548-2563 | all signals are cleared and a foreign one becomes an EXIT request |
| Endpoints.Port.Take | kernel/f_floppy.c:2599-2602 | what is taken is the last of the most urgent requests since the previous take, which join the history of those dealt with |
| Endpoints.Port.ControlEvent | kernel/f_floppy.c:540-596 | an ep0 request or signal keeps the registers in agreement with the history, and wakes the thread if it matters |
| Endpoints.Pipeline.LinkBuffers | kernel/f_floppy.c:2896-2918 | the links make one cycle through all n buffers |
| Endpoints.Pipeline.BulkOutComplete | kernel/f_floppy.c:513-528 | the oldest request completes, and the history grows by what the host sent for it |
| Endpoints.Pipeline.SleepThread | kernel/f_floppy.c:665-684 | returns when the buffer is no longer busy or a signal is pending, and terminates because every transfer does; the ring has only moved as completions move it |
| Endpoints.Pipeline.StartInTransfer | kernel/f_floppy.c:629-645 | an idle buffer outside the window starts sending; no other changes; the history of what was sent grows by its bytes |
| Endpoints.Pipeline.StartOutTransfer | kernel/f_floppy.c:647-663 | the Empty buffer after the window joins it, with its intended and rounded length |
| Endpoints.Pipeline.RequestMore | kernel/f_floppy.c:934-951 | one more request at the end of the window, and the fill pointer behind it |
| Endpoints.Pipeline.DrainNext | kernel/f_floppy.c:953-964 | the oldest request is waited for and taken out: it is the next transfer of the history, and its payload the next of the stream |
| Endpoints.Pipeline.SendData | kernel/f_floppy.c:1702-1732 | the next buffer to fill is submitted, and its bytes are the next transfer of what was sent |
| Endpoints.Pipeline.SendStatus | kernel/f_floppy.c:1811-1826 | exactly one more transfer is sent, which is the status and closes the reply that the transfers since the last status make |
| Endpoints.Pipeline.AskForCbw | kernel/f_floppy.c:2371-2384 | one request for a wrapper is outstanding, in the buffer that stays next to fill |
| Endpoints.Pipeline.ReleaseCbw | kernel/f_floppy.c:2391-2398 | the ring is empty, both pointers meet, and everything heard so far lies before the command that begins |
| Endpoints.Pipeline.CancelAll | kernel/f_floppy.c:2565-2577 | every buffer is idle, or a signal cut the attempt short |
| Endpoints.Pipeline.Reset | kernel/f_floppy.c:2593-2598 | every buffer Empty and both pointers at the first |
| Engine.Common.ReadBlocks | kernel/f_floppy.c:783-796 | a failed or short kernel_read counts for whole blocks of a prefix, and is on record |
| Engine.Common.ReadLoop | kernel/f_floppy.c:749-828 | all but the last buffer have been sent, in order, when do_read returns |
| Engine.Common.DoRead | kernel/f_floppy.c:689-831 | refused exactly by its flags and address, with the sense data for it; with nothing to read it does nothing; otherwise the bytes sent and the last buffer are the first k of the image from there, and k falls short exactly if a kernel_read did or the file ends, each with its own sense data and the number of the block; the request published is the one the command makes |
| Engine.Common.DoVerify | kernel/f_floppy.c:1065-1161 | refused exactly by its flags and address; without sense data the bytes it has seen are those of its blocks in the file; otherwise the file ends before the last of them, or a kernel_read fell short; no data moves |
| Engine.Common.KernelWrite | kernel/f_floppy.c:996-999 | a prefix of the data reaches the file and nothing else changes; if it is not all, that is on record |
| Engine.Common.WriteOut | kernel/f_floppy.c:996-1013 | whole blocks count, the stream's prefix is in the file |
| Engine.Common.StoreRound | kernel/f_floppy.c:966-1031 | what one drained buffer adds to the file; the sense data says that the transfer failed exactly if it did, and that the file did not take its data exactly if that is on record; the host counts as having stopped exactly if the transfer brought less than was asked for without an error; the loop stops for one of these and for nothing else |
| Engine.Common.WriteLoop | kernel/f_floppy.c:909-1031 | the loop ends, and leaves the first bytes of the host's stream in whole blocks of the file: all that came and fits, unless the last transfer failed or the file did not take its data; the end of the file is reported exactly if the request for the last byte would begin there or beyond; and less than was asked for came only if a transfer was cut off |
| Engine.Common.DoWrite | kernel/f_floppy.c:836-1034 | refused exactly by write protection, flags and address, with the sense data for it; otherwise as the loop leaves it; the request published is the one the command makes |
| Commands.CheckCommand | kernel/f_floppy.c:1836-1962 | the code decides what the decision function decides, in reply, phase error, size, command bytes and unit |
| Commands.ReportAttention | kernel/f_floppy.c:1932-1942 | the attention moves to the sense data exactly if one is pending and the opcode is neither 0x12 nor 0x03 |
| Commands.SysfsSteps | kernel/storage_common.c:380-537 | writers of the attributes leave the sense data alone and never lock the door, and whatever they do to the medium leaves a unit attention |
| Commands.DoRequestSense | kernel/f_floppy.c:1196-1247 | the buffer holds the reply for the pending sense data, which is cleared, or for a missing unit |
| Commands.HandOver | kernel/f_floppy.c:1516-1521 | the medium that is in the drive when the lock is taken for writing is gone; what is there afterwards was loaded since, and its arrival is pending |
| Commands.DoStartStop | kernel/f_floppy.c:1476-1524 | ejects exactly when bit 1 of byte 4 is set, bit 0 is not, and nothing refuses it; each refusal has its own sense data, and whatever does not eject changes nothing else |
| Commands.DoPreventAllow | kernel/f_floppy.c:1526-1548 | the door is locked exactly as asked, or nothing changes |
| Commands.RunSmall | kernel/f_floppy.c:1995-2273 | the commands that move no data of the medium leave exactly their sense data, or none, and the door as asked; SYNCHRONIZE CACHE fails exactly if fsync does; nothing else of the unit changes, the reply has the length its form gives, and for mode pages and capacities the bytes of its table |
| Dispatch.RefusedAnswered | kernel/f_floppy.c:2276-2287 | a refused command is answered: nothing sent, residue is all, unit as check_command left it |
| Dispatch.SenseAnswered | kernel/f_floppy.c:2276-2287 | a REQUEST SENSE is answered by the reply cut to what was asked for |
| Dispatch.ReadEnded | kernel/f_floppy.c:689-831 | what do_read leaves behind answers the command |
| Dispatch.WriteEnded | kernel/f_floppy.c:836-1034 | what do_write leaves behind answers the command, and nothing is outstanding if nothing is left over |
| Dispatch.RunHandler | kernel/f_floppy.c:1994-2272 | every handler ends with the command answered, or interrupted by a signal from outside |
| Thread.CheckOpcode | kernel/f_floppy.c:1994-2272 | the request decoded and the verdict are what the source makes of the command received |
| Thread.SetUpReply | kernel/f_floppy.c:2279-2287 | the reply is cut to what was asked for and leaves the residue |
| Thread.TakeLock | kernel/f_floppy.c:1984-1993 | flags cleared and lock held before anything of the unit is looked at; until then writers may have touched it |
| Thread.DoScsiCommand | kernel/f_floppy.c:1975-2290 | the command is carried out, its outcome settled and its reply ready, with the lock free; or a signal from outside interrupted it |
| Thread.ThrowAwayData | kernel/f_floppy.c:1625-1672 | ends; then everything announced has been asked for and has come in, or a transfer was cut off and the abort exception is raised for that; or a signal from outside interrupted it |
| Thread.FinishReply | kernel/f_floppy.c:1674-1774 | the promised data, and no other, has been submitted on bulk-in; or all data the host offered has come in; or, only if the host cut a transfer off and not all of its data was stored, the data phase is aborted |
| Thread.SendStatus | kernel/f_floppy.c:1776-1827 | exactly one transfer is sent, a status wrapper with the tag, the residue and the status the command deserves, and closes its reply |
| Thread.SaveCbw | kernel/f_floppy.c:2345-2364 | the command fields hold the wrapper; the tail of the command buffer is kept |
| Thread.ReceivedCbw | kernel/f_floppy.c:2295-2365 | a transfer counts as a wrapper exactly if it was good, valid and meaningful and bulk-out is not ignored; an invalid one has all further ones ignored |
| Thread.GetNextCommand | kernel/f_floppy.c:2367-2399 | after all that was heard before exactly one transfer has come in, the wrapper taken is the one it brought, and nothing was sent |
| Thread.DoSetInterface | kernel/f_floppy.c:2415-2506 | running exactly for a new interface whose endpoints can be enabled, and then with the reset attention and bulk-out listened to |
| Thread.StopTransfers | kernel/f_floppy.c:2565-2598 | the ring is idle, or a signal is pending |
| Thread.TakeException | kernel/f_floppy.c:2599-2616 | the most urgent request is taken; all but an abort reset the unit |
| Thread.CarryOut | kernel/f_floppy.c:2618-2668 | running, the flag for ignoring bulk-out and the attention after each kind of exception, exactly; an exit ends in the terminated state |
| Thread.HandleException | kernel/f_floppy.c:2539-2669 | the exception taken reports all that was requested since the one before and is carried out: all kinds but an abort reset the unit, and each sets running, the flag for ignoring bulk-out, the attention and the state as it should; or a signal cuts it short, nothing is lost and nothing changed; unless something outside interferes an answer that was owed has been given; the account with the host is kept |
| Thread.PowerOn | kernel/f_floppy.c:2854-2934 | a new device is in the state the main loop keeps |
| Thread.Turn | kernel/f_floppy.c:2692-2710 | one turn keeps the account, deals with what is pending, gives the answer owed if one was, and otherwise hears another wrapper |
| Thread.Run | kernel/f_floppy.c:2674-2728 | over any number of turns all that came in on bulk-out is accounted for in turns of a wrapper and its data, every wrapper that counts is answered exactly once and in order, and all that was submitted on bulk-in are these answers; only while a data phase is aborted the last answer is still owed; both histories only grow, and a device set up and left alone hears another transfer at least every other turn; the medium is ejected at the end |
| Thread.RunUntilAnswered | kernel/f_floppy.c:2674-2728 | however long it has run, at most one more turn gives the answer that is owed |
| Thread.Resume | kernel/f_floppy.c:2539-2669 | the device as it stands when nothing is pending and bulk-out is listened to, with new histories and an empty account, is in the state the main loop keeps |
| Thread.RunFromQuiet | kernel/f_floppy.c:2674-2728 | after any number of turns disturbed from outside, from any such moment on, the account of an undisturbed run is kept and settled |
| Attention.ReportsExactly | kernel/f_floppy.c:1910-1942 | a command reports a unit attention exactly if one is pending and it must, and uses the medium only if none is |
| Attention.PendingUntilReported | kernel/f_floppy.c:1932-1942 | over any run, with loads and ejects between commands and commands to missing units, an attention stays pending until a command reports it |
| Attention.ReportedByTheFirst | kernel/f_floppy.c:1932-1942 | the first command that must report it does, with the last change for its sense data, and no command up to there uses the medium |
| Attention.ReportedOnce | kernel/f_floppy.c:1932-1942 | between two reports a medium has been loaded or ejected |
| Attention.MediumKept | kernel/f_floppy.c:1910-1962 | a command that works on the medium finds the one an earlier command left, if no attention was reported and nothing written in between |
| Attention.WrittenIsRead | kernel/f_floppy.c:689-1034 | what the host sent for a WRITE is the beginning of the bulk-in transfers of a later READ of the same place, under the same condition, on any run |
| Attention.EjectThenLoad | kernel/storage_common.c:437-465 | an eject and a load before any command leave the load to be reported |
| CommandBlocks.TransferMeans | kernel/f_floppy.c:2054-2097 | for every block number and count that fit, the 6-, 10-, 12- and 16-byte READ and WRITE built from them are understood as that block and that count |
| CommandBlocks.EveryBlock | kernel/storage_common.c:243-249 | a block is addressable exactly if all of it lies in the file, and for a CD-ROM is among the first 1151999 |
| CommandBlocks.FloppyBlocks | kernel/storage_common.c:243-249 | the blocks of a 1474560-byte image are 0 to 2879 |
| CommandBlocks.HostRead | kernel/f_floppy.c:689-831 | an answered READ, from its bytes: the data is the image from lba times block size on, all that is asked for and the file has unless reading it fails; refused with 0x052100 exactly if that block is not on the medium; sense data, information field, status and the request published |
| CommandBlocks.HostWrite | kernel/f_floppy.c:836-1034 | an answered WRITE, from its bytes: exactly the bytes of the image from lba times block size on become what was received, as far as it counts; refused with 0x072700 or 0x052100 exactly by write protection or address; if nothing fails all whole blocks that fit are stored |
| CommandBlocks.TransferTold | kernel/f_floppy.c:1932-1942 | with an attention pending a READ or WRITE moves nothing and fails with it for sense data, which takes it away |
| CommandBlocks.TransferLacks | kernel/f_floppy.c:1954-1959 | with no medium it moves nothing and fails with 0x023a00 |
| ControlCommands.QueryMeans | kernel/f_floppy.c:1998-2195 | each of the thirteen other command blocks, built from its fields, is understood as it is meant |
| ControlCommands.HostQuery | kernel/f_floppy.c:1995-2261 | each of them but two, answered: sense data by a table in numbers, the door as PREVENT ALLOW MEDIUM REMOVAL has it, medium and attention untouched, the length of the reply and the status; INQUIRY goes on with an attention pending, which stays |
| ControlCommands.HostReply | kernel/f_floppy.c:1249-1565 | the bytes READ CAPACITY, READ CAPACITY(16) and READ FORMAT CAPACITIES send are the number of the last block that lies in the file, or of the blocks, and the block size; MODE SENSE sends the write protection and the caching page |
| ControlCommands.HostStartStop | kernel/f_floppy.c:1476-1524 | START STOP UNIT, in its two bits: with LoEj set, Start clear, legal flags, a removable unit and an open door the medium that was there is gone; otherwise medium, door and attention are as before, and each refusal has its code |
| ControlCommands.HostSense | kernel/f_floppy.c:1196-1247 | REQUEST SENSE sends the eighteen bytes of the pending sense data, cut to size, succeeds, and clears it; a pending attention stays |
| ControlCommands.HostAbsent | kernel/f_floppy.c:1910-1931 | of all these blocks a missing unit answers INQUIRY with min(36, room, size) bytes and REQUEST SENSE with 0x052500; the others fail, and nothing happens to the unit that is there |
| ControlCommands.QueryTold | kernel/f_floppy.c:1932-1942 | with an attention pending every other of them fails with it for sense data, which takes it away |
| OddBlocks.HostVerify | kernel/f_floppy.c:1065-1161 | VERIFY, from its bytes: if the file can be read it succeeds exactly if its first block is on the medium, its flags are legal and its blocks lie inside the file, and otherwise fails with the code for it; it moves nothing |
| OddBlocks.HostDisc | kernel/f_floppy.c:1294-1388 | READ HEADER and READ TOC of a CD-ROM: sense data, length of the reply and status |
| OddBlocks.HostStrays | kernel/f_floppy.c:1944-1952 | a block of a known opcode with a byte set that must be zero, or past its end, moves nothing, changes nothing but sense data and attention, and does not succeed |
| OddBlocks.HostFlags | kernel/f_floppy.c:718-721 | nor does a READ or WRITE with flags other than 0x08 and 0x10 |
| OddBlocks.HostUnknown | kernel/f_floppy.c:2263-2272 | any other opcode fails with 0x052000 |
| OddBlocks.HostKeeps | kernel/f_floppy.c:1975-2290 | only WRITE, PREVENT ALLOW MEDIUM REMOVAL, and START STOP UNIT that asks for the medium behind an open door change anything but sense data and attention |
| HostView.AttentionWaits | kernel/f_floppy.c:1932-1942 | no answered command with opcode 0x12 or 0x03, whatever its form, reports an attention or takes it away |
| HostView.HostReadsBack | kernel/f_floppy.c:689-1034 | on any run, from the bytes on the wire: if a WRITE of any form ends with code 0 and residue 0, a later READ of any form from the same block ends with code 0, and everything in between ends with code 0 and writes nothing, then the data of the READ begins like that of the WRITE, and is as long as its residue says |
| FileSem.StepKeeps | kernel/storage_common.c:399-465 | every lock operation of thread and writers keeps readers and writer apart and the medium of a running command in place |
| FileSem.RunKeeps | kernel/f_floppy.c:1993-2274 | so does every run |
| FileSem.MediumStays | kernel/f_floppy.c:1993-2274 | nobody swaps or closes the medium, or changes its write protection, between check_command and the end of the command |
| FileSem.InTheActions | kernel/storage_common.c:437-465 | on any run, what is attached and whether the door is locked is what the swaps, closes and door operations have left, the door reset of an exception among them |
| FileSem.DoorLockedExactly | kernel/storage_common.c:442-452 | on any run, a writer takes a medium out behind a locked door exactly if it ejects or its file opens, and what happened since it looked has left the door locked and a medium in; which takes a lock or a load in between |
| FileSem.ClosesTheOneSeen | kernel/f_floppy.c:1516-1521 | on any run, the medium closed in the hand-over is another than the command saw exactly if the last swap between the two locks left another |
| FileSem.LockedLate | kernel/storage_common.c:442-452 | a run in which the door is locked after it was looked at, and the medium goes |
| FileSem.LockedEarly | kernel/storage_common.c:442-452 | a run in which the door of an empty drive is locked all the time, and a medium put in goes |
| FileSem.HandedOver | kernel/f_floppy.c:1516-1521 | a run in which the medium closed is one the command never saw |
| IoEvents.WalkClosed | kernel/floppy_io_events.c:66-90 | the closed form of a request is the travel of a head that visits every block |
| IoEvents.WalkSplit | kernel/floppy_io_events.c:66-90 | cutting a request in two adjacent ones changes no travel |
| IoEvents.TravelSnoc | kernel/floppy_io_events.c:56-103 | one more request adds its walk from where the head is |
| IoEvents.TrackIs | kernel/floppy_throttle.c:24-28 | a track is 36 blocks |
| IoEvents.WholeFloppy | kernel/floppy_io_events.c:66-90 | from the first block of a floppy to the last the head crosses 79 tracks |
| IoEvents.Tracker.Crossings | kernel/floppy_io_events.c:66-90 | the increment is the head's walk if the last block number fits 32 bits; if not, it is the way to the first block alone |
| IoEvents.Tracker.Record | kernel/floppy_io_events.c:56-103 | for every request in its 32-bit parameters the counter grows by that increment; as long as all last blocks fit it is the head's total travel, and a positive block count means exactly that there was a request before |
| IoEvents.EndTrackRight | kernel/floppy_io_events.c:66-67 | the remembered end track is right if and only if the last block number fits 32 bits |
| Throttle.NoOverflowExactly | kernel/floppy_throttle.c:149-152 | the product fits 32 bits if and only if there are at most 8388 blocks |
| Throttle.DelayIsExact | kernel/floppy_throttle.c:149-152 | up to there the delay is the exact quotient |
| Throttle.DelayBounds | kernel/floppy_throttle.c:149-160 | it is no longer than the nominal rate allows and within a microsecond of a rate a little above |
| Throttle.SplittingLosesLittle | kernel/floppy_throttle.c:149-160 | m requests instead of one are charged no more, and less than m microseconds less |
| Throttle.StillPaid | kernel/floppy_throttle.c:129-147 | every request, throttled or not, keeps seek delays within one plus crossings plus two for each empty request |
| Throttle.Limiter.SetPreset | kernel/floppy_throttle.c:76-106 | "floppy-real" sets 50 and 30 KB/s and 6000 us, "floppy-fast" 200, 200 and 500, "unthrottled" nothing; any other name, or one of 31 characters or more, changes nothing |
| Throttle.LineIs | kernel/floppy_throttle.c:85-90 | a preset is named exactly by its name, alone or with a newline after it |
| Throttle.Limiter.ApplyIoDelay | kernel/floppy_throttle.c:129-161 | a seek delay exactly for a new track, the transfer delay, and nothing at all when unthrottled |
| Throttle.Limiter.OnRequest | kernel/floppy_throttle.c:163-178 | the same at the rate of the request's direction |
| Throttle.Limiter.SeekBound | kernel/floppy_throttle.c:129-161 | the bound over the whole history |
| Throttle.Serve | kernel/f_floppy.c:728-742 | over any run of requests, with presets switched in between, and as long as all last blocks fit, seek delays are within one plus the crossings counted plus two for each empty request |
| Throttle.EmptyRequestsCostTwo | kernel/floppy_throttle.c:137-147 | the bound is met by any number of requests for no blocks, with a head that never moves |
| StepDetector.Detector.Tick | src/usb_floppy_pi/audio/state_machine.py:140-179 | the command and the memory are those of the specification function |
| StepDetector.HeardExactly | src/usb_floppy_pi/audio/state_machine.py:140-179 | for any run of samples, from the samples alone, what is heard at each: a burst of the capped increment if the head has moved; or else three clicks of the motor if blocks were served after so long a rest, or a tick if none was heard for so long; or else nothing |
| StepDetector.ClicksFollowCrossings | src/usb_floppy_pi/audio/state_machine.py:149-162 | seek clicks are the capped increments, never more than the crossings, and equal exactly if no increment exceeds the cap |
| StepDetector.ClicksFromTheFirstSample | src/usb_floppy_pi/audio/state_machine.py:141-162 | counted from the first sample, which only sets the baseline |
| StepDetector.AfterLast | src/usb_floppy_pi/audio/state_machine.py:164-177 | every activity sound comes at least the interval after the last |
| StepDetector.ActivityIsSpaced | src/usb_floppy_pi/audio/state_machine.py:164-177 | any two activity sounds are that far apart if the interval is within the idle time |
| StepDetector.SpacedExactly | src/usb_floppy_pi/audio/state_machine.py:164-177 | on all runs if and only if it is |
| StepDetector.ClicksFollowHead | src/usb_floppy_pi/audio/state_machine.py:140-179 | from request to sound: clicks never exceed the head's travel between the samples |
| Drive.PublishedFits | kernel/f_floppy.c:728-742 | what a command publishes fits its 32-bit parameters, and so does its last block if the drive leaves room for one more request of the largest size; it is empty exactly for a command for less than a block |
| Drive.RunFits | kernel/f_floppy.c:728-742 | the same for all that a run of commands publishes, with the empty requests counted |
| Drive.Play | kernel/f_floppy.c:728-742 | for any run of answered commands, presets switched and counters polled at any time: seek delays are within one plus the crossings plus two for each command for no blocks, and there are no more seek clicks than crossings |
| Controller.Setup.Agreement | src/usb_floppy_pi/gadget/controller.py:83-140 | whenever the last operation that did anything went well, unit, read-only flag and link show what the controller believes, however mounts, ejects and the host interleave |
| Controller.Setup.NobodyWaiting | src/usb_floppy_pi/gadget/controller.py:83-140 | so they do, for operations that return normally and no eject by the host, whenever no mount is in the delay |
| Controller.Setup.StepAgrees | src/usb_floppy_pi/gadget/controller.py:83-140 | what each single outcome means for the agreement; an eject by the host that takes something ends it |
| Controller.Setup.EjectEnds | src/usb_floppy_pi/gadget/controller.py:137-140 | an eject is refused exactly if the host has locked the door on a medium, and then only the link changes; otherwise drive and belief are empty and only session files are gone |
| Controller.Setup.PutEnds | src/usb_floppy_pi/gadget/controller.py:124-135 | a mount that goes on sets the link and changes no file; behind a locked door all else stays, and a file that cannot be attached leaves the drive empty and the belief as it was |
| Controller.Setup.BeginEnds | src/usb_floppy_pi/gadget/controller.py:83-122 | a mount of a disk not in the set, missing or over 1474560 bytes changes nothing; one that finds a mount empties the drive and waits, unless the host has locked the door on the medium |
| Controller.Setup.HoldsExactly | src/usb_floppy_pi/gadget/controller.py:97-117 | a backing file keeps its bytes over a run exactly if the last operation that made it anew or cleaned it up, if any, left the same |
| Controller.Setup.StartsPadded | src/usb_floppy_pi/gadget/controller.py:97-122 | a mount that enters the delay leaves the padded source at its backing path |
| Controller.Setup.FinishExactly | src/usb_floppy_pi/gadget/controller.py:119-135 | a mount lands after the delay with the bytes it began with exactly if the door is open, the file can be opened, and its backing file has kept them |
| Controller.Setup.MountAlone | src/usb_floppy_pi/gadget/controller.py:83-135 | with nobody else about a mount lands exactly if the disk is acceptable, the door open and the backing file can be opened, and leaves 1474560 bytes: the source and zeros |
| Controller.Setup.LandsWhole | src/usb_floppy_pi/gadget/controller.py:142-146 | however mounts overlap, what lands has 1474560 bytes |
| Controller.Setup.SourcesKept | src/usb_floppy_pi/gadget/controller.py:97-117 | however they overlap, sources change only by zero-extension, and those of read-only sets not at all |
| Controller.Setup.OverlapsShare | src/usb_floppy_pi/gadget/controller.py:100-114 | two overlapping mounts, of session copies or of undersized disks of a read-only set, both go well and leave the controller believing in one disk and the unit holding the other |
| Controller.GadgetController.DetachLun | src/usb_floppy_pi/gadget/sysfs_backend.py:87-91 | the unit is free, or the host has locked the door |
| Controller.GadgetController.AttachLun | src/usb_floppy_pi/gadget/sysfs_backend.py:92-96 | the read-only write never meets an attached file; the file is attached exactly if it can be, and the flag is off only if asked and the file can be written |
| Controller.GadgetController.ConfigureLun | src/usb_floppy_pi/gadget/sysfs_backend.py:73-96 | link, medium, content and flag, on success and on failure, are those of the state as a value |
| Controller.GadgetController.PrepareBacking | src/usb_floppy_pi/gadget/controller.py:97-117 | the files afterwards are those before, cleaned up for a copy, with the padded source at the backing path |
| Controller.GadgetController.MountBegin | src/usb_floppy_pi/gadget/controller.py:83-122 | outcome and whole state of the first segment |
| Controller.GadgetController.MountFinish | src/usb_floppy_pi/gadget/controller.py:124-135 | outcome and whole state of the second |
| Controller.GadgetController.EjectDisk | src/usb_floppy_pi/gadget/controller.py:137-140 | outcome and whole state of an eject |
| Controller.GadgetController.HostEjectDisk | kernel/f_floppy.c:1476-1524 | an eject by the host takes the medium exactly if there is one and the door is open, and nothing else changes |
| Controller.GadgetController.Interleave | src/usb_floppy_pi/gadget/controller.py:83-140 | any interleaving comes to what the run on values comes to, outcome by outcome, and agrees whenever the last effective one went well |

## Left out

Assumed of the surroundings:

- Endpoint submissions are accepted and every transfer completes; bulk-out requests complete in the order they were queued, and the host sends on bulk-out only after all it was sent on bulk-in has arrived. Stalls, wedges and halts are not modelled (`can_stall` is false, as deployed).
- The bulk-out packet size divides the buffer size and stays the same over a configuration change.
- There is one logical unit, number 0; commands to other units find none. Its block size divides 16384.
- A stretch of a run is either free of resets, configuration changes and signals from outside (`Port.disturbed` is false) or may have them at any step; the account with the host is claimed for the first kind, which may follow the second (`Thread.RunFromQuiet`), everything else for both.
- A bulk-in transfer puts on the wire what its buffer held when it was submitted, all of it unless an exception cancels the transfer.
- Signals that arrive inside `kernel_write` are seen after the bytes written have been accounted for.
- `store_ro` on a unit without a medium can overlap a command, because it takes the lock for reading; in `Engine` it happens before or after the command, in `FileSem` in between. The forced eject's unlocked write to the door lock is one step with the eject in `Storage`, and a step of its own in `FileSem`.
- Reads and writes of image files by anybody but the thread, and failures of the daemon's own file operations, do not happen; the host does not write to a mounted image while the daemon's runs in `Controller` are observed, and what may be opened stays the same.

Not modelled:

- Descriptors, binding, configfs and device attributes, module parameters, packaging and `kernel/g_floppy_main.c`.
- The bytes of INQUIRY, READ HEADER and READ TOC replies: only their lengths and refusals.
- Cache control: fsync, invalidation, FUA and O_SYNC; `nofua`, `cdrom`, `removable` and `inquiry_string` writers.
- Memory ordering, the freezer, actual sleeping and the upper ends of `usleep_range`; wrap-around of ep0 tags and of 64-bit totals.
- Failure to allocate the buffers, and a gadget whose submissions are shut down in the middle of a command.
- The seeds of the sound commands and their rendering, the web interface, the watcher, the library, the normalizer, configuration files, MockBackend and ConfigFsBackend.
- The completion of the ep0 status stage after a reset request.
- Commands.FixedReply: states no bytes, because it stands for INQUIRY, whose text is an attribute, and for the two replies only a CD-ROM has.
- Controller.GadgetController.Interleave: promises agreement only after operations that returned normally, because a failed write leaves the link and the unit as far as it got.
- Drive.Play: bounds seek delays only for drives of at most 2^32 - 2^23 sectors, because beyond that a last block number can exceed 32 bits and the counter is wrong.
