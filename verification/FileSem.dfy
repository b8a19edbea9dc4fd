// filesem as a reader/writer lock, with the gadget thread and any number of
// sysfs writers interleaved at every acquisition and release.
//
// Agent 0 is the gadget thread; every other number is a sysfs writer.
module FileSem {
  import opened Base

  // A medium is identified by a number; None is an empty drive.
  datatype Medium = Medium(file: Option<nat>, ro: bool)

  // Where the gadget thread is.  Using: between check_command and the end of a
  // command, with the medium check_command saw.  The hand-over of do_start_stop
  // gives the read lock up, takes the write lock, closes the medium, gives the
  // write lock up, and takes the read lock again.
  datatype Gadget = Away | Using(seen: Medium) | Released | Closing | Closed | Back

  // Where a sysfs writer is.  Admitted: it has seen the door unlocked, which it
  // checks before it takes the lock.
  datatype Writer =
    | Out
    | Admitted(load: Option<nat>)
    | Swapping(load: Option<nat>)
    | WantsRo(value: bool)
    | SettingRo(value: bool)

  datatype State = State(
    readers: set<nat>, writer: Option<nat>, gadget: Gadget, writers: map<nat, Writer>,
    medium: Medium, prevent: bool)

  function At(s: State, w: nat): Writer {
    if w in s.writers then s.writers[w] else Out
  }

  datatype Action =
    | BeginCommand | Prevent(on: bool) | EndCommand | Restart
    | GiveUp | TakeWrite | Close | TakeRead
    | Unlock(w: nat) | Admit(w: nat, load: Option<nat>) | Lock(w: nat)
    | Swap(w: nat, load: Option<nat>, opens: bool)
    | AskRo(w: nat, value: bool) | LockRo(w: nat) | SetRo(w: nat)

  predicate CanRead(s: State) {
    s.writer == None
  }

  predicate CanWrite(s: State) {
    s.writer == None && s.readers == {}
  }

  // The action is possible in s.
  predicate Enabled(s: State, a: Action) {
    match a
    case BeginCommand => s.gadget == Away && CanRead(s)
    case Prevent(_) => s.gadget.Using?
    case EndCommand => s.gadget.Using? || s.gadget == Back
    case Restart => s.gadget == Away
    case GiveUp => s.gadget.Using? && !s.prevent
    case TakeWrite => s.gadget == Released && CanWrite(s)
    case Close => s.gadget == Closing
    case TakeRead => s.gadget == Closed && CanRead(s)
    case Admit(w, _) => w != 0 && At(s, w) == Out && !(s.prevent && s.medium.file.Some?)
    case Unlock(w) => w != 0 && At(s, w) == Out
    case Lock(w) => w != 0 && At(s, w).Admitted? && CanWrite(s)
    case Swap(w, load, _) => w != 0 && At(s, w) == Swapping(load)
    case AskRo(w, _) => w != 0 && At(s, w) == Out
    case LockRo(w) => w != 0 && At(s, w).WantsRo? && CanRead(s)
    case SetRo(w) => w != 0 && At(s, w).SettingRo?
  }

  function Move(s: State, w: nat, to: Writer): State {
    s.(writers := s.writers[w := to])
  }

  // What it does.  `Restart` is what an exception does to the door, `Unlock` the first
  // half of a forced eject.  `Swap` opens the new file, if it can be opened, or closes the
  // old one, and releases the lock; `SetRo` changes the flag only while no file is
  // attached.
  function Do(s: State, a: Action): State
    requires Enabled(s, a)
  {
    match a
    case BeginCommand => s.(readers := s.readers + {0}, gadget := Using(s.medium))
    case Prevent(on) => s.(prevent := on)
    case EndCommand => s.(readers := s.readers - {0}, gadget := Away)
    case Restart => s.(prevent := false)
    case GiveUp => s.(readers := s.readers - {0}, gadget := Released)
    case TakeWrite => s.(writer := Some(0), gadget := Closing)
    case Close => s.(writer := None, gadget := Closed, medium := s.medium.(file := None))
    case TakeRead => s.(readers := s.readers + {0}, gadget := Back)
    case Admit(w, load) => Move(s, w, Admitted(load))
    case Unlock(_) => s.(prevent := false)
    case Lock(w) => Move(s, w, Swapping(At(s, w).load)).(writer := Some(w))
    case Swap(w, load, opens) =>
      Move(s, w, Out).(writer := None, medium := s.medium.(file := if load.None? || opens then load else s.medium.file))
    case AskRo(w, value) => Move(s, w, WantsRo(value))
    case LockRo(w) => Move(s, w, SettingRo(At(s, w).value)).(readers := s.readers + {w})
    case SetRo(w) =>
      Move(s, w, Out).(readers := s.readers - {w},
        medium := if s.medium.file.Some? then s.medium else s.medium.(ro := At(s, w).value))
  }

  // Who holds the lock is who says so, readers and a writer never meet, and a
  // command finds the file that check_command saw, with its read-only flag.
  ghost predicate Inv(s: State) {
    && (s.writer.Some? ==> s.readers == {})
    && (0 in s.readers <==> s.gadget.Using? || s.gadget == Back)
    && (s.writer == Some(0) <==> s.gadget == Closing)
    && (forall w: nat | w != 0 :: w in s.readers <==> At(s, w).SettingRo?)
    && (forall w: nat | w != 0 :: s.writer == Some(w) <==> At(s, w).Swapping?)
    && (s.gadget.Using? ==> s.medium.file == s.gadget.seen.file)
    && (s.gadget.Using? && s.medium.file.Some? ==> s.medium == s.gadget.seen)
  }

  lemma StepKeeps(s: State, a: Action)
    requires Inv(s) && Enabled(s, a)
    ensures Inv(Do(s, a))
  {
  }

  // A run: the states an execution goes through.
  ghost predicate Run(states: seq<State>, actions: seq<Action>) {
    && |states| == |actions| + 1 && Inv(states[0])
    && forall i | 0 <= i < |actions| :: Goes(states, actions, i)
  }

  ghost predicate Goes(states: seq<State>, actions: seq<Action>, i: nat)
    requires i < |actions| && |states| == |actions| + 1
  {
    Enabled(states[i], actions[i]) && states[i + 1] == Do(states[i], actions[i])
  }

  lemma {:induction false} RunKeeps(states: seq<State>, actions: seq<Action>, i: nat)
    requires Run(states, actions) && i < |states|
    ensures Inv(states[i])
  {
    if i > 0 {
      RunKeeps(states, actions, i - 1);
      assert Goes(states, actions, i - 1);
      StepKeeps(states[i - 1], actions[i - 1]);
    }
  }

  // As long as the thread stays inside one command without handing the lock
  // over, nobody swaps or closes the medium, nor changes whether an attached file
  // may be written.
  lemma {:induction false} MediumStays(states: seq<State>, actions: seq<Action>, i: nat, j: nat)
    requires Run(states, actions) && i <= j < |states|
    requires forall k | i <= k <= j :: states[k].gadget.Using?
    ensures states[j].medium.file == states[i].medium.file
    ensures states[i].medium.file.Some? ==> states[j].medium == states[i].medium
    decreases j
  {
    if i < j {
      MediumStays(states, actions, i, j - 1);
      RunKeeps(states, actions, j - 1);
      assert Goes(states, actions, j - 1);
      assert states[j - 1].gadget.Using? && states[j].gadget.Using?;
      UsingStays(states[j - 1], actions[j - 1]);
    }
  }

  lemma UsingStays(s: State, a: Action)
    requires Inv(s) && Enabled(s, a) && s.gadget.Using? && Do(s, a).gadget.Using?
    ensures Do(s, a).medium.file == s.medium.file
    ensures s.medium.file.Some? ==> Do(s, a).medium == s.medium
  {
  }

  // The action changes what is attached, and leaves this.
  predicate Changes(a: Action) {
    a == Close || (a.Swap? && (a.load.None? || a.opens))
  }

  function Left(a: Action): Option<nat> {
    if a.Swap? then a.load else None
  }

  // The file that is attached after actions i to j - 1, if f was attached before.
  function FileAfter(f: Option<nat>, actions: seq<Action>, i: nat, j: nat): Option<nat>
    requires j <= |actions|
    decreases j
  {
    if j <= i then f
    else if Changes(actions[j - 1]) then Left(actions[j - 1])
    else FileAfter(f, actions, i, j - 1)
  }

  // Whether the door is locked after them.
  function DoorAfter(locked: bool, actions: seq<Action>, i: nat, j: nat): bool
    requires j <= |actions|
    decreases j
  {
    if j <= i then locked
    else
      match actions[j - 1]
      case Prevent(on) => on
      case Restart => false
      case Unlock(_) => false
      case _ => DoorAfter(locked, actions, i, j - 1)
  }

  // What became of the medium and of the door is in the actions.
  lemma {:induction false} InTheActions(states: seq<State>, actions: seq<Action>, i: nat, j: nat)
    requires Run(states, actions) && i <= j < |states|
    ensures states[j].medium.file == FileAfter(states[i].medium.file, actions, i, j)
    ensures states[j].prevent == DoorAfter(states[i].prevent, actions, i, j)
    decreases j
  {
    if i < j {
      InTheActions(states, actions, i, j - 1);
      assert Goes(states, actions, j - 1);
    }
  }

  // ------------------------------------------------------ the door

  // The action of a writer takes a medium out although the host has locked the door
  // on it.
  predicate SwapsLocked(s: State, a: Action) {
    a.Swap? && Changes(a) && s.prevent && s.medium.file.Some?
  }

  // Somebody locks the door, or loads a medium.
  predicate Locks(actions: seq<Action>, i: nat, j: nat)
    requires j <= |actions|
  {
    exists k | i <= k < j :: actions[k] == Prevent(true)
  }

  predicate Loads(actions: seq<Action>, i: nat, j: nat)
    requires j <= |actions|
  {
    exists k | i <= k < j :: actions[k].Swap? && actions[k].load.Some? && actions[k].opens
  }

  lemma {:induction false} LockedByPrevent(actions: seq<Action>, i: nat, j: nat)
    requires j <= |actions| && DoorAfter(false, actions, i, j)
    ensures Locks(actions, i, j)
    decreases j
  {
    if actions[j - 1] != Prevent(true) {
      LockedByPrevent(actions, i, j - 1);
    }
  }

  lemma {:induction false} AttachedByLoad(actions: seq<Action>, i: nat, j: nat)
    requires j <= |actions| && FileAfter(None, actions, i, j).Some?
    ensures Loads(actions, i, j)
    decreases j
  {
    var last := actions[j - 1];
    if !(last.Swap? && last.load.Some? && last.opens) {
      AttachedByLoad(actions, i, j - 1);
    }
  }

  // A writer takes a medium out behind a locked door exactly if it has none to put in or
  // one that can be opened, and, by what has happened since it looked at the door, the
  // door is locked and a medium is in the drive.  That takes somebody who locks the door or
  // loads a medium in the meantime.
  lemma DoorLockedExactly(states: seq<State>, actions: seq<Action>, w: nat, i: nat, j: nat)
    requires Run(states, actions) && i < j < |actions|
    requires actions[i].Admit? && actions[i].w == w && actions[j].Swap? && actions[j].w == w
    ensures SwapsLocked(states[j], actions[j])
            <==> && Changes(actions[j])
                 && DoorAfter(states[i].prevent, actions, i + 1, j)
                 && FileAfter(states[i].medium.file, actions, i + 1, j).Some?
    ensures SwapsLocked(states[j], actions[j]) ==> Locks(actions, i + 1, j) || Loads(actions, i + 1, j)
  {
    assert Goes(states, actions, i) && Goes(states, actions, j);
    InTheActions(states, actions, i + 1, j);
    if SwapsLocked(states[j], actions[j]) {
      if !states[i].prevent {
        LockedByPrevent(actions, i + 1, j);
      } else {
        AttachedByLoad(actions, i + 1, j);
      }
    }
  }

  // ------------------------------------------------------ the hand-over

  // A hand-over of do_start_stop: given up at i, taken again at j, closed at k.
  ghost predicate HandsOver(states: seq<State>, actions: seq<Action>, i: nat, j: nat, k: nat)
    requires Run(states, actions)
  {
    && i < j < k < |actions| && actions[i] == GiveUp && actions[j] == TakeWrite && actions[k] == Close
    && forall l | j < l <= k :: states[l].gadget == Closing
  }

  // While the thread holds the lock for writing, nobody swaps the medium.
  lemma {:induction false} NobodySwaps(states: seq<State>, actions: seq<Action>, j: nat, k: nat)
    requires Run(states, actions) && j <= k < |states|
    requires forall l | j <= l <= k :: states[l].gadget == Closing
    ensures states[k].medium.file == states[j].medium.file
    decreases k
  {
    if j < k {
      NobodySwaps(states, actions, j, k - 1);
      RunKeeps(states, actions, k - 1);
      assert Goes(states, actions, k - 1);
      assert states[k - 1].gadget == Closing && states[k].gadget == Closing;
    }
  }

  // Action l is the last of actions i to j - 1 that changes what is attached.
  predicate LastChange(actions: seq<Action>, i: nat, j: nat, l: int)
    requires j <= |actions|
  {
    i <= l < j && Changes(actions[l]) && forall m | l < m < j :: !Changes(actions[m])
  }

  lemma {:induction false} LastDecides(f: Option<nat>, actions: seq<Action>, i: nat, j: nat, l: int)
    requires j <= |actions| && LastChange(actions, i, j, l)
    ensures FileAfter(f, actions, i, j) == Left(actions[l])
    decreases j
  {
    if l < j - 1 {
      LastDecides(f, actions, i, j - 1, l);
    }
  }

  lemma {:induction false} SomeLast(f: Option<nat>, actions: seq<Action>, i: nat, j: nat) returns (l: int)
    requires j <= |actions|
    ensures LastChange(actions, i, j, l) || FileAfter(f, actions, i, j) == f
    decreases j
  {
    if j <= i {
      l := -1;
    } else if Changes(actions[j - 1]) {
      l := j - 1;
    } else {
      l := SomeLast(f, actions, i, j - 1);
    }
  }

  // The medium that is closed is another than the command saw exactly if the last
  // swap between the two locks, if there was one, has left another.
  lemma ClosesTheOneSeen(states: seq<State>, actions: seq<Action>, i: nat, j: nat, k: nat)
    requires Run(states, actions) && HandsOver(states, actions, i, j, k)
    ensures states[i].gadget.Using?
    ensures var seen := states[i].gadget.seen.file;
            states[k].medium.file != seen
            <==> exists l :: LastChange(actions, i + 1, j, l) && Left(actions[l]) != seen
  {
    assert Goes(states, actions, i) && Goes(states, actions, j);
    RunKeeps(states, actions, i);
    InTheActions(states, actions, i + 1, j);
    NobodySwaps(states, actions, j + 1, k);
    var seen := states[i].gadget.seen.file;
    var l := SomeLast(seen, actions, i + 1, j);
    forall m | LastChange(actions, i + 1, j, m)
      ensures FileAfter(seen, actions, i + 1, j) == Left(actions[m])
    {
      LastDecides(seen, actions, i + 1, j, m);
    }
  }

  // ------------------------------------------------------ runs in which it happens

  // A drive with this in it and nobody at work.
  function Drive(file: Option<nat>): State {
    State({}, None, Away, map[], Medium(file, false), false)
  }

  // A run that ends in this state.
  ghost predicate Ends(states: seq<State>, actions: seq<Action>, s: State) {
    Run(states, actions) && states[|actions|] == s
  }

  lemma GoesOn(states: seq<State>, actions: seq<Action>, s: State, a: Action) returns (more: seq<State>)
    requires Ends(states, actions, s) && Enabled(s, a)
    ensures Ends(more, actions + [a], Do(s, a)) && more == states + [Do(s, a)]
  {
    more := states + [Do(s, a)];
    forall i | 0 <= i <= |actions|
      ensures Goes(more, actions + [a], i)
    {
      if i < |actions| {
        assert Goes(states, actions, i);
      }
    }
  }

  // The host locks the door.
  lemma LocksDoor(states: seq<State>, actions: seq<Action>, s: State)
    returns (more: seq<State>, after: seq<Action>)
    requires Ends(states, actions, s) && s.gadget == Away && s.writer == None && s.readers == {}
    ensures after == actions + [BeginCommand, Prevent(true), EndCommand]
    ensures Ends(more, after, s.(prevent := true)) && states <= more
  {
    var s1 := Do(s, BeginCommand);
    var s2 := Do(s1, Prevent(true));
    more := GoesOn(states, actions, s, BeginCommand);
    more := GoesOn(more, actions + [BeginCommand], s1, Prevent(true));
    more := GoesOn(more, actions + [BeginCommand] + [Prevent(true)], s2, EndCommand);
    after := actions + [BeginCommand] + [Prevent(true)] + [EndCommand];
    assert after == actions + [BeginCommand, Prevent(true), EndCommand];
    assert s2.readers - {0} == s.readers;
  }

  // A writer that has looked at the door puts its medium in.
  lemma SwapsIn(states: seq<State>, actions: seq<Action>, s: State, w: nat, n: nat)
    returns (more: seq<State>, after: seq<Action>)
    requires Ends(states, actions, s) && w != 0 && At(s, w) == Admitted(Some(n)) && CanWrite(s)
    ensures after == actions + [Lock(w), Swap(w, Some(n), true)]
    ensures Ends(more, after, Move(s, w, Out).(medium := s.medium.(file := Some(n)))) && states <= more
    ensures s.prevent && s.medium.file.Some? ==> SwapsLocked(more[|actions| + 1], after[|actions| + 1])
  {
    var s1 := Do(s, Lock(w));
    more := GoesOn(states, actions, s, Lock(w));
    assert more[|actions| + 1] == s1;
    more := GoesOn(more, actions + [Lock(w)], s1, Swap(w, Some(n), true));
    after := actions + [Lock(w)] + [Swap(w, Some(n), true)];
    assert after == actions + [Lock(w), Swap(w, Some(n), true)];
    assert s1.writers[w := Out] == s.writers[w := Out];
  }

  // The host locks the door after writer 1 has looked at it: medium m is swapped out.
  lemma LockedLate(m: nat, n: nat) returns (states: seq<State>, actions: seq<Action>)
    ensures actions == [Admit(1, Some(n))] + [BeginCommand, Prevent(true), EndCommand]
                       + [Lock(1), Swap(1, Some(n), true)]
    ensures Run(states, actions) && states[0] == Drive(Some(m)) && SwapsLocked(states[5], actions[5])
  {
    var s := Drive(Some(m));
    states := GoesOn([s], [], s, Admit(1, Some(n)));
    var s1 := Do(s, Admit(1, Some(n)));
    states, actions := LocksDoor(states, [] + [Admit(1, Some(n))], s1);
    states, actions := SwapsIn(states, actions, s1.(prevent := true), 1, n);
  }

  // The door of an empty drive is locked all the time; two writers look at it, and
  // the second swaps out what the first has put in.
  lemma LockedEarly(m: nat, n: nat) returns (states: seq<State>, actions: seq<Action>)
    ensures actions == [BeginCommand, Prevent(true), EndCommand] + [Admit(1, Some(m))] + [Admit(2, Some(n))]
                       + [Lock(1), Swap(1, Some(m), true)] + [Lock(2), Swap(2, Some(n), true)]
    ensures Run(states, actions) && states[0] == Drive(None) && SwapsLocked(states[8], actions[8])
  {
    var s := Drive(None);
    states, actions := LocksDoor([s], [], s);
    var s1 := s.(prevent := true);
    var s2 := Do(s1, Admit(1, Some(m)));
    var s3 := Do(s2, Admit(2, Some(n)));
    states := GoesOn(states, actions, s1, Admit(1, Some(m)));
    states := GoesOn(states, actions + [Admit(1, Some(m))], s2, Admit(2, Some(n)));
    states, actions := SwapsIn(states, actions + [Admit(1, Some(m))] + [Admit(2, Some(n))], s3, 1, m);
    states, actions := SwapsIn(states, actions, Move(s3, 1, Out).(medium := s3.medium.(file := Some(m))), 2, n);
  }

  // Another medium comes in during the hand-over, and is the one that is closed.
  lemma HandedOver(m: nat, n: nat) returns (states: seq<State>, actions: seq<Action>)
    ensures actions == [Admit(1, Some(n))] + [BeginCommand] + [GiveUp] + [Lock(1), Swap(1, Some(n), true)]
                       + [TakeWrite]
    ensures Run(states, actions) && states[0] == Drive(Some(m))
    ensures states[2].gadget == Using(Medium(Some(m), false))
    ensures states[6].gadget == Closing && states[6].medium.file == Some(n)
  {
    var s := Drive(Some(m));
    var s1 := Do(s, Admit(1, Some(n)));
    var s2 := Do(s1, BeginCommand);
    var s3 := Do(s2, GiveUp);
    states := GoesOn([s], [], s, Admit(1, Some(n)));
    states := GoesOn(states, [] + [Admit(1, Some(n))], s1, BeginCommand);
    states := GoesOn(states, [] + [Admit(1, Some(n))] + [BeginCommand], s2, GiveUp);
    states, actions := SwapsIn(states, [] + [Admit(1, Some(n))] + [BeginCommand] + [GiveUp], s3, 1, n);
    states := GoesOn(states, actions, Move(s3, 1, Out).(medium := s3.medium.(file := Some(n))), TakeWrite);
    actions := actions + [TakeWrite];
  }
}
