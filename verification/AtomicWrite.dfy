/**
 * `atomicWrite` over a file system that keeps renames and contents back until they are synced: at no
 * point of it can a reader, or a power cut, meet anything but the contents that were possible before
 * and the new ones, whole. The journal write of the manager is derived from it.
 */
module AtomicWrite {
  import opened Configuration
  import opened Faults
  import opened Journal
  import opened Manager

  type Bytes = seq<nat>

  /** How a system call ends; after `Dies` the process is gone, with or without the call's effect. */
  datatype Reply = Success(count: nat) | Interrupted | Refused | Dies(after: bool)

  datatype Ending = Returned | Raised | Killed

  /** What a power cut can make of contents that were never synced. */
  function Torn(content: Bytes): set<Option<Bytes>> {
    set k | 0 <= k <= |content| :: Some(content[..k])
  }

  class StateFile {
    /** What a reader finds under the name now, and what it may find after a power cut. */
    var target: Option<Bytes>
    var onDisk: set<Option<Bytes>>
    var temporary: Option<Bytes>
    var synced: bool
    var unlinkFailed: bool
    var replies: seq<Reply>

    constructor (content: Option<Bytes>, replies: seq<Reply>)
      ensures target == content && onDisk == {content} && temporary == None && this.replies == replies
    {
      target, onDisk, temporary, synced, unlinkFailed := content, {content}, None, false, false;
      this.replies := replies;
    }

    /** The journal file and what a power cut may leave of it, as they were. */
    twostate predicate Untouched()
      reads this
    {
      target == old(target) && onDisk == old(onDisk)
    }

    method Call() returns (r: Reply)
      modifies this`replies
      ensures old(replies) == [] ==> r.Success? && replies == []
      ensures old(replies) != [] ==> old(replies) == [r] + replies
    {
      if replies == [] { return Success(0); }
      r, replies := replies[0], replies[1..];
    }

    /** The write loop: short counts advance it, interruptions repeat it. */
    method WriteAll(value: Bytes) returns (end: Ending)
      requires temporary == Some([])
      modifies this`temporary, this`replies, this`synced
      ensures end.Returned? ==> temporary == Some(value)
      ensures old(replies) == [] ==> end.Returned? && replies == []
    {
      var rest := value;
      synced := false;
      while rest != []
        invariant temporary.Some? && temporary.value + rest == value
        invariant old(replies) == [] ==> replies == []
        decreases |replies|, |rest|
      {
        if replies == [] {
          temporary, rest := Some(temporary.value + rest), [];
        } else {
          var r := Call();
          match r
          case Interrupted =>
          case Refused => return Raised;
          case Dies(_) => return Killed;
          case Success(count) =>
            if count == 0 { return Raised; }
            var n := if count < |rest| then count else |rest|;
            temporary, rest := Some(temporary.value + rest[..n]), rest[n..];
        }
      }
      assert temporary.value + [] == temporary.value;
      return Returned;
    }

    method Sync() returns (end: Ending)
      modifies this`synced, this`replies
      ensures end.Returned? ==> synced
      ensures old(replies) == [] ==> end.Returned? && replies == []
    {
      var r := Call();
      if r.Dies? { return Killed; }
      if !r.Success? { return Raised; }
      synced := true;
      return Returned;
    }

    /** The new name may or may not reach the disk; unsynced contents may reach it torn. */
    method Rename() returns (end: Ending)
      requires temporary.Some?
      modifies this`target, this`onDisk, this`temporary, this`replies
      ensures Untouched() || (synced ==> target == old(temporary) && onDisk == old(onDisk) + {old(temporary)})
      ensures end.Returned? ==>
                target == old(temporary) && temporary == None && (synced ==> onDisk == old(onDisk) + {old(temporary)})
      ensures end.Raised? ==> Untouched()
      ensures old(replies) == [] ==> end.Returned? && replies == []
    {
      var r := Call();
      if r.Success? || (r.Dies? && r.after) {
        onDisk := onDisk + {temporary} + if synced then {} else Torn(temporary.value);
        target, temporary := temporary, None;
        return if r.Success? then Returned else Killed;
      }
      return if r.Dies? then Killed else Raised;
    }

    method SyncDirectory() returns (end: Ending)
      modifies this`onDisk, this`replies
      ensures end.Returned? ==> onDisk == {target}
      ensures !end.Returned? ==> onDisk == old(onDisk)
      ensures old(replies) == [] ==> end.Returned? && replies == []
    {
      var r := Call();
      if r.Dies? { return Killed; }
      if !r.Success? { return Raised; }
      onDisk := {target};
      return Returned;
    }

    /** The catch block; the result of `unlink` is not looked at. */
    method Unlink()
      modifies this`temporary, this`unlinkFailed, this`replies
      ensures temporary.Some? ==> unlinkFailed
    {
      var r := Call();
      unlinkFailed := !r.Success?;
      if r.Success? { temporary := None; }
    }

    /**
     * Normal return means the new contents, and that no power cut brings others back. Otherwise all
     * is as it was, or the new contents are in place and what was possible before still is. An
     * exception leaves a temporary file behind only if `unlink` fails too.
     */
    method Write(value: Bytes) returns (end: Ending)
      requires target in onDisk
      modifies this
      ensures target in onDisk && onDisk <= old(onDisk) + {Some(value)}
      ensures end.Returned? ==> target == Some(value) && onDisk == {target} && temporary == None
      ensures !end.Returned? ==> Untouched() || (target == Some(value) && onDisk == old(onDisk) + {Some(value)})
      ensures end.Raised? && temporary.Some? ==> unlinkFailed
      ensures old(replies) == [] ==> end.Returned?
    {
      var r := Call();
      temporary := None;
      if r.Dies? { return Killed; }
      if !r.Success? { return Raised; }
      temporary := Some([]);
      end := WriteAll(value);
      if end.Returned? { end := Sync(); }
      if end.Returned? { end := Rename(); }
      if end.Returned? { end := SyncDirectory(); }
      if end.Raised? { Unlink(); }
    }
  }

  // ---------------------------------------------------------------------------------------------
  // The journal's view of it
  // ---------------------------------------------------------------------------------------------

  function Encoded(encode: State -> Bytes, journal: Option<State>): Option<Bytes> {
    if journal.None? then None else Some(encode(journal.value))
  }

  /** The file holds the journal of the disk, and a power cut leaves of it what the disk says it may. */
  ghost predicate Holds(file: StateFile, encode: State -> Bytes, d: Disk)
    reads file
  {
    && file.target == Encoded(encode, d.journal)
    && file.onDisk == set j | j in Possible(d) :: Encoded(encode, j)
  }

  ghost predicate Ends(end: Ending, out: Outcome) {
    match end
    case Returned => out.Ok?
    case Raised => out.Threw?
    case Killed => out.Crashed?
  }

  ghost predicate Explains(m: Memory, w: World, fate: Fate, end: Ending, file: StateFile, encode: State -> Bytes)
    reads file
  {
    var r := Persist(m, w.(fates := [fate]));
    Ends(end, r.out) && Holds(file, encode, r.w.live)
  }

  /**
   * `persist` through `atomicWrite`: however the system calls turn out, one of the fates of `Persist`
   * gives that ending, that journal, and exactly the journals that a power cut may bring back.
   */
  method PersistThrough(file: StateFile, encode: State -> Bytes, m: Memory, w: World)
      returns (end: Ending, ghost fate: Fate)
    requires !m.storageFailed && Holds(file, encode, w.live)
    modifies file
    ensures Explains(m, w, fate, end, file, encode)
    ensures old(file.replies) == [] ==> end.Returned? && fate.Done?
  {
    ghost var before := file.onDisk;
    assert Encoded(encode, w.live.journal) in before;
    end := file.Write(encode(m.state));
    fate := Done;
    if !end.Returned? {
      ghost var untouched := file.target == Encoded(encode, w.live.journal) && file.onDisk == before;
      ghost var at := if untouched then Point.Before else Midway;
      fate := if end.Raised? then Throw(at) else Crash(at);
      NewPossible(encode, w.live, Some(m.state));
    }
  }

  lemma NewPossible(encode: State -> Bytes, d: Disk, journal: Option<State>)
    ensures (set j | j in Possible(Unsynced(d, journal)) :: Encoded(encode, j)) ==
            (set j | j in Possible(d) :: Encoded(encode, j)) + {Encoded(encode, journal)}
  {
  }
}
