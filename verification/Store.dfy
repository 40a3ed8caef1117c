/** The atomic single-file store.  It keeps apart what is visible from what would survive a
    power loss, and a save is a sequence of single steps that a countdown can stop anywhere. */
module Store {
  import opened Wrappers

  /** File contents: a complete serialized state, or anything else. */
  datatype File<+S> = Json(state: S) | Torn

  /** A file: what a reader sees, and what would survive a power loss. */
  datatype Inode<+S> = Inode(data: File<S>, stable: File<S>)

  class CheckpointStore<S> {
    /** The file the path names now, and the one it would name after a power loss. */
    var visible: Option<Inode<S>>
    var durable: Option<Inode<S>>
    /** Temporary files left behind by crashes. */
    var orphans: nat

    /** No crash can expose a torn file. */
    ghost predicate Intact()
      reads this
    {
      && (visible.Some? ==> visible.value.data.Json? && visible.value.stable == visible.value.data)
      && (durable.Some? ==> durable.value.data.Json? && durable.value.stable == durable.value.data)
    }

    /** The state a reader gets. */
    function Stored(): Option<S>
      reads this
    {
      if visible.Some? && visible.value.data.Json? then Some(visible.value.data.state) else None
    }

    /** The state a reader would get after a power loss that loses the last rename. */
    function Fallback(): Option<S>
      reads this
    {
      if durable.Some? && durable.value.stable.Json? then Some(durable.value.stable.state) else None
    }

    constructor ()
      ensures Intact() && Stored() == None && Fallback() == None && orphans == 0
    {
      visible, durable, orphans := None, None, 0;
    }

    method Load() returns (s: Option<S>)
      ensures s == Stored()
    {
      s := if visible.None? then None
           else match visible.value.data
             case Json(state) => Some(state)
             case Torn => None;
    }

    /** Saves in five steps: create a temporary file, write, sync it, rename it over the
        path, sync the directory.  With `fuel` steps left it stops in front of step
        `fuel + 1`, leaving the disk as it is then. */
    method Save(state: S, fuel: nat) returns (left: nat, crashed: bool)
      requires Intact()
      modifies this
      ensures Intact()
      ensures crashed == (fuel < 5) && (!crashed ==> left == fuel - 5)
      ensures Stored() == (if fuel < 4 then old(Stored()) else Some(state))
      ensures Fallback() == (if fuel < 5 then old(Fallback()) else Some(state))
      ensures orphans == old(orphans) + (if 1 <= fuel < 4 then 1 else 0)
    {
      left := 0;
      if fuel == 0 { return 0, true; }
      orphans := orphans + 1;                               // created, not yet consumed
      if fuel == 1 { return 0, true; }
      var temp := Inode(Json(state), Torn);                 // written, not yet stable
      if fuel == 2 { return 0, true; }
      temp := temp.(stable := temp.data);                   // file synced
      if fuel == 3 { return 0, true; }
      visible, orphans := Some(temp), orphans - 1;          // renamed over the path
      if fuel == 4 { return 0, true; }
      durable := visible;                                   // directory synced
      return fuel - 5, false;
    }

    /** The machine comes back.  After a power loss the path names the old or the new file,
        whichever had reached the disk, with its stable contents. */
    method Reboot(powerLoss: bool, renameReached: bool)
      requires Intact()
      modifies this
      ensures Intact() && orphans == old(orphans)
      ensures Stored() == (if powerLoss && !renameReached then old(Fallback()) else old(Stored()))
      ensures Fallback() == (if powerLoss then Stored() else old(Fallback()))
    {
      if powerLoss {
        var survivor := if renameReached then visible else durable;
        visible := match survivor
          case None => None
          case Some(f) => Some(Inode(f.stable, f.stable));
        durable := visible;
      }
    }
  }
}
