/**
  * The undo history: the stacks saved before each change, oldest first.
  */
module Repository {
  import opened Wrappers

  class StackHistoryRepo {
    var snapshots: seq<seq<real>>

    constructor ()
      ensures snapshots == []
    {
      snapshots := [];
    }

    /** Saves a copy of the stack as the most recent snapshot. */
    method Save(stack: seq<real>)
      modifies this
      ensures snapshots == old(snapshots) + [stack]
    {
      snapshots := snapshots + [stack];
    }

    /** Takes back the most recent snapshot; None when nothing is saved. */
    method Restore() returns (saved: Option<seq<real>>)
      modifies this
      ensures old(snapshots) == [] ==> saved == None && snapshots == []
      ensures old(snapshots) != [] ==>
        saved == Some(old(snapshots)[|old(snapshots)| - 1]) &&
        snapshots == old(snapshots)[..|old(snapshots)| - 1]
    {
      if snapshots == [] {
        saved := None;
      } else {
        saved := Some(snapshots[|snapshots| - 1]);
        snapshots := snapshots[..|snapshots| - 1];
      }
    }
  }
}
