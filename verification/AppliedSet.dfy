/** The agent's record of the commands it applied: in memory, in flight to disk, and on disk. */
module AppliedSet {
  import opened Entities

  const APPLIED_RETAINED := 200

  /** `ids.slice(-APPLIED_RETAINED)` */
  function Newest(ids: seq<CommandId>): (r: seq<CommandId>)
    ensures forall id | id in r :: id in ids
  {
    if |ids| <= APPLIED_RETAINED then ids else ids[|ids| - APPLIED_RETAINED..]
  }

  /** One write of the applied list. `serial` counts the commands this agent had finished when it was requested. */
  datatype Save = Save(ids: seq<CommandId>, serial: nat)

  /** The durable file: absent, cut short or not a list of ids, or the last write that landed. */
  datatype File = NoList | Holds(save: Save)

  /** What `load` makes of the file; a read that fails is an empty list too. */
  function Load(file: File, readable: bool): seq<CommandId> {
    if readable && file.Holds? then file.save.ids else []
  }

  ghost predicate NoRepeats(ids: seq<CommandId>) {
    forall i, j | 0 <= i < j < |ids| :: ids[i] != ids[j]
  }

  /** The save requested when this many handlers had finished. */
  function SaveOf(ids: seq<CommandId>, finishes: nat): Save {
    Save(Newest(ids), finishes)
  }

  /** What a reload of a landed save knows: exactly the last 200 ids there were. */
  lemma ReloadKnowsNewest(ids: seq<CommandId>, finishes: nat, id: CommandId)
    ensures id in Load(Holds(SaveOf(ids, finishes)), true) <==>
      exists k :: 0 <= k < |ids| && |ids| - APPLIED_RETAINED <= k && ids[k] == id
  {
    if |ids| > APPLIED_RETAINED {
      var newest := Newest(ids);
      assert forall k | 0 <= k < |newest| :: newest[k] == ids[|ids| - APPLIED_RETAINED + k];
      assert forall k | |ids| - APPLIED_RETAINED <= k < |ids| :: ids[k] == newest[k - (|ids| - APPLIED_RETAINED)];
    }
  }
}
