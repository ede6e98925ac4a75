/**
 * The Thinking Particles instance of the PRT Source's group dialog
 * (`tp_groups_dlg_proc_traits`): groups are `tp_group_info` records, merged
 * by their group reference.
 */
module TPGroupsDialog {
  import opened PRTSource
  import opened GroupDialog

  /** A `tp_group_info`: the Thinking Particles node, the group and its name. */
  datatype TPGroupInfo = TPGroupInfo(node: NodeRef, group: NodeRef, name: string)

  /** Groups are compared by their group reference alone. */
  function GroupOf(g: TPGroupInfo): NodeRef
  {
    g.group
  }

  /**
   * `get_groups`: every group of the scene, then each selected group whose
   * reference is not already listed, each once; records with a null group
   * are skipped, and an entry is included iff its group is selected. The
   * output starts out empty.
   */
  method GetGroups(selected: seq<TPGroupInfo>, all: seq<TPGroupInfo>) returns (out: seq<FilterEntry<TPGroupInfo>>)
    ensures out == Entries(Merge(all, selected, GroupOf), GroupOf, selected)
    ensures forall i :: 0 <= i < |out| ==> (out[i].item.group.Node? &&
      (out[i].included <==> exists j :: 0 <= j < |selected| && selected[j].group == out[i].item.group))
    ensures forall g: NodeRef :: g.Node? ==> ((exists i :: 0 <= i < |out| && out[i].item.group == g) <==>
      (exists j :: 0 <= j < |all| && all[j].group == g) || (exists j :: 0 <= j < |selected| && selected[j].group == g))
    ensures DistinctKeys(all, GroupOf) ==> forall i, j :: 0 <= i < j < |out| ==> out[i].item.group != out[j].item.group
  {
    out := MergeGroups(all, selected, GroupOf);
    forall i | 0 <= i < |out|
      ensures out[i].included <==> exists j :: 0 <= j < |selected| && selected[j].group == out[i].item.group
    {
      assert forall j :: 0 <= j < |selected| ==> GroupOf(selected[j]) == selected[j].group;
    }
    forall g: NodeRef | g.Node?
      ensures (exists i :: 0 <= i < |out| && out[i].item.group == g) <==>
        (exists j :: 0 <= j < |all| && all[j].group == g) || (exists j :: 0 <= j < |selected| && selected[j].group == g)
    {
      MergedEntryKeys(all, selected, GroupOf, g);
      assert forall i :: 0 <= i < |out| ==> GroupOf(out[i].item) == out[i].item.group;
      assert forall j :: 0 <= j < |all| ==> GroupOf(all[j]) == all[j].group;
      assert forall j :: 0 <= j < |selected| ==> GroupOf(selected[j]) == selected[j].group;
    }
    if DistinctKeys(all, GroupOf) {
      MergeDistinct(all, selected, GroupOf);
      EntriesDistinct(Merge(all, selected, GroupOf), GroupOf, selected);
      assert forall i :: 0 <= i < |out| ==> GroupOf(out[i].item) == out[i].item.group;
    }
  }
}
