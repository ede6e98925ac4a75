/**
 * The Particle Flow instance of the PRT Source's group dialog
 * (`particle_flow_events_dlg_proc_traits`): groups are event nodes, merged
 * by node, and the commit writes the object's event list.
 */
module PFEventsDialog {
  import opened PRTSource
  import opened GroupDialog

  /** An event is identified by its own node. */
  function EventNode(n: NodeRef): NodeRef
  {
    n
  }

  lemma HasEventNode(s: seq<NodeRef>, n: NodeRef)
    ensures HasKey(s, n, EventNode) <==> n in s
  {
    if n in s {
      var i :| 0 <= i < |s| && s[i] == n;
      assert EventNode(s[i]) == n;
    }
  }

  /**
   * `get_groups`: every event of the scene, then each selected event not
   * already listed, each once; null nodes are dropped, and an entry is
   * included iff its node is selected. The output starts out empty.
   */
  method GetGroups(all: seq<NodeRef>, selected: seq<NodeRef>) returns (out: seq<FilterEntry<NodeRef>>)
    ensures out == Entries(Merge(all, selected, EventNode), EventNode, selected)
    ensures forall i :: 0 <= i < |out| ==> out[i].item.Node? && (out[i].included <==> out[i].item in selected)
    ensures forall n: NodeRef :: n.Node? ==>
      ((exists i :: 0 <= i < |out| && out[i].item == n) <==> n in all || n in selected)
    ensures Distinct(all) ==> forall i, j :: 0 <= i < j < |out| ==> out[i].item != out[j].item
  {
    out := MergeGroups(all, selected, EventNode);
    forall i | 0 <= i < |out|
      ensures out[i].included <==> out[i].item in selected
    {
      HasEventNode(selected, out[i].item);
    }
    forall n: NodeRef | n.Node?
      ensures (exists i :: 0 <= i < |out| && out[i].item == n) <==> n in all || n in selected
    {
      MergedEntryKeys(all, selected, EventNode, n);
      HasEventNode(all, n);
      HasEventNode(selected, n);
      assert forall i :: 0 <= i < |out| ==> EventNode(out[i].item) == out[i].item;
    }
    if Distinct(all) {
      assert DistinctKeys(all, EventNode);
      MergeDistinct(all, selected, EventNode);
      EntriesDistinct(Merge(all, selected, EventNode), EventNode, selected);
      assert forall i :: 0 <= i < |out| ==> EventNode(out[i].item) == out[i].item;
    }
  }

  /**
   * The Add button: the entries of `get_groups` over the object's event
   * list, their include flags recorded, the edit dialog, then the commit.
   * The dialog is a function of the entries it is shown.
   */
  method AddPressed(list: EventList, all: seq<NodeRef>,
                    edit: seq<FilterEntry<NodeRef>> -> seq<FilterEntry<NodeRef>>, isParticleGroup: nat -> bool)
    modifies list
    ensures var groups := Entries(Merge(all, old(list.events), EventNode), EventNode, old(list.events));
      list.events == if Changed(IncludeFlags(groups), edit(groups)) then Readded(edit(groups), isParticleGroup)
                     else old(list.events)
  {
    var groups := GetGroups(all, list.events);
    var initial := InitialIncluded(groups);
    var committed := CommitEdit(list, initial, edit(groups), isParticleGroup);
  }

  /** Closing the edit dialog without toggling anything leaves the event list as it was. */
  lemma UneditedKeepsList(groups: seq<FilterEntry<NodeRef>>)
    ensures !Changed(IncludeFlags(groups), groups)
  {
    ChangedIffFlagsDiffer(IncludeFlags(groups), groups);
  }
}
