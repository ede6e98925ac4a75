/**
 * The dialog procedure shared by the PRT Source's Particle Flow event list
 * and Thinking Particles group list (`group_dlg_proc_base`): the merged
 * group list the edit dialog is shown, the test for a change, the commit
 * that clears the object's list and re-adds the included groups, which
 * buttons are enabled, and relabelling the list box.
 *
 * A group is any value `T` whose identity is a scene reference given by
 * `key`; a null reference is `NodeRef.Null`.
 */
module GroupDialog {
  import opened PRTSource

  /** A `particle_group_filter_entry`: a group and its include flag. */
  datatype FilterEntry<T> = FilterEntry(item: T, included: bool)

  /** Some element of `s` has reference `k`. */
  predicate HasKey<T>(s: seq<T>, k: NodeRef, key: T -> NodeRef)
  {
    exists i :: 0 <= i < |s| && key(s[i]) == k
  }

  predicate DistinctKeys<T>(s: seq<T>, key: T -> NodeRef)
  {
    forall i, j :: 0 <= i < j < |s| ==> key(s[i]) != key(s[j])
  }

  lemma HasKeyAppend<T>(s: seq<T>, x: T, k: NodeRef, key: T -> NodeRef)
    ensures HasKey(s + [x], k, key) <==> HasKey(s, k, key) || key(x) == k
  {
    if HasKey(s + [x], k, key) {
      var i :| 0 <= i < |s| + 1 && key((s + [x])[i]) == k;
      if i < |s| {
        assert key(s[i]) == k;
      }
    }
    if HasKey(s, k, key) {
      var i :| 0 <= i < |s| && key(s[i]) == k;
      assert key((s + [x])[i]) == k;
    }
    if key(x) == k {
      assert key((s + [x])[|s|]) == k;
    }
  }

  // ---------------------------------------------------------------------------
  // get_groups: all groups, then the selected ones not among them
  // ---------------------------------------------------------------------------

  /**
   * The merged list of `get_groups`: the groups of the scene, followed by
   * each selected group whose reference is not yet in the list.
   */
  function Merge<T>(all: seq<T>, selected: seq<T>, key: T -> NodeRef): seq<T>
    decreases |selected|
  {
    if selected == [] then all
    else
      var m := Merge(all, selected[..|selected| - 1], key);
      var s := selected[|selected| - 1];
      if HasKey(m, key(s), key) then m else m + [s]
  }

  /** The entries built from the merged list: null references dropped, included iff selected. */
  function Entries<T>(m: seq<T>, key: T -> NodeRef, selected: seq<T>): (out: seq<FilterEntry<T>>)
    ensures |out| <= |m|
    ensures forall i :: 0 <= i < |out| ==> out[i].item in m && key(out[i].item).Node?
    ensures forall i :: 0 <= i < |out| ==> (out[i].included <==> HasKey(selected, key(out[i].item), key))
  {
    if m == [] then []
    else
      var rest := Entries(m[..|m| - 1], key, selected);
      var x := m[|m| - 1];
      if key(x).Node? then rest + [FilterEntry(x, HasKey(selected, key(x), key))] else rest
  }

  /** The merged list starts with every scene group, in order. */
  lemma {:induction false} MergeKeepsAll<T>(all: seq<T>, selected: seq<T>, key: T -> NodeRef)
    ensures |Merge(all, selected, key)| >= |all|
    ensures Merge(all, selected, key)[..|all|] == all
    decreases |selected|
  {
    if selected != [] {
      MergeKeepsAll(all, selected[..|selected| - 1], key);
    }
  }

  /** A reference is in the merged list iff it is a scene group's or a selected group's. */
  lemma {:induction false} MergeKeys<T>(all: seq<T>, selected: seq<T>, key: T -> NodeRef, k: NodeRef)
    ensures HasKey(Merge(all, selected, key), k, key) <==> HasKey(all, k, key) || HasKey(selected, k, key)
    decreases |selected|
  {
    if selected != [] {
      var p := selected[..|selected| - 1];
      var s := selected[|selected| - 1];
      var m := Merge(all, p, key);
      MergeKeys(all, p, key, k);
      HasKeyAppend(m, s, k, key);
      assert selected == p + [s];
      HasKeyAppend(p, s, k, key);
      if !HasKey(m, key(s), key) {
        assert Merge(all, selected, key) == m + [s];
      } else if key(s) == k {
        assert HasKey(m, k, key);
      }
    }
  }

  /** Each reference occurs once in the merged list when it occurs once among the scene groups. */
  lemma {:induction false} MergeDistinct<T>(all: seq<T>, selected: seq<T>, key: T -> NodeRef)
    requires DistinctKeys(all, key)
    ensures DistinctKeys(Merge(all, selected, key), key)
    decreases |selected|
  {
    if selected != [] {
      var m := Merge(all, selected[..|selected| - 1], key);
      var s := selected[|selected| - 1];
      MergeDistinct(all, selected[..|selected| - 1], key);
      if !HasKey(m, key(s), key) {
        var r := m + [s];
        forall i, j | 0 <= i < j < |r|
          ensures key(r[i]) != key(r[j])
        {
          if j == |m| {
            assert key(r[i]) == key(m[i]);
          }
        }
      }
    }
  }

  /** Every non-null group of the list has an entry. */
  lemma {:induction false} EntriesCover<T>(m: seq<T>, key: T -> NodeRef, selected: seq<T>, i: nat)
    requires i < |m| && key(m[i]).Node?
    ensures exists j :: 0 <= j < |Entries(m, key, selected)| && Entries(m, key, selected)[j].item == m[i]
  {
    var out := Entries(m, key, selected);
    var p := m[..|m| - 1];
    var rest := Entries(p, key, selected);
    if i == |m| - 1 {
      assert out[|out| - 1].item == m[i];
    } else {
      EntriesCover(p, key, selected, i);
      assert p[i] == m[i];
      var j :| 0 <= j < |rest| && rest[j].item == m[i];
      assert out[j] == rest[j];
    }
  }

  /** Distinct references in the list give distinct references in the entries. */
  lemma {:induction false} EntriesDistinct<T>(m: seq<T>, key: T -> NodeRef, selected: seq<T>)
    requires DistinctKeys(m, key)
    ensures forall i, j :: 0 <= i < j < |Entries(m, key, selected)| ==>
      key(Entries(m, key, selected)[i].item) != key(Entries(m, key, selected)[j].item)
  {
    if m != [] {
      var p := m[..|m| - 1];
      var x := m[|m| - 1];
      var rest := Entries(p, key, selected);
      assert DistinctKeys(p, key);
      EntriesDistinct(p, key, selected);
      if key(x).Node? {
        var out := rest + [FilterEntry(x, HasKey(selected, key(x), key))];
        forall i, j | 0 <= i < j < |out|
          ensures key(out[i].item) != key(out[j].item)
        {
          if j == |rest| {
            assert out[i] == rest[i];
            var q :| 0 <= q < |p| && p[q] == rest[i].item;
            assert key(m[q]) != key(m[|m| - 1]);
          }
        }
      }
    }
  }

  /** A non-null reference has an entry iff a scene group or a selected group has it. */
  lemma MergedEntryKeys<T>(all: seq<T>, selected: seq<T>, key: T -> NodeRef, k: NodeRef)
    requires k.Node?
    ensures var out := Entries(Merge(all, selected, key), key, selected);
      (exists i :: 0 <= i < |out| && key(out[i].item) == k) <==> HasKey(all, k, key) || HasKey(selected, k, key)
  {
    var m := Merge(all, selected, key);
    var out := Entries(m, key, selected);
    MergeKeys(all, selected, key, k);
    if HasKey(m, k, key) {
      var i :| 0 <= i < |m| && key(m[i]) == k;
      EntriesCover(m, key, selected, i);
      var q :| 0 <= q < |out| && out[q].item == m[i];
      assert key(out[q].item) == k;
    }
    if i :| 0 <= i < |out| && key(out[i].item) == k {
      var q :| 0 <= q < |m| && m[q] == out[i].item;
      assert key(m[q]) == k;
    }
  }

  /**
   * The list of `get_groups`, given the scene's groups and the object's
   * selected ones: starts from an empty list, merges by reference through a
   * set of seen references, and builds one entry per non-null group.
   */
  method MergeGroups<T>(all: seq<T>, selected: seq<T>, key: T -> NodeRef) returns (out: seq<FilterEntry<T>>)
    ensures out == Entries(Merge(all, selected, key), key, selected)
  {
    var allSet: set<NodeRef> := {};
    for i := 0 to |all|
      invariant forall k :: k in allSet <==> HasKey(all[..i], k, key)
    {
      assert all[..i + 1] == all[..i] + [all[i]];
      forall k ensures HasKey(all[..i + 1], k, key) <==> HasKey(all[..i], k, key) || key(all[i]) == k {
        HasKeyAppend(all[..i], all[i], k, key);
      }
      allSet := allSet + {key(all[i])};
    }
    assert all[..|all|] == all;
    var merged := all;
    var selectedSet: set<NodeRef> := {};
    for j := 0 to |selected|
      invariant merged == Merge(all, selected[..j], key)
      invariant forall k :: k in allSet <==> HasKey(merged, k, key)
      invariant forall k :: k in selectedSet <==> HasKey(selected[..j], k, key)
    {
      var s := selected[j];
      assert selected[..j + 1][..j] == selected[..j];
      assert selected[..j + 1] == selected[..j] + [s];
      forall k ensures HasKey(selected[..j + 1], k, key) <==> HasKey(selected[..j], k, key) || key(s) == k {
        HasKeyAppend(selected[..j], s, k, key);
      }
      if key(s) !in allSet {
        forall k ensures HasKey(merged + [s], k, key) <==> HasKey(merged, k, key) || key(s) == k {
          HasKeyAppend(merged, s, k, key);
        }
        merged := merged + [s];
        allSet := allSet + {key(s)};
      }
      selectedSet := selectedSet + {key(s)};
    }
    assert selected[..|selected|] == selected;
    out := [];
    for i := 0 to |merged|
      invariant out == Entries(merged[..i], key, selected)
    {
      var x := merged[i];
      assert merged[..i + 1][..i] == merged[..i];
      if key(x).Node? {
        out := out + [FilterEntry(x, key(x) in selectedSet)];
      }
    }
    assert merged[..|merged|] == merged;
  }

  // ---------------------------------------------------------------------------
  // has_selected_group, has_change
  // ---------------------------------------------------------------------------

  /** `has_selected_group`: some entry is included. */
  method HasSelectedGroup<T>(groups: seq<FilterEntry<T>>) returns (r: bool)
    ensures r <==> exists i :: 0 <= i < |groups| && groups[i].included
  {
    for i := 0 to |groups|
      invariant forall k :: 0 <= k < i ==> !groups[k].included
    {
      if groups[i].included {
        return true;
      }
    }
    return false;
  }

  /** The entries of `get_groups` include some group iff some selected group has a non-null reference. */
  lemma SomeGroupIncluded<T>(all: seq<T>, selected: seq<T>, key: T -> NodeRef)
    ensures var out := Entries(Merge(all, selected, key), key, selected);
      (exists i :: 0 <= i < |out| && out[i].included) <==> (exists j :: 0 <= j < |selected| && key(selected[j]).Node?)
  {
    var m := Merge(all, selected, key);
    var out := Entries(m, key, selected);
    if j :| 0 <= j < |selected| && key(selected[j]).Node? {
      MergeKeys(all, selected, key, key(selected[j]));
      var i :| 0 <= i < |m| && key(m[i]) == key(selected[j]);
      EntriesCover(m, key, selected, i);
      var q :| 0 <= q < |out| && out[q].item == m[i];
      assert out[q].included;
    }
    if i :| 0 <= i < |out| && out[i].included {
      var j :| 0 <= j < |selected| && key(selected[j]) == key(out[i].item);
      assert key(selected[j]).Node?;
    }
  }

  /** The include flags of a list of entries. */
  function IncludeFlags<T>(groups: seq<FilterEntry<T>>): (flags: seq<bool>)
    ensures |flags| == |groups| && forall i :: 0 <= i < |groups| ==> flags[i] == groups[i].included
  {
    seq(|groups|, i requires 0 <= i < |groups| => groups[i].included)
  }

  /** The list `initialIncludedList`: false for each entry, set to true for the included ones. */
  method InitialIncluded<T>(groups: seq<FilterEntry<T>>) returns (flags: seq<bool>)
    ensures flags == IncludeFlags(groups)
  {
    flags := seq(|groups|, _ => false);
    for i := 0 to |groups|
      invariant |flags| == |groups|
      invariant forall k :: 0 <= k < i ==> flags[k] == groups[k].included
      invariant forall k :: i <= k < |groups| ==> !flags[k]
    {
      if groups[i].included {
        flags := flags[i := true];
      }
    }
  }

  /** The sizes differ, or some entry's include flag differs from the recorded one. */
  predicate Changed<T>(initial: seq<bool>, groups: seq<FilterEntry<T>>)
  {
    |initial| != |groups| || exists i :: 0 <= i < |groups| && initial[i] != groups[i].included
  }

  /** `has_change`. */
  method HasChange<T>(initial: seq<bool>, groups: seq<FilterEntry<T>>) returns (r: bool)
    ensures r == Changed(initial, groups)
  {
    if |initial| != |groups| {
      return true;
    }
    for i := 0 to |groups|
      invariant forall k :: 0 <= k < i ==> initial[k] == groups[k].included
    {
      if initial[i] != groups[i].included {
        return true;
      }
    }
    return false;
  }

  /** A change is exactly a difference from the entries' own include flags. */
  lemma ChangedIffFlagsDiffer<T>(initial: seq<bool>, groups: seq<FilterEntry<T>>)
    ensures Changed(initial, groups) <==> initial != IncludeFlags(groups)
  {
    var flags := IncludeFlags(groups);
    if !Changed(initial, groups) {
      assert |initial| == |flags|;
      forall i | 0 <= i < |initial|
        ensures initial[i] == flags[i]
      {
      }
      assert initial == flags;
    }
    if initial != flags && |initial| == |groups| {
      var i :| 0 <= i < |groups| && initial[i] != flags[i];
      assert initial[i] != groups[i].included;
    }
  }

  // ---------------------------------------------------------------------------
  // The IDC_ADD commit on the Particle Flow event list
  // ---------------------------------------------------------------------------

  /** The event list after clearing it and adding each included entry's node in order. */
  function Readded(groups: seq<FilterEntry<NodeRef>>, isParticleGroup: nat -> bool): (events: seq<NodeRef>)
    ensures Distinct(events)
    ensures forall e :: e in events ==> e.Node? && isParticleGroup(e.id)
  {
    if groups == [] then []
    else
      var acc := Readded(groups[..|groups| - 1], isParticleGroup);
      var g := groups[|groups| - 1];
      if g.included && g.item.Node? && isParticleGroup(g.item.id) && g.item !in acc then
        assert forall i :: 0 <= i < |acc| ==> (acc + [g.item])[i] == acc[i];
        acc + [g.item]
      else acc
  }

  /** A node is in the re-added list iff some included entry holds it and it is a particle group. */
  lemma {:induction false} ReaddedMembers(groups: seq<FilterEntry<NodeRef>>, isParticleGroup: nat -> bool, n: NodeRef)
    ensures n in Readded(groups, isParticleGroup) <==>
      (n.Node? && isParticleGroup(n.id) && exists i :: 0 <= i < |groups| && groups[i].included && groups[i].item == n)
  {
    if groups != [] {
      var p := groups[..|groups| - 1];
      var g := groups[|groups| - 1];
      ReaddedMembers(p, isParticleGroup, n);
      if i :| 0 <= i < |groups| && groups[i].included && groups[i].item == n {
        if i < |p| {
          assert p[i] == groups[i];
        }
      }
      if i :| 0 <= i < |p| && p[i].included && p[i].item == n {
        assert groups[i] == p[i];
      }
    }
  }

  /** The included nodes, in order. */
  function IncludedItems(groups: seq<FilterEntry<NodeRef>>): seq<NodeRef>
  {
    if groups == [] then []
    else
      var g := groups[|groups| - 1];
      IncludedItems(groups[..|groups| - 1]) + (if g.included then [g.item] else [])
  }

  /** Distinct particle-group nodes are re-added exactly as included, in their order. */
  lemma {:induction false} ReaddedInOrder(groups: seq<FilterEntry<NodeRef>>, isParticleGroup: nat -> bool)
    requires Distinct(IncludedItems(groups))
    requires forall e :: e in IncludedItems(groups) ==> e.Node? && isParticleGroup(e.id)
    ensures Readded(groups, isParticleGroup) == IncludedItems(groups)
  {
    if groups != [] {
      var p := groups[..|groups| - 1];
      var g := groups[|groups| - 1];
      var inc := IncludedItems(groups);
      assert IncludedItems(p) == inc[..|IncludedItems(p)|];
      assert Distinct(IncludedItems(p));
      ReaddedInOrder(p, isParticleGroup);
      if g.included {
        assert inc[|inc| - 1] == g.item;
        assert g.item in inc;
        assert g.item !in IncludedItems(p);
      }
    }
  }

  /**
   * The commit after the edit dialog: only if the include flags changed,
   * clear the event list and re-add the included entries in order.
   */
  method CommitEdit(list: EventList, initial: seq<bool>, groups: seq<FilterEntry<NodeRef>>, isParticleGroup: nat -> bool)
    returns (committed: bool)
    modifies list
    ensures committed == Changed(initial, groups)
    ensures list.events == if committed then Readded(groups, isParticleGroup) else old(list.events)
  {
    committed := HasChange(initial, groups);
    if committed {
      list.ClearParticleFlowEvents();
      for i := 0 to |groups|
        invariant list.events == Readded(groups[..i], isParticleGroup)
      {
        assert groups[..i + 1][..i] == groups[..i];
        if groups[i].included {
          list.AddParticleFlowEvent(groups[i].item, isParticleGroup);
        }
      }
      assert groups[..|groups|] == groups;
    }
  }

  // ---------------------------------------------------------------------------
  // update_control_enable
  // ---------------------------------------------------------------------------

  /** The enabled state of the Add, Remove and Options buttons and of the list box. */
  datatype Controls = Controls(add: bool, remove: bool, options: bool, list: bool)

  /**
   * `update_control_enable`: nothing changes without the object, its
   * parameter block and map, or a window; otherwise Add, Options and the
   * list are enabled iff not in create mode and the filter mode is
   * SELECTED, and Remove also needs a selected list item.
   */
  function UpdateControlEnable(ready: bool, inCreateMode: bool, filterMode: int, filterModeSelected: int,
                               hasListBox: bool, selCount: int, current: Controls): (c: Controls)
    ensures !ready ==> c == current
    ensures ready ==> (c.add <==> !inCreateMode && filterMode == filterModeSelected)
    ensures ready ==> c.options == c.add && c.list == c.add
    ensures ready ==> (c.remove <==> c.add && hasListBox && selCount > 0)
  {
    if !ready then current
    else
      var hasSelectedItem := hasListBox && selCount > 0;
      var useSelected := filterMode == filterModeSelected;
      var enabled := !inCreateMode && useSelected;
      Controls(enabled, hasSelectedItem && enabled, enabled, enabled)
  }

  // ---------------------------------------------------------------------------
  // invalidate_group_list_labels
  // ---------------------------------------------------------------------------

  /** A multi-selection list box: its strings, selected indices and top index. */
  class ListBox {
    var strings: seq<string>
    var selection: seq<int>
    var topIndex: int

    constructor ()
      ensures strings == [] && selection == [] && topIndex == 0
    {
      strings, selection, topIndex := [], [], 0;
    }

    /** `ffListBox_SetStrings`: replaces the strings, which drops the selection and scrolls to the top. */
    method SetStrings(names: seq<string>)
      modifies this
      ensures strings == names && selection == [] && topIndex == 0
    {
      strings, selection, topIndex := names, [], 0;
    }

    method SetSelItems(s: seq<int>)
      modifies this
      ensures selection == s && strings == old(strings) && topIndex == old(topIndex)
    {
      selection := s;
    }

    method SetTopIndex(t: int)
      modifies this
      ensures topIndex == t && strings == old(strings) && selection == old(selection)
    {
      topIndex := t;
    }
  }

  /**
   * `invalidate_group_list_labels`: when the dialog is up, the list shows
   * the new names; the selection and scroll position survive iff the number
   * of names is unchanged.
   */
  method InvalidateGroupListLabels(ready: bool, list: ListBox, names: seq<string>)
    modifies list
    ensures !ready ==> (list.strings == old(list.strings) && list.selection == old(list.selection) &&
      list.topIndex == old(list.topIndex))
    ensures ready ==> list.strings == names
    ensures ready && |names| == |old(list.strings)| ==>
      (list.selection == old(list.selection) && list.topIndex == old(list.topIndex))
    ensures ready && |names| != |old(list.strings)| ==> list.selection == [] && list.topIndex == 0
  {
    if ready {
      if |names| == |list.strings| {
        var top := list.topIndex;
        var selection := list.selection;
        list.SetStrings(names);
        list.SetSelItems(selection);
        list.SetTopIndex(top);
      } else {
        list.SetStrings(names);
      }
    }
  }
}
