/** `_group_rows`: database rows in key order, grouped by audio file, with optional boundaries. */
module Groups {
  import opened Wrappers
  import opened Text
  import opened Sorting

  datatype AudioKey = AudioKey(source: Text, file: Text)

  /** A row of `entries` as the builder reads it; ids are the non-negative primary keys. */
  datatype Entry = Entry(id: nat, key: AudioKey)

  datatype Group = Group(key: AudioKey, ids: seq<nat>)

  predicate KeyBefore(a: AudioKey, b: AudioKey) {
    Less(a.source, b.source) || (a.source == b.source && Less(a.file, b.file))
  }

  lemma KeyBeforeTransitive(a: AudioKey, b: AudioKey, c: AudioKey)
    requires KeyBefore(a, b) && KeyBefore(b, c)
    ensures KeyBefore(a, c)
  {
    if Less(a.source, b.source) && Less(b.source, c.source) {
      LessTransitive(a.source, b.source, c.source);
    } else if a.source == b.source && b.source == c.source {
      LessTransitive(a.file, b.file, c.file);
    }
  }

  lemma KeyBeforeIrreflexive(a: AudioKey)
    ensures !KeyBefore(a, a)
  {
    LessIrreflexive(a.source);
    LessIrreflexive(a.file);
  }

  lemma KeyBeforeTotal(a: AudioKey, b: AudioKey)
    ensures a == b || KeyBefore(a, b) || KeyBefore(b, a)
  {
    LessTotal(a.source, b.source);
    LessTotal(a.file, b.file);
  }

  lemma KeyBeforeAsymmetric(a: AudioKey, b: AudioKey)
    ensures !(KeyBefore(a, b) && KeyBefore(b, a))
  {
    if KeyBefore(a, b) && KeyBefore(b, a) {
      KeyBeforeTransitive(a, b, a);
      KeyBeforeIrreflexive(a);
    }
  }

  /** `ORDER BY source, file, id` over a table with unique ids. */
  ghost predicate OrderedEntries(rows: seq<Entry>) {
    && (forall i, j :: 0 <= i < j < |rows| ==>
          KeyBefore(rows[i].key, rows[j].key) || rows[i].key == rows[j].key)
    && (forall i, j :: 0 <= i < j < |rows| ==> rows[i].id != rows[j].id)
  }

  /** The WHERE clause of the two boundaries. */
  function Within(after: Option<AudioKey>, through: Option<AudioKey>): Entry -> bool {
    (row: Entry) =>
      && (after.Some? ==> KeyBefore(after.value, row.key))
      && (through.Some? ==> KeyBefore(row.key, through.value) || row.key == through.value)
  }

  function AddRow(groups: seq<Group>, row: Entry): seq<Group> {
    if groups != [] && groups[|groups| - 1].key == row.key
    then groups[..|groups| - 1] + [Group(row.key, groups[|groups| - 1].ids + [row.id])]
    else groups + [Group(row.key, [row.id])]
  }

  /** Runs of equal keys, in order. */
  function GroupsOf(rows: seq<Entry>): seq<Group> {
    if rows == [] then [] else AddRow(GroupsOf(rows[..|rows| - 1]), rows[|rows| - 1])
  }

  lemma GroupsAppend(rows: seq<Entry>, row: Entry)
    ensures GroupsOf(rows + [row]) == AddRow(GroupsOf(rows), row)
  {
    assert (rows + [row])[..|rows|] == rows;
  }

  lemma NoGroups()
    ensures GroupsOf([]) == []
  {
  }

  lemma AddRowYields(groups: seq<Group>, key: AudioKey, ids: seq<nat>, row: Entry)
    ensures AddRow(groups + [Group(key, ids)], row)
         == if key == row.key then groups + [Group(key, ids + [row.id])]
            else groups + [Group(key, ids)] + [Group(row.key, [row.id])]
  {
    assert (groups + [Group(key, ids)])[..|groups|] == groups;
  }

  /** `_group_rows`: a group is yielded when the key changes, and once more at the end. */
  method GroupRows(table: seq<Entry>, after: Option<AudioKey>, through: Option<AudioKey>)
    returns (groups: seq<Group>)
    ensures groups == GroupsOf(Keep(table, Within(after, through)))
  {
    hide Keep, Within, GroupsOf;
    var rows := Keep(table, Within(after, through));
    groups := [];
    NoGroups();
    assert rows[..0] == [];
    var currentKey: Option<AudioKey>, currentIds: seq<nat> := None, [];
    for k := 0 to |rows|
      invariant currentKey.None? <==> k == 0
      invariant currentKey.None? ==> groups == [] && currentIds == []
      invariant GroupsOf(rows[..k]) == if currentKey.None? then [] else groups + [Group(currentKey.value, currentIds)]
    {
      assert rows[..k + 1] == rows[..k] + [rows[k]];
      GroupsAppend(rows[..k], rows[k]);
      var row := rows[k];
      if currentKey.Some? {
        AddRowYields(groups, currentKey.value, currentIds, row);
      }
      assert [] + [row.id] == [row.id];
      hide AddRow;
      if currentKey.Some? && row.key != currentKey.value {
        groups := groups + [Group(currentKey.value, currentIds)];
        currentIds := [];
      }
      currentKey := Some(row.key);
      currentIds := currentIds + [row.id];
    }
    assert rows[..|rows|] == rows;
    if currentKey.Some? {
      groups := groups + [Group(currentKey.value, currentIds)];
    }
  }

  /* ---- What the groups of a table are. ---- */

  ghost predicate DistinctIds(ids: seq<nat>) {
    forall k, l :: 0 <= k < l < |ids| ==> ids[k] != ids[l]
  }

  ghost predicate GoodGroups(groups: seq<Group>) {
    && (forall i :: 0 <= i < |groups| ==> groups[i].ids != [] && DistinctIds(groups[i].ids))
    && (forall i, j :: 0 <= i < j < |groups| ==> KeyBefore(groups[i].key, groups[j].key))
    && (forall i, j, id :: 0 <= i < j < |groups| && id in groups[i].ids ==> id !in groups[j].ids)
  }

  /** Groups and rows say the same about every id. */
  ghost predicate GroupsCover(groups: seq<Group>, rows: seq<Entry>) {
    && (forall k :: 0 <= k < |rows| ==> InGroup(groups, rows[k]))
    && (forall i, id :: 0 <= i < |groups| && id in groups[i].ids ==> Entry(id, groups[i].key) in rows)
  }

  ghost predicate InGroup(groups: seq<Group>, row: Entry) {
    exists i :: 0 <= i < |groups| && groups[i].key == row.key && row.id in groups[i].ids
  }

  lemma OrderedPrefix(rows: seq<Entry>, n: nat)
    requires OrderedEntries(rows) && n <= |rows|
    ensures OrderedEntries(rows[..n]) && OrderedEntries(rows[n..])
  {
  }

  lemma {:induction false} GroupsGood(rows: seq<Entry>)
    requires OrderedEntries(rows)
    ensures GoodGroups(GroupsOf(rows)) && GroupsCover(GroupsOf(rows), rows)
    ensures rows != [] ==> GroupsOf(rows) != [] && GroupsOf(rows)[|GroupsOf(rows)| - 1].key == rows[|rows| - 1].key
  {
    hide KeyBefore;
    if rows != [] {
      var front, last := rows[..|rows| - 1], rows[|rows| - 1];
      assert rows == front + [last];
      OrderedPrefix(rows, |rows| - 1);
      GroupsGood(front);
      assert last !in front;
      AddRowGood(GroupsOf(front), front, last);
    }
  }

  lemma AddRowGood(groups: seq<Group>, rows: seq<Entry>, row: Entry)
    requires GoodGroups(groups) && GroupsCover(groups, rows)
    requires OrderedEntries(rows + [row])
    requires rows == [] ==> groups == []
    requires rows != [] ==> groups != [] && groups[|groups| - 1].key == rows[|rows| - 1].key
    ensures GoodGroups(AddRow(groups, row)) && GroupsCover(AddRow(groups, row), rows + [row])
    ensures AddRow(groups, row) != [] && AddRow(groups, row)[|AddRow(groups, row)| - 1].key == row.key
  {
    hide KeyBefore, GoodGroups, InGroup;
    IdIsNew(groups, rows, row);
    AddRowCovers(groups, rows, row);
    assert rows != [] ==> (rows + [row])[|rows| - 1] == rows[|rows| - 1];
    assert (rows + [row])[|rows|] == row;
    if groups != [] && groups[|groups| - 1].key == row.key {
      GrowLastGood(groups, row.id);
    } else {
      if rows != [] {
        AfterLast(groups, row.key);
      }
      NewGroupGood(groups, Group(row.key, [row.id]));
    }
  }

  lemma GrowLastGood(groups: seq<Group>, id: nat)
    requires GoodGroups(groups) && groups != []
    requires forall i :: 0 <= i < |groups| ==> id !in groups[i].ids
    ensures var last := groups[|groups| - 1];
            GoodGroups(groups[..|groups| - 1] + [Group(last.key, last.ids + [id])])
  {
    hide KeyBefore;
  }

  lemma NewGroupGood(groups: seq<Group>, group: Group)
    requires GoodGroups(groups) && group.ids != [] && DistinctIds(group.ids)
    requires forall i :: 0 <= i < |groups| ==> KeyBefore(groups[i].key, group.key)
    requires forall i, id :: 0 <= i < |groups| && id in groups[i].ids ==> id !in group.ids
    ensures GoodGroups(groups + [group])
  {
    hide KeyBefore;
  }

  lemma AfterLast(groups: seq<Group>, key: AudioKey)
    requires GoodGroups(groups) && groups != [] && KeyBefore(groups[|groups| - 1].key, key)
    ensures forall i :: 0 <= i < |groups| ==> KeyBefore(groups[i].key, key)
  {
    hide KeyBefore;
    forall i | 0 <= i < |groups| ensures KeyBefore(groups[i].key, key) {
      if i < |groups| - 1 {
        KeyBeforeTransitive(groups[i].key, groups[|groups| - 1].key, key);
      }
    }
  }

  lemma IdIsNew(groups: seq<Group>, rows: seq<Entry>, row: Entry)
    requires GroupsCover(groups, rows) && OrderedEntries(rows + [row])
    ensures forall i, id :: 0 <= i < |groups| && id in groups[i].ids ==> id != row.id
  {
    var all := rows + [row];
    forall i, id | 0 <= i < |groups| && id in groups[i].ids ensures id != row.id {
      assert Entry(id, groups[i].key) in rows;
      var k :| 0 <= k < |rows| && rows[k] == Entry(id, groups[i].key);
      assert all[k].id != all[|rows|].id;
    }
  }

  lemma AddRowCovers(groups: seq<Group>, rows: seq<Entry>, row: Entry)
    requires GroupsCover(groups, rows)
    ensures GroupsCover(AddRow(groups, row), rows + [row])
  {
    var after, all := AddRow(groups, row), rows + [row];
    forall k | 0 <= k < |all| ensures InGroup(after, all[k]) {
      if k < |rows| {
        assert InGroup(groups, rows[k]);
        var i :| 0 <= i < |groups| && groups[i].key == rows[k].key && rows[k].id in groups[i].ids;
        assert after[i].key == all[k].key && all[k].id in after[i].ids;
      } else {
        assert row.id in after[|after| - 1].ids;
      }
    }
    forall i, id | 0 <= i < |after| && id in after[i].ids ensures Entry(id, after[i].key) in all {
      if i < |groups| && id in groups[i].ids {
        assert Entry(id, groups[i].key) in rows;
      } else {
        assert all[|rows|] == Entry(id, after[i].key);
      }
    }
  }

  lemma AddRowConcat(left: seq<Group>, right: seq<Group>, row: Entry)
    requires right != [] || left == [] || left[|left| - 1].key != row.key
    ensures AddRow(left + right, row) == left + AddRow(right, row)
  {
    if right != [] {
      assert (left + right)[..|left + right| - 1] == left + right[..|right| - 1];
    } else {
      assert left + right == left;
    }
  }

  lemma {:induction false} GroupsConcat(left: seq<Entry>, right: seq<Entry>)
    requires left != [] && right != [] ==> left[|left| - 1].key != right[0].key
    ensures GroupsOf(left + right) == GroupsOf(left) + GroupsOf(right)
  {
    hide AddRow;
    if right == [] {
      assert left + right == left;
    } else {
      var front, last := right[..|right| - 1], right[|right| - 1];
      assert left + right == (left + front) + [last];
      assert right == front + [last];
      hide GroupsOf;
      GroupsAppend(left + front, last);
      GroupsAppend(front, last);
      GroupsConcat(left, front);
      LastGroupKey(left);
      LastGroupKey(front);
      AddRowConcat(GroupsOf(left), GroupsOf(front), last);
    }
  }

  lemma LastGroupKey(rows: seq<Entry>)
    ensures rows == [] <==> GroupsOf(rows) == []
    ensures rows != [] ==> GroupsOf(rows)[|GroupsOf(rows)| - 1].key == rows[|rows| - 1].key
  {
  }

  lemma CutSides(key: AudioKey, row: Entry)
    ensures Within(None, Some(key))(row) <==> !KeyBefore(key, row.key)
    ensures Within(Some(key), None)(row) <==> KeyBefore(key, row.key)
  {
    KeyBeforeTotal(row.key, key);
    KeyBeforeAsymmetric(row.key, key);
    KeyBeforeIrreflexive(key);
  }

  ghost predicate Cut(rows: seq<Entry>, key: AudioKey, m: nat) {
    && m <= |rows|
    && (forall i :: 0 <= i < m ==> !KeyBefore(key, rows[i].key))
    && (forall i :: m <= i < |rows| ==> KeyBefore(key, rows[i].key))
  }

  lemma SplitStep(front: seq<Entry>, last: Entry, key: AudioKey, m: nat) returns (n: nat)
    requires OrderedEntries(front + [last]) && Cut(front, key, m)
    requires Keep(front, Within(None, Some(key))) == front[..m]
    requires Keep(front, Within(Some(key), None)) == front[m..]
    ensures Cut(front + [last], key, n)
    ensures Keep(front + [last], Within(None, Some(key))) == (front + [last])[..n]
    ensures Keep(front + [last], Within(Some(key), None)) == (front + [last])[n..]
  {
    hide KeyBefore, Within, Keep, OrderedEntries;
    var rows := front + [last];
    CutSides(key, last);
    if KeyBefore(key, last.key) {
      KeepAppend(front, last, Within(None, Some(key)));
      KeepAppend(front, last, Within(Some(key), None));
      n := m;
      assert rows[..m] == front[..m] && rows[m..] == front[m..] + [last];
    } else {
      AllBelow(rows, key);
      forall row | row in rows
        ensures Within(None, Some(key))(row) && !Within(Some(key), None)(row)
      {
        CutSides(key, row);
      }
      KeepAll(rows, Within(None, Some(key)));
      KeepNone(rows, Within(Some(key), None));
      n := |rows|;
    }
  }

  /** A boundary key cuts the ordered rows in two. */
  lemma {:induction false} SplitRows(rows: seq<Entry>, key: AudioKey) returns (m: nat)
    requires OrderedEntries(rows)
    ensures Cut(rows, key, m)
    ensures Keep(rows, Within(None, Some(key))) == rows[..m]
    ensures Keep(rows, Within(Some(key), None)) == rows[m..]
  {
    hide KeyBefore, Within;
    if rows == [] {
      m := 0;
    } else {
      hide Cut, Keep;
      var front, last := rows[..|rows| - 1], rows[|rows| - 1];
      assert rows == front + [last];
      OrderedPrefix(rows, |rows| - 1);
      m := SplitRows(front, key);
      m := SplitStep(front, last, key, m);
    }
  }

  lemma AllBelow(rows: seq<Entry>, key: AudioKey)
    requires OrderedEntries(rows) && rows != [] && !KeyBefore(key, rows[|rows| - 1].key)
    ensures forall i :: 0 <= i < |rows| ==> !KeyBefore(key, rows[i].key)
  {
    hide KeyBefore;
    var last := rows[|rows| - 1];
    forall i | 0 <= i < |rows| ensures !KeyBefore(key, rows[i].key) {
      assert i < |rows| - 1 ==> KeyBefore(rows[i].key, last.key) || rows[i].key == last.key;
      if KeyBefore(key, rows[i].key) && KeyBefore(rows[i].key, last.key) {
        KeyBeforeTransitive(key, rows[i].key, last.key);
      }
    }
  }

  /** `groups(<= k)` followed by `groups(> k)` are all groups, cut right after the group of `k`. */
  lemma GroupsSplit(rows: seq<Entry>, j: nat)
    requires OrderedEntries(rows) && 0 < j <= |GroupsOf(rows)|
    ensures var key := Some(GroupsOf(rows)[j - 1].key);
            && GroupsOf(Keep(rows, Within(None, key))) == GroupsOf(rows)[..j]
            && GroupsOf(Keep(rows, Within(key, None))) == GroupsOf(rows)[j..]
  {
    hide KeyBefore, Keep, Within, GroupsOf, OrderedEntries, GroupsCover;
    var groups := GroupsOf(rows);
    var key := groups[j - 1].key;
    var m := SplitRows(rows, key);
    var left, right := rows[..m], rows[m..];
    assert rows == left + right;
    OrderedPrefix(rows, m);
    assert left != [] && right != [] ==> !KeyBefore(key, rows[m - 1].key) && KeyBefore(key, rows[m].key);
    GroupsConcat(left, right);
    GroupsGood(rows);
    KeyBeforeIrreflexive(key);
    var n := |GroupsOf(left)|;
    forall i | 0 <= i < |groups| ensures KeyBefore(key, groups[i].key) <==> i >= n {
      GroupSide(rows, left, right, key, i);
    }
    assert j < |groups| ==> KeyBefore(groups[j - 1].key, groups[j].key);
    assert n == j;
  }

  lemma GroupSide(rows: seq<Entry>, left: seq<Entry>, right: seq<Entry>, key: AudioKey, i: nat)
    requires GroupsOf(rows) == GroupsOf(left) + GroupsOf(right) && i < |GroupsOf(rows)|
    requires OrderedEntries(left) && OrderedEntries(right)
    requires forall k :: 0 <= k < |left| ==> !KeyBefore(key, left[k].key)
    requires forall k :: 0 <= k < |right| ==> KeyBefore(key, right[k].key)
    ensures KeyBefore(key, GroupsOf(rows)[i].key) <==> i >= |GroupsOf(left)|
  {
    hide KeyBefore, GroupsOf, OrderedEntries, GoodGroups, GroupsCover;
    GroupsGood(left);
    GroupsGood(right);
    var n := |GroupsOf(left)|;
    if i < n {
      GroupHasRow(GroupsOf(left), left, i);
      assert GroupsOf(rows)[i] == GroupsOf(left)[i];
    } else {
      GroupHasRow(GroupsOf(right), right, i - n);
      assert GroupsOf(rows)[i] == GroupsOf(right)[i - n];
    }
  }

  lemma GroupHasRow(groups: seq<Group>, rows: seq<Entry>, i: nat)
    requires GoodGroups(groups) && GroupsCover(groups, rows) && i < |groups|
    ensures exists k :: 0 <= k < |rows| && rows[k].key == groups[i].key
  {
    var id := groups[i].ids[0];
    assert Entry(id, groups[i].key) in rows;
    var k :| 0 <= k < |rows| && rows[k] == Entry(id, groups[i].key);
  }
}
