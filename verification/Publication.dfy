/** Publishing a receipt directory file by file, its completion marker last. */
module Publication {
  import opened Model
  import opened Ordering

  type Files = map<string, string>

  datatype Status = Refused | Died | Published

  function FilesOf(list: seq<(string, string)>): Files {
    if list == [] then map[] else FilesOf(list[..|list| - 1])[list[|list| - 1].0 := list[|list| - 1].1]
  }

  predicate DistinctNames(list: seq<(string, string)>) {
    forall i, j | 0 <= i < j < |list| :: list[i].0 != list[j].0
  }

  /** Moving a name from one directory to another loses nothing and copies nothing. */
  predicate Split(whole: Files, a: Files, b: Files) {
    && a.Keys + b.Keys == whole.Keys
    && a.Keys !! b.Keys
    && (forall name | name in a :: a[name] == whole[name])
    && (forall name | name in b :: b[name] == whole[name])
  }

  /** The two directories involved: the hidden staging one, and the destination if it exists. */
  class Exporter {
    var staged: Files
    var destination: Option<Files>

    constructor (destination: Option<Files>)
      ensures staged == map[] && this.destination == destination
    {
      staged := map[];
      this.destination := destination;
    }

    /** `export_artifacts`. The process lives for `life` durable effects; `rival` is a directory
        that somebody else creates at the destination after the first check, if anybody does. */
    method Export(list: seq<(string, string)>, marker: string, rival: Option<Files>, life: nat) returns (status: Status)
      requires DistinctNames(list) && marker in FilesOf(list)
      requires staged == map[]
      modifies this
      ensures old(destination).Some? ==> status.Refused? && destination == old(destination)
      ensures old(destination).None? && rival.Some? ==> !status.Published? && (destination == rival || destination.None?)
      ensures old(destination).None? && rival.None? && destination.Some? && marker in destination.value ==>
                destination.value == FilesOf(list)
      ensures status.Published? ==> destination == Some(FilesOf(list)) && staged == map[]
      ensures old(destination).None? && rival.None? && life > 2 * |list| ==> status.Published?
    {
      if destination.Some? {
        return Refused;
      }
      var lived := 0;
      for i := 0 to |list|
        invariant lived == i && i <= life
        invariant staged == FilesOf(list[..i]) && destination == old(destination)
      {
        if lived == life {
          return Died;
        }
        assert list[..i + 1][..i] == list[..i];
        staged := staged[list[i].0 := list[i].1];
        lived := lived + 1;
      }
      assert list[..|list|] == list;
      AsManyFiles(list);
      status := Publish(marker, rival, life - lived);
    }

    /** `publish_staged_directory`: the directory is created, everything but the marker is renamed
        into it in name order, then the marker. */
    method Publish(marker: string, rival: Option<Files>, life: nat) returns (status: Status)
      requires marker in staged && destination.None?
      modifies this
      ensures rival.Some? ==> !status.Published? && (destination == rival || destination.None?)
      ensures rival.None? && destination.Some? ==> Split(old(staged), staged, destination.value)
      ensures rival.None? && destination.Some? && marker in destination.value ==> destination.value == old(staged)
      ensures status.Published? ==> destination == Some(old(staged)) && staged == map[]
      ensures rival.None? && life > |old(staged)| ==> status.Published?
    {
      if life == 0 {
        return Died;
      }
      if rival.Some? {
        destination := rival;
        return Refused;
      }
      hide Split;
      hide Moved;
      hide Lists;
      destination := Some(map[]);
      ghost var whole := staged;
      var entries := SortedKeys(staged.Keys);
      KeysList(staged);
      NothingMoved(whole, entries, marker);
      var lived := RenameOthers(whole, entries, marker, life);
      if lived == life {
        return Died;
      }
      AllMoved(whole, staged, destination.value, entries, marker);
      RenameSplits(whole, staged, destination.value, marker);
      Rename(marker);
      NothingLeft(whole, staged, destination.value);
      return Published;
    }

    /** The loop over the sorted entries, the directory having cost the first effect. */
    method RenameOthers(ghost whole: Files, entries: seq<string>, marker: string, life: nat) returns (lived: nat)
      requires destination == Some(map[]) && staged == whole && marker in whole && life > 0
      requires Lists(entries, whole)
      modifies this
      ensures destination.Some? && Split(whole, staged, destination.value)
      ensures marker !in destination.value
      ensures lived <= life && lived <= |whole|
      ensures lived < life ==> Moved(destination.value, entries, |entries|, marker)
    {
      hide Split;
      hide Moved;
      hide Lists;
      NothingMoved(whole, entries, marker);
      lived := 1;
      var i, alive := 0, true;
      while alive && i < |entries|
        invariant i <= |entries| && destination.Some? && Split(whole, staged, destination.value)
        invariant Moved(destination.value, entries, i, marker)
        invariant lived == |destination.value| + 1 <= life
        invariant !alive ==> i < |entries| && lived == life
      {
        if entries[i] == marker {
          MarkerSkipped(destination.value, entries, i, marker);
          i := i + 1;
        } else {
          alive := lived < life;
          if alive {
            RenameEntry(whole, entries, i, marker);
            lived, i := lived + 1, i + 1;
          }
        }
      }
      DiesBefore(destination.value, entries, i, marker);
      OneStays(whole, staged, destination.value, marker);
    }

    method RenameEntry(ghost whole: Files, entries: seq<string>, i: nat, ghost marker: string)
      requires destination.Some? && i < |entries| && entries[i] != marker
      requires Lists(entries, whole)
      requires Split(whole, staged, destination.value) && Moved(destination.value, entries, i, marker)
      modifies this
      ensures destination.Some? && Split(whole, staged, destination.value)
      ensures Moved(destination.value, entries, i + 1, marker)
      ensures |destination.value| == |old(destination).value| + 1
    {
      hide Split;
      hide Moved;
      hide Lists;
      NotMovedYet(whole, staged, destination.value, entries, i, marker);
      RenameSplits(whole, staged, destination.value, entries[i]);
      OneMoved(destination.value, staged[entries[i]], entries, i, marker);
      OneMore(whole, staged, destination.value, entries[i]);
      Rename(entries[i]);
    }

    /** One rename from the staging directory into the destination. */
    method Rename(name: string)
      requires name in staged && destination.Some?
      modifies this
      ensures staged == old(staged) - {name}
      ensures destination == Some(old(destination).value[name := old(staged)[name]])
    {
      destination := Some(destination.value[name := staged[name]]);
      staged := staged - {name};
    }
  }

  /** The renames of the first `i` entries are done, the marker's left out. */
  ghost predicate Moved(destination: Files, entries: seq<string>, i: nat, marker: string)
    requires i <= |entries|
  {
    forall name :: name in destination <==> name in entries[..i] && name != marker
  }

  lemma NothingMoved(whole: Files, entries: seq<string>, marker: string)
    ensures Split(whole, whole, map[]) && Moved(map[], entries, 0, marker)
  {}

  lemma MarkerSkipped(destination: Files, entries: seq<string>, i: nat, marker: string)
    requires i < |entries| && entries[i] == marker && Moved(destination, entries, i, marker)
    ensures Moved(destination, entries, i + 1, marker)
  {
    assert entries[..i + 1] == entries[..i] + [marker];
  }

  lemma DiesBefore(destination: Files, entries: seq<string>, i: nat, marker: string)
    requires i <= |entries| && Moved(destination, entries, i, marker)
    ensures marker !in destination
  {}

  lemma NotMovedYet(whole: Files, staged: Files, destination: Files, entries: seq<string>, i: nat, marker: string)
    requires i < |entries| && Split(whole, staged, destination) && Moved(destination, entries, i, marker)
    requires Lists(entries, whole)
    ensures entries[i] in staged
  {
    SortedDistinct(entries);
    assert entries[i] in entries && entries[i] !in entries[..i];
  }

  lemma RenameSplits(whole: Files, staged: Files, destination: Files, name: string)
    requires Split(whole, staged, destination) && name in staged
    ensures Split(whole, staged - {name}, destination[name := staged[name]])
  {}

  lemma OneMoved(destination: Files, content: string, entries: seq<string>, i: nat, marker: string)
    requires i < |entries| && entries[i] != marker && Moved(destination, entries, i, marker)
    ensures Moved(destination[entries[i] := content], entries, i + 1, marker)
  {
    assert entries[..i + 1] == entries[..i] + [entries[i]];
  }

  lemma AllMoved(whole: Files, staged: Files, destination: Files, entries: seq<string>, marker: string)
    requires Split(whole, staged, destination) && Moved(destination, entries, |entries|, marker)
    requires marker in whole && Lists(entries, whole)
    ensures staged.Keys == {marker} && marker in staged
  {
    hide StrictlySorted;
    hide Split;
    hide Lists;
    assert entries[..|entries|] == entries;
    forall name
      ensures name in staged <==> name == marker
    {
      OneSide(whole, staged, destination, entries, name);
    }
  }

  lemma OneSide(whole: Files, staged: Files, destination: Files, entries: seq<string>, name: string)
    requires Split(whole, staged, destination) && Lists(entries, whole)
    ensures name in staged <==> name in whole && name !in destination
    ensures name in entries <==> name in whole
  {
    hide StrictlySorted;
    assert name in whole.Keys <==> name in staged.Keys + destination.Keys;
  }

  lemma NothingLeft(whole: Files, staged: Files, destination: Files)
    requires Split(whole, staged, destination) && staged.Keys == {}
    ensures destination == whole && staged == map[]
  {
    assert destination.Keys == whole.Keys;
  }

  /** `read_dir`, sorted by file name. */
  ghost predicate Lists(entries: seq<string>, files: Files) {
    StrictlySorted(entries) && |entries| == |files| && forall name :: name in entries <==> name in files
  }

  lemma KeysList(files: Files)
    ensures Lists(SortedKeys(files.Keys), files)
  {}

  lemma OneMore(whole: Files, staged: Files, destination: Files, name: string)
    requires Split(whole, staged, destination) && name in staged
    ensures |destination[name := staged[name]]| == |destination| + 1
  {
    assert destination[name := staged[name]].Keys == destination.Keys + {name};
  }

  /** While the marker is not published, the destination is short of at least one file. */
  lemma OneStays(whole: Files, staged: Files, destination: Files, marker: string)
    requires Split(whole, staged, destination) && marker in whole && marker !in destination
    ensures |destination| + 1 <= |whole|
  {
    SubsetSize(destination.Keys, whole.Keys - {marker});
  }

  lemma {:induction false} SubsetSize(a: set<string>, b: set<string>)
    requires a <= b
    ensures |a| <= |b|
  {
    assert b == a + (b - a);
  }

  lemma SortedDistinct(entries: seq<string>)
    requires StrictlySorted(entries)
    ensures forall i, j | 0 <= i < j < |entries| :: entries[i] != entries[j]
  {
    forall i, j | 0 <= j < i < |entries|
      ensures entries[j] != entries[i]
    {
      Irreflexive(entries[i]);
    }
  }

  lemma {:induction false} NameInList(list: seq<(string, string)>, name: string)
    requires name in FilesOf(list)
    ensures exists i | 0 <= i < |list| :: list[i].0 == name
    decreases |list|
  {
    if list[|list| - 1].0 != name {
      NameInList(list[..|list| - 1], name);
      var i :| 0 <= i < |list| - 1 && list[..|list| - 1][i].0 == name;
      assert list[i].0 == name;
    }
  }

  lemma {:induction false} AsManyFiles(list: seq<(string, string)>)
    requires DistinctNames(list)
    ensures |FilesOf(list)| == |list|
    decreases |list|
  {
    if list == [] {
    } else {
      var rest, last := list[..|list| - 1], list[|list| - 1].0;
      AsManyFiles(rest);
      if last in FilesOf(rest) {
        NameInList(rest, last);
      }
      assert FilesOf(list).Keys == FilesOf(rest).Keys + {last};
    }
  }
}
