/**
 * The two identifier caches: JSON files mapping assistant names to
 * assistant ids and data-file names to uploaded-file ids. A save reads the
 * whole file (an empty mapping when there is none), assigns one key and
 * writes the mapping back; a load reads the file and looks the key up.
 */
module IdCache {
  import opened Wrappers

  /** What one cache file holds at some moment: whether it is present, and its mapping. */
  datatype Snapshot = Snapshot(present: bool, data: map<string, string>)

  /** The file before any save: absent. */
  const Absent: Snapshot := Snapshot(false, map[])

  /** The file after saving `id` under `name`. */
  function Saved(s: Snapshot, name: string, id: string): (r: Snapshot)
    ensures r.present
    ensures name in r.data && r.data[name] == id
    ensures forall n :: n != name ==> (n in r.data <==> s.present && n in s.data)
    ensures forall n :: n != name && n in r.data ==> r.data[n] == s.data[n]
  {
    var data := if s.present then s.data else map[];
    Snapshot(true, data[name := id])
  }

  /** The id a load returns: none when the file is absent or lacks the name. */
  function Loaded(s: Snapshot, name: string): (r: Option<string>)
    ensures r.Some? <==> s.present && name in s.data
    ensures r.Some? ==> r.value == s.data[name]
  {
    if s.present && name in s.data then Some(s.data[name]) else None
  }

  /** A load after a save of the same name returns the saved id. */
  lemma LoadAfterSave(s: Snapshot, name: string, id: string)
    ensures Loaded(Saved(s, name, id), name) == Some(id)
  {
  }

  /** A save changes what a load of any other name returns in no way. */
  lemma SaveKeepsOthers(s: Snapshot, name: string, id: string, other: string)
    requires other != name
    ensures Loaded(Saved(s, name, id), other) == Loaded(s, other)
  {
  }

  /** Of two saves of the same name, the later one wins. */
  lemma LastSaveWins(s: Snapshot, name: string, first: string, second: string)
    ensures Saved(Saved(s, name, first), name, second) == Saved(s, name, second)
  {
    var a := Saved(Saved(s, name, first), name, second);
    var b := Saved(s, name, second);
    assert a.data.Keys == b.data.Keys;
  }

  /** A save into an absent file starts from the empty mapping. */
  lemma SaveIntoAbsent(s: Snapshot, name: string, id: string)
    requires !s.present
    ensures Saved(s, name, id).data == map[name := id]
  {
    assert Saved(s, name, id).data.Keys == {name};
  }

  /** One cache file with a read-modify-write save. */
  class IdStore {
    var present: bool
    var data: map<string, string>

    /** A cache whose file has not been written yet. */
    constructor ()
      ensures present == false && data == map[]
    {
      present := false;
      data := map[];
    }

    function Current(): Snapshot
      reads this
    {
      Snapshot(present, data)
    }

    /** `save_agent_id` / `save_file_id`. */
    method Save(name: string, id: string)
      modifies this
      ensures Current() == Saved(old(Current()), name, id)
    {
      var loaded: map<string, string>;
      if present {
        loaded := data;
      } else {
        loaded := map[];
      }
      loaded := loaded[name := id];
      data := loaded;
      present := true;
    }

    /** `load_agent_id` / `load_file_id`. */
    method Load(name: string) returns (id: Option<string>)
      ensures id.Some? <==> present && name in data
      ensures id.Some? ==> id.value == data[name]
    {
      if present {
        if name in data {
          id := Some(data[name]);
        } else {
          id := None;
        }
      } else {
        id := None;
      }
    }
  }

  /** The two cache files, kept in two different places. */
  class Caches {
    const agentIds: IdStore
    const fileIds: IdStore

    ghost predicate Valid()
      reads this
    {
      agentIds != fileIds
    }

    constructor ()
      ensures Valid()
      ensures fresh(agentIds) && fresh(fileIds)
      ensures agentIds.Current() == Absent && fileIds.Current() == Absent
    {
      agentIds := new IdStore();
      fileIds := new IdStore();
    }

    /** `save_agent_id`: only the assistant cache changes. */
    method SaveAgentId(name: string, id: string)
      requires Valid()
      modifies agentIds
      ensures agentIds.Current() == Saved(old(agentIds.Current()), name, id)
      ensures fileIds.Current() == old(fileIds.Current())
    {
      agentIds.Save(name, id);
    }

    /** `save_file_id`: only the file cache changes. */
    method SaveFileId(filename: string, id: string)
      requires Valid()
      modifies fileIds
      ensures fileIds.Current() == Saved(old(fileIds.Current()), filename, id)
      ensures agentIds.Current() == old(agentIds.Current())
    {
      fileIds.Save(filename, id);
    }

    /** `load_agent_id`. */
    method LoadAgentId(name: string) returns (id: Option<string>)
      ensures id == Loaded(agentIds.Current(), name)
    {
      id := agentIds.Load(name);
    }

    /** `load_file_id`. */
    method LoadFileId(filename: string) returns (id: Option<string>)
      ensures id == Loaded(fileIds.Current(), filename)
    {
      id := fileIds.Load(filename);
    }
  }
}
