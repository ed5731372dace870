/**
 * How the spreadsheet (code-interpreter) assistant is obtained: the csv
 * data files are uploaded unless a cached file id can be reused, a cached
 * assistant is retrieved and updated when asked to, and otherwise a new
 * assistant is created and its id cached.
 */
module CoderAgent {
  import opened Wrappers
  import opened PyStrings
  import opened IdCache

  /** Python truthiness of a loaded id: present and non-empty. */
  predicate Truthy(o: Option<string>) {
    o.Some? && o.value != ""
  }

  /** The entries of the data directory that end in ".csv", in listing order. */
  function CsvFiles(listing: seq<string>): (r: seq<string>)
    ensures |r| <= |listing|
    ensures forall f :: f in r <==> f in listing && EndsWith(f, ".csv")
    decreases |listing|
  {
    if listing == [] then []
    else
      var rest := CsvFiles(listing[..|listing| - 1]);
      var last := listing[|listing| - 1];
      assert listing == listing[..|listing| - 1] + [last];
      if EndsWith(last, ".csv") then rest + [last] else rest
  }

  /** A single entry is kept exactly when it ends in ".csv". */
  lemma CsvFilesSingle(f: string)
    ensures CsvFiles([f]) == if EndsWith(f, ".csv") then [f] else []
  {
    assert [f][..0] == [];
  }

  /**
   * The filter distributes over concatenation of listings: it keeps the
   * listing's order and its duplicates, as a comprehension does.
   */
  lemma {:induction false} CsvFilesAppend(a: seq<string>, b: seq<string>)
    ensures CsvFiles(a + b) == CsvFiles(a) + CsvFiles(b)
    decreases |b|
  {
    if b == [] {
      assert a + b == a;
    } else {
      var b' := b[..|b| - 1];
      var last := b[|b| - 1];
      assert (a + b)[..|a + b| - 1] == a + b';
      assert (a + b)[|a + b| - 1] == last;
      CsvFilesAppend(a, b');
      var x, y := CsvFiles(a), CsvFiles(b');
      if EndsWith(last, ".csv") {
        assert CsvFiles(b) == y + [last];
        AppendAssoc(x, y, [last]);
      } else {
        assert CsvFiles(b) == y;
      }
    }
  }

  /** The file ids gathered for the csv files, and the file cache afterwards. */
  datatype Resolution = Resolution(ids: seq<string>, store: Snapshot)

  /**
   * The reuse loop over the csv files, one file at a time: unless forced, a
   * truthy cached id is reused; otherwise the file is uploaded (`upload`
   * gives the id the service assigns) and the new id saved.
   */
  function Resolve(names: seq<string>, force: bool, s: Snapshot, upload: string -> string): (r: Resolution)
    ensures |r.ids| == |names|
    decreases |names|
  {
    if names == [] then Resolution([], s)
    else
      var cached := if force then None else Loaded(s, names[0]);
      if Truthy(cached) then
        var rest := Resolve(names[1..], force, s, upload);
        Resolution([cached.value] + rest.ids, rest.store)
      else
        var id := upload(names[0]);
        var rest := Resolve(names[1..], force, Saved(s, names[0], id), upload);
        Resolution([id] + rest.ids, rest.store)
  }

  /** The id a file ends up with when `s` is the file cache before the loop. */
  function Entry(force: bool, s: Snapshot, f: string, upload: string -> string): string {
    if !force && Truthy(Loaded(s, f)) then Loaded(s, f).value else upload(f)
  }

  /** An upload of `f` changes the entry of no file, `f` included. */
  lemma EntryAfterUpload(force: bool, s: Snapshot, f: string, upload: string -> string, g: string)
    requires force || !Truthy(Loaded(s, f))
    ensures Entry(force, Saved(s, f, upload(f)), g, upload) == Entry(force, s, g, upload)
  {
    if g != f {
      SaveKeepsOthers(s, f, upload(f), g);
    }
  }

  /**
   * Every file's id is its truthy cached id when not forced, and a fresh
   * upload otherwise, even when a name is listed twice.
   */
  lemma {:induction false} ResolveEntries(names: seq<string>, force: bool, s: Snapshot, upload: string -> string)
    ensures var r := Resolve(names, force, s, upload);
      forall i :: 0 <= i < |names| ==> r.ids[i] == Entry(force, s, names[i], upload)
    decreases |names|
  {
    if names != [] {
      var f := names[0];
      var cached := if force then None else Loaded(s, f);
      var s1 := if Truthy(cached) then s else Saved(s, f, upload(f));
      ResolveEntries(names[1..], force, s1, upload);
      forall g
        ensures Entry(force, s1, g, upload) == Entry(force, s, g, upload)
      {
        if !Truthy(cached) {
          EntryAfterUpload(force, s, f, upload, g);
        }
      }
      var r := Resolve(names, force, s, upload);
      assert r.ids == [Entry(force, s, f, upload)] + Resolve(names[1..], force, s1, upload).ids;
      forall i | 0 <= i < |names|
        ensures r.ids[i] == Entry(force, s, names[i], upload)
      {
        if i > 0 {
          assert names[i] == names[1..][i - 1];
        }
      }
    }
  }

  /**
   * After the loop the cache holds each listed file's id, and is unchanged
   * for every name not listed.
   */
  lemma {:induction false} ResolveStore(names: seq<string>, force: bool, s: Snapshot, upload: string -> string, g: string)
    ensures var r := Resolve(names, force, s, upload);
      Loaded(r.store, g) == if g in names then Some(Entry(force, s, g, upload)) else Loaded(s, g)
    decreases |names|
  {
    if names != [] {
      var f := names[0];
      var cached := if force then None else Loaded(s, f);
      var s1 := if Truthy(cached) then s else Saved(s, f, upload(f));
      ResolveStore(names[1..], force, s1, upload, g);
      if !Truthy(cached) {
        EntryAfterUpload(force, s, f, upload, g);
        if g != f {
          SaveKeepsOthers(s, f, upload(f), g);
        }
      }
      assert g in names <==> g == f || g in names[1..] by {
        assert names == [f] + names[1..];
      }
    }
  }

  /** With `force_file_update`, every csv file is uploaded again and its cache entry overwritten. */
  lemma ForcedReuploadsAll(names: seq<string>, s: Snapshot, upload: string -> string)
    ensures var r := Resolve(names, true, s, upload);
      (forall i :: 0 <= i < |names| ==> r.ids[i] == upload(names[i]))
      && (forall g :: g in names ==> Loaded(r.store, g) == Some(upload(g)))
  {
    ResolveEntries(names, true, s, upload);
    forall g | g in names
      ensures Loaded(Resolve(names, true, s, upload).store, g) == Some(upload(g))
    {
      ResolveStore(names, true, s, upload, g);
    }
  }

  /** The code-interpreter tool with the files as its resources. */
  datatype ToolConfig = ToolConfig(fileIds: seq<string>)

  /** Tools are configured only when there is at least one file id. */
  function ConfigureTools(fileIds: seq<string>): (t: Option<ToolConfig>)
    ensures t.Some? <==> fileIds != []
    ensures t.Some? ==> t.value.fileIds == fileIds
  {
    if fileIds != [] then Some(ToolConfig(fileIds)) else None
  }

  /** A value of the update payload. */
  datatype PayloadValue = Instructions(text: string) | CodeInterpreter | FileResources(fileIds: seq<string>)

  /** The update the payload asks for, key by key. */
  function UpdatePayload(forcePrompt: bool, forceFile: bool, promptOverride: Option<string>, systemPrompt: string,
                         tools: Option<ToolConfig>): (p: map<string, PayloadValue>)
    ensures "instructions" in p <==> forcePrompt
    ensures forcePrompt ==>
      p["instructions"] == Instructions(if Truthy(promptOverride) then promptOverride.value else systemPrompt)
    ensures ("tools" in p <==> forceFile && tools.Some?) && ("tool_resources" in p <==> forceFile && tools.Some?)
    ensures forceFile && tools.Some? ==> p["tools"] == CodeInterpreter && p["tool_resources"] == FileResources(tools.value.fileIds)
    ensures p.Keys <= {"instructions", "tools", "tool_resources"}
    ensures p == map[] <==> !forcePrompt && !(forceFile && tools.Some?)
  {
    var withPrompt: map<string, PayloadValue> :=
      if forcePrompt then map["instructions" := Instructions(if Truthy(promptOverride) then promptOverride.value else systemPrompt)]
      else map[];
    if forceFile && tools.Some? then
      withPrompt["tools" := CodeInterpreter]["tool_resources" := FileResources(tools.value.fileIds)]
    else withPrompt
  }

  /** The payload, filled one key at a time. */
  method BuildUpdatePayload(forcePrompt: bool, forceFile: bool, promptOverride: Option<string>, systemPrompt: string,
                            tools: Option<ToolConfig>) returns (payload: map<string, PayloadValue>)
    ensures payload == UpdatePayload(forcePrompt, forceFile, promptOverride, systemPrompt, tools)
  {
    payload := map[];
    if forcePrompt {
      payload := payload["instructions" := Instructions(if Truthy(promptOverride) then promptOverride.value else systemPrompt)];
    }
    if forceFile && tools.Some? {
      payload := payload["tools" := CodeInterpreter];
      payload := payload["tool_resources" := FileResources(tools.value.fileIds)];
    }
  }

  /** The assistant the factory hands back. */
  datatype Assistant =
    | Reused(assistantId: string, update: Option<map<string, PayloadValue>>)
    | Created(assistantId: string, instructions: string, tools: Option<ToolConfig>)

  /** The cache key of the spreadsheet assistant. */
  const AssistantName: string := "fundfact_coder_rag_agent"

  /** The fold from position `i`: the first file's entry, then the rest under the updated cache. */
  lemma ResolveFrom(names: seq<string>, i: nat, force: bool, s: Snapshot, upload: string -> string)
    requires i < |names|
    ensures var cached := if force then None else Loaded(s, names[i]);
      var s' := if Truthy(cached) then s else Saved(s, names[i], upload(names[i]));
      var rest := Resolve(names[i + 1..], force, s', upload);
      Resolve(names[i..], force, s, upload)
        == Resolution([if Truthy(cached) then cached.value else upload(names[i])] + rest.ids, rest.store)
  {
    assert names[i..][1..] == names[i + 1..];
  }

  /** Upload or reuse each csv file's id, in listing order. */
  method ResolveFileIds(filenames: seq<string>, force: bool, files: IdStore, upload: string -> string)
    returns (fileIds: seq<string>)
    modifies files
    ensures Resolution(fileIds, files.Current()) == Resolve(filenames, force, old(files.Current()), upload)
  {
    fileIds := [];
    var i := 0;
    while i < |filenames|
      invariant 0 <= i <= |filenames|
      invariant var rest := Resolve(filenames[i..], force, files.Current(), upload);
        Resolve(filenames, force, old(files.Current()), upload) == Resolution(fileIds + rest.ids, rest.store)
    {
      var filename := filenames[i];
      ghost var s := files.Current();
      ghost var cached := if force then None else Loaded(s, filename);
      ResolveFrom(filenames, i, force, s, upload);
      ghost var ids0 := fileIds;
      var id: string;
      var reused := false;
      if !force {
        var cachedFileId := files.Load(filename);
        if cachedFileId.Some? && cachedFileId.value != "" {
          id := cachedFileId.value;
          reused := true;
        }
      }
      if !reused {
        id := upload(filename);
        files.Save(filename, id);
      }
      assert reused <==> Truthy(cached);
      assert id == if Truthy(cached) then cached.value else upload(filename);
      assert files.Current() == if Truthy(cached) then s else Saved(s, filename, upload(filename));
      fileIds := fileIds + [id];
      ghost var rest := Resolve(filenames[i + 1..], force, files.Current(), upload);
      AppendAssoc(ids0, [id], rest.ids);
      i := i + 1;
    }
    assert filenames[i..] == [];
  }

  /**
   * `get_fundfact_coder_rag_agent`. `listing` is the data directory's
   * content, `upload` the id the service gives an uploaded file, and
   * `retrieveOk`, `updateOk`, `createdId` what the assistant service answers.
   */
  method GetFundfactCoderRagAgent(
    forcePrompt: bool, forceFile: bool, promptOverride: Option<string>, systemPrompt: string,
    listing: seq<string>, caches: Caches, upload: string -> string,
    retrieveOk: bool, updateOk: bool, createdId: string)
    returns (assistant: Assistant, fileIds: seq<string>)
    requires caches.Valid()
    modifies caches.agentIds, caches.fileIds
    ensures var res := Resolve(CsvFiles(listing), forceFile, old(caches.fileIds.Current()), upload);
      fileIds == res.ids && caches.fileIds.Current() == res.store
    ensures var cached := Loaded(old(caches.agentIds.Current()), AssistantName);
      var payload := UpdatePayload(forcePrompt, forceFile, promptOverride, systemPrompt, ConfigureTools(fileIds));
      if Truthy(cached) && retrieveOk && (payload == map[] || updateOk) then
        assistant == Reused(cached.value, if payload == map[] then None else Some(payload))
        && caches.agentIds.Current() == old(caches.agentIds.Current())
      else
        assistant == Created(createdId, systemPrompt, ConfigureTools(fileIds))
        && caches.agentIds.Current() == Saved(old(caches.agentIds.Current()), AssistantName, createdId)
  {
    var cachedId := caches.LoadAgentId(AssistantName);
    var filenames := CsvFiles(listing);
    fileIds := ResolveFileIds(filenames, forceFile, caches.fileIds, upload);
    var tools := ConfigureTools(fileIds);
    if cachedId.Some? && cachedId.value != "" && retrieveOk {
      var payload := BuildUpdatePayload(forcePrompt, forceFile, promptOverride, systemPrompt, tools);
      if payload == map[] {
        assistant := Reused(cachedId.value, None);
        return;
      } else if updateOk {
        assistant := Reused(cachedId.value, Some(payload));
        return;
      }
    }
    assistant := Created(createdId, systemPrompt, tools);
    caches.SaveAgentId(AssistantName, createdId);
  }
}
