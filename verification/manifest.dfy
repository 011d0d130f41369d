/** The job directory's `manifest.json`: loading and validating it, and
    adding a file entry to it.
 */
module Manifest {
  import opened Wrappers
  import opened Text
  import opened Sorting
  import opened Json
  import opened Files
  import opened Oracles

  const ManifestFilename := "manifest.json"
  const DefaultStrategy := "agentic"

  datatype FileEntry = FileEntry(path: string, format: string)

  datatype Manifest = Manifest(
    schemaVersion: Json,
    modelType: string,
    createdAt: Json,
    files: map<string, FileEntry>,
    initiativeId: string,
    evaluateStrategy: string)

  function ManifestPath(dir: Path): Path
  {
    dir + [ManifestFilename]
  }

  /** The top-level values `key in data` works on. */
  predicate Iterable(data: Json)
  {
    data.JObj? || data.JArr? || data.JStr?
  }

  /** `key in data`: a dict's key, a list's element, or a substring. */
  predicate Has(data: Json, key: string)
    requires Iterable(data)
  {
    match data
    case JObj(m) => key in m
    case JArr(items) => JStr(key) in items
    case JStr(s) => Contains(s, key)
  }

  /** The check of the required fields, in the order the source checks them,
      then the first `.get` on the document. */
  function RequireFields(data: Json): (r: Result<map<string, Json>>)
    ensures r.Ok? <==> data.JObj? && "schema_version" in data.fields && "model_type" in data.fields
    ensures r.Ok? ==> r.value == data.fields
    ensures !Iterable(data) ==> r.Err? && r.error.TypeError?
    ensures Iterable(data) && !Has(data, "schema_version") ==>
      r == Err(ValueError("Manifest missing required field: 'schema_version'"))
    ensures Iterable(data) && Has(data, "schema_version") && !Has(data, "model_type") ==>
      r == Err(ValueError("Manifest missing required field: 'model_type'"))
  {
    if !Iterable(data) then Err(TypeError("argument of type '" + TypeName(data) + "' is not iterable"))
    else if !Has(data, "schema_version") then Err(ValueError("Manifest missing required field: 'schema_version'"))
    else if !Has(data, "model_type") then Err(ValueError("Manifest missing required field: 'model_type'"))
    else if data.JObj? then Ok(data.fields)
    else Err(AttributeError("'" + TypeName(data) + "' object has no attribute 'get'"))
  }

  /** `FileEntry(path=entry["path"], format=entry["format"])`. */
  function EntryOf(entry: Json): (r: Result<FileEntry>)
    ensures r.Ok? <==> entry.JObj? && "path" in entry.fields && "format" in entry.fields
                       && entry.fields["path"].JStr? && entry.fields["format"].JStr?
    ensures r.Ok? ==> entry.fields["path"] == JStr(r.value.path) && entry.fields["format"] == JStr(r.value.format)
    ensures entry.JObj? && "path" !in entry.fields ==> r == Err(KeyError("path"))
    ensures !entry.JObj? ==> r.Err? && r.error.TypeError?
    ensures entry.JArr? ==> r == Err(TypeError("list indices must be integers or slices, not str"))
    ensures entry.JStr? ==> r == Err(TypeError("string indices must be integers, not 'str'"))
  {
    if !entry.JObj? then
      if entry.JArr? then Err(TypeError("list indices must be integers or slices, not str"))
      else if entry.JStr? then Err(TypeError("string indices must be integers, not 'str'"))
      else Err(TypeError("'" + TypeName(entry) + "' object is not subscriptable"))
    else if "path" !in entry.fields then Err(KeyError("path"))
    else if "format" !in entry.fields then Err(KeyError("format"))
    else if !entry.fields["path"].JStr? || !entry.fields["format"].JStr? then
      Err(Unsupported("non-string path or format in a file entry"))
    else
      Ok(FileEntry(entry.fields["path"].s, entry.fields["format"].s))
  }

  /** The dict `update_manifest` stores for an entry. */
  function EntryJson(e: FileEntry): (j: Json)
    ensures j.JObj? && j.fields.Keys == {"path", "format"}
  {
    JObj(map["path" := JStr(e.path), "format" := JStr(e.format)])
  }

  /** The stored form of an entry converts back to the entry. */
  lemma EntryRoundTrip(e: FileEntry)
    ensures EntryOf(EntryJson(e)) == Ok(e)
  {
  }

  /** The `files` section, entries taken in sorted key order: every entry
      converted, or the error of the first entry that fails. */
  function FileEntries(m: map<string, Json>): (r: Result<map<string, FileEntry>>)
    ensures r.Ok? <==> forall k :: k in m ==> EntryOf(m[k]).Ok?
    ensures r.Ok? ==> r.value.Keys == m.Keys && forall k :: k in m ==> Ok(r.value[k]) == EntryOf(m[k])
    ensures r.Err? ==> exists k :: k in m && EntryOf(m[k]) == Err(r.error)
  {
    var bad := set k | k in m && EntryOf(m[k]).Err?;
    if bad == {} then
      assert forall k :: k in m ==> EntryOf(m[k]).Ok? by {
        forall k | k in m ensures EntryOf(m[k]).Ok? {
          assert k !in bad;
        }
      }
      Ok(map k | k in m :: EntryOf(m[k]).value)
    else
      var first := Least(bad);
      Err(EntryOf(m[first]).error)
  }

  /** The manifest a decoded `manifest.json` describes, for the job
      directory `dir`. */
  function ParseManifest(data: Json, dir: Path): (r: Result<Manifest>)
    ensures r.Ok? ==> data.JObj? && "schema_version" in data.fields && "model_type" in data.fields
    ensures r.Ok? ==>
      var d := data.fields;
      && r.value.schemaVersion == d["schema_version"]
      && d["model_type"] == JStr(r.value.modelType)
      && r.value.createdAt == Get(d, "created_at", JStr(""))
      && Get(d, "evaluate_strategy", JStr(DefaultStrategy)) == JStr(r.value.evaluateStrategy)
      && (Truthy(Get(d, "initiative_id", JStr(""))) ==> d["initiative_id"] == JStr(r.value.initiativeId))
      && (!Truthy(Get(d, "initiative_id", JStr(""))) ==> r.value.initiativeId == Name(dir))
      && ("files" in d ==> d["files"].JObj? && r.value.files.Keys == d["files"].fields.Keys)
      && ("files" in d ==> forall k :: k in r.value.files ==> Ok(r.value.files[k]) == EntryOf(d["files"].fields[k]))
      && ("files" !in d ==> r.value.files == map[])
  {
    var d :- RequireFields(data);
    var filesRaw := Get(d, "files", JObj(map[]));
    if !filesRaw.JObj? then Err(AttributeError("'" + TypeName(filesRaw) + "' object has no attribute 'items'"))
    else
      var files :- FileEntries(filesRaw.fields);
      var idRaw := Get(d, "initiative_id", JStr(""));
      var modelType :- TextOf(d["model_type"], "model_type");
      var id :- if Truthy(idRaw) then TextOf(idRaw, "initiative_id") else Ok(Name(dir));
      var strategy :- TextOf(Get(d, "evaluate_strategy", JStr(DefaultStrategy)), "evaluate_strategy");
      Ok(Manifest(d["schema_version"], modelType, Get(d, "created_at", JStr("")), files, id, strategy))
  }

  /** A manifest written out with every field present. */
  function ManifestJson(m: Manifest): Json
  {
    JObj(map[
      "schema_version" := m.schemaVersion,
      "model_type" := JStr(m.modelType),
      "created_at" := m.createdAt,
      "files" := JObj(map k | k in m.files :: EntryJson(m.files[k])),
      "initiative_id" := JStr(m.initiativeId),
      "evaluate_strategy" := JStr(m.evaluateStrategy)])
  }

  /** A manifest with an initiative id reads back from its written form. */
  lemma ManifestRoundTrip(m: Manifest, dir: Path)
    requires m.initiativeId != ""
    ensures ParseManifest(ManifestJson(m), dir) == Ok(m)
  {
    FilesRoundTrip(m.files);
  }

  /** The `files` object reads back entry by entry. */
  lemma FilesRoundTrip(entries: map<string, FileEntry>)
    ensures FileEntries(map k | k in entries :: EntryJson(entries[k])) == Ok(entries)
  {
    var files := map k | k in entries :: EntryJson(entries[k]);
    forall k | k in files ensures EntryOf(files[k]) == Ok(entries[k]) {
      EntryRoundTrip(entries[k]);
    }
    assert FileEntries(files).Ok?;
    var f := FileEntries(files).value;
    assert f.Keys == entries.Keys;
    forall k | k in f ensures f[k] == entries[k] {
      assert Ok(f[k]) == EntryOf(files[k]);
    }
    assert f == entries;
  }

  /** `load_manifest(job_dir)`. */
  function LoadManifest(o: Oracles, fs: Fs, dir: Path): (r: Result<Manifest>)
    ensures !IsFile(fs, ManifestPath(dir)) ==>
      r == Err(FileNotFound("Manifest not found: " + PathText(ManifestPath(dir))))
    ensures IsFile(fs, ManifestPath(dir)) && o.loads(fs[dir][ManifestFilename]).None? ==> r == Err(JsonDecodeError)
    ensures IsFile(fs, ManifestPath(dir)) && o.loads(fs[dir][ManifestFilename]).Some? ==>
      r == ParseManifest(o.loads(fs[dir][ManifestFilename]).value, dir)
  {
    var p := ManifestPath(dir);
    assert Parent(p) == dir && Name(p) == ManifestFilename;
    if !IsFile(fs, p) then Err(FileNotFound("Manifest not found: " + PathText(p)))
    else match o.loads(fs[dir][ManifestFilename])
      case None => Err(JsonDecodeError)
      case Some(data) => ParseManifest(data, dir)
  }

  /** A manifest without `evaluate_strategy` selects `"agentic"`. */
  lemma StrategyDefaultsToAgentic(data: Json, dir: Path)
    requires ParseManifest(data, dir).Ok?
    requires "evaluate_strategy" !in data.fields
    ensures ParseManifest(data, dir).value.evaluateStrategy == "agentic"
  {
  }

  /** The document `update_manifest` writes, or why it fails. */
  function AddEntry(data: Json, key: string, entry: FileEntry): (r: Result<Json>)
    ensures r.Ok? <==> data.JObj? && ("files" in data.fields ==> data.fields["files"].JObj?)
    ensures r.Ok? ==>
      && r.value.JObj? && r.value.fields.Keys == data.fields.Keys + {"files"}
      && (forall k :: k in data.fields && k != "files" ==> r.value.fields[k] == data.fields[k])
      && r.value.fields["files"].JObj?
      && r.value.fields["files"].fields == Get(data.fields, "files", JObj(map[])).fields[key := EntryJson(entry)]
    ensures data.JObj? && "files" in data.fields && data.fields["files"].JArr? ==>
      r == Err(TypeError("list indices must be integers or slices, not str"))
  {
    if !data.JObj? then Err(AttributeError("'" + TypeName(data) + "' object has no attribute 'setdefault'"))
    else
      var files := Get(data.fields, "files", JObj(map[]));
      if files.JArr? then Err(TypeError("list indices must be integers or slices, not str"))
      else if !files.JObj? then Err(TypeError("'" + TypeName(files) + "' object does not support item assignment"))
      else Ok(JObj(data.fields["files" := JObj(files.fields[key := EntryJson(entry)])]))
  }

  /** `update_manifest(job_dir, key, entry)`: the new file system. */
  function UpdateManifest(o: Oracles, fs: Fs, dir: Path, key: string, entry: FileEntry): (r: Result<Fs>)
    ensures r.Ok? ==> IsFile(fs, ManifestPath(dir))
    ensures r.Ok? ==> r.value.Keys == fs.Keys
  {
    var p := ManifestPath(dir);
    var text :- Read(fs, p);
    var data :- (match o.loads(text) case None => Err(JsonDecodeError) case Some(d) => Ok(d));
    var updated :- AddEntry(data, key, entry);
    Write(fs, p, o.dumps(updated) + "\n")
  }

  /** The codec reads back what it writes, trailing newline included. */
  ghost predicate CodecRoundTrips(o: Oracles)
  {
    forall j :: o.loads(o.dumps(j) + "\n") == Some(j)
  }

  /** Updating an entry of a valid manifest leaves a valid manifest whose
      `files` gain (or replace) that one entry; every other field is kept. */
  lemma {:induction false} UpdateThenLoad(o: Oracles, fs: Fs, dir: Path, key: string, entry: FileEntry)
    requires CodecRoundTrips(o)
    requires LoadManifest(o, fs, dir).Ok?
    ensures UpdateManifest(o, fs, dir, key, entry).Ok?
    ensures var m := LoadManifest(o, fs, dir).value;
      LoadManifest(o, UpdateManifest(o, fs, dir, key, entry).value, dir)
        == Ok(m.(files := m.files[key := entry]))
  {
    var p := ManifestPath(dir);
    assert Parent(p) == dir && Name(p) == ManifestFilename;
    var data := o.loads(fs[dir][ManifestFilename]).value;
    var m := ParseManifest(data, dir).value;
    var d := data.fields;
    var updated := AddEntry(data, key, entry).value;
    var fs' := Write(fs, p, o.dumps(updated) + "\n").value;
    WriteThenRead(fs, p, o.dumps(updated) + "\n", p);
    assert fs'[dir][ManifestFilename] == o.dumps(updated) + "\n";
    assert o.loads(fs'[dir][ManifestFilename]) == Some(updated);
    var oldFiles := Get(d, "files", JObj(map[])).fields;
    var newFiles := oldFiles[key := EntryJson(entry)];
    assert FileEntries(oldFiles) == Ok(m.files);
    FileEntriesUpdate(oldFiles, key, entry);
    var u := updated.fields;
    assert u == d["files" := JObj(newFiles)];
    assert Get(u, "files", JObj(map[])) == JObj(newFiles);
    assert Get(u, "initiative_id", JStr("")) == Get(d, "initiative_id", JStr(""));
    assert Get(u, "evaluate_strategy", JStr(DefaultStrategy)) == Get(d, "evaluate_strategy", JStr(DefaultStrategy));
    assert Get(u, "created_at", JStr("")) == Get(d, "created_at", JStr(""));
  }

  /** Adding a well-formed entry to well-formed `files` converts to the old
      entries plus the new one. */
  lemma FileEntriesUpdate(m: map<string, Json>, key: string, entry: FileEntry)
    requires FileEntries(m).Ok?
    ensures FileEntries(m[key := EntryJson(entry)]) == Ok(FileEntries(m).value[key := entry])
  {
    var m' := m[key := EntryJson(entry)];
    assert EntryOf(EntryJson(entry)) == Ok(entry);
    assert forall k :: k in m' ==> EntryOf(m'[k]).Ok?;
    assert FileEntries(m').Ok?;
    var a := FileEntries(m').value;
    var b := FileEntries(m).value[key := entry];
    assert a.Keys == b.Keys;
    forall k | k in a ensures a[k] == b[k] {
      if k != key {
        assert Ok(a[k]) == EntryOf(m[k]) == Ok(FileEntries(m).value[k]);
      } else {
        assert Ok(a[k]) == EntryOf(EntryJson(entry));
      }
    }
    assert a == b;
  }
}
