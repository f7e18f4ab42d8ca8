/** Model bundles: a serialized model saved twice (model.joblib and
    model.bin) plus optional JSON metadata, in one directory. The file
    system is a map from directory path to the files in it; joblib
    serialization stores and returns the same model value. */
module Artifacts {
  import opened Wrappers
  import opened Values

  const ModelJoblib: string := "model.joblib"
  const ModelBin: string := "model.bin"
  const MetadataJson: string := "metadata.json"

  /** A file of a bundle directory: a joblib pickle, or JSON text. */
  datatype FileContent<M> = Pickle(model: M) | JsonText(doc: Json)

  /** The files of one directory, by name. */
  type Directory<M> = map<string, FileContent<M>>

  /** The directory after save_bundle: both model files written, metadata.json
      written only when metadata is given, every other file left as it was. */
  function SavedDirectory<M>(dir: Directory<M>, model: M, metadata: Option<Json>): (d: Directory<M>)
    ensures ModelJoblib in d && d[ModelJoblib] == Pickle(model)
    ensures ModelBin in d && d[ModelBin] == Pickle(model)
    ensures metadata.Some? ==> MetadataJson in d && d[MetadataJson] == JsonText(metadata.value)
    ensures metadata.None? ==> (MetadataJson in d <==> MetadataJson in dir)
    ensures metadata.None? && MetadataJson in dir ==> d[MetadataJson] == dir[MetadataJson]
    ensures forall f :: f in dir && f != ModelJoblib && f != ModelBin && f != MetadataJson ==> f in d && d[f] == dir[f]
    ensures forall f :: f in d ==> f in dir || f == ModelJoblib || f == ModelBin || f == MetadataJson
  {
    var withModel := dir[ModelJoblib := Pickle(model)][ModelBin := Pickle(model)];
    if metadata.Some? then withModel[MetadataJson := JsonText(metadata.value)] else withModel
  }

  /** The model file load_bundle reads: model.bin when it exists, else
      model.joblib. */
  function ModelFileOf<M>(files: Directory<M>): (f: string)
    ensures f == ModelBin <==> ModelBin in files
    ensures f == ModelJoblib <==> ModelBin !in files
  {
    if ModelBin in files then ModelBin else ModelJoblib
  }

  /** load_bundle on the directory found at the path (None: no such directory).
      model.bin is preferred over model.joblib; a missing or unreadable model
      file raises; absent metadata reads as {}. */
  function LoadFrom<M>(dir: Option<Directory<M>>): (r: Result<(M, Json)>)
    ensures dir.Some? && ModelBin in dir.value ==>
      (r.Ok? ==> dir.value[ModelBin] == Pickle(r.value.0))
    ensures dir.Some? && ModelBin !in dir.value && ModelJoblib in dir.value ==>
      (r.Ok? ==> dir.value[ModelJoblib] == Pickle(r.value.0))
    ensures dir.None? || (ModelBin !in dir.value && ModelJoblib !in dir.value) ==> r.Err?
    ensures r.Ok? && MetadataJson !in dir.value ==> r.value.1 == EmptyObj
    ensures r.Ok? && MetadataJson in dir.value ==> dir.value[MetadataJson] == JsonText(r.value.1)
    ensures r.Ok? <==>
      && dir.Some?
      && ModelFileOf(dir.value) in dir.value && dir.value[ModelFileOf(dir.value)].Pickle?
      && (MetadataJson in dir.value ==> dir.value[MetadataJson].JsonText?)
  {
    if dir.None? then Err("FileNotFoundError: no bundle directory")
    else
      var files := dir.value;
      var modelFile := ModelFileOf(files);
      if modelFile !in files then Err("FileNotFoundError: " + modelFile)
      else if !files[modelFile].Pickle? then Err("cannot unpickle " + modelFile)
      else if MetadataJson !in files then Ok((files[modelFile].model, EmptyObj))
      else if !files[MetadataJson].JsonText? then Err("metadata.json is not JSON")
      else Ok((files[modelFile].model, files[MetadataJson].doc))
  }

  /** Round trip: after save_bundle with metadata, load_bundle returns the
      same model and metadata, whatever the directory held before. */
  lemma SaveThenLoad<M>(dir: Directory<M>, model: M, metadata: Json)
    ensures LoadFrom(Some(SavedDirectory(dir, model, Some(metadata)))) == Ok((model, metadata))
  {
  }

  /** Without metadata, a fresh bundle loads with {} as its metadata, and an
      existing metadata.json is kept. */
  lemma SaveWithoutMetadataThenLoad<M>(dir: Directory<M>, model: M)
    ensures MetadataJson !in dir ==> LoadFrom(Some(SavedDirectory(dir, model, None))) == Ok((model, EmptyObj))
    ensures MetadataJson in dir && dir[MetadataJson].JsonText? ==>
      LoadFrom(Some(SavedDirectory(dir, model, None))) == Ok((model, dir[MetadataJson].doc))
  {
  }

  /** The file system holding bundle directories. */
  class BundleDisk<M> {
    var dirs: map<string, Directory<M>>

    constructor (existing: map<string, Directory<M>>)
      ensures dirs == existing
    {
      dirs := existing;
    }

    /** save_bundle: returns the bundle directory's path. */
    method SaveBundle(path: string, model: M, metadata: Option<Json>) returns (saved: string)
      modifies this
      ensures saved == path
      ensures path in dirs
      ensures dirs == old(dirs)[path := SavedDirectory(if path in old(dirs) then old(dirs)[path] else map[], model, metadata)]
      ensures metadata.Some? ==> LoadBundle(path) == Ok((model, metadata.value))
      ensures metadata.None? && path !in old(dirs) ==> LoadBundle(path) == Ok((model, EmptyObj))
    {
      var dir: Directory<M> := if path in dirs then dirs[path] else map[];  // mkdir(parents=True, exist_ok=True)
      dir := dir[ModelJoblib := Pickle(model)];
      dir := dir[ModelBin := Pickle(model)];
      if metadata.Some? {
        dir := dir[MetadataJson := JsonText(metadata.value)];
      }
      dirs := dirs[path := dir];
      saved := path;
      if metadata.Some? {
        SaveThenLoad(old(if path in dirs then dirs[path] else map[]), model, metadata.value);
      } else if path !in old(dirs) {
        SaveWithoutMetadataThenLoad(map[], model);
      }
    }

    /** load_bundle */
    function LoadBundle(path: string): (r: Result<(M, Json)>)
      reads this
      ensures path !in dirs ==> r.Err?
      ensures path in dirs ==> r == LoadFrom(Some(dirs[path]))
      ensures r.Ok? <==>
        && path in dirs
        && ModelFileOf(dirs[path]) in dirs[path] && dirs[path][ModelFileOf(dirs[path])].Pickle?
        && (MetadataJson in dirs[path] ==> dirs[path][MetadataJson].JsonText?)
      ensures r.Ok? ==> dirs[path][ModelFileOf(dirs[path])] == Pickle(r.value.0)
      ensures r.Ok? && MetadataJson !in dirs[path] ==> r.value.1 == EmptyObj
      ensures r.Ok? && MetadataJson in dirs[path] ==> dirs[path][MetadataJson] == JsonText(r.value.1)
    {
      LoadFrom(if path in dirs then Some(dirs[path]) else None)
    }
  }
}
