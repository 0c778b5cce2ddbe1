/**
 * The one decision of the file helper the PEM writers call: a write to a
 * path that already exists is refused unless overwriting was asked for.
 * The file system is a map from paths to contents; the operating-system
 * failures of the helper are not modelled.
 */
module Files {
  import opened Wrappers
  import opened X509

  type FileSystem = map<string, Bytes>

  /** The file system after a write, and the error the write returned. */
  datatype Stored = Stored(fs: FileSystem, err: Option<Error>)

  /**
   * `filehelper.WriteFile`: refused, leaving every file as it was, exactly
   * when the path exists and `overwrite` is false; otherwise the path holds
   * `input` and every other path is unchanged.
   */
  function WriteFile(fs: FileSystem, input: Bytes, file: string, overwrite: bool): (r: Stored)
    ensures r.err.Some? <==> file in fs && !overwrite
    ensures r.err.Some? ==> r.fs == fs && r.err == Some(PathExists(file))
    ensures r.err.None? ==> file in r.fs && r.fs[file] == input
    ensures r.err.None? ==> r.fs.Keys == fs.Keys + {file}
    ensures forall p :: p in fs && p != file ==> p in r.fs && r.fs[p] == fs[p]
  {
    if file in fs && !overwrite then Stored(fs, Some(PathExists(file)))
    else Stored(fs[file := input], None)
  }
}
