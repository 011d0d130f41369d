/** The job directory and the package tree as a value: a map from
    directory paths to the files each holds, by name, with their text.
 */
module Files {
  import opened Wrappers
  import opened Text

  /** A path as its components; `a/b/c` is `["a", "b", "c"]`. */
  type Path = seq<string>

  /** Directories and the files directly inside each. */
  type Fs = map<Path, map<string, string>>

  function PathText(p: Path): string
  {
    Join(p, "/")
  }

  /** `Path.name`: the last component. */
  function Name(p: Path): string
  {
    if p == [] then "" else p[|p| - 1]
  }

  function Parent(p: Path): Path
  {
    if p == [] then [] else p[..|p| - 1]
  }

  /** `path.is_file()` / `path.exists()` for a file. */
  predicate IsFile(fs: Fs, p: Path)
  {
    p != [] && Parent(p) in fs && Name(p) in fs[Parent(p)]
  }

  /** `path.is_dir()`. */
  predicate IsDir(fs: Fs, p: Path)
  {
    p in fs
  }

  /** `path.read_text()`. */
  function Read(fs: Fs, p: Path): (r: Result<string>)
    ensures r.Ok? <==> IsFile(fs, p)
    ensures r.Ok? ==> r.value == fs[Parent(p)][Name(p)]
  {
    if IsFile(fs, p) then Ok(fs[Parent(p)][Name(p)])
    else Err(FileNotFound("[Errno 2] No such file or directory: " + Repr(PathText(p))))
  }

  /** `path.write_text(text)`: creates or replaces the file; the directory
      must exist. */
  function Write(fs: Fs, p: Path, text: string): (r: Result<Fs>)
    ensures r.Ok? <==> p != [] && IsDir(fs, Parent(p))
  {
    if p != [] && IsDir(fs, Parent(p)) then Ok(fs[Parent(p) := fs[Parent(p)][Name(p) := text]])
    else Err(FileNotFound("[Errno 2] No such file or directory: " + Repr(PathText(p))))
  }

  /** Reading a file just written gives its text; every other file and
      every directory is as before. */
  lemma WriteThenRead(fs: Fs, p: Path, text: string, q: Path)
    requires Write(fs, p, text).Ok?
    ensures var fs' := Write(fs, p, text).value;
      && (q == p ==> Read(fs', q) == Ok(text))
      && (q != p ==> Read(fs', q) == Read(fs, q))
      && fs'.Keys == fs.Keys
  {
    var fs' := Write(fs, p, text).value;
    if q != p && q != [] && Parent(q) == Parent(p) {
      assert Name(q) != Name(p) by {
        assert q == Parent(q) + [Name(q)] && p == Parent(p) + [Name(p)];
      }
    }
  }

  /** Writing a file a second time with the same text changes nothing. */
  lemma WriteIdempotent(fs: Fs, p: Path, text: string)
    requires Write(fs, p, text).Ok?
    ensures Write(Write(fs, p, text).value, p, text) == Write(fs, p, text)
  {
    var fs' := Write(fs, p, text).value;
    assert fs'[Parent(p)] == fs[Parent(p)][Name(p) := text];
    assert fs'[Parent(p)][Name(p) := text] == fs'[Parent(p)];
    assert fs'[Parent(p) := fs'[Parent(p)]] == fs';
  }
}
