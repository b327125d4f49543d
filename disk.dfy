/**
 * The filesystem as the runner sees it: the regular files with their text and the set of
 * directories, addressed by path strings.  Each operation is the `pathlib` / `shutil` call
 * the runner makes, returning the new filesystem or the error it raises.
 */
module Disk {
  import opened Wrappers
  import opened Text

  datatype FileSystem = FileSystem(files: map<string, string>, dirs: set<string>)

  predicate Exists(fs: FileSystem, p: string) { p in fs.files || p in fs.dirs }

  /** The index of the last `/` in `p`. */
  function LastSlash(p: string): (r: Option<nat>)
    ensures r.Some? ==> r.value < |p| && p[r.value] == '/' && forall j :: r.value < j < |p| ==> p[j] != '/'
    ensures r.None? ==> forall j :: 0 <= j < |p| ==> p[j] != '/'
  {
    if p == [] then None
    else if p[|p| - 1] == '/' then Some(|p| - 1)
    else LastSlash(p[..|p| - 1])
  }

  /** `Path(base) / name`: an absolute `name` replaces the base. */
  function Join(base: string, name: string): (r: string)
    ensures name != "" && name[0] != '/' ==> r == base + "/" + name
  {
    if name == "" then base
    else if name[0] == '/' then name
    else base + "/" + name
  }

  /** `Path(p).parent`. */
  function Parent(p: string): string {
    match LastSlash(p)
    case None => "."
    case Some(i) => if i == 0 then "/" else p[..i]
  }

  /** `Path(p).name`. */
  function BaseName(p: string): string {
    match LastSlash(p)
    case None => p
    case Some(i) => p[i + 1..]
  }

  lemma {:induction false} JoinParts(base: string, name: string)
    requires base != "" && base[|base| - 1] != '/'
    requires name != "" && forall j :: 0 <= j < |name| ==> name[j] != '/'
    ensures Parent(Join(base, name)) == base && BaseName(Join(base, name)) == name
  {
    var r := Join(base, name);
    assert r == base + "/" + name;
    assert r[|base|] == '/';
    assert forall j :: |base| < j < |r| ==> r[j] == name[j - |base| - 1];
    assert LastSlash(r) == Some(|base|);
    assert r[..|base|] == base;
    assert r[|base| + 1..] == name;
  }

  /** `open(p, "w").write(text)`: the parent must be a directory and `p` must not be one. */
  function WriteText(fs: FileSystem, p: string, text: string): (r: Result<FileSystem>)
    ensures r.Ok? <==> Parent(p) in fs.dirs && p !in fs.dirs
  {
    if Parent(p) !in fs.dirs then Err("No such file or directory: " + p)
    else if p in fs.dirs then Err("Is a directory: " + p)
    else Ok(fs.(files := fs.files[p := text]))
  }

  /** `open(p).read()`. */
  function ReadText(fs: FileSystem, p: string): (r: Option<string>)
    ensures r.Some? <==> p in fs.files
  {
    if p in fs.files then Some(fs.files[p]) else None
  }

  /** Text written can be read back; nothing else changes. */
  lemma WriteThenRead(fs: FileSystem, p: string, text: string, q: string)
    requires WriteText(fs, p, text).Ok?
    ensures ReadText(WriteText(fs, p, text).value, p) == Some(text)
    ensures q != p ==> ReadText(WriteText(fs, p, text).value, q) == ReadText(fs, q)
    ensures WriteText(fs, p, text).value.dirs == fs.dirs
  {
  }

  /** `shutil.copy2(src, dst)`: copies the text of a regular file; a directory `dst` receives `BaseName(src)`. */
  function CopyFile(fs: FileSystem, src: string, dst: string): (r: Result<FileSystem>)
    ensures r.Ok? ==> src in fs.files && r.value.dirs == fs.dirs
    ensures r.Ok? ==> var target := if dst in fs.dirs then Join(dst, BaseName(src)) else dst;
                      target != src && r.value.files == fs.files[target := fs.files[src]]
  {
    if src !in fs.files then
      Err((if src in fs.dirs then "Is a directory: " else "No such file or directory: ") + src)
    else
      var target := if dst in fs.dirs then Join(dst, BaseName(src)) else dst;
      if target == src then Err("are the same file: " + src)
      else WriteText(fs, target, fs.files[src])
  }

  lemma Rebase(f: string, prefix: string)
    requires StartsWith(f, prefix)
    ensures f == prefix + f[|prefix|..]
  {
    assert f == f[..|prefix|] + f[|prefix|..];
  }

  /** The files below `src`, moved below `dst`. */
  function Relocated(files: map<string, string>, src: string, dst: string): map<string, string> {
    assert forall f1, f2 | f1 in files && StartsWith(f1, src + "/") && f2 in files && StartsWith(f2, src + "/")
                          && dst + f1[|src|..] == dst + f2[|src|..] :: f1 == f2 by {
      forall f1, f2 | f1 in files && StartsWith(f1, src + "/") && f2 in files && StartsWith(f2, src + "/")
                      && dst + f1[|src|..] == dst + f2[|src|..]
        ensures f1 == f2
      {
        assert f1[|src|..] == (dst + f1[|src|..])[|dst|..];
        assert f2[|src|..] == (dst + f2[|src|..])[|dst|..];
        Rebase(f1, src);
        Rebase(f2, src);
      }
    }
    map f | f in files && StartsWith(f, src + "/") :: dst + f[|src|..] := files[f]
  }

  /**
   * `shutil.copytree(src, dst)`: `src` must be a directory and `dst` must not exist; the
   * directories and files below `src` reappear below `dst`.
   */
  function CopyTree(fs: FileSystem, src: string, dst: string): (r: Result<FileSystem>)
    ensures r.Ok? <==> src in fs.dirs && !Exists(fs, dst) && Parent(dst) in fs.dirs
    ensures r.Ok? ==> dst in r.value.dirs && fs.dirs <= r.value.dirs && fs.files.Keys <= r.value.files.Keys
  {
    if src !in fs.dirs then Err("No such file or directory: " + src)
    else if Exists(fs, dst) then Err("File exists: " + dst)
    else if Parent(dst) !in fs.dirs then Err("No such file or directory: " + dst)
    else
      var subdirs := set d | d in fs.dirs && StartsWith(d, src + "/") :: dst + d[|src|..];
      var moved := Relocated(fs.files, src, dst);
      Ok(FileSystem(fs.files + moved, fs.dirs + {dst} + subdirs))
  }

  /** `Path(p).mkdir(exist_ok=existOk)`: the parent must exist; an existing directory is an error unless `existOk`. */
  function MakeDir(fs: FileSystem, p: string, existOk: bool): (r: Result<FileSystem>)
    ensures r.Ok? <==> Parent(p) in fs.dirs && p !in fs.files && (existOk || p !in fs.dirs)
    ensures r.Ok? ==> r.value == fs.(dirs := fs.dirs + {p})
  {
    if Parent(p) !in fs.dirs then Err("No such file or directory: " + p)
    else if p in fs.files || (p in fs.dirs && !existOk) then Err("File exists: " + p)
    else Ok(fs.(dirs := fs.dirs + {p}))
  }
}
