/** The part of the file system a run observes: which template files and
    which directories exist. */
module Files {
  import opened Wrappers

  /** Existing regular files and directories, by path. */
  datatype FileSystem = FileSystem(files: set<string>, dirs: set<string>)

  predicate NoSlash(s: string) {
    forall j :: 0 <= j < |s| ==> s[j] != '/'
  }

  /** Position of the last '/' of a path, if it has one. */
  function LastSlash(s: string): Option<nat>
    decreases |s|
  {
    if |s| == 0 then None
    else if s[|s| - 1] == '/' then Some(|s| - 1)
    else LastSlash(s[..|s| - 1])
  }

  /** LastSlash finds a '/' exactly when there is one, and none follows it. */
  lemma {:induction false} LastSlashSpec(s: string)
    ensures LastSlash(s).None? <==> NoSlash(s)
    ensures LastSlash(s).Some? ==> LastSlash(s).value < |s| && s[LastSlash(s).value] == '/'
    ensures LastSlash(s).Some? ==> forall j :: LastSlash(s).value < j < |s| ==> s[j] != '/'
    decreases |s|
  {
    if |s| > 0 && s[|s| - 1] != '/' {
      var init := s[..|s| - 1];
      LastSlashSpec(init);
      assert forall j :: 0 <= j < |init| ==> init[j] == s[j];
    }
  }

  /** Directory part of a path: what precedes its last '/'. A path without
      a '/' names a file in the working directory, written "". */
  function DirName(path: string): string {
    LastSlashSpec(path);
    match LastSlash(path)
    case None => ""
    case Some(i) => path[..i]
  }

  /** Opening `path` for writing creates the file exactly when its directory
      exists; "" (the working directory, or the root) always exists. */
  predicate CanCreate(fs: FileSystem, path: string) {
    DirName(path) == "" || DirName(path) in fs.dirs
  }

  /** The template loader finds `name` under the search directory `dir`. */
  predicate HasTemplate(fs: FileSystem, dir: string, name: string) {
    dir + "/" + name in fs.files
  }

  /** A file joined onto a directory lies in that directory. */
  lemma DirNameOfJoin(dir: string, name: string)
    requires NoSlash(name)
    ensures DirName(dir + "/" + name) == dir
  {
    var s := dir + "/" + name;
    assert s[|dir|] == '/';
    LastSlashSpec(s);
    var k := LastSlash(s).value;
    assert forall j :: |dir| < j < |s| ==> s[j] == name[j - |dir| - 1];
    assert k == |dir|;
    assert s[..|dir|] == dir;
  }
}
