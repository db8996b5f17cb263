/**
 * The path functions of Go's `path/filepath` that the core uses, on '/'-separated
 * strings. Cleaning (`..`, `.`, doubled or trailing separators) is not modelled:
 * paths are taken to be clean already.
 */
module Paths {
  import opened Results
  import opened Text

  /** filepath.Join of two elements: empty elements are skipped. */
  function Join(a: String, b: String): String {
    if a == "" then b else if b == "" then a else a + "/" + b
  }

  /** filepath.Join of three elements. */
  function Join3(a: String, b: String, c: String): String {
    Join(Join(a, b), c)
  }

  /** Index of the last '/' in `s`. */
  function LastSlash(s: String): Option<nat> {
    LastIndex(s, '/')
  }

  /** filepath.Dir: everything before the last separator. */
  function Dir(p: String): String {
    match LastSlash(p)
    case None => "."
    case Some(i) => if i == 0 then "/" else p[..i]
  }

  /** filepath.Base: everything after the last separator. */
  function Base(p: String): String {
    if p == "" then "."
    else match LastSlash(p)
      case None => p
      case Some(i) => p[i + 1..]
  }

  /** A path element: non-empty and free of separators. */
  predicate IsName(s: String) {
    s != "" && '/' !in s
  }

  lemma LastSlashOfJoin(a: String, b: String)
    requires '/' !in b
    ensures LastSlash(a + "/" + b) == Some(|a|)
  {
    LastIndexOfJoin(a, '/', b);
  }

  /**
   * The folder name of an entity file: for `<dir>/<name>/<file>`, Base(Dir(..)) is
   * `<name>`. This is how a container's definition folder is recovered from the
   * path it was loaded from.
   */
  lemma FolderOfEntityFile(dir: String, name: String, file: String)
    requires IsName(name) && IsName(file)
    ensures Base(Dir(Join3(dir, name, file))) == name
  {
    var folder := Join(dir, name);
    assert folder != "";
    LastSlashOfJoin(folder, file);
    assert Join3(dir, name, file)[..|folder|] == folder;
    if dir == "" {
      assert Dir(Join3(dir, name, file)) == name;
    } else {
      assert Dir(Join3(dir, name, file)) == dir + "/" + name;
      LastSlashOfJoin(dir, name);
      assert (dir + "/" + name)[|dir| + 1..] == name;
    }
  }
}
