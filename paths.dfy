/** `pathlib` paths and an abstract file system.  A path is absolute and is
    kept as its components, the root `/` being the empty sequence. */
module Paths {
  import opened Wrappers
  import opened Strs

  type Path = seq<string>

  /** `p.parent`; the root is its own parent. */
  function Parent(p: Path): (r: Path)
    ensures |r| == if p == [] then 0 else |p| - 1
  {
    if p == [] then [] else p[..|p| - 1]
  }

  /** `p.name`; the root has the empty name. */
  function Name(p: Path): string {
    if p == [] then "" else p[|p| - 1]
  }

  /** `p / c` for a single component; `p / ""` is `p`. */
  function Child(p: Path, c: string): Path {
    if c == "" then p else p + [c]
  }

  /** `str(p)` */
  function ToStr(p: Path): string {
    "/" + Join("/", p)
  }

  function LastIndexOf(s: string, c: char): (r: Option<nat>)
    ensures r.Some? ==> r.value < |s| && s[r.value] == c
    ensures r.None? ==> c !in s
  {
    if s == [] then None
    else if s[|s| - 1] == c then Some(|s| - 1)
    else LastIndexOf(s[..|s| - 1], c)
  }

  /** `PurePath.suffix`: from the last dot, unless the dot is the first or
      the last character of the name. */
  function Suffix(name: string): (r: string)
    ensures r == [] || (r[0] == '.' && |r| >= 2 && EndsWith(name, r) && |r| < |name|)
  {
    match LastIndexOf(name, '.')
    case Some(i) => if 0 < i < |name| - 1 then name[i..] else ""
    case None => ""
  }

  /** `Path(str(p) + ext)`: the text appended to the last component (to a
      fresh component when `p` is the root). */
  function AppendText(p: Path, ext: string): Path {
    if p == [] then [ext] else p[..|p| - 1] + [p[|p| - 1] + ext]
  }

  /** `p.with_suffix(ext)`; `None` is the ValueError raised for the root. */
  function WithSuffix(p: Path, ext: string): Option<Path> {
    if p == [] then None
    else
      var name := Name(p);
      var suffix := Suffix(name);
      Some(Parent(p) + [name[..|name| - |suffix|] + ext])
  }

  /** A file system: the directories that exist, the text of each
      readable file, and the regular files that exist but cannot be read
      or decoded (`exists()` and `is_file()` hold for them, and every read
      fails). */
  datatype FileSystem = FileSystem(dirs: set<Path>, files: map<Path, string>, unreadable: set<Path>)

  /** `p.exists()` */
  predicate Exists(fs: FileSystem, p: Path) {
    p in fs.dirs || p in fs.files || p in fs.unreadable
  }

  /** `p.is_file()` */
  predicate IsFile(fs: FileSystem, p: Path) {
    p in fs.files || p in fs.unreadable
  }

  /** `p.relative_to(root)` as components, or `None` for the ValueError
      raised when `p` is not under `root`. */
  function RelativeTo(p: Path, root: Path): (r: Option<seq<string>>)
    ensures r.Some? ==> root + r.value == p
  {
    if |root| <= |p| && p[..|root|] == root then Some(p[|root|..]) else None
  }

  /** `str(p.relative_to(root))`, falling back to `str(p)` when `p` is not
      under `root`. */
  function RelativeOrFull(p: Path, root: Path): string {
    match RelativeTo(p, root)
    case Some(rel) => if rel == [] then "." else Join("/", rel)
    case None => ToStr(p)
  }
}
