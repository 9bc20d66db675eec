/** `FileWalker` (agentbom/utils/file_walker.py): which files a scan looks
    at.  Glob matching (`fnmatch.fnmatch`) and the size of a file are
    oracles; the walker itself only combines their answers. */
module FileWalking {
  import opened Wrappers
  import opened Strs
  import opened Paths

  /** `fnmatch.fnmatch(name, pattern)` */
  type Glob = (string, string) -> bool

  /** `path.stat().st_size`, `None` when `stat` raises an OSError. */
  type Sizes = Path -> Option<nat>

  /** Directory names skipped in strict mode. */
  const DEFAULT_EXCLUDES: set<string> := {
    "node_modules", ".venv", "venv", "dist", "build", "site-packages", "__pycache__", ".git",
    ".pytest_cache", ".mypy_cache", ".tox", ".coverage", ".hypothesis", "htmlcov", "wheels",
    "*.egg-info", ".env", "env"
  }

  const SUPPORTED_EXTENSIONS: set<string> := {".py", ".ts", ".tsx", ".js", ".jsx"}

  /** Names accepted whatever their extension. */
  const README_PATTERNS: seq<string> := ["README", "README.md", "README.txt", "README.rst", "readme.md", "Readme.md"]

  /** The exclude set built by `__init__`: the user's patterns, and the
      default names as well exactly in strict mode. */
  function ExcludeSet(excludePatterns: seq<string>, strict: bool): (r: set<string>)
    ensures forall p :: p in r <==> p in excludePatterns || (strict && p in DEFAULT_EXCLUDES)
  {
    (set p | p in excludePatterns) + (if strict then DEFAULT_EXCLUDES else {})
  }

  /** The path `_should_exclude_dir` matches against the user's patterns:
      the directory relative to its grandparent, that is `parent/dirname`
      (`dirname` alone when the parent is the root). */
  function DirRelative(dirname: string, parent: Path): string {
    RelativeOrFull(Child(parent, dirname), Parent(parent))
  }

  /** `_should_exclude_dir(dirname, parent_path)`: the name matches an
      exclude entry, or the name or its `parent/dirname` path matches one of
      the user's patterns. */
  predicate ExcludesDir(glob: Glob, excludes: set<string>, excludePatterns: seq<string>, dirname: string, parent: Path) {
    NameExcluded(glob, excludes, dirname) || PatternExcluded(glob, excludePatterns, dirname, DirRelative(dirname, parent))
  }

  /** The name matches one of the exclude set's patterns. */
  predicate NameExcluded(glob: Glob, excludes: set<string>, dirname: string) {
    exists p :: p in excludes && glob(dirname, p)
  }

  /** The relative path or the name matches one of the user's patterns. */
  predicate PatternExcluded(glob: Glob, excludePatterns: seq<string>, name: string, rel: string) {
    exists i :: 0 <= i < |excludePatterns| && (glob(rel, excludePatterns[i]) || glob(name, excludePatterns[i]))
  }

  /** The ancestor loop of `_should_process_file`, from the ancestor `p`
      upwards: it stops at the root without looking at it, and otherwise
      rejects an ancestor whose name is excluded; the filesystem root `/`
      ends the walk. */
  predicate ExcludedFrom(p: Path, root: Path, excludes: set<string>)
    decreases |p|
  {
    p != root && (Name(p) in excludes || (p != [] && ExcludedFrom(Parent(p), root, excludes)))
  }

  /** Some ancestor of `file` met before reaching `root` has an excluded
      name. */
  predicate AncestorExcluded(file: Path, root: Path, excludes: set<string>) {
    file != [] && ExcludedFrom(Parent(file), root, excludes)
  }

  /** `_should_process_file(file_path, root_path)` */
  predicate ProcessesFile(sizes: Sizes, glob: Glob, maxFileBytes: nat, includePatterns: seq<string>,
                          excludePatterns: seq<string>, excludes: set<string>, file: Path, root: Path)
  {
    var rel := RelativeOrFull(file, root);
    var name := Name(file);
    sizes(file).Some? && sizes(file).value <= maxFileBytes
    && (Suffix(name) in SUPPORTED_EXTENSIONS || name in README_PATTERNS)
    && (includePatterns == [] || Included(glob, includePatterns, rel))
    && !PatternExcluded(glob, excludePatterns, name, rel)
    && !AncestorExcluded(file, root, excludes)
  }

  /** The relative path matches one of the include patterns. */
  predicate Included(glob: Glob, includePatterns: seq<string>, rel: string) {
    exists i :: 0 <= i < |includePatterns| && glob(rel, includePatterns[i])
  }

  /** For a file strictly below the root, the ancestor loop rejects it
      exactly when a directory strictly between the two has an excluded
      name: the directory `file[..j + 1]` is named `file[j]`. */
  lemma AncestorExcludedBelowRoot(file: Path, root: Path, excludes: set<string>)
    requires |root| < |file| && file[..|root|] == root
    ensures AncestorExcluded(file, root, excludes)
        <==> exists j :: |root| <= j < |file| - 1 && file[j] in excludes
  {
    ExcludedFromPrefix(file, Parent(file), root, excludes);
  }

  lemma {:induction false} ExcludedFromPrefix(file: Path, p: Path, root: Path, excludes: set<string>)
    requires |root| <= |p| < |file| && p == file[..|p|] && p[..|root|] == root
    ensures ExcludedFrom(p, root, excludes) <==> exists j :: |root| <= j < |p| && file[j] in excludes
    decreases |p|
  {
    if |p| == |root| {
      assert p == root;
    } else {
      assert p != root;
      assert Name(p) == file[|p| - 1];
      ExcludedFromPrefix(file, Parent(p), root, excludes);
      if Name(p) !in excludes && ExcludedFrom(p, root, excludes) {
        var j :| |root| <= j < |p| - 1 && file[j] in excludes;
      }
    }
  }

  /** A larger exclude set rejects every ancestor a smaller one rejects. */
  lemma {:induction false} ExcludedFromMonotone(p: Path, root: Path, small: set<string>, large: set<string>)
    requires small <= large
    ensures ExcludedFrom(p, root, small) ==> ExcludedFrom(p, root, large)
    decreases |p|
  {
    if p != root && p != [] {
      ExcludedFromMonotone(Parent(p), root, small, large);
    }
  }

  /** Excluding more names never lets more files through; in particular a
      strict walker processes no file that a lenient one with the same
      patterns would skip. */
  lemma StrictProcessesFewer(sizes: Sizes, glob: Glob, maxFileBytes: nat, includePatterns: seq<string>,
                             excludePatterns: seq<string>, file: Path, root: Path)
    ensures ProcessesFile(sizes, glob, maxFileBytes, includePatterns, excludePatterns, ExcludeSet(excludePatterns, true), file, root)
        ==> ProcessesFile(sizes, glob, maxFileBytes, includePatterns, excludePatterns, ExcludeSet(excludePatterns, false), file, root)
  {
    if file != [] {
      ExcludedFromMonotone(Parent(file), root, ExcludeSet(excludePatterns, false), ExcludeSet(excludePatterns, true));
    }
  }

  /** What `walk(root_path)` yields: a list of files, or, for a directory,
      the files of an `os.walk` descent, which this model does not
      follow. */
  datatype Walked = Files(files: seq<Path>) | DirectoryTree

  class FileWalker {
    const maxFileBytes: nat
    const includePatterns: seq<string>
    const excludePatterns: seq<string>
    const excludes: set<string>

    /** `FileWalker(max_file_mb, include_patterns, exclude_patterns,
        strict)`, with the size limit already in bytes and a missing
        pattern list given as the empty one. */
    constructor(maxFileBytes: nat, includePatterns: seq<string>, excludePatterns: seq<string>, strict: bool)
      ensures this.maxFileBytes == maxFileBytes
      ensures this.includePatterns == includePatterns && this.excludePatterns == excludePatterns
      ensures excludes == ExcludeSet(excludePatterns, strict)
    {
      this.maxFileBytes := maxFileBytes;
      this.includePatterns := includePatterns;
      this.excludePatterns := excludePatterns;
      var s := set p | p in excludePatterns;
      if strict {
        s := s + DEFAULT_EXCLUDES;
      }
      excludes := s;
    }

    /** `_should_exclude_dir(dirname, parent_path)` */
    method ShouldExcludeDir(glob: Glob, dirname: string, parent: Path) returns (b: bool)
      ensures b == ExcludesDir(glob, excludes, excludePatterns, dirname, parent)
    {
      var rest := excludes;
      while rest != {}
        invariant rest <= excludes
        invariant forall p :: p in excludes && p !in rest ==> !glob(dirname, p)
        decreases |rest|
      {
        var p :| p in rest;
        if glob(dirname, p) {
          return true;
        }
        var smaller := rest - {p};
        assert |smaller| < |rest| by {
          assert rest == smaller + {p};
        }
        rest := smaller;
      }
      assert !NameExcluded(glob, excludes, dirname);
      b := MatchesExcludePattern(glob, dirname, DirRelative(dirname, parent));
    }

    /** The loop over the user's exclude patterns, shared by the two
        filters: the relative path is tried first, then the name. */
    method MatchesExcludePattern(glob: Glob, name: string, rel: string) returns (b: bool)
      ensures b == PatternExcluded(glob, excludePatterns, name, rel)
    {
      for i := 0 to |excludePatterns|
        invariant forall j :: 0 <= j < i ==> !glob(rel, excludePatterns[j]) && !glob(name, excludePatterns[j])
      {
        if glob(rel, excludePatterns[i]) {
          return true;
        }
        if glob(name, excludePatterns[i]) {
          return true;
        }
      }
      return false;
    }

    /** The include loop of `_should_process_file`. */
    method MatchesIncludePattern(glob: Glob, rel: string) returns (included: bool)
      ensures included == Included(glob, includePatterns, rel)
    {
      included := false;
      var i := 0;
      while i < |includePatterns| && !included
        invariant 0 <= i <= |includePatterns|
        invariant included <==> exists j :: 0 <= j < i && glob(rel, includePatterns[j])
      {
        if glob(rel, includePatterns[i]) {
          included := true;
        }
        i := i + 1;
      }
    }

    /** The ancestor loop of `_should_process_file`. */
    method HasExcludedAncestor(file: Path, root: Path) returns (b: bool)
      ensures b == AncestorExcluded(file, root, excludes)
    {
      if file == [] {
        return false;
      }
      var parent := Parent(file);
      while true
        invariant AncestorExcluded(file, root, excludes) == ExcludedFrom(parent, root, excludes)
        decreases |parent|
      {
        if parent == root {
          return false;
        }
        if Name(parent) in excludes {
          return true;
        }
        if parent == [] {
          return false;
        }
        parent := Parent(parent);
      }
    }

    /** `_should_process_file(file_path, root_path)` */
    method ShouldProcessFile(sizes: Sizes, glob: Glob, file: Path, root: Path) returns (b: bool)
      ensures b == ProcessesFile(sizes, glob, maxFileBytes, includePatterns, excludePatterns, excludes, file, root)
    {
      var size := sizes(file);
      if size.None? || size.value > maxFileBytes {
        return false;
      }
      var name := Name(file);
      if Suffix(name) !in SUPPORTED_EXTENSIONS {
        if name !in README_PATTERNS {
          return false;
        }
      }
      var rel := RelativeOrFull(file, root);
      if includePatterns != [] {
        var included := MatchesIncludePattern(glob, rel);
        if !included {
          return false;
        }
      }
      var excluded := MatchesExcludePattern(glob, name, rel);
      if excluded {
        return false;
      }
      var below := HasExcludedAncestor(file, root);
      return !below;
    }

    /** `walk(root_path)` for a root that does not exist or is a file: the
        file itself exactly when it passes the filter, with its parent as
        the root of relative paths. */
    method Walk(fs: FileSystem, sizes: Sizes, glob: Glob, root: Path) returns (w: Walked)
      ensures !Exists(fs, root) ==> w == Files([])
      ensures IsFile(fs, root) ==>
        w == Files(if ProcessesFile(sizes, glob, maxFileBytes, includePatterns, excludePatterns, excludes, root, Parent(root))
                   then [root] else [])
      ensures Exists(fs, root) && !IsFile(fs, root) ==> w == DirectoryTree
    {
      if !Exists(fs, root) {
        return Files([]);
      }
      if IsFile(fs, root) {
        var accepted := ShouldProcessFile(sizes, glob, root, Parent(root));
        if accepted {
          return Files([root]);
        }
        return Files([]);
      }
      return DirectoryTree;
    }
  }
}
