/** `GitExtractor` (agentbom/extractors/git.py) as a class: the one piece
    of state it updates is the CODEOWNERS cache, loaded on first use.  Each
    method is proved against the functions of module `Git`. */
module GitExtractorClass {
  import opened Wrappers
  import opened Strs
  import Paths
  import opened Git

  class GitExtractor {
    const repo: Repo
    var codeownersCache: Option<seq<Rule>>

    /** A loaded cache holds the rules of the repository's CODEOWNERS. */
    ghost predicate Valid()
      reads this
    {
      codeownersCache.Some? ==> codeownersCache.value == LoadedCodeowners(repo)
    }

    constructor(repo: Repo)
      ensures this.repo == repo && codeownersCache.None? && Valid()
    {
      this.repo := repo;
      codeownersCache := None;
    }

    /** `_load_codeowners`: the first CODEOWNERS that exists, read line by
        line; one that cannot be read leaves the cache empty. */
    method LoadCodeowners()
      modifies this
      ensures codeownersCache == Some(LoadedCodeowners(repo)) && Valid()
    {
      codeownersCache := Some([]);
      var locations := Locations(repo.root);
      var found: Option<Paths.Path> := None;
      var k := 0;
      while k < |locations| && found.None?
        invariant 0 <= k <= |locations|
        invariant found.None? ==> FirstExisting(repo.fs, locations[k..]) == FirstExisting(repo.fs, locations)
        invariant found.Some? ==> found == FirstExisting(repo.fs, locations)
      {
        assert locations[k..][1..] == locations[k + 1..];
        if Paths.Exists(repo.fs, locations[k]) {
          found := Some(locations[k]);
        }
        k := k + 1;
      }
      if found.None? {
        assert locations[k..] == [];
        return;
      }
      var path := found.value;
      if path !in repo.fs.files {
        return;
      }
      var lines := SplitLines(repo.fs.files[path]);
      ghost var ps := ParsedLines(lines);
      var rules: seq<Rule> := [];
      var i := 0;
      while i < |lines|
        invariant 0 <= i <= |lines|
        invariant rules == RulesPresent(ps[..i])
      {
        assert ps[..i + 1][..i] == ps[..i];
        var rule := ParseLine(lines[i]);
        if rule.Some? {
          rules := rules + [rule.value];
        }
        i := i + 1;
      }
      assert ps[..|lines|] == ps;
      codeownersCache := Some(rules);
    }

    /** `_match_codeowners_pattern(file_path)`: nothing before the rules
        are loaded or when there are none. */
    method MatchCodeownersPattern(filePath: string) returns (owner: Option<string>)
      ensures codeownersCache.None? ==> owner.None?
      ensures codeownersCache.Some? ==> owner == MatchCodeowners(repo, codeownersCache.value, filePath)
    {
      if codeownersCache.None? || codeownersCache.value == [] {
        return None;
      }
      var rules := codeownersCache.value;
      var path := Rooted(filePath);
      var best := LongestMatch(rules, path, Hits(repo, rules, path));
      owner := best.owners;
    }

    /** The loop of `_match_codeowners_pattern` over the rules, for a
        rooted path; `hits` says which rules match it. */
    method LongestMatch(rules: seq<Rule>, path: string, ghost hits: seq<bool>) returns (best: Best)
      requires |hits| == |rules| && forall k :: 0 <= k < |rules| ==> hits[k] == PatternMatches(repo, rules[k].pattern, path)
      ensures best == BestMatch(rules, hits)
    {
      var bestMatch: Option<string> := None;
      var bestLength: nat := 0;
      var i := 0;
      while i < |rules|
        invariant 0 <= i <= |rules|
        invariant Best(bestMatch, bestLength) == BestMatch(rules[..i], hits[..i])
      {
        BestMatchStep(rules, hits, i);
        var rule := rules[i];
        if PatternMatches(repo, rule.pattern, path) {
          var patternLength := |rule.pattern|;
          if patternLength > bestLength {
            bestLength := patternLength;
            bestMatch := Some(rule.owners);
          }
        }
        i := i + 1;
      }
      assert rules[..|rules|] == rules && hits[..|rules|] == hits;
      best := Best(bestMatch, bestLength);
    }

    /** `_get_codeowners_owner(files)`: loads the rules when needed, then
        the one owner every file with an owner has. */
    method GetCodeownersOwner(files: seq<string>) returns (owner: Option<string>)
      requires Valid()
      modifies this
      ensures codeownersCache == Some(LoadedCodeowners(repo)) && Valid()
      ensures owner == CodeownersOwner(repo, LoadedCodeowners(repo), files)
    {
      if codeownersCache.None? {
        LoadCodeowners();
      }
      var rules := codeownersCache.value;
      if rules == [] {
        return None;
      }
      var owners := CollectOwners(files, FileOwners(repo, rules, files));
      owner := if |owners| == 1 then Some(owners[0]) else None;
    }

    /** The loop of `_get_codeowners_owner` collecting the set of owners;
        `found` is what the rules give for each file. */
    method CollectOwners(files: seq<string>, ghost found: seq<Option<string>>) returns (owners: seq<string>)
      requires codeownersCache.Some?
      requires |found| == |files| && forall k :: 0 <= k < |files| ==> found[k] == MatchCodeowners(repo, codeownersCache.value, files[k])
      ensures owners == OwnerSet(found)
    {
      owners := [];
      var i := 0;
      while i < |files|
        invariant 0 <= i <= |files|
        invariant owners == OwnerSet(found[..i])
      {
        assert found[..i + 1][..i] == found[..i];
        var m := MatchCodeownersPattern(files[i]);
        if m.Some? && m.value != "" && m.value !in owners {
          owners := owners + [m.value];
        }
        i := i + 1;
      }
      assert found[..|files|] == found;
    }

    /** `_get_modal_author(files)` */
    method GetModalAuthor(files: seq<string>) returns (author: string)
      ensures author == ModalAuthor(repo, files)
    {
      ghost var cs := Commits(repo, files);
      var authors: seq<string> := [];
      var i := 0;
      while i < |files|
        invariant 0 <= i <= |files|
        invariant authors == Authors(cs[..i])
      {
        assert cs[..i + 1][..i] == cs[..i];
        var c := LastCommit(repo, files[i]);
        if c.Some? && c.value.author != "" {
          authors := authors + [c.value.author];
        }
        i := i + 1;
      }
      assert cs[..|files|] == cs;
      if authors != [] {
        return MostCommon(authors);
      }
      return "unknown";
    }

    /** `get_owner(files)` */
    method GetOwner(files: seq<string>) returns (owner: string)
      requires Valid()
      modifies this
      ensures codeownersCache == Some(LoadedCodeowners(repo)) && Valid()
      ensures owner == Owner(repo, files)
    {
      var codeownersOwner := GetCodeownersOwner(files);
      if codeownersOwner.Some? && codeownersOwner.value != "" {
        return codeownersOwner.value;
      }
      owner := GetModalAuthor(files);
    }

    /** `get_timestamps(files)` */
    method GetTimestamps(files: seq<string>, now: int) returns (t: Timestamps)
      ensures t == TimestampsOf(repo, files, now)
    {
      ghost var created := CreationTimes(repo, files);
      ghost var updated := UpdateTimes(repo, files);
      var createdAt: Option<int> := None;
      var updatedAt: Option<int> := None;
      var i := 0;
      while i < |files|
        invariant 0 <= i <= |files|
        invariant createdAt == Earliest(created[..i]) && updatedAt == Latest(updated[..i])
      {
        assert created[..i + 1][..i] == created[..i] && updated[..i + 1][..i] == updated[..i];
        var creation := CreationTime(repo, files[i]);
        if creation.Some? {
          if createdAt.None? || creation.value < createdAt.value {
            createdAt := creation;
          }
        }
        var update := UpdateTime(repo, files[i]);
        if update.Some? {
          if updatedAt.None? || update.value > updatedAt.value {
            updatedAt := update;
          }
        }
        i := i + 1;
      }
      assert created[..|files|] == created && updated[..|files|] == updated;
      t := Timestamps(createdAt.GetOr(now), updatedAt.GetOr(now));
    }

    /** `get_last_changed_by(files)` */
    method GetLastChangedBy(files: seq<string>) returns (author: Option<string>)
      ensures author == LastChangedBy(repo, files)
    {
      ghost var cs := Commits(repo, files);
      var latestAuthor: Option<string> := None;
      var latestTime: Option<int> := None;
      var i := 0;
      while i < |files|
        invariant 0 <= i <= |files|
        invariant var l := LatestCommit(cs[..i]);
          (l.None? ==> latestAuthor.None? && latestTime.None?)
          && (l.Some? ==> latestAuthor == Some(l.value.author) && latestTime == Some(l.value.time))
      {
        assert cs[..i + 1][..i] == cs[..i];
        var c := LastCommit(repo, files[i]);
        if c.Some? {
          if latestTime.None? || c.value.time > latestTime.value {
            latestTime := Some(c.value.time);
            latestAuthor := Some(c.value.author);
          }
        }
        i := i + 1;
      }
      assert cs[..|files|] == cs;
      author := latestAuthor;
    }
  }
}
