/** `GitExtractor` (agentbom/extractors/git.py) as functions: CODEOWNERS
    parsing and matching, and the folds over what `git log` reports for
    each file.  The `Repo` holds each file's history, newest first, and
    the default branch; `Log` derives every `git log` answer from that
    history, applying the limit before `--reverse` as git does. */
module Git {
  import opened Wrappers
  import opened Strs
  import opened Regex
  import opened Dicts
  import Paths

  /** A commit touching a file: its author (`%an <%ae>`) and its author
      time (`%aI`). */
  datatype Commit = Commit(author: string, time: int)

  /** What the extractor reads: the checkout, each file's history as
      `git log -- <file>` lists it (newest first; none when the command
      fails or times out), the default branch, the regex engine and
      whether a pattern compiles. */
  datatype Repo = Repo(
    root: Paths.Path,
    fs: Paths.FileSystem,
    log: string -> Option<seq<Commit>>,
    defaultBranch: Option<string>,
    re: Engine,
    compiles: string -> bool)

  /** One CODEOWNERS rule: a pattern and its owners, space-separated. */
  datatype Rule = Rule(pattern: string, owners: string)

  // ---------------------------------------------------------------------
  // `_load_codeowners`

  /** The places a CODEOWNERS file is looked for, in order. */
  function Locations(root: Paths.Path): seq<Paths.Path> {
    [root + ["CODEOWNERS"], root + [".github", "CODEOWNERS"], root + ["docs", "CODEOWNERS"]]
  }

  /** The first of `locations` that exists. */
  function FirstExisting(fs: Paths.FileSystem, locations: seq<Paths.Path>): (r: Option<Paths.Path>)
    ensures r.Some? ==> r.value in locations && Paths.Exists(fs, r.value)
    ensures r.None? <==> forall i :: 0 <= i < |locations| ==> !Paths.Exists(fs, locations[i])
  {
    if locations == [] then None
    else if Paths.Exists(fs, locations[0]) then Some(locations[0])
    else FirstExisting(fs, locations[1..])
  }

  /** One line of a CODEOWNERS file. */
  function ParseLine(line: string): Option<Rule> {
    var l := Strip(line);
    if l == "" || StartsWith(l, "#") then None
    else
      var parts := Words(l);
      if |parts| >= 2 then Some(Rule(parts[0], Join(" ", parts[1..]))) else None
  }

  /** Blank lines, comments and lines of a single token give no rule; a
      rule's pattern is a single token. */
  lemma ParseLineRules(line: string)
    ensures AllSpace(line) ==> ParseLine(line).None?
    ensures StartsWith(Strip(line), "#") ==> ParseLine(line).None?
    ensures |Words(Strip(line))| < 2 ==> ParseLine(line).None?
    ensures ParseLine(line).Some? ==> IsWord(ParseLine(line).value.pattern)
  {
    StripShape(line);
  }

  /** A rule written as single-space separated words, the first of them
      not a comment, reads back as the first word for pattern and the rest
      for owners. */
  lemma ParseLineRoundTrip(ws: seq<string>)
    requires |ws| >= 2 && forall k :: 0 <= k < |ws| ==> IsWord(ws[k])
    requires !StartsWith(ws[0], "#")
    ensures ParseLine(Join(" ", ws)) == Some(Rule(ws[0], Join(" ", ws[1..])))
  {
    var line := Join(" ", ws);
    JoinWordsStripped(ws);
    WordsOfJoin(ws);
    JoinWordsEnds(ws);
    assert Strip(line) == line;
    assert line != [] && line[0] != '#';
    assert !StartsWith(line, "#");
    assert Words(line) == ws;
  }

  /** Each line's rule, line by line. */
  function ParsedLines(lines: seq<string>): (r: seq<Option<Rule>>)
    ensures |r| == |lines| && forall i :: 0 <= i < |lines| ==> r[i] == ParseLine(lines[i])
  {
    seq(|lines|, i requires 0 <= i < |lines| => ParseLine(lines[i]))
  }

  /** The rules that are there, in order. */
  function RulesPresent(ps: seq<Option<Rule>>): (r: seq<Rule>)
    ensures |r| <= |ps|
  {
    if ps == [] then []
    else
      var prev := RulesPresent(ps[..|ps| - 1]);
      match ps[|ps| - 1]
      case Some(e) => prev + [e]
      case None => prev
  }

  /** Every rule kept is there, and every rule there is kept. */
  lemma {:induction false} RulesPresentKeeps(ps: seq<Option<Rule>>)
    ensures forall e :: e in RulesPresent(ps) <==> Some(e) in ps
  {
    if ps != [] {
      var n := |ps| - 1;
      RulesPresentKeeps(ps[..n]);
      assert ps == ps[..n] + [ps[n]];
    }
  }

  /** The rules of all lines, in file order. */
  function ParseCodeowners(lines: seq<string>): seq<Rule> {
    RulesPresent(ParsedLines(lines))
  }

  /** A rule is loaded exactly when some line reads as it. */
  lemma ParseCodeownersKeeps(lines: seq<string>)
    ensures forall e :: e in ParseCodeowners(lines) <==> exists i :: 0 <= i < |lines| && ParseLine(lines[i]) == Some(e)
  {
    var ps := ParsedLines(lines);
    RulesPresentKeeps(ps);
    forall e ensures Some(e) in ps <==> exists i :: 0 <= i < |lines| && ParseLine(lines[i]) == Some(e) {
      if Some(e) in ps {
        var i :| 0 <= i < |ps| && ps[i] == Some(e);
      }
    }
  }

  /** The rules of the first CODEOWNERS file found; none when there is
      none or it cannot be read. */
  function LoadedCodeowners(repo: Repo): seq<Rule> {
    match FirstExisting(repo.fs, Locations(repo.root))
    case None => []
    case Some(p) => if p in repo.fs.files then ParseCodeowners(SplitLines(repo.fs.files[p])) else []
  }

  // ---------------------------------------------------------------------
  // `_pattern_matches`

  /** `^` before a pattern rooted at `/`, `.*` before any other; `.*` after
      one ending in `/`; `$` at the end. */
  function Anchored(r: string): string {
    var prefixed := if StartsWith(r, "/") then "^" + r else ".*" + r;
    (if EndsWith(prefixed, "/") then prefixed + ".*" else prefixed) + "$"
  }

  /** `pattern.replace('*', '[^/]*').replace('**', '.*')` */
  function ReplaceStarsAsWritten(pattern: string): string {
    Replace(Replace(pattern, "*", "[^/]*"), "**", ".*")
  }

  /** The regular expression the source builds. */
  function PatternRegexAsWritten(pattern: string): string {
    Anchored(ReplaceStarsAsWritten(pattern))
  }

  /** No two adjacent characters are both stars. */
  predicate NoDoubleStar(s: string) {
    forall i :: 0 <= i && i + 1 < |s| ==> s[i] != '*' || s[i + 1] != '*'
  }

  /** Without adjacent stars, `**` does not occur. */
  lemma {:induction false} NoDoubleStarAbsent(s: string)
    requires NoDoubleStar(s)
    ensures !Contains(s, "**")
    decreases |s|
  {
    if s != [] {
      assert NoDoubleStar(s[1..]) by {
        forall i | 0 <= i && i + 1 < |s[1..]| ensures s[1..][i] != '*' || s[1..][i + 1] != '*' {
          assert s[1..][i] == s[i + 1] && s[1..][i + 1] == s[i + 2];
        }
      }
      NoDoubleStarAbsent(s[1..]);
      if |s| >= 2 {
        assert s[..2][0] == s[0] && s[..2][1] == s[1];
      }
    }
  }

  /** Once every `*` is replaced by `[^/]*`, no two stars are adjacent:
      each `*` of the result closes a `[^/]*` and is followed by what
      followed the original `*`, which is not a star again. */
  lemma {:induction false} SingleStarsOnly(p: string)
    ensures var r := Replace(p, "*", "[^/]*");
      NoDoubleStar(r) && (r != [] ==> r[0] != '*')
    decreases |p|
  {
    if p != [] {
      var rest := Replace(p[1..], "*", "[^/]*");
      SingleStarsOnly(p[1..]);
      var r := Replace(p, "*", "[^/]*");
      var pre := if p[0] == '*' then "[^/]*" else [p[0]];
      assert StartsWith(p, "*") <==> p[0] == '*' by {
        assert p[..1] == [p[0]];
      }
      assert r == pre + rest;
      forall i | 0 <= i && i + 1 < |r| ensures r[i] != '*' || r[i + 1] != '*' {
        if i >= |pre| {
          assert r[i] == rest[i - |pre|] && r[i + 1] == rest[i + 1 - |pre|];
        } else if i + 1 == |pre| {
          assert r[i + 1] == rest[0];
        }
      }
    }
  }

  /** The second replacement never applies, so `**` is translated like two
      `*` and never spans directories. */
  lemma DoubleStarReplaceIsNoOp(pattern: string)
    ensures ReplaceStarsAsWritten(pattern) == Replace(pattern, "*", "[^/]*")
  {
    SingleStarsOnly(pattern);
    NoDoubleStarAbsent(Replace(pattern, "*", "[^/]*"));
    ReplaceAbsent(Replace(pattern, "*", "[^/]*"), "**", ".*");
  }

  predicate StarFree(s: string) {
    forall k :: 0 <= k < |s| ==> s[k] != '*'
  }

  /** Text without stars goes through the star replacement unchanged. */
  lemma {:induction false} ReplaceStarFree(a: string, b: string)
    requires StarFree(a)
    ensures Replace(a + b, "*", "[^/]*") == a + Replace(b, "*", "[^/]*")
  {
    if a != [] {
      assert (a + b)[1..] == a[1..] + b;
      assert (a + b)[0] == a[0] && a[0] != '*';
      assert !StartsWith(a + b, "*") by {
        assert (a + b)[..1][0] == a[0];
      }
      ReplaceStarFree(a[1..], b);
      assert a == [a[0]] + a[1..];
    } else {
      assert a + b == b;
    }
  }

  /** How the anchors apply to a rooted pattern that does not end in `/`. */
  lemma AnchoredRooted(r: string)
    requires r != [] && r[0] == '/' && r[|r| - 1] != '/'
    ensures Anchored(r) == "^" + r + "$"
  {
    assert StartsWith(r, "/") by {
      assert r[..1] == [r[0]];
    }
    var pr := "^" + r;
    assert !EndsWith(pr, "/") by {
      assert pr[|pr| - 1..] == [r[|r| - 1]];
    }
  }

  /** The regular expression built, as written, for a rule `/docs/` + `**`:
      both stars stay within one directory. */
  lemma DocsPatternAsWritten()
    ensures PatternRegexAsWritten("/docs/" + "**") == "^" + "/docs/[^/]*[^/]*" + "$"
  {
    var p, replaced := "/docs/" + "**", "/docs/[^/]*[^/]*";
    DoubleStarReplaceIsNoOp(p);
    DocsStarsReplaced();
    assert ReplaceStarsAsWritten(p) == replaced;
    AnchoredRooted(replaced);
  }

  lemma DocsStarsReplaced()
    ensures Replace("/docs/" + "**", "*", "[^/]*") == "/docs/[^/]*[^/]*"
  {
    ReplaceStarFree("/docs/", "**");
    TwoStarsReplaced();
  }

  lemma TwoStarsReplaced()
    ensures Replace("**", "*", "[^/]*") == "[^/]*[^/]*"
  {
    assert Replace("", "*", "[^/]*") == "";
    assert StartsWith("*", "*") && StartsWith("**", "*");
    assert "*"[1..] == "" && "**"[1..] == "*";
  }

  /** The translation the source evidently intends, left to right: `**`
      becomes `.*`, any other `*` becomes `[^/]*`. */
  function GlobToRegex(p: string): string
    decreases |p|
  {
    if p == [] then []
    else if StartsWith(p, "**") then ".*" + GlobToRegex(p[2..])
    else if p[0] == '*' then "[^/]*" + GlobToRegex(p[1..])
    else [p[0]] + GlobToRegex(p[1..])
  }

  /** `_pattern_matches`' regular expression, corrected. */
  function PatternRegex(pattern: string): string {
    Anchored(GlobToRegex(pattern))
  }

  /** Text without stars goes through the corrected translation
      unchanged. */
  lemma {:induction false} GlobStarFree(a: string, b: string)
    requires StarFree(a)
    ensures GlobToRegex(a + b) == a + GlobToRegex(b)
  {
    if a != [] {
      assert (a + b)[1..] == a[1..] + b;
      assert (a + b)[0] == a[0] && a[0] != '*';
      assert StarFree(a[1..]);
      assert !StartsWith(a + b, "**") by {
        if |a + b| >= 2 {
          assert (a + b)[..2][0] == a[0];
        }
      }
      GlobStarFree(a[1..], b);
      assert a == [a[0]] + a[1..];
    } else {
      assert a + b == b;
    }
  }

  /** The same rule once corrected: the double star spans directories. */
  lemma DocsPatternCorrected()
    ensures PatternRegex("/docs/" + "**") == "^" + "/docs/.*" + "$"
  {
    var p, translated := "/docs/" + "**", "/docs/.*";
    GlobStarFree("/docs/", "**");
    DoubleStarTranslated();
    assert GlobToRegex(p) == translated;
    AnchoredRooted(translated);
  }

  lemma DoubleStarTranslated()
    ensures GlobToRegex("**") == ".*"
  {
    assert StartsWith("**", "**");
    assert "**"[2..] == "";
  }

  /** With the correction a `**` does span directories: its translation
      holds `.*`. */
  lemma {:induction false} GlobDoubleStarSpans(p: string)
    requires Contains(p, "**")
    ensures Contains(GlobToRegex(p), ".*")
    decreases |p|
  {
    if StartsWith(p, "**") {
      assert StartsWith(GlobToRegex(p), ".*");
    } else {
      GlobDoubleStarSpans(p[1..]);
      var pre := if p[0] == '*' then "[^/]*" else [p[0]];
      assert GlobToRegex(p) == pre + GlobToRegex(p[1..]);
      ContainsInSuffix(pre, GlobToRegex(p[1..]), ".*");
    }
  }

  /** `_pattern_matches(pattern, path)`: a pattern that does not compile
      matches nothing. */
  predicate PatternMatches(repo: Repo, pattern: string, path: string) {
    var rx := PatternRegex(pattern);
    repo.compiles(rx) && MatchAtStart(repo.re, rx, {}, path).Some?
  }

  // ---------------------------------------------------------------------
  // `_match_codeowners_pattern`

  /** Whether each rule's pattern matches `path`, rule by rule. */
  function Hits(repo: Repo, rules: seq<Rule>, path: string): (r: seq<bool>)
    ensures |r| == |rules| && forall k :: 0 <= k < |rules| ==> r[k] == PatternMatches(repo, rules[k].pattern, path)
  {
    seq(|rules|, k requires 0 <= k < |rules| => PatternMatches(repo, rules[k].pattern, path))
  }

  /** The owners of the longest matching pattern so far, and its length. */
  datatype Best = Best(owners: Option<string>, length: nat)

  /** The loop over the rules, given which of them match: a longer match
      replaces the best one, an equally long one does not. */
  function BestMatch(rules: seq<Rule>, hits: seq<bool>): (b: Best)
    requires |hits| == |rules|
    ensures b.owners.None? ==> b.length == 0
  {
    if rules == [] then Best(None, 0)
    else
      var n := |rules| - 1;
      var prev := BestMatch(rules[..n], hits[..n]);
      if hits[n] && |rules[n].pattern| > prev.length then Best(Some(rules[n].owners), |rules[n].pattern|)
      else prev
  }

  /** One more rule replaces the best match exactly when it matches and is
      longer. */
  lemma BestMatchStep(rules: seq<Rule>, hits: seq<bool>, i: nat)
    requires |hits| == |rules| && i < |rules|
    ensures var prev := BestMatch(rules[..i], hits[..i]);
      BestMatch(rules[..i + 1], hits[..i + 1])
      == if hits[i] && |rules[i].pattern| > prev.length then Best(Some(rules[i].owners), |rules[i].pattern|) else prev
  {
    assert rules[..i + 1][..i] == rules[..i] && hits[..i + 1][..i] == hits[..i];
  }

  /** Rule `i` matches, is longer than every earlier matching rule and no
      shorter than any later one. */
  ghost predicate LongestAt(rules: seq<Rule>, hits: seq<bool>, i: int)
    requires |hits| == |rules|
  {
    0 <= i < |rules| && hits[i] && |rules[i].pattern| > 0
    && (forall j :: 0 <= j < i && hits[j] ==> |rules[j].pattern| < |rules[i].pattern|)
    && (forall j :: i < j < |rules| && hits[j] ==> |rules[j].pattern| <= |rules[i].pattern|)
  }

  /** The owners found are those of the longest matching pattern, the
      earliest among equally long ones; nothing is found only when no
      non-empty pattern matches. */
  lemma {:induction false} BestMatchIsLongest(rules: seq<Rule>, hits: seq<bool>)
    requires |hits| == |rules|
    ensures BestMatch(rules, hits).owners.None? ==>
      forall j :: 0 <= j < |rules| && hits[j] ==> |rules[j].pattern| == 0
    ensures BestMatch(rules, hits).owners.Some? ==>
      exists i :: LongestAt(rules, hits, i) && Some(rules[i].owners) == BestMatch(rules, hits).owners
        && |rules[i].pattern| == BestMatch(rules, hits).length
  {
    if rules != [] {
      var n := |rules| - 1;
      var rs, hs := rules[..n], hits[..n];
      BestMatchIsLongest(rs, hs);
      var prev := BestMatch(rs, hs);
      assert forall j :: 0 <= j < n ==> rs[j] == rules[j] && hs[j] == hits[j];
      if hits[n] && |rules[n].pattern| > prev.length {
        if prev.owners.Some? {
          var i :| LongestAt(rs, hs, i) && Some(rs[i].owners) == prev.owners && |rs[i].pattern| == prev.length;
        }
        assert LongestAt(rules, hits, n);
      } else if prev.owners.Some? {
        var i :| LongestAt(rs, hs, i) && Some(rs[i].owners) == prev.owners && |rs[i].pattern| == prev.length;
        assert LongestAt(rules, hits, i);
      }
    }
  }

  /** The path with a leading `/`. */
  function Rooted(path: string): (r: string)
    ensures StartsWith(r, "/")
    ensures StartsWith(path, "/") ==> r == path
    ensures !StartsWith(path, "/") ==> r == "/" + path
  {
    if StartsWith(path, "/") then path else "/" + path
  }

  /** `_match_codeowners_pattern(file_path)` over the loaded rules. */
  function MatchCodeowners(repo: Repo, rules: seq<Rule>, filePath: string): Option<string> {
    if rules == [] then None
    else
      var path := Rooted(filePath);
      BestMatch(rules, Hits(repo, rules, path)).owners
  }

  // ---------------------------------------------------------------------
  // `_get_codeowners_owner`

  /** The CODEOWNERS owner of each file, file by file. */
  function FileOwners(repo: Repo, rules: seq<Rule>, files: seq<string>): (r: seq<Option<string>>)
    ensures |r| == |files| && forall i :: 0 <= i < |files| ==> r[i] == MatchCodeowners(repo, rules, files[i])
  {
    seq(|files|, i requires 0 <= i < |files| => MatchCodeowners(repo, rules, files[i]))
  }

  /** The set `owners` the loop collects, as a list without repetition in
      the order first found: the non-empty owners of the files. */
  function OwnerSet(found: seq<Option<string>>): (r: seq<string>)
    ensures Distinct(r)
    ensures forall o :: o in r <==> o != "" && Some(o) in found
  {
    if found == [] then []
    else
      var n := |found| - 1;
      var prev := OwnerSet(found[..n]);
      assert found == found[..n] + [found[n]];
      var m := found[n];
      if m.Some? && m.value != "" && m.value !in prev then prev + [m.value] else prev
  }

  /** The one owner of a list, when there is exactly one. */
  function Sole(owners: seq<string>): (r: Option<string>)
    ensures r.Some? <==> |owners| == 1
    ensures r.Some? ==> r.value == owners[0]
  {
    if |owners| == 1 then Some(owners[0]) else None
  }

  /** Some owner is found, and every owner found is `o`. */
  predicate OnlyOwner(found: seq<Option<string>>, o: string) {
    o != "" && Some(o) in found && forall i :: 0 <= i < |found| && found[i].Some? && found[i].value != "" ==> found[i].value == o
  }

  /** `_get_codeowners_owner(files)` over the loaded rules. */
  function CodeownersOwner(repo: Repo, rules: seq<Rule>, files: seq<string>): Option<string> {
    if rules == [] then None else Sole(OwnerSet(FileOwners(repo, rules, files)))
  }

  /** When `o` is the only owner found, the owner set is `[o]`. */
  lemma {:induction false} OwnerSetOfOnly(found: seq<Option<string>>, o: string)
    requires OnlyOwner(found, o)
    ensures OwnerSet(found) == [o]
  {
    var n := |found| - 1;
    var init := found[..n];
    assert found == init + [found[n]];
    if Some(o) in init {
      assert OnlyOwner(init, o) by {
        forall i | 0 <= i < |init| && init[i].Some? && init[i].value != "" ensures init[i].value == o {
          assert init[i] == found[i];
        }
      }
      OwnerSetOfOnly(init, o);
    } else {
      forall i | 0 <= i < |init| ensures init[i].None? || init[i].value == "" {
        assert init[i] == found[i];
      }
      OwnerSetOfNone(init);
    }
  }

  /** When no file has a non-empty owner, the owner set is empty. */
  lemma {:induction false} OwnerSetOfNone(found: seq<Option<string>>)
    requires forall i :: 0 <= i < |found| ==> found[i].None? || found[i].value == ""
    ensures OwnerSet(found) == []
  {
    if found != [] {
      var n := |found| - 1;
      assert forall i :: 0 <= i < n ==> found[..n][i] == found[i];
      OwnerSetOfNone(found[..n]);
    }
  }

  lemma SoleOwnerIsOnly(found: seq<Option<string>>, o: string)
    ensures Sole(OwnerSet(found)) == Some(o) <==> OnlyOwner(found, o)
  {
    var owners := OwnerSet(found);
    if OnlyOwner(found, o) {
      OwnerSetOfOnly(found, o);
    }
    if Sole(owners) == Some(o) {
      assert owners == [o];
      forall i | 0 <= i < |found| && found[i].Some? && found[i].value != "" ensures found[i].value == o {
        assert found[i].value in owners;
      }
    }
  }

  /** CODEOWNERS names an owner for the files exactly when rules are
      loaded, some file has a non-empty owner and every file that has one
      has that same one. */
  lemma CodeownersOwnerUnique(repo: Repo, rules: seq<Rule>, files: seq<string>, o: string)
    ensures CodeownersOwner(repo, rules, files) == Some(o) <==>
      rules != [] && OnlyOwner(FileOwners(repo, rules, files), o)
  {
    SoleOwnerIsOnly(FileOwners(repo, rules, files), o);
  }

  // ---------------------------------------------------------------------
  // The `git log` calls

  /** `s` back to front. */
  function Reversed(s: seq<Commit>): (r: seq<Commit>)
    ensures |r| == |s| && forall i :: 0 <= i < |s| ==> r[i] == s[|s| - 1 - i]
  {
    seq(|s|, i requires 0 <= i < |s| => s[|s| - 1 - i])
  }

  /** `git log [-<n>] [--reverse] -- <file>`: git first keeps the `n`
      newest commits of the history and only then reverses what it kept. */
  function Log(repo: Repo, file: string, reverse: bool, limit: Option<nat>): (r: Option<seq<Commit>>)
    ensures r.None? <==> repo.log(file).None?
    ensures r.Some? ==> var history := repo.log(file).value;
      var kept := if limit.Some? && limit.value < |history| then history[..limit.value] else history;
      r.value == if reverse then Reversed(kept) else kept
  {
    match repo.log(file)
    case None => None
    case Some(history) =>
      var kept := if limit.Some? && limit.value < |history| then history[..limit.value] else history;
      Some(if reverse then Reversed(kept) else kept)
  }

  /** The first commit `git log` printed: none when it failed or printed
      nothing. */
  function FirstOf(out: Option<seq<Commit>>): (r: Option<Commit>)
    ensures r.Some? <==> out.Some? && out.value != []
    ensures r.Some? ==> r.value == out.value[0]
  {
    if out.Some? && out.value != [] then Some(out.value[0]) else None
  }

  /** The time of a commit, if there is one. */
  function TimeOf(c: Option<Commit>): Option<int> {
    match c
    case Some(c) => Some(c.time)
    case None => None
  }

  /** `_get_last_author(file)`: `git log -1 --pretty=%an <%ae>|%aI`, read
      only when splitting the line at `|` gives two parts. */
  function LastCommit(repo: Repo, file: string): (r: Option<Commit>)
    ensures r.Some? <==> repo.log(file).Some? && repo.log(file).value != [] && '|' !in repo.log(file).value[0].author
    ensures r.Some? ==> r.value == repo.log(file).value[0]
  {
    var c := FirstOf(Log(repo, file, false, Some(1)));
    if c.Some? && '|' !in c.value.author then c else None
  }

  /** `_get_file_update_time(file)`: `git log -1 --pretty=%aI`. */
  function UpdateTime(repo: Repo, file: string): Option<int> {
    TimeOf(FirstOf(Log(repo, file, false, Some(1))))
  }

  /** `_get_file_creation_time(file)` as written: `git log --reverse -1
      --pretty=%aI`.  The limit is applied before the reversal, so this is
      the newest commit again. */
  function CreationTimeAsWritten(repo: Repo, file: string): Option<int> {
    TimeOf(FirstOf(Log(repo, file, true, Some(1))))
  }

  /** `_get_file_creation_time(file)` as its documentation intends: the
      time of the file's first commit, the first line of `git log
      --reverse --pretty=%aI` without a limit. */
  function CreationTime(repo: Repo, file: string): Option<int> {
    TimeOf(FirstOf(Log(repo, file, true, None)))
  }

  /** As written, the creation time of every file is its update time. */
  lemma CreationAsWrittenIsUpdate(repo: Repo, file: string)
    ensures CreationTimeAsWritten(repo, file) == UpdateTime(repo, file)
  {
    var out := Log(repo, file, true, Some(1));
    if out.Some? && out.value != [] {
      assert out.value[0] == repo.log(file).value[0];
    }
  }

  /** As written, a file with two commits at different times is given its
      newest time as its creation time, not its first. */
  lemma AsWrittenMissesFirstCommit(repo: Repo, file: string)
    requires repo.log(file).Some? && |repo.log(file).value| >= 2
    requires repo.log(file).value[0].time != repo.log(file).value[|repo.log(file).value| - 1].time
    ensures CreationTimeAsWritten(repo, file) == Some(repo.log(file).value[0].time)
    ensures CreationTime(repo, file) == Some(repo.log(file).value[|repo.log(file).value| - 1].time)
    ensures CreationTimeAsWritten(repo, file) != CreationTime(repo, file)
  {
    CreationAsWrittenIsUpdate(repo, file);
    CreationIsFirstCommit(repo, file);
  }

  /** The creation time is the time of the oldest commit of the history and
      the update time that of the newest; each exists exactly when git
      lists a commit. */
  lemma CreationIsFirstCommit(repo: Repo, file: string)
    ensures var h := repo.log(file);
      CreationTime(repo, file) == (if h.None? || h.value == [] then None else Some(h.value[|h.value| - 1].time))
    ensures var h := repo.log(file);
      UpdateTime(repo, file) == (if h.None? || h.value == [] then None else Some(h.value[0].time))
  {
    var h := repo.log(file);
    if h.Some? && h.value != [] {
      var r := Log(repo, file, true, None);
      assert r.value == Reversed(h.value);
      assert r.value[0] == h.value[|h.value| - 1];
      var u := Log(repo, file, false, Some(1));
      assert u.value[0] == h.value[0];
    }
  }

  /** The history lists its commits newest first by author time. */
  ghost predicate NewestFirst(repo: Repo, file: string) {
    repo.log(file).Some? ==>
      forall i, j :: 0 <= i < j < |repo.log(file).value| ==> repo.log(file).value[j].time <= repo.log(file).value[i].time
  }

  /** On such a history a file's creation time is there exactly when its
      update time is, and is no later. */
  lemma CreationBeforeUpdate(repo: Repo, file: string)
    requires NewestFirst(repo, file)
    ensures CreationTime(repo, file).Some? <==> UpdateTime(repo, file).Some?
    ensures CreationTime(repo, file).Some? ==> CreationTime(repo, file).value <= UpdateTime(repo, file).value
  {
    CreationIsFirstCommit(repo, file);
    var h := repo.log(file);
    if h.Some? && |h.value| > 1 {
      assert h.value[|h.value| - 1].time <= h.value[0].time;
    }
  }

  // ---------------------------------------------------------------------
  // `_get_modal_author`

  /** `_get_last_author` of each file, file by file. */
  function Commits(repo: Repo, files: seq<string>): (r: seq<Option<Commit>>)
    ensures |r| == |files| && forall i :: 0 <= i < |files| ==> r[i] == LastCommit(repo, files[i])
  {
    seq(|files|, i requires 0 <= i < |files| => LastCommit(repo, files[i]))
  }

  /** The non-empty authors, in order. */
  function Authors(cs: seq<Option<Commit>>): (r: seq<string>)
    ensures forall k :: 0 <= k < |r| ==> r[k] != ""
    ensures forall a :: a in r <==> a != "" && exists i :: 0 <= i < |cs| && cs[i].Some? && cs[i].value.author == a
  {
    if cs == [] then []
    else
      var n := |cs| - 1;
      var prev := Authors(cs[..n]);
      assert forall i :: 0 <= i < n ==> cs[..n][i] == cs[i];
      if cs[n].Some? && cs[n].value.author != "" then prev + [cs[n].value.author] else prev
  }

  /** How often `a` occurs in `s`. */
  function Count(s: seq<string>, a: string): nat {
    multiset(s)[a]
  }

  /** The first index among the first `k` whose element occurs most often
      in all of `s`. */
  function Leader(s: seq<string>, k: nat): (i: nat)
    requires 0 < k <= |s|
    ensures i < k
  {
    if k == 1 then 0
    else
      var i := Leader(s, k - 1);
      if Count(s, s[k - 1]) > Count(s, s[i]) then k - 1 else i
  }

  /** `Counter(s).most_common(1)[0][0]`: of the most frequent elements,
      the one that first occurs earliest. */
  function MostCommon(s: seq<string>): string
    requires s != []
  {
    s[Leader(s, |s|)]
  }

  lemma {:induction false} LeaderIsFirstMost(s: seq<string>, k: nat)
    requires 0 < k <= |s|
    ensures forall j :: 0 <= j < k ==> Count(s, s[j]) <= Count(s, s[Leader(s, k)])
    ensures forall j :: 0 <= j < Leader(s, k) ==> Count(s, s[j]) < Count(s, s[Leader(s, k)])
  {
    if k > 1 {
      LeaderIsFirstMost(s, k - 1);
    }
  }

  /** The most common element occurs at least as often as any other, and
      every element before its first occurrence occurs strictly less
      often. */
  lemma MostCommonRules(s: seq<string>)
    requires s != []
    ensures MostCommon(s) in s
    ensures forall a :: a in s ==> Count(s, a) <= Count(s, MostCommon(s))
    ensures exists i :: 0 <= i < |s| && s[i] == MostCommon(s) && forall j :: 0 <= j < i ==> Count(s, s[j]) < Count(s, MostCommon(s))
  {
    LeaderIsFirstMost(s, |s|);
    forall a | a in s ensures Count(s, a) <= Count(s, MostCommon(s)) {
      var j :| 0 <= j < |s| && s[j] == a;
    }
  }

  /** `_get_modal_author(files)` */
  function ModalAuthor(repo: Repo, files: seq<string>): (r: string)
    ensures r == "unknown" || r in Authors(Commits(repo, files))
    ensures Authors(Commits(repo, files)) == [] ==> r == "unknown"
  {
    var authors := Authors(Commits(repo, files));
    if authors == [] then "unknown" else MostCommon(authors)
  }

  // ---------------------------------------------------------------------
  // `get_owner`

  /** `get_owner(files)` with the given rules loaded. */
  function OwnerWith(repo: Repo, rules: seq<Rule>, files: seq<string>): string {
    match CodeownersOwner(repo, rules, files)
    case Some(o) => if o != "" then o else ModalAuthor(repo, files)
    case None => ModalAuthor(repo, files)
  }

  /** `get_owner(files)` */
  function Owner(repo: Repo, files: seq<string>): string {
    OwnerWith(repo, LoadedCodeowners(repo), files)
  }

  /** CODEOWNERS decides when it names one owner; otherwise the modal last
      author does, which is "unknown" when no file has an author. */
  lemma OwnerRules(repo: Repo, files: seq<string>)
    ensures CodeownersOwner(repo, LoadedCodeowners(repo), files).Some? ==>
      Owner(repo, files) == CodeownersOwner(repo, LoadedCodeowners(repo), files).value
    ensures CodeownersOwner(repo, LoadedCodeowners(repo), files).None? ==> Owner(repo, files) == ModalAuthor(repo, files)
    ensures Authors(Commits(repo, files)) == [] && CodeownersOwner(repo, LoadedCodeowners(repo), files).None? ==>
      Owner(repo, files) == "unknown"
  {
    var rules := LoadedCodeowners(repo);
    var owners := OwnerSet(FileOwners(repo, rules, files));
    if CodeownersOwner(repo, rules, files).Some? {
      assert owners[0] in owners;
    }
  }

  // ---------------------------------------------------------------------
  // `get_timestamps`, `get_last_changed_by`

  /** The earliest of the available times. */
  function Earliest(ts: seq<Option<int>>): (r: Option<int>)
  {
    if ts == [] then None
    else
      var prev := Earliest(ts[..|ts| - 1]);
      var t := ts[|ts| - 1];
      if t.Some? && (prev.None? || t.value < prev.value) then t else prev
  }

  /** The latest of the available times. */
  function Latest(ts: seq<Option<int>>): (r: Option<int>)
  {
    if ts == [] then None
    else
      var prev := Latest(ts[..|ts| - 1]);
      var t := ts[|ts| - 1];
      if t.Some? && (prev.None? || t.value > prev.value) then t else prev
  }

  /** The earliest time is one of the times and no later than any; there
      is one exactly when some time is available. */
  lemma {:induction false} EarliestIsMinimum(ts: seq<Option<int>>)
    ensures Earliest(ts).None? <==> forall i :: 0 <= i < |ts| ==> ts[i].None?
    ensures Earliest(ts).Some? ==> Earliest(ts) in ts && forall i :: 0 <= i < |ts| && ts[i].Some? ==> Earliest(ts).value <= ts[i].value
  {
    if ts != [] {
      var n := |ts| - 1;
      EarliestIsMinimum(ts[..n]);
      assert forall i :: 0 <= i < n ==> ts[..n][i] == ts[i];
    }
  }

  /** The latest time is one of the times and no earlier than any. */
  lemma {:induction false} LatestIsMaximum(ts: seq<Option<int>>)
    ensures Latest(ts).None? <==> forall i :: 0 <= i < |ts| ==> ts[i].None?
    ensures Latest(ts).Some? ==> Latest(ts) in ts && forall i :: 0 <= i < |ts| && ts[i].Some? ==> ts[i].value <= Latest(ts).value
  {
    if ts != [] {
      var n := |ts| - 1;
      LatestIsMaximum(ts[..n]);
      assert forall i :: 0 <= i < n ==> ts[..n][i] == ts[i];
    }
  }

  /** `_get_file_creation_time` of each file. */
  function CreationTimes(repo: Repo, files: seq<string>): (r: seq<Option<int>>)
    ensures |r| == |files| && forall i :: 0 <= i < |files| ==> r[i] == CreationTime(repo, files[i])
  {
    seq(|files|, i requires 0 <= i < |files| => CreationTime(repo, files[i]))
  }

  /** `_get_file_update_time` of each file. */
  function UpdateTimes(repo: Repo, files: seq<string>): (r: seq<Option<int>>)
    ensures |r| == |files| && forall i :: 0 <= i < |files| ==> r[i] == UpdateTime(repo, files[i])
  {
    seq(|files|, i requires 0 <= i < |files| => UpdateTime(repo, files[i]))
  }

  /** `get_timestamps(files)`: created and updated, `now` when unknown. */
  datatype Timestamps = Timestamps(createdAt: int, updatedAt: int)

  function TimestampsOf(repo: Repo, files: seq<string>, now: int): Timestamps {
    Timestamps(Earliest(CreationTimes(repo, files)).GetOr(now), Latest(UpdateTimes(repo, files)).GetOr(now))
  }

  /** The files' first creation and last update, or `now` for either when
      no file has one. */
  lemma TimestampsRules(repo: Repo, files: seq<string>, now: int)
    ensures var t := TimestampsOf(repo, files, now);
      (forall i :: 0 <= i < |files| && CreationTime(repo, files[i]).Some? ==> t.createdAt <= CreationTime(repo, files[i]).value)
      && (forall i :: 0 <= i < |files| && UpdateTime(repo, files[i]).Some? ==> UpdateTime(repo, files[i]).value <= t.updatedAt)
      && ((forall i :: 0 <= i < |files| ==> CreationTime(repo, files[i]).None?) <==> Earliest(CreationTimes(repo, files)).None?)
      && ((exists i :: 0 <= i < |files| && CreationTime(repo, files[i]).Some?) ==> Some(t.createdAt) in CreationTimes(repo, files))
      && ((exists i :: 0 <= i < |files| && UpdateTime(repo, files[i]).Some?) ==> Some(t.updatedAt) in UpdateTimes(repo, files))
      && ((forall i :: 0 <= i < |files| ==> CreationTime(repo, files[i]).None?) ==> t.createdAt == now)
      && ((forall i :: 0 <= i < |files| ==> UpdateTime(repo, files[i]).None?) ==> t.updatedAt == now)
  {
    EarliestIsMinimum(CreationTimes(repo, files));
    LatestIsMaximum(UpdateTimes(repo, files));
  }

  /** On histories listed newest first, nothing is created after it was
      last updated. */
  lemma CreatedNotAfterUpdated(repo: Repo, files: seq<string>, now: int)
    requires forall i :: 0 <= i < |files| ==> NewestFirst(repo, files[i])
    ensures TimestampsOf(repo, files, now).createdAt <= TimestampsOf(repo, files, now).updatedAt
  {
    var created := CreationTimes(repo, files);
    var updated := UpdateTimes(repo, files);
    EarliestIsMinimum(created);
    LatestIsMaximum(updated);
    if Earliest(created).Some? {
      var j :| 0 <= j < |created| && created[j] == Earliest(created);
      CreationBeforeUpdate(repo, files[j]);
      assert updated[j].Some?;
    } else {
      forall i | 0 <= i < |files|
        ensures updated[i].None?
      {
        CreationBeforeUpdate(repo, files[i]);
      }
    }
  }

  /** `_get_file_creation_time` of each file, as written. */
  function CreationTimesAsWritten(repo: Repo, files: seq<string>): (r: seq<Option<int>>)
    ensures |r| == |files| && forall i :: 0 <= i < |files| ==> r[i] == CreationTimeAsWritten(repo, files[i])
  {
    seq(|files|, i requires 0 <= i < |files| => CreationTimeAsWritten(repo, files[i]))
  }

  /** `get_timestamps(files)` over the creation times as written. */
  function TimestampsAsWritten(repo: Repo, files: seq<string>, now: int): Timestamps {
    Timestamps(Earliest(CreationTimesAsWritten(repo, files)).GetOr(now), Latest(UpdateTimes(repo, files)).GetOr(now))
  }

  /** As written, a single file is reported as created when it was last
      updated. */
  lemma SingleFileAsWritten(repo: Repo, file: string, now: int)
    ensures TimestampsAsWritten(repo, [file], now).createdAt == TimestampsAsWritten(repo, [file], now).updatedAt
  {
    CreationAsWrittenIsUpdate(repo, file);
    var t := UpdateTime(repo, file);
    assert CreationTimesAsWritten(repo, [file]) == [t];
    assert UpdateTimes(repo, [file]) == [t];
    assert [t][..0] == [];
    assert Earliest([t]) == t;
    assert Latest([t]) == t;
  }

  /** The latest commit: the first of equally late ones. */
  function LatestCommit(cs: seq<Option<Commit>>): (r: Option<Commit>)
    ensures r.Some? ==> r in cs
  {
    if cs == [] then None
    else
      var n := |cs| - 1;
      var prev := LatestCommit(cs[..n]);
      assert cs == cs[..n] + [cs[n]];
      if cs[n].Some? && (prev.None? || cs[n].value.time > prev.value.time) then cs[n] else prev
  }

  /** `get_last_changed_by(files)` */
  function LastChangedBy(repo: Repo, files: seq<string>): Option<string> {
    match LatestCommit(Commits(repo, files))
    case Some(c) => Some(c.author)
    case None => None
  }

  /** Commit `i` is no earlier than any, and strictly later than every
      commit before it. */
  ghost predicate LatestAt(cs: seq<Option<Commit>>, i: int) {
    0 <= i < |cs| && cs[i].Some?
    && (forall j :: 0 <= j < |cs| && cs[j].Some? ==> cs[j].value.time <= cs[i].value.time)
    && (forall j :: 0 <= j < i && cs[j].Some? ==> cs[j].value.time < cs[i].value.time)
  }

  /** The last change is by the author of the first latest commit; there
      is none only when no file has a commit. */
  lemma LatestCommitRules(cs: seq<Option<Commit>>)
    ensures LatestCommit(cs).None? <==> forall i :: 0 <= i < |cs| ==> cs[i].None?
    ensures LatestCommit(cs).Some? ==> exists i :: LatestAt(cs, i) && cs[i] == LatestCommit(cs)
  {
    LatestCommitNone(cs);
    LatestCommitWitness(cs);
  }

  lemma {:induction false} LatestCommitNone(cs: seq<Option<Commit>>)
    ensures LatestCommit(cs).None? <==> forall i :: 0 <= i < |cs| ==> cs[i].None?
  {
    if cs != [] {
      var n := |cs| - 1;
      var init := cs[..n];
      LatestCommitNone(init);
      assert forall i :: 0 <= i < n ==> init[i] == cs[i];
      var prev := LatestCommit(init);
      assert LatestCommit(cs) == if cs[n].Some? && (prev.None? || cs[n].value.time > prev.value.time) then cs[n] else prev;
    }
  }

  lemma {:induction false} LatestCommitWitness(cs: seq<Option<Commit>>)
    ensures LatestCommit(cs).Some? ==> exists i :: LatestAt(cs, i) && cs[i] == LatestCommit(cs)
  {
    if cs != [] {
      var n := |cs| - 1;
      var init := cs[..n];
      LatestCommitWitness(init);
      assert forall i :: 0 <= i < n ==> init[i] == cs[i];
      var prev := LatestCommit(init);
      if cs[n].Some? && (prev.None? || cs[n].value.time > prev.value.time) {
        assert LatestCommit(cs) == cs[n];
        if prev.Some? {
          var i :| LatestAt(init, i) && init[i] == prev;
        } else {
          LatestCommitNone(init);
        }
        assert LatestAt(cs, n);
      } else if prev.Some? {
        assert LatestCommit(cs) == prev;
        var i :| LatestAt(init, i) && init[i] == prev;
        assert LatestAt(cs, i);
      } else {
        assert LatestCommit(cs) == None;
      }
    }
  }

  /** `get_last_changed_by` names the author of the first file whose last
      commit is the latest, and nobody when no file has a commit. */
  lemma LastChangedByRules(repo: Repo, files: seq<string>)
    ensures LastChangedBy(repo, files).None? <==> forall i :: 0 <= i < |files| ==> LastCommit(repo, files[i]).None?
    ensures LastChangedBy(repo, files).Some? ==>
      exists i :: LatestAt(Commits(repo, files), i) && LastChangedBy(repo, files) == Some(LastCommit(repo, files[i]).value.author)
  {
    LatestCommitRules(Commits(repo, files));
  }
}
