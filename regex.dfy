/** Python's `re` module as an oracle.  The model never interprets a regular
    expression: every search goes to an `Engine`, a function from the pattern
    text, the flags and the subject to the list of matches `re.finditer`
    would produce.  The pattern texts themselves are the source's own. */
module Regex {
  import opened Wrappers
  import opened Strs

  datatype Flag = Multiline | DotAll | IgnoreCase

  /** One match: where it starts in the subject and its groups, group 0
      being the whole matched text and a non-participating group `None`. */
  datatype Match = Match(start: nat, groups: seq<Option<string>>)

  /** `re.finditer(pattern, subject, flags)` */
  type Engine = (string, set<Flag>, string) -> seq<Match>

  /** `re.search(pattern, subject, flags)`: the first match, if any. */
  function Search(re: Engine, pattern: string, flags: set<Flag>, subject: string): (r: Option<Match>)
    ensures r.Some? <==> |re(pattern, flags, subject)| > 0
    ensures r.Some? ==> r.value == re(pattern, flags, subject)[0]
  {
    var ms := re(pattern, flags, subject);
    if |ms| > 0 then Some(ms[0]) else None
  }

  predicate Found(re: Engine, pattern: string, flags: set<Flag>, subject: string) {
    Search(re, pattern, flags, subject).Some?
  }

  /** `re.match(pattern, subject, flags)`, which is a search for the same
      pattern anchored at the start of the subject. */
  function MatchAtStart(re: Engine, pattern: string, flags: set<Flag>, subject: string): Option<Match> {
    Search(re, @"\A(?:" + pattern + ")", flags, subject)
  }

  /** `m.group(i)` */
  function Group(m: Match, i: nat): Option<string> {
    if i < |m.groups| then m.groups[i] else None
  }

  /** `m.group(i)` where the group always participates in a match. */
  function GroupText(m: Match, i: nat): string {
    Group(m, i).GetOr("")
  }

  predicate IsSpecial(c: char) {
    c in "()[]{}?*+-|^$\\.&~# \t\n\r" || c == '\U{0B}' || c == '\U{0C}'
  }

  /** `re.escape(s)`: a backslash before each special character. */
  function Escape(s: string): (r: string)
    ensures |r| >= |s|
    ensures (forall i :: 0 <= i < |s| ==> !IsSpecial(s[i])) ==> r == s
  {
    if s == [] then []
    else (if IsSpecial(s[0]) then ['\\', s[0]] else [s[0]]) + Escape(s[1..])
  }
}
