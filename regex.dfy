/**
 * The regular-expression engine as an oracle. Pattern semantics are not
 * modelled: an engine maps a pattern, its flags and a text to the list of
 * non-overlapping matches `re.finditer` yields, each match carrying its
 * capture groups (group 1 first; `None` for a group that did not take part).
 */
module Regex {
  import opened Wrappers

  datatype Flags = NoFlags | IgnoreCase | MultilineIgnoreCase

  datatype Match = Match(groups: seq<Option<string>>)

  type Engine = (string, Flags, string) -> seq<Match>

  /** `re.search`: the first match `re.finditer` would yield. */
  function Search(re: Engine, pattern: string, flags: Flags, text: string): (r: Option<Match>)
    ensures r.Some? <==> |re(pattern, flags, text)| > 0
  {
    var ms := re(pattern, flags, text);
    if |ms| > 0 then Some(ms[0]) else None
  }

  /** `match.group(k)` for a group the pattern declares. */
  function Group(m: Match, k: nat): (r: Option<string>)
    ensures 1 <= k <= |m.groups| ==> r == m.groups[k - 1]
  {
    if 1 <= k <= |m.groups| then m.groups[k - 1] else None
  }
}
