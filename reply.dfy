/** The daemon's reply to `status`, read the way the client reads it: four
    anchored patterns that test the first line, and the line pattern
    `(tag|set)? ?(\w+) (.*)\n` that re.findall applies to the whole reply,
    followed by the dictionary the captured pairs are collected into. */
module Reply {
  import opened Outcomes
  import opened Text

  // ---------------------------------------------------------------------
  // The playback-state patterns: `^status playing\n(.*)` and its siblings.
  // The trailing `(.*)` matches any (possibly empty) text, so re.match
  // succeeds exactly when the reply starts with the literal line.
  // ---------------------------------------------------------------------

  function StateLine(state: string): string {
    Line("status", state)
  }

  predicate IsPlaying(reply: string) { StartsWith(reply, StateLine("playing")) }

  predicate IsPaused(reply: string) { StartsWith(reply, StateLine("paused")) }

  predicate IsStopped(reply: string) { StartsWith(reply, StateLine("stopped")) }

  /** `^status (paused|stopped)\n(.*)`: the word after `status ` is one of two
      alternatives, followed by a newline. */
  predicate IsPausedOrStopped(reply: string) {
    StartsWith(reply, "status ") &&
    (StartsWith(reply[7..], "paused\n") || StartsWith(reply[7..], "stopped\n"))
  }

  // ---------------------------------------------------------------------
  // The line pattern `(tag|set)? ?(\w+) (.*)\n`, matched at the start of a
  // string with Python's backtracking order: the group is tried before it
  // is skipped, the optional space before it is left out. `\w+` is greedy
  // and must be followed by a space, so it always takes the whole run of
  // word characters; `.` does not match a newline, so `(.*)\n` takes the
  // rest of the line.
  // ---------------------------------------------------------------------

  /** One `key value` pair the line pattern captured. */
  datatype Entry = Entry(key: string, value: string)

  /** A successful match: the pair and the number of characters consumed. */
  datatype Hit = Hit(entry: Entry, len: nat)

  /** How many leading characters `\w` accepts. */
  function WordLen(s: string): (n: nat)
    ensures n <= |s|
  {
    if s != [] && IsWordChar(s[0]) then 1 + WordLen(s[1..]) else 0
  }

  /** How many leading characters `.` accepts: all up to the first newline. */
  function LineLen(s: string): (n: nat)
    ensures n <= |s|
  {
    if s != [] && s[0] != '\n' then 1 + LineLen(s[1..]) else 0
  }

  /** `(\w+) (.*)\n` at the start of `s`. */
  function MatchPair(s: string): (m: Option<Hit>)
    ensures m.Some? ==> 0 < m.value.len <= |s|
  {
    var k := WordLen(s);
    if k == 0 || k == |s| || s[k] != ' ' then None
    else
      var v := LineLen(s[k + 1..]);
      if k + 1 + v == |s| then None
      else Some(Hit(Entry(s[..k], s[k + 1..k + 1 + v]), k + 2 + v))
  }

  function Shift(m: Option<Hit>, offset: nat): Option<Hit> {
    match m
    case None => None
    case Some(h) => Some(Hit(h.entry, h.len + offset))
  }

  /** ` ?(\w+) (.*)\n` at the start of `s`. */
  function MatchSpaced(s: string): (m: Option<Hit>)
    ensures m.Some? ==> 0 < m.value.len <= |s|
  {
    if s != [] && s[0] == ' ' && MatchPair(s[1..]).Some? then Shift(MatchPair(s[1..]), 1)
    else MatchPair(s)
  }

  /** The optional group `(tag|set)` can match at the start of `s`. */
  predicate Tagged(s: string) {
    StartsWith(s, "tag") || StartsWith(s, "set")
  }

  /** `(tag|set)? ?(\w+) (.*)\n` at the start of `s`. */
  function Match(s: string): (m: Option<Hit>)
    ensures m.Some? ==> 0 < m.value.len <= |s|
  {
    var tagged := if Tagged(s) then Shift(MatchSpaced(s[3..]), 3) else None;
    if tagged.Some? then tagged else MatchSpaced(s)
  }

  /** re.findall with the line pattern: a match is taken and scanning resumes
      after it; where nothing matches, scanning moves on by one character. */
  function FindAll(s: string): seq<Entry>
    decreases |s|
  {
    if s == [] then []
    else
      match Match(s)
      case Some(h) => [h.entry] + FindAll(s[h.len..])
      case None => FindAll(s[1..])
  }

  /** The text of a reply line holding `key` and `value`. */
  function Line(k: string, v: string): string {
    k + " " + v + "\n"
  }

  // ---------------------------------------------------------------------
  // The dictionary comprehension `{i[1]: i[2] for i in ret}`: pairs are
  // stored in order, so a later pair with the same key overwrites.
  // ---------------------------------------------------------------------

  function Dict(entries: seq<Entry>): map<string, string> {
    if entries == [] then map[]
    else
      var last := entries[|entries| - 1];
      Dict(entries[..|entries| - 1])[last.key := last.value]
  }
}
