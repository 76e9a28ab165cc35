/** What the patterns of the reply module accept: the state patterns, the
    line pattern and the scan of re.findall, proved line by line. */
module ReplyLaws {
  import opened Outcomes
  import opened Text
  import opened Reply

  lemma {:induction false} PrefixSplit(s: string, a: string, b: string)
    ensures StartsWith(s, a + b) <==> StartsWith(s, a) && StartsWith(s[|a|..], b)
  {
    if StartsWith(s, a) && StartsWith(s[|a|..], b) {
      assert s[..|a + b|] == s[..|a|] + s[|a|..][..|b|];
    }
    if StartsWith(s, a + b) {
      assert s[..|a|] == (a + b)[..|a|];
      assert s[|a|..][..|b|] == (a + b)[|a|..];
    }
  }

  /** The combined pattern accepts exactly the replies one of the two single
      patterns accepts. */
  lemma PausedOrStoppedIsEither(reply: string)
    ensures IsPausedOrStopped(reply) <==> IsPaused(reply) || IsStopped(reply)
  {
    assert StateLine("paused") == "status " + "paused\n";
    assert StateLine("stopped") == "status " + "stopped\n";
    PrefixSplit(reply, "status ", "paused\n");
    PrefixSplit(reply, "status ", "stopped\n");
  }

  /** No reply satisfies two of the three single-state patterns. */
  lemma StatesExclusive(reply: string)
    ensures !(IsPlaying(reply) && IsPaused(reply))
    ensures !(IsPlaying(reply) && IsStopped(reply))
    ensures !(IsPaused(reply) && IsStopped(reply))
  {
    var playing, paused, stopped := StateLine("playing"), StateLine("paused"), StateLine("stopped");
    assert playing[7] == 'p' && playing[8] == 'l';
    assert paused[7] == 'p' && paused[8] == 'a';
    assert stopped[7] == 's';
    PrefixChar(reply, playing, 7);
    PrefixChar(reply, playing, 8);
    PrefixChar(reply, paused, 7);
    PrefixChar(reply, paused, 8);
    PrefixChar(reply, stopped, 7);
  }

  lemma PrefixChar(s: string, p: string, i: nat)
    requires i < |p|
    ensures StartsWith(s, p) ==> i < |s| && s[i] == p[i]
  {
    if StartsWith(s, p) {
      assert s[..|p|][i] == s[i];
    }
  }

  /** `\w+` is greedy: it takes word characters up to the first other one. */
  lemma {:induction false} WordLenSpan(s: string)
    ensures forall i :: 0 <= i < WordLen(s) ==> IsWordChar(s[i])
    ensures WordLen(s) < |s| ==> !IsWordChar(s[WordLen(s)])
    decreases |s|
  {
    if s != [] && IsWordChar(s[0]) {
      WordLenSpan(s[1..]);
      assert forall i :: 1 <= i < |s| ==> s[i] == s[1..][i - 1];
    }
  }

  lemma {:induction false} LineLenSpan(s: string)
    ensures forall i :: 0 <= i < LineLen(s) ==> s[i] != '\n'
    ensures LineLen(s) < |s| ==> s[LineLen(s)] == '\n'
    decreases |s|
  {
    if s != [] && s[0] != '\n' {
      LineLenSpan(s[1..]);
      assert forall i :: 1 <= i < |s| ==> s[i] == s[1..][i - 1];
    }
  }

  /** A word of `n` characters followed by a non-word character. */
  lemma WordLenIs(s: string, n: nat)
    requires n <= |s| && forall i :: 0 <= i < n ==> IsWordChar(s[i])
    requires n < |s| ==> !IsWordChar(s[n])
    ensures WordLen(s) == n
  {
    WordLenSpan(s);
  }

  /** `n` characters other than a newline, then a newline or the end. */
  lemma LineLenIs(s: string, n: nat)
    requires n <= |s| && forall i :: 0 <= i < n ==> s[i] != '\n'
    requires n < |s| ==> s[n] == '\n'
    ensures LineLen(s) == n
  {
    LineLenSpan(s);
  }

  lemma {:induction false} LineLenSkip(s: string, j: nat)
    requires j <= |s|
    requires forall i :: 0 <= i < j ==> s[i] != '\n'
    ensures LineLen(s) == j + LineLen(s[j..])
  {
    if j > 0 {
      assert s[1..][j - 1..] == s[j..];
      LineLenSkip(s[1..], j - 1);
    }
  }

  lemma TaggedPrefix(s: string)
    requires Tagged(s)
    ensures forall i :: 0 <= i < 3 ==> IsWordChar(s[i])
  {
    assert s[..3] == "tag" || s[..3] == "set";
    assert forall i :: 0 <= i < 3 ==> s[i] == s[..3][i];
  }

  lemma MatchPairLen(s: string)
    ensures MatchPair(s).Some? ==> MatchPair(s).value.len == LineLen(s) + 1
  {
    if MatchPair(s).Some? {
      WordLenSpan(s);
      LineLenSkip(s, WordLen(s) + 1);
    }
  }

  lemma MatchSpacedLen(s: string)
    ensures MatchSpaced(s).Some? ==> MatchSpaced(s).value.len == LineLen(s) + 1
  {
    MatchPairLen(s);
    if s != [] && s[0] == ' ' {
      MatchPairLen(s[1..]);
      LineLenSkip(s, 1);
    }
  }

  /** A match ends just after the first newline: the pattern never reaches
      into the next line. */
  lemma MatchLen(s: string)
    ensures Match(s).Some? ==> Match(s).value.len == LineLen(s) + 1
  {
    MatchSpacedLen(s);
    if Tagged(s) {
      TaggedPrefix(s);
      LineLenSkip(s, 3);
      MatchSpacedLen(s[3..]);
    }
  }

  // Matching never looks past the first newline.

  lemma {:induction false} WordLenLocal(a: string, b: string)
    requires '\n' in a
    ensures WordLen(a + b) == WordLen(a)
    decreases |a|
  {
    if a[0] != '\n' {
      DropAppend(a, b, 1);
      WordLenLocal(a[1..], b);
    }
  }

  lemma {:induction false} LineLenLocal(a: string, b: string)
    requires '\n' in a
    ensures LineLen(a + b) == LineLen(a)
    decreases |a|
  {
    if a[0] != '\n' {
      DropAppend(a, b, 1);
      LineLenLocal(a[1..], b);
    }
  }

  lemma MatchPairLocal(a: string, b: string)
    requires '\n' in a
    ensures MatchPair(a + b) == MatchPair(a)
  {
    var s := a + b;
    WordLenLocal(a, b);
    WordLenSpan(a);
    var k := WordLen(a);
    var i :| 0 <= i < |a| && a[i] == '\n';
    assert k <= i && s[k] == a[k];
    if 0 < k && a[k] == ' ' {
      MatchPairLocalLine(a, b, k, i);
    }
  }

  lemma MatchPairLocalLine(a: string, b: string, k: nat, i: nat)
    requires k <= i < |a| && a[i] == '\n'
    requires 0 < k == WordLen(a) == WordLen(a + b) && a[k] == ' '
    ensures MatchPair(a + b) == MatchPair(a)
  {
    var s := a + b;
    var rest := a[k + 1..];
    var v := LineLen(rest);
    assert LineLen(s[k + 1..]) == v && k + 1 + v < |a| by {
      assert rest[i - k - 1] == '\n';
      DropAppend(a, b, k + 1);
      LineLenLocal(rest, b);
      LineLenSpan(rest);
    }
    assert s[k] == ' ' && s[..k] == a[..k] && s[k + 1..k + 1 + v] == a[k + 1..k + 1 + v];
    MatchPairAt(a, k, v);
    MatchPairAt(s, k, v);
  }

  /** The pair `(\w+) (.*)\n` captures once the word and the line are
      measured. */
  lemma MatchPairAt(s: string, k: nat, v: nat)
    requires 0 < k == WordLen(s) < |s| && s[k] == ' '
    requires LineLen(s[k + 1..]) == v && k + 1 + v < |s|
    ensures MatchPair(s).Some? && MatchPair(s).value.len == k + 2 + v
    ensures MatchPair(s).value.entry.key == s[..k]
    ensures MatchPair(s).value.entry.value == s[k + 1..k + 1 + v]
  {
    MatchPairAtKey(s, k, v);
    MatchPairAtValue(s, k, v);
  }

  lemma MatchPairAtKey(s: string, k: nat, v: nat)
    requires 0 < k == WordLen(s) < |s| && s[k] == ' '
    requires LineLen(s[k + 1..]) == v && k + 1 + v < |s|
    ensures MatchPair(s).Some? && MatchPair(s).value.entry.key == s[..k]
  {
  }

  lemma MatchPairAtValue(s: string, k: nat, v: nat)
    requires 0 < k == WordLen(s) < |s| && s[k] == ' '
    requires LineLen(s[k + 1..]) == v && k + 1 + v < |s|
    ensures MatchPair(s).Some? && MatchPair(s).value.entry.value == s[k + 1..k + 1 + v]
  {
  }

  lemma MatchSpacedLocal(a: string, b: string)
    requires '\n' in a
    ensures MatchSpaced(a + b) == MatchSpaced(a)
  {
    MatchPairLocal(a, b);
    if a[0] == ' ' {
      DropAppend(a, b, 1);
      MatchPairLocal(a[1..], b);
    }
  }

  lemma TaggedLocal(a: string, b: string)
    requires '\n' in a
    ensures Tagged(a + b) == Tagged(a)
    ensures Tagged(a) ==> '\n' in a[3..] && (a + b)[3..] == a[3..] + b
  {
    var i :| 0 <= i < |a| && a[i] == '\n';
    if 3 <= |a| {
      assert (a + b)[..3] == a[..3];
      if Tagged(a) {
        TaggedPrefix(a);
        assert a[3..][i - 3] == '\n';
        assert (a + b)[3..] == a[3..] + b;
      }
    } else {
      assert (a + b)[i] == '\n';
      if Tagged(a + b) {
        TaggedPrefix(a + b);
      }
    }
  }

  lemma MatchLocal(a: string, b: string)
    requires '\n' in a
    ensures Match(a + b) == Match(a)
  {
    MatchSpacedLocal(a, b);
    TaggedLocal(a, b);
    if Tagged(a) {
      MatchSpacedLocal(a[3..], b);
    }
  }

  /** The reply splits at line ends: what findall finds in a sequence of
      complete lines followed by more text is what it finds in the lines,
      followed by what it finds in the rest. */
  lemma {:induction false} FindAllSplit(a: string, b: string)
    requires a == [] || a[|a| - 1] == '\n'
    ensures FindAll(a + b) == FindAll(a) + FindAll(b)
    decreases |a|
  {
    if a == [] {
      assert a + b == b;
    } else {
      assert '\n' in a;
      MatchLocal(a, b);
      var m := Match(a);
      if m.Some? {
        var n := m.value.len;
        var a', e := a[n..], [m.value.entry];
        assert FindAll(a + b) == e + FindAll((a + b)[n..]);
        assert FindAll(a) == e + FindAll(a');
        DropAppend(a, b, n);
        FindAllSplit(a', b);
        ConcatAssoc(e, FindAll(a'), FindAll(b));
      } else {
        assert FindAll(a + b) == FindAll((a + b)[1..]);
        assert FindAll(a) == FindAll(a[1..]);
        DropAppend(a, b, 1);
        FindAllSplit(a[1..], b);
      }
    }
  }

  lemma ConcatAssoc<T>(x: seq<T>, y: seq<T>, z: seq<T>)
    ensures x + (y + z) == (x + y) + z
  {
  }

  /** Text without a newline yields no pair. */
  lemma {:induction false} FindAllUnterminated(t: string)
    requires '\n' !in t
    ensures FindAll(t) == []
    decreases |t|
  {
    if t != [] {
      MatchLen(t);
      LineLenIs(t, |t|);
      FindAllUnterminated(t[1..]);
    }
  }

  /** A final line without its newline contributes nothing. */
  lemma FinalLineDropped(lines: string, tail: string)
    requires lines == [] || lines[|lines| - 1] == '\n'
    requires '\n' !in tail
    ensures FindAll(lines + tail) == FindAll(lines)
  {
    FindAllSplit(lines, tail);
    FindAllUnterminated(tail);
  }

  /** One line yields at most one pair. */
  lemma {:induction false} OnePairPerLine(line: string)
    requires line != [] && line[|line| - 1] == '\n'
    requires '\n' !in line[..|line| - 1]
    ensures |FindAll(line)| <= 1
    decreases |line|
  {
    match Match(line)
    case Some(h) =>
      MatchLen(line);
      LineLenIs(line, |line| - 1);
      assert h.len == |line|;
    case None =>
      if |line| > 1 {
        assert line[1..][..|line[1..]| - 1] == line[..|line| - 1][1..];
        OnePairPerLine(line[1..]);
      }
  }

  lemma LineShape(k: string, v: string)
    ensures |Line(k, v)| == |k| + |v| + 2
    ensures forall i :: 0 <= i < |k| ==> Line(k, v)[i] == k[i]
    ensures Line(k, v)[|k|] == ' ' && Line(k, v)[|k| + 1 + |v|] == '\n'
    ensures Line(k, v)[..|k|] == k && Line(k, v)[|k| + 1..|k| + 1 + |v|] == v
    ensures Line(k, v)[|k| + 1..] == v + "\n"
  {
  }

  lemma WordLenOfLine(k: string, v: string)
    requires IsWord(k)
    ensures WordLen(Line(k, v)) == |k|
  {
    LineShape(k, v);
    WordLenIs(Line(k, v), |k|);
  }

  lemma LineLenOfValue(k: string, v: string)
    requires '\n' !in v
    ensures LineLen(Line(k, v)[|k| + 1..]) == |v|
  {
    LineShape(k, v);
    var r := Line(k, v)[|k| + 1..];
    assert forall j :: 0 <= j < |v| ==> r[j] == v[j];
    assert r[|v|] == '\n';
    LineLenIs(r, |v|);
  }

  /** `key value\n` is matched by `(\w+) (.*)\n`, consumed whole. */
  lemma MatchPairLine(k: string, v: string)
    requires IsWord(k) && '\n' !in v
    ensures MatchPair(Line(k, v)).Some? && MatchPair(Line(k, v)).value == Hit(Entry(k, v), |Line(k, v)|)
  {
    WordLenOfLine(k, v);
    LineLenOfValue(k, v);
    LineShape(k, v);
    MatchPairAt(Line(k, v), |k|, |v|);
  }

  /** Where the match is the whole of `s`, findall finds just its pair. */
  lemma SingleMatch(s: string, e: Entry)
    requires Match(s).Some? && Match(s).value.entry == e && Match(s).value.len == |s|
    ensures FindAll(s) == [e]
  {
    assert s[|s|..] == [];
  }

  /** A line `tag key value` or `set key value` yields `key` and `value`; the
      value may be empty and may hold spaces. */
  lemma TaggedLine(token: string, k: string, v: string)
    requires token == "tag" || token == "set"
    requires IsWord(k) && '\n' !in v
    ensures FindAll(token + " " + Line(k, v)) == [Entry(k, v)]
  {
    var line := Line(k, v);
    var t := " " + line;
    var s := token + t;
    assert token + " " + line == s;
    TokenLine(token, t);
    DropAppend(" ", line, 1);
    MatchPairLine(k, v);
    MatchSpacedSpace(t);
    MatchTagged(s);
    SingleMatch(s, Entry(k, v));
  }

  /** A line that begins with `tag` or `set` lets the group match. */
  lemma TokenLine(token: string, rest: string)
    requires token == "tag" || token == "set"
    ensures Tagged(token + rest) && (token + rest)[3..] == rest
  {
    StartsWithAppend(token, rest);
  }

  /** A leading space is taken by ` ?` when the rest matches. */
  lemma MatchSpacedSpace(t: string)
    requires t != [] && t[0] == ' ' && MatchPair(t[1..]).Some?
    ensures MatchSpaced(t) == Shift(MatchPair(t[1..]), 1)
  {
  }

  /** Where the group and what follows it match, that match is taken. */
  lemma MatchTagged(s: string)
    requires Tagged(s) && MatchSpaced(s[3..]).Some?
    ensures Match(s) == Shift(MatchSpaced(s[3..]), 3)
  {
  }

  /** The group cannot match when a space comes within the first three
      characters. */
  lemma UntaggedBySpace(s: string, i: nat)
    requires i < 3 && i < |s| && s[i] == ' '
    ensures !Tagged(s)
  {
    if Tagged(s) {
      TaggedPrefix(s);
    }
  }

  /** A line `key value` whose key does not begin with `tag` or `set`
      yields `key` and `value`. */
  lemma BareLine(k: string, v: string)
    requires IsWord(k) && !StartsWith(k, "tag") && !StartsWith(k, "set")
    requires '\n' !in v
    ensures FindAll(Line(k, v)) == [Entry(k, v)]
  {
    var s := Line(k, v);
    LineShape(k, v);
    if |k| >= 3 {
      assert s[..3] == k[..3];
    } else {
      UntaggedBySpace(s, |k|);
    }
    MatchPairLine(k, v);
    MatchUntagged(s);
    MatchSpacedBare(s);
    SingleMatch(s, Entry(k, v));
  }

  /** Backtracking: a `tag` or `set` line with a single word after the token
      has no value, so the token itself becomes the key and the word the
      value (`tag artist` yields `tag` mapped to `artist`). */
  lemma TokenAsKey(token: string, w: string)
    requires token == "tag" || token == "set"
    requires IsWord(w)
    ensures FindAll(Line(token, w)) == [Entry(token, w)]
  {
    var s := Line(token, w);
    LineShape(token, w);
    assert s[..3] == token;
    var t := s[4..];
    assert forall i :: 0 <= i < |w| ==> t[i] == w[i];
    assert |t| == |w| + 1 && t[|w|] == '\n';
    WordLenIs(t, |w|);
    assert MatchPair(t) == None;
    assert WordLen(s[3..]) == 0;
    assert MatchSpaced(s[3..]) == None;
    MatchUntagged(s);
    MatchSpacedBare(s);
    MatchPairLine(token, w);
    SingleMatch(s, Entry(token, w));
  }

  /** A key that begins with `tag` or `set` on a line without a token loses
      those three letters: `settings 1` yields `tings` mapped to `1`. */
  lemma TokenPrefixStripped(token: string, k: string, v: string)
    requires token == "tag" || token == "set"
    requires IsWord(k) && '\n' !in v
    ensures FindAll(token + Line(k, v)) == [Entry(k, v)]
  {
    var line := Line(k, v);
    var s := token + line;
    TokenLine(token, line);
    LineShape(k, v);
    MatchPairLine(k, v);
    MatchSpacedBare(line);
    MatchTagged(s);
    SingleMatch(s, Entry(k, v));
  }

  /** Where the group cannot start a match, the match is that of ` ?(\w+)
      (.*)\n` alone. */
  lemma MatchUntagged(s: string)
    requires !Tagged(s) || MatchSpaced(s[3..]).None?
    ensures Match(s) == MatchSpaced(s)
  {
  }

  /** Without a leading space, ` ?` matches nothing. */
  lemma MatchSpacedBare(t: string)
    requires t == [] || t[0] != ' '
    ensures MatchSpaced(t) == MatchPair(t)
  {
  }

  /** A reply that the playback-state pattern accepts yields the pair
      `status` mapped to the state first. */
  lemma StateLineParsed(reply: string, state: string)
    requires IsWord(state) && StartsWith(reply, StateLine(state))
    ensures FindAll(reply) == [Entry("status", state)] + FindAll(reply[|StateLine(state)|..])
  {
    var line := StateLine(state);
    assert reply == line + reply[|line|..];
    assert IsWord("status");
    assert "status"[..3] == "sta";
    BareLine("status", state);
    FindAllSplit(line, reply[|line|..]);
  }

  /** The keys of the dictionary are exactly the captured keys. */
  lemma {:induction false} DictKeys(entries: seq<Entry>)
    ensures Dict(entries).Keys == set e | e in entries :: e.key
  {
    if entries != [] {
      var init := entries[..|entries| - 1];
      DictKeys(init);
      assert entries == init + [entries[|entries| - 1]];
    }
  }

  /** The last pair with a given key decides its value. */
  lemma {:induction false} DictLastWins(entries: seq<Entry>, i: nat)
    requires i < |entries|
    requires forall j :: i < j < |entries| ==> entries[j].key != entries[i].key
    ensures entries[i].key in Dict(entries)
    ensures Dict(entries)[entries[i].key] == entries[i].value
  {
    if i < |entries| - 1 {
      DictLastWins(entries[..|entries| - 1], i);
    }
  }
}
