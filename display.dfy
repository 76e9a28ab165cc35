/** The display helpers: a status symbol, the now-playing text, the
    `MM:SS / MM:SS` clock and their composition, each computed from one
    status dictionary. A missing key is a KeyError unless the helper catches
    it and falls back. */
module Display {
  import opened Outcomes
  import opened Text
  import opened Reply
  import opened ReplyLaws
  import opened Coercion

  /** Python 2's '%s' of a status value. */
  function ValueText(v: Value): string {
    match v
    case Str(t) => t
    case Bool(b) => if b then "True" else "False"
    case Int(n) => IntText(n)
    case Float(t) => t
  }

  // ---------------------------------------------------------------------
  // status_string
  // ---------------------------------------------------------------------

  /** The symbol for a `status` value: only the strings `playing` and
      `paused` have their own. */
  function Symbol(state: Value, utf8: bool): string {
    if state == Str("playing") then (if utf8 then "▶" else ">")
    else if state == Str("paused") then (if utf8 then "▮▮" else "|")
    else if utf8 then "◼" else "."
  }

  function StatusString(snap: Snapshot, utf8: bool): (r: Result<string>)
    ensures r.Err? <==> "status" !in snap
    ensures r.Err? ==> r.error == KeyError("status")
    ensures r.Ok? ==> r.value in (if utf8 then {"▶", "▮▮", "◼"} else {">", "|", "."})
  {
    if "status" in snap then Ok(Symbol(snap["status"], utf8)) else Err(KeyError("status"))
  }

  /** The three state words are left as strings by the coercion. */
  lemma StateWordStaysText(state: string)
    requires state in {"playing", "paused", "stopped"}
    ensures Coerce("status", state) == Str(state)
  {
    assert "status"[0] != "artist"[0];
    WordStaysText("status", state);
  }

  /** The symbol agrees with the state patterns: for a reply that starts with
      `status <state>` and has no later `status` line, the symbol is that
      state's. */
  lemma SymbolOfReply(reply: string, state: string, utf8: bool)
    requires state in {"playing", "paused", "stopped"}
    requires StartsWith(reply, StateLine(state))
    requires forall e :: e in FindAll(reply[|StateLine(state)|..]) ==> e.key != "status"
    ensures StatusString(Parse(reply), utf8) == Ok(Symbol(Str(state), utf8))
  {
    var after := reply[|StateLine(state)|..];
    assert reply == [] + Line("status", state) + after;
    assert IsWord("status") && IsWord(state) by {
      assert forall i :: 0 <= i < |state| ==> state[i] in "playingusedtopd";
    }
    assert "status"[..3] == "sta";
    FieldParsed([], "status", state, after);
    StateWordStaysText(state);
  }

  // ---------------------------------------------------------------------
  // now_playing_string
  // ---------------------------------------------------------------------

  /** What follows the last `c` in `p`; all of `p` when `c` does not occur. */
  function AfterLast(p: string, c: char): (t: string)
    ensures |t| <= |p| && t == p[|p| - |t|..]
    ensures c !in t
    ensures |t| < |p| ==> p[|p| - |t| - 1] == c
  {
    if p == [] then []
    else if p[|p| - 1] == c then []
    else AfterLast(p[..|p| - 1], c) + [p[|p| - 1]]
  }

  lemma {:induction false} AfterLastAppend(x: string, c: char, y: string)
    requires c !in y
    ensures AfterLast(x + [c] + y, c) == y
  {
    if y != [] {
      var s := x + [c] + y;
      assert s[..|s| - 1] == x + [c] + y[..|y| - 1];
      AfterLastAppend(x, c, y[..|y| - 1]);
    } else {
      assert x + [c] + y == x + [c];
    }
  }

  /** os.path.basename on a POSIX path. */
  function Basename(path: string): string {
    AfterLast(path, '/')
  }

  predicate AllDots(s: string) {
    forall i :: 0 <= i < |s| ==> s[i] == '.'
  }

  /** The first half of os.path.splitext on a base name: the text before the
      last dot, unless only dots precede it (a hidden file keeps its name). */
  function Stem(name: string): string {
    var ext := AfterLast(name, '.');
    if |ext| < |name| then
      var dot := |name| - |ext| - 1;
      if AllDots(name[..dot]) then name else name[..dot]
    else name
  }

  /** `dir/name.ext` is shown as `name` (`/music/Song.flac` as `Song`). */
  lemma StemOfPath(dir: string, name: string, ext: string)
    requires '/' !in name && '/' !in ext && '.' !in ext
    requires !AllDots(name)
    ensures Stem(Basename(dir + "/" + name + "." + ext)) == name
  {
    var base := name + "." + ext;
    assert Basename(dir + "/" + name + "." + ext) == base by {
      assert dir + "/" + name + "." + ext == dir + ['/'] + base;
      assert '/' !in base;
      AfterLastAppend(dir, '/', base);
    }
    StemOfName(name, ext);
  }

  lemma StemOfName(name: string, ext: string)
    requires '.' !in ext && !AllDots(name)
    ensures Stem(name + "." + ext) == name
  {
    var base := name + "." + ext;
    assert AfterLast(base, '.') == ext by {
      assert base == name + ['.'] + ext;
      AfterLastAppend(name, '.', ext);
    }
    assert base[..|name|] == name;
  }

  /** A base name without a dot is shown whole. */
  lemma StemWithoutDot(name: string)
    requires '.' !in name
    ensures Stem(name) == name
  {
  }

  function NowPlaying(snap: Snapshot): (r: Result<string>)
    ensures r.Err? <==> "title" !in snap && "file" in snap && !snap["file"].Str?
    ensures "title" !in snap && "file" !in snap ==> r == Ok("")
  {
    if "artist" in snap && "title" in snap then
      Ok(ValueText(snap["artist"]) + " - " + ValueText(snap["title"]))
    else if "title" in snap then Ok(ValueText(snap["title"]))
    else if "file" in snap then
      match snap["file"]
      case Str(path) => Ok(Stem(Basename(path)))
      case _ => Err(AttributeError)
    else Ok("")
  }

  /** The precedence of now_playing_string: artist and title, then the
      title, then the file's stem. */
  lemma NowPlayingPrecedence(snap: Snapshot, artist: string, title: string, path: string)
    ensures (snap.Keys >= {"artist", "title"} && snap["artist"] == Str(artist) && snap["title"] == Str(title))
              ==> NowPlaying(snap) == Ok(artist + " - " + title)
    ensures ("artist" !in snap && "title" in snap && snap["title"] == Str(title))
              ==> NowPlaying(snap) == Ok(title)
    ensures ("title" !in snap && "file" in snap && snap["file"] == Str(path))
              ==> NowPlaying(snap) == Ok(Stem(Basename(path)))
  {
  }

  // ---------------------------------------------------------------------
  // time_string
  // ---------------------------------------------------------------------

  const ZeroTime: string := "00:00 / 00:00"

  /** '%02d': at least two characters, zero-padded on the left. */
  function Pad2(n: int): string {
    if n < 0 then IntText(n) else if n < 10 then "0" + Decimal(n) else Decimal(n)
  }

  /** `MM:SS` for a number of seconds: Python 2's `/` on ints is floor
      division, and `%` then leaves a remainder in 0..59. */
  function Clock(n: int): string {
    Pad2(n / 60) + ":" + Pad2(n % 60)
  }

  /** What '%02d' writes for `n`, told field by field: text that int()
      reads as `n`, of at least two characters; for `n >= 0` only digits,
      exactly two below 100 and no leading zero from 10 on; for `n < 0` a
      minus sign and digits without a leading zero. */
  predicate Padded(f: string, n: int) {
    ParseInt(f) == Some(n) && |f| >= 2 &&
    (n >= 0 ==> AllDigits(f) && (n < 100 ==> |f| == 2) && (n >= 10 ==> f[0] != '0')) &&
    (n < 0 ==> f[0] == '-' && AllDigits(f[1..]) && f[1] != '0')
  }

  lemma Pad2Reads(n: int)
    ensures |Pad2(n)| >= 2
    ensures 0 <= n < 100 ==> |Pad2(n)| == 2
    ensures ParseInt(Pad2(n)) == Some(n)
    ensures n >= 0 ==> AllDigits(Pad2(n))
    ensures Padded(Pad2(n), n)
  {
    if n < 0 {
      IntTextRoundTrip(n);
      var d := Decimal(-n);
      assert Pad2(n)[1..] == d;
      if |d| == 1 {
        assert d[0] == DigitChar(-n);
      }
    } else if n < 10 {
      DecimalValue(n);
      LeadingZero(Decimal(n));
      var s := "0" + Decimal(n);
      StripUnpadded(s);
    } else {
      IntTextRoundTrip(n);
      if n < 100 {
        assert Decimal(n) == Decimal(n / 10) + [DigitChar(n % 10)];
      }
    }
  }

  /** Every clock is `MM:SS`: the minutes field is what '%02d' writes for
      the floor quotient by 60, then a colon, then the two digits '%02d'
      writes for the remainder, 0..59. */
  lemma {:induction false} ClockRoundTrip(n: int)
    ensures ClockFields(Clock(n), n / 60, n % 60)
  {
    PaddedClock(n / 60, n % 60);
  }

  /** The clock of `minutes` and `seconds` laid out by '%02d:%02d'. */
  lemma {:induction false} PaddedClock(minutes: int, seconds: int)
    requires 0 <= seconds < 60
    ensures ClockFields(Pad2(minutes) + ":" + Pad2(seconds), minutes, seconds)
  {
    Pad2Reads(minutes);
    Pad2Reads(seconds);
    JoinedClockFields(Pad2(minutes), Pad2(seconds), minutes, seconds);
  }

  /** The fields of a `%02d:%02d` clock showing `minutes` and `seconds`. */
  predicate ClockFields(c: string, minutes: int, seconds: int) {
    |c| >= 5 && c[|c| - 3] == ':' &&
    Padded(c[..|c| - 3], minutes) && Padded(c[|c| - 2..], seconds) && 0 <= seconds < 60
  }

  lemma {:induction false} JoinedClockFields(m: string, s: string, minutes: int, seconds: int)
    requires Padded(m, minutes) && Padded(s, seconds) && 0 <= seconds < 60
    ensures ClockFields(m + ":" + s, minutes, seconds)
  {
    ClockShape(m, s);
  }

  lemma {:induction false} ClockShape(m: string, s: string)
    requires |s| == 2
    ensures var c := m + ":" + s;
            |c| >= 3 && c[|c| - 3] == ':' && c[..|c| - 3] == m && c[|c| - 2..] == s
  {
  }

  /** Python 2 evaluates `v / 60` on a status value: a string raises
      TypeError, a bool counts as 0 or 1. */
  function WholeSeconds(v: Value): Option<int>
    requires !v.Str?
  {
    match v
    case Bool(b) => Some(if b then 1 else 0)
    case Int(n) => Some(n)
    case Float(_) => None
  }

  function TimeString(snap: Snapshot): (r: Result<string>)
    ensures "position" !in snap ==> r == Ok(ZeroTime)
    ensures "position" in snap && !snap["position"].Str? && "duration" !in snap ==> r == Ok(ZeroTime)
  {
    if "position" !in snap then Ok(ZeroTime)
    else if snap["position"].Str? then Err(TypeError)
    else if "duration" !in snap then Ok(ZeroTime)
    else if snap["duration"].Str? then Err(TypeError)
    else
      match (WholeSeconds(snap["position"]), WholeSeconds(snap["duration"]))
      case (Some(p), Some(d)) => Ok(Clock(p) + " / " + Clock(d))
      case _ => Err(FloatOperand)
  }

  /** With both fields whole numbers, the string holds two `MM:SS` clocks
      whose fields read back as the minutes and seconds of the position and
      of the duration. */
  lemma TimeStringReads(snap: Snapshot, p: int, d: int)
    requires snap.Keys >= {"position", "duration"}
    requires snap["position"] == Int(p) && snap["duration"] == Int(d)
    ensures exists c1, c2 :: TimeString(snap) == Ok(c1 + " / " + c2) &&
                             ClockFields(c1, p / 60, p % 60) && ClockFields(c2, d / 60, d % 60)
  {
    ClockRoundTrip(p);
    ClockRoundTrip(d);
    assert TimeString(snap) == Ok(Clock(p) + " / " + Clock(d));
  }

  // ---------------------------------------------------------------------
  // full_status_string, and the timestring variant of the single-file
  // client
  // ---------------------------------------------------------------------

  /** `symbol  now-playing  [time]`; the first helper to raise decides the
      exception. */
  function FullStatusString(snap: Snapshot, utf8: bool): (r: Result<string>)
    ensures r.Ok? <==> StatusString(snap, utf8).Ok? && NowPlaying(snap).Ok? && TimeString(snap).Ok?
    ensures r.Ok? ==> r.value == StatusString(snap, utf8).value + "  " + NowPlaying(snap).value +
                                 "  [" + TimeString(snap).value + "]"
    ensures "status" !in snap ==> r == Err(KeyError("status"))
    ensures "status" in snap && NowPlaying(snap).Err? ==> r == NowPlaying(snap)
    ensures "status" in snap && NowPlaying(snap).Ok? && TimeString(snap).Err? ==> r == TimeString(snap)
  {
    match StatusString(snap, utf8)
    case Err(e) => Err(e)
    case Ok(symbol) =>
      match NowPlaying(snap)
      case Err(e) => Err(e)
      case Ok(now) =>
        match TimeString(snap)
        case Err(e) => Err(e)
        case Ok(time) => Ok(symbol + "  " + now + "  [" + time + "]")
  }

  /** timestring(status_bit, utf8) of the single-file client: the clock of
      time_string, behind the status symbol and a space when asked for; the
      prefix also goes before the `00:00 / 00:00` fallback, and a missing
      status fails first. */
  function Timestring(snap: Snapshot, statusBit: bool, utf8: bool): (r: Result<string>)
    ensures statusBit && "status" !in snap ==> r == Err(KeyError("status"))
    ensures !statusBit ==> r == TimeString(snap)
    ensures statusBit && "status" in snap && TimeString(snap).Err? ==> r == TimeString(snap)
    ensures statusBit && "status" in snap && TimeString(snap).Ok? ==>
              r == Ok(StatusString(snap, utf8).value + " " + TimeString(snap).value)
    ensures "position" !in snap && (statusBit ==> "status" in snap) ==>
              r == Ok((if statusBit then StatusString(snap, utf8).value + " " else "") + ZeroTime)
  {
    if statusBit && "status" !in snap then Err(KeyError("status"))
    else
      var prefix := if statusBit then Symbol(snap["status"], utf8) + " " else "";
      match TimeString(snap)
      case Ok(time) => assert "" + time == time; Ok(prefix + time)
      case Err(e) => Err(e)
  }
}
