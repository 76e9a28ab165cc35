# cmus remote client — a Dafny model

This project models the client for the text protocol of the cmus music
player: the `CmusRemote` class of `cmus/lib.py` and its single-file twin
`cmus.py`. The client sends one-line commands over a Unix socket and reads
the replies. `cmus.py` repeats lines 12-123 of `cmus/lib.py` verbatim. Its
`play`, `pause`, `stop`, `next` and `prev` (cmus.py:147-188) are those of
`cmus/lib.py:179-220`. It has `timestring` (cmus.py:125-145) where the
package has `status_string`, `now_playing_string`, `time_string` and
`full_status_string`. Both are modelled once.

The client is written for Python 2, and the model follows Python 2:

- a reply is a byte string, and `\w` is `[A-Za-z0-9_]`;
- `/` on integers is floor division;
- `str(True)` is `True`.

The modules, in dependency order:

- `Outcomes` (outcomes.dfy): `Option`, `Result`, and the exceptions the client
  raises or lets through.
- `Text` (text.dfy): character classes, `str.strip()`, and decimal numerals.
  It holds `int()` of a string and `str()` / `'%d'` of an int, with their
  round trip.
- `Reply` (reply.dfy): the four anchored state patterns; the line pattern
  `(tag|set)? ?(\w+) (.*)\n` with Python's backtracking order; `re.findall`
  as a scan; the dictionary comprehension.
- `ReplyLaws` (reply_laws.dfy): what the patterns accept, line by line. A
  match never looks past its newline. `findall` distributes over complete
  lines. The `tag`/`set` token is dropped, a later key overwrites.
- `Coercion` (coercion.dfy): the coercion loop of `status()`, as a method
  over a map that is proved against a function. It also holds `float()`'s
  accepted syntax, and what a whole reply parses to.
- `Display` (display.dfy): the symbol, now-playing text, clock and their
  composition over one dictionary. Missing keys and bad operands become
  exceptions. It also states the clock's fields as `int()` reads them back.
- `Protocol` (protocol.dfy): the socket and the daemon as values.
  - The daemon is an oracle that logs each command and answers from a
    script.
  - `_send_cmd` is one round trip, with the errno classification.
  - The playback commands are sequences of round trips, with lemmas on
    which commands are sent in which branch and what is returned.
- `Client` (client.dfy): the objects.
  - The daemon is a class with a log.
  - `CmusRemote` holds a socket field that `_connect` and `_disconnect`
    replace or close.
  - The methods that talk to the daemon (`_send_cmd`, `status()`, the
    state predicates, the formatting helpers and the playback commands)
    are proved against the run functions of `Protocol` and `Client`;
    `_connect`, `_disconnect` and the constructor state the new fields.
  - The module also resolves the socket path.

## Model

| member | source | states |
|---|---|---|
| Text.ParseInt | cmus/lib.py:112 | definition of Python 2's `int()` on a string; characterised by Text.IntTextRoundTrip and Coercion.IntTextIsFloatText |
| Text.IntTextRoundTrip | cmus/lib.py:112 | `int()` reads back exactly the number that `str()` / `'%d'` writes, for every integer, negative ones included |
| Reply.IsPlaying | cmus/lib.py:14 | definition (matched at cmus/lib.py:71): `re.match` of `^status playing\n(.*)` succeeds exactly when the reply starts with the line `status playing`; characterised by ReplyLaws.StatesExclusive and ReplyLaws.StateLineParsed |
| Reply.IsPaused | cmus/lib.py:15 | definition (matched at cmus/lib.py:78): the reply starts with the line `status paused`; characterised by ReplyLaws.StatesExclusive and ReplyLaws.PausedOrStoppedIsEither |
| Reply.IsStopped | cmus/lib.py:16 | definition (matched at cmus/lib.py:85): the reply starts with the line `status stopped`; characterised by ReplyLaws.StatesExclusive and ReplyLaws.PausedOrStoppedIsEither |
| Reply.IsPausedOrStopped | cmus/lib.py:17 | definition (matched at cmus/lib.py:92): `status ` followed by `paused\n` or `stopped\n`; characterised by ReplyLaws.PausedOrStoppedIsEither |
| Reply.MatchPair | cmus/lib.py:13 | definition of `(\w+) (.*)\n` at the start of a string; a match consumes at least one character and no more than the input; characterised by ReplyLaws.MatchPairLine |
| Reply.MatchSpaced | cmus/lib.py:13 | definition of ` ?(\w+) (.*)\n`, the space tried before it is skipped; characterised by ReplyLaws.BareLine and ReplyLaws.TaggedLine |
| Reply.Match | cmus/lib.py:13 | definition of `(tag\|set)? ?(\w+) (.*)\n` in backtracking order, the group tried first; characterised by ReplyLaws.MatchLen, MatchLocal, BareLine, TaggedLine, TokenAsKey and TokenPrefixStripped |
| Reply.FindAll | cmus/lib.py:99 | definition of `re.findall` with the line pattern: after a match the scan resumes past it, otherwise one character on; characterised by ReplyLaws.FindAllSplit, FindAllUnterminated, FinalLineDropped and OnePairPerLine |
| Reply.Dict | cmus/lib.py:100 | definition of the dictionary comprehension over the pairs in order; characterised by ReplyLaws.DictKeys and ReplyLaws.DictLastWins |
| ReplyLaws.PausedOrStoppedIsEither | cmus/lib.py:15-17 | `^status (paused\|stopped)\n` matches a reply exactly when `^status paused\n` or `^status stopped\n` does |
| ReplyLaws.StatesExclusive | cmus/lib.py:14-16 | no reply satisfies two of the playing, paused and stopped patterns |
| ReplyLaws.MatchLen | cmus/lib.py:13 | a match of the line pattern always ends at the first newline and consumes it |
| ReplyLaws.MatchLocal | cmus/lib.py:13 | whether and how the line pattern matches is decided by the text up to the first newline; what follows cannot change it |
| ReplyLaws.FindAllSplit | cmus/lib.py:99 | `re.findall` over complete lines followed by more text yields the pairs of the lines, then the pairs of the rest |
| ReplyLaws.FindAllUnterminated | cmus/lib.py:99 | text without a newline yields no pair |
| ReplyLaws.FinalLineDropped | cmus/lib.py:99 | a final line without `\n` contributes nothing to the reply's pairs |
| ReplyLaws.OnePairPerLine | cmus/lib.py:99 | a single line yields at most one pair |
| ReplyLaws.MatchPairLine | cmus/lib.py:13 | `key value\n` with a word key and any one-line value (empty included) matches `(\w+) (.*)\n` whole, capturing key and value |
| ReplyLaws.BareLine | cmus/lib.py:13 | a line `key value` whose key does not begin with `tag` or `set` yields exactly the pair (key, value) |
| ReplyLaws.TaggedLine | cmus/lib.py:13 | a line `tag key value` or `set key value` yields the pair (key, value): the token is dropped |
| ReplyLaws.TokenAsKey | cmus/lib.py:13 | by backtracking, `tag artist` (no value) yields key `tag` with value `artist` |
| ReplyLaws.TokenPrefixStripped | cmus/lib.py:13 | a key that merely begins with `tag`/`set` loses those three letters (`settings 1` yields key `tings`) |
| ReplyLaws.StateLineParsed | cmus/lib.py:13-17 | a reply the state patterns accept begins with the pair (`status`, state) as far as `findall` is concerned |
| ReplyLaws.DictKeys | cmus/lib.py:100 | the dictionary holds exactly the keys of the captured pairs |
| ReplyLaws.DictLastWins | cmus/lib.py:100 | a key takes the value of its last pair |
| Coercion.IsFloatText | cmus/lib.py:117-121 | definition of the texts Python 2's `float()` accepts; characterised by Coercion.IntTextIsFloatText and Coercion.CoerceReadsAs |
| Coercion.Coerce | cmus/lib.py:102-121 | definition of the value stored for one key; characterised by Coercion.CoerceReadsAs, CoerceNumeral and WordStaysText |
| Coercion.Coerced | cmus/lib.py:102-121 | definition of the dictionary after the loop, each value coerced; characterised by Coercion.CoerceAll, which the loop is proved to compute |
| Coercion.Parse | cmus/lib.py:98-123 | definition of what `status()` returns for a reply; characterised by Coercion.ParseKeys and Coercion.FieldParsed |
| Coercion.IntTextIsFloatText | cmus/lib.py:111-121 | every text `int()` accepts `float()` accepts too, so the float attempt only sees what the int attempt refused |
| Coercion.CoerceReadsAs | cmus/lib.py:102-121 | a coerced value always reads back as its raw text; textual keys keep the text; a value stays a string only when no bool, int or float reading applies |
| Coercion.CoerceNumeral | cmus/lib.py:103-115 | a numeral becomes that int, except under the five textual keys (`date 2020` stays `"2020"`) |
| Coercion.WordStaysText | cmus/lib.py:106-121 | a word starting with a lower-case letter other than `i`/`n`, and not `true`/`false`, is kept as a string |
| Coercion.CoerceAll | cmus/lib.py:102-121 | the loop keeps every key and replaces each value by its coercion, key by key, in any order |
| Coercion.CoerceEntry | cmus/lib.py:103-121 | one pass of the loop body changes only the entry of its own key, to that key's coercion |
| Coercion.ParseKeys | cmus/lib.py:98-100 | `status()` returns exactly the keys captured from the reply; coercion adds and drops none |
| Coercion.FieldParsed | cmus/lib.py:98-123 | a line `key value` between complete lines, not repeated later, gives `key` the coerced value |
| Coercion.LineBetween | cmus/lib.py:99 | the pairs of `before + line + after` are those of `before`, the line's pair, then those of `after` |
| Display.ValueText | cmus/lib.py:145-150 | definition of `'%s'` of a status value (`True`/`False` for bools, the decimal text of an int); characterised by Display.NowPlayingPrecedence |
| Display.Symbol | cmus/lib.py:131-136 | definition of the symbol table: only the strings `playing` and `paused` have their own; characterised by Display.StatusString and Display.SymbolOfReply |
| Display.Basename | cmus/lib.py:155 | definition of `os.path.basename`: the text after the last `/`; characterised by Display.StemOfPath |
| Display.Stem | cmus/lib.py:155 | definition of `os.path.splitext(...)[0]` on a base name; characterised by Display.StemOfName and Display.StemWithoutDot |
| Display.Pad2 | cmus/lib.py:164-167 | definition of `'%02d'`; characterised by Display.Pad2Reads |
| Display.Clock | cmus/lib.py:164-167 | definition of `'%02d:%02d' % (n / 60, n % 60)` with floor division; characterised by Display.ClockRoundTrip |
| Display.StatusString | cmus/lib.py:125-138 | fails with KeyError exactly when `status` is missing, and otherwise yields one of the three symbols of the chosen character set |
| Display.StateWordStaysText | cmus/lib.py:102-121 | the words `playing`, `paused`, `stopped` survive the coercion as strings |
| Display.SymbolOfReply | cmus/lib.py:131-136 | the symbol of a parsed reply agrees with the state pattern it satisfies |
| Display.NowPlaying | cmus/lib.py:140-157 | fails exactly when `title` is missing and `file` is present but not a string (the basename of a non-string); with neither `title` nor `file` it yields `""` |
| Display.NowPlayingPrecedence | cmus/lib.py:144-155 | `artist - title`, then the title, then the file's stem, in that order of precedence |
| Display.StemOfPath | cmus/lib.py:155 | `dir/name.ext` is shown as `name` (`/music/Song.flac` as `Song`) |
| Display.StemOfName | cmus/lib.py:155 | `splitext` removes exactly the last extension |
| Display.StemWithoutDot | cmus/lib.py:155 | a base name without a dot is kept whole |
| Display.Pad2Reads | cmus/lib.py:164-167 | `'%02d'` writes at least two characters, exactly two below 100, and reads back as the number; its output is `Padded`: digits only for `n >= 0`, with no leading zero from 10 on (`120` stays `120`), and a minus sign then digits without a leading zero for `n < 0` |
| Display.Padded | cmus/lib.py:164-167 | definition of the shape of a `'%02d'` field, told independently of `Pad2`: read by `int()` as its number, two characters below 100, no leading zero from 10 on, a single minus sign for negatives; characterised by Display.Pad2Reads |
| Display.ClockFields | cmus/lib.py:164-167 | definition of the fields of a `'%02d:%02d'` clock: a `Padded` minutes field, a colon, and a `Padded` seconds field of two digits in 0..59, so `0002:05` is not a clock for 2 minutes 5 seconds; characterised by Display.ClockRoundTrip and Display.TimeStringReads |
| Display.ClockRoundTrip | cmus/lib.py:164-167 | every clock is `MM:SS`: the minutes field is what `'%02d'` writes for the floor quotient by 60 (exactly two digits below 100 minutes, no leading zero above), a colon, and the two digits of the remainder 0..59, each field read back by `int()` |
| Display.TimeString | cmus/lib.py:159-169 | a missing `position`, or a numeric `position` with a missing `duration`, yields exactly `00:00 / 00:00` |
| Display.TimeStringReads | cmus/lib.py:163-167 | with integer position and duration, the result is two `MM:SS` clocks, laid out field by field as `'%02d:%02d'` does (widths and leading zeros included), whose fields `int()` reads back as the minutes and seconds of position and of duration |
| Display.FullStatusString | cmus/lib.py:171-177 | succeeds exactly when all three helpers do, with `symbol  now  [time]` from their results; otherwise the first helper to fail gives the error (a missing `status` is its KeyError) |
| Display.Timestring | cmus.py:125-145 | without the status bit, `timestring` is `time_string`; with it, the status symbol and a space come before the clock and before the `00:00 / 00:00` fallback, and a missing `status` is a KeyError |
| Protocol.ConnectOutcome | cmus/lib.py:37-45 | definition of `_connect`'s outcome for the errno the daemon's side refuses with; characterised by Protocol.ClassificationReversible and Client.CmusRemote.Connect |
| Protocol.Exchange | cmus/lib.py:54-64 | definition of one `_send_cmd` round trip over the socket state; characterised by Protocol.ExchangeData, FailureStops and DisconnectedRun |
| Protocol.Ask | cmus/lib.py:66-92 | definition of the state predicates: one `status` round trip, then the pattern; characterised by Client.CmusRemote.IsPlaying and its three siblings |
| Protocol.FetchStatus | cmus/lib.py:94-123 | definition of `status()`: one round trip, parsed and coerced; characterised by Client.CmusRemote.Status and Protocol.SkipCompares |
| Protocol.GivenOrFetched | cmus/lib.py:126-127 | definition of `if not status: status = self.status()`; characterised by Client.FullStatusOnce, Client.FullStatusRefetches and Client.CmusRemote.Given |
| Protocol.Command | cmus/lib.py:184-185 | definition of a command round trip followed by a fresh state test; characterised by Protocol.PauseWhenNotPaused and Protocol.StopWhenNotStopped |
| Protocol.PlayRun | cmus/lib.py:179-190 | definition of `play()`; characterised by Protocol.PlayWhenIdle, PlayWhenPlaying, PlayWhenUnknown and PlayFromStopped |
| Protocol.PauseRun | cmus/lib.py:192-200 | definition of `pause()`; characterised by Protocol.PauseWhenPaused, PauseWhenNotPaused and PauseTwice |
| Protocol.StopRun | cmus/lib.py:202-210 | definition of `stop()`; characterised by Protocol.StopWhenStopped and StopWhenNotStopped |
| Protocol.SkipRun | cmus/lib.py:212-220 | definition of `next()` and `prev()`; characterised by Protocol.SkipCompares, SkipWithoutFile and SkipLosesFile |
| Protocol.Run | cmus/lib.py:179-220 | definition of the five playback commands by name; characterised by Protocol.DisconnectedRun and Protocol.FailureStops |
| Protocol.ClassificationReversible | cmus/lib.py:41-64 | errno 2 on connect, 32 and 107 on a round trip become connection errors; every other errno is re-raised; none is lost |
| Protocol.DisconnectedRun | cmus/lib.py:54-64 | without a connected socket every playback command fails with the socket's error and nothing reaches the daemon |
| Protocol.FailureStops | cmus/lib.py:54-64 | a failed first round trip ends any playback command after the single `status` |
| Protocol.ExchangeData | cmus/lib.py:54-57 | a round trip over a connected socket logs the command and returns the daemon's answer |
| Protocol.PauseWhenPaused | cmus/lib.py:192-198 | `pause()` on a paused player returns false and sends no `player-pause` |
| Protocol.PauseWhenNotPaused | cmus/lib.py:192-200 | otherwise exactly `status`, `player-pause`, `status` are sent and the result is the paused pattern on the fresh reply |
| Protocol.StopWhenStopped | cmus/lib.py:202-208 | `stop()` on a stopped player returns false and sends no `player-stop` |
| Protocol.StopWhenNotStopped | cmus/lib.py:202-210 | otherwise exactly `status`, `player-stop`, `status` are sent and the result is the stopped pattern on the fresh reply |
| Protocol.PlayWhenIdle | cmus.py:151-153 | `play()` when paused or stopped sends `player-play` and returns the playing pattern on the fresh reply |
| Protocol.PlayWhenPlaying | cmus/lib.py:186-188 | `play()` when playing sends a second `status`, then `player-pause`, and returns the paused pattern on the fresh reply |
| Protocol.PlayWhenUnknown | cmus/lib.py:189-190 | `play()` on an unrecognised reply sends `player-play` and returns the playing pattern on the fresh reply |
| Protocol.SkipCompares | cmus/lib.py:212-220 | `next()`/`prev()` send the skip command between two `status` queries and return whether `file` changed |
| Protocol.SkipWithoutFile | cmus/lib.py:213 | without a `file` before the skip: KeyError, and the skip command is never sent |
| Protocol.SkipLosesFile | cmus.py:183 | without a `file` after the skip: KeyError rather than a boolean |
| Protocol.PauseTwice | cmus/lib.py:192-200 | two `pause()` calls on an obedient playing daemon: true, then false, with a single `player-pause` |
| Protocol.PlayFromStopped | cmus/lib.py:179-185 | `play()` on an obedient stopped daemon sends `player-play` and returns true |
| Client.Join | cmus/lib.py:31 | `os.path.join(home, rel)` starts with `home`, ends with `rel`, separates them with one `/`, and adds a `/` only when `home` is non-empty and does not already end in one |
| Client.SocketPath | cmus/lib.py:26-31 | as written: a user name fails with AttributeError; without one the path is `$HOME`, a `/` exactly when `$HOME` is non-empty and does not end in one, and `.cmus/socket` (just `.cmus/socket` for an empty `HOME`), and a missing `HOME` is a KeyError |
| Client.NamedUserFails | cmus/lib.py:27-29 | as written, a named user can never get a socket path, whereas the intended resolution always yields one |
| Client.IntendedSocketPath | cmus/lib.py:26-31 | fails only without a user name and without `HOME`; every path ends in `.cmus/socket`; without a user name it agrees with the code as written |
| Client.UserHomeSocket | cmus/lib.py:28-29 | a named user's socket is `<their home>/.cmus/socket` |
| Client.ExpandUser | cmus/lib.py:28 | an unknown user is left as `~user`; a known user's home is returned with exactly its trailing slashes removed (all but one when it is only slashes) |
| Client.TrimSlashes | cmus/lib.py:28 | removes exactly the trailing slashes of a home directory |
| Client.HelperRun | cmus/lib.py:159-169 | definition of a formatting helper called with or without a dictionary; characterised by Client.CmusRemote.StatusString, NowPlayingString and TimeString |
| Client.FullStatusRun | cmus/lib.py:171-177 | definition of `full_status_string`, each helper refetching on an empty dictionary, the first error winning; characterised by Client.FullStatusOnce and Client.FullStatusRefetches |
| Client.FullStatusOnce | cmus/lib.py:171-177 | with a non-empty dictionary, `full_status_string` fetches at most once and formats that dictionary |
| Client.FullStatusRefetches | cmus/lib.py:172-177 | an empty dictionary counts as none, so each helper asks the daemon again: an empty reply makes `status` be sent twice |
| Client.ParseEmpty | cmus/lib.py:98-100 | an empty reply parses to an empty dictionary |
| Client.Daemon.Serve | cmus/lib.py:56-57 | the daemon logs each command it receives and answers with the next scripted answer |
| Client.CmusRemote.Open | cmus/lib.py:26-32 | the constructor resolves the path and connects; an error leaves no object, success leaves a connected one |
| Client.CmusRemote.Connect | cmus/lib.py:37-45 | a new socket: connected when the daemon accepts, otherwise unconnected with the classified error |
| Client.CmusRemote.Disconnect | cmus/lib.py:47-48 | the socket is closed |
| Client.CmusRemote.Reconnect | cmus/lib.py:50-52 | close, then connect a new socket |
| Client.CmusRemote.SendCmd | cmus/lib.py:54-64 | one round trip, as `Protocol.Exchange` describes it |
| Client.CmusRemote.IsPlaying | cmus/lib.py:66-71 | one `status` round trip, answered by the playing pattern |
| Client.CmusRemote.IsPaused | cmus/lib.py:73-78 | one `status` round trip, answered by the paused pattern |
| Client.CmusRemote.IsStopped | cmus/lib.py:80-85 | one `status` round trip, answered by the stopped pattern |
| Client.CmusRemote.IsPausedOrStopped | cmus/lib.py:87-92 | one `status` round trip, answered by the paused-or-stopped pattern |
| Client.CmusRemote.Status | cmus/lib.py:94-123 | one `status` round trip, whose reply is parsed and coerced by the loop |
| Client.CmusRemote.Given | cmus/lib.py:126-127 | a helper's dictionary is the one given, or a fresh `status()` when it is empty |
| Client.CmusRemote.StatusString | cmus/lib.py:125-138 | the symbol of the given or fetched dictionary |
| Client.CmusRemote.NowPlayingString | cmus/lib.py:140-157 | the now-playing text of the given or fetched dictionary |
| Client.CmusRemote.TimeString | cmus/lib.py:159-169 | the clock of the given or fetched dictionary |
| Client.CmusRemote.FullStatusString | cmus/lib.py:171-177 | the three helpers in order, each handed the dictionary obtained, the first exception winning |
| Client.CmusRemote.Timestring | cmus.py:125-145 | a fresh `status()`, then the optionally prefixed clock |
| Client.CmusRemote.CommandThen | cmus/lib.py:199-200 | a mutating command, then a fresh `status` test |
| Client.CmusRemote.Play | cmus/lib.py:179-190 | the round trips of `play()` in each branch, as `Protocol.PlayRun` describes them |
| Client.CmusRemote.Pause | cmus/lib.py:192-200 | the round trips of `pause()`, as `Protocol.PauseRun` describes them |
| Client.CmusRemote.Stop | cmus/lib.py:202-210 | the round trips of `stop()`, as `Protocol.StopRun` describes them |
| Client.CmusRemote.Skip | cmus/lib.py:212-220 | the round trips shared by `next()` and `prev()`, as `Protocol.SkipRun` describes them |
| Client.CmusRemote.Next | cmus/lib.py:212-215 | `player-next` between two `status()` calls |
| Client.CmusRemote.Prev | cmus/lib.py:217-220 | `player-prev` between two `status()` calls |
| Client.PauseIdempotent | cmus.py:160-166 | a caller of `pause()` on a paused daemon can conclude from the method's contract alone that only `status` was sent |

## Left out

- Socket I/O itself is not modelled.
  - The daemon is an oracle: a scripted sequence of answers and a log of the commands it received.
  - A round trip whose send or receive fails is logged like one that succeeds. Which of the two failed is not told apart.
  - Each scripted answer is what one `recv(4096)` returns, so it holds at most 4096 characters. The client reads once per command.
  - A reply longer than 4096 characters leaves its rest in the socket, and the next command reads that rest. The script may hold such a rest as the next answer, but the model does not force it to.
  - An exhausted script answers with the empty string. A daemon that stays silent would block the client in `recv` for ever; blocking is not modelled.
  - The ASCII encoding of commands is not modelled, since every command the client sends is ASCII.
- `__del__` (cmus/lib.py:34-35) is not modelled: it closes the socket when the object is collected, which has no counterpart here.
- cmus/lazy.py is not part of this model. It builds a fresh client per call and turns connection errors into `False`, with no logic of its own.
- Display.Symbol: the glyphs `▶`, `▮▮` and `◼` are one or two Dafny characters, whereas the Python 2 byte strings are UTF-8 (3, 6 and 3 bytes). Lengths and byte encodings of the symbols are not modelled.
- Float arithmetic and float formatting are not modelled.
  - A value `float()` accepts is kept as its literal text.
  - Display.TimeString: a float `position` or `duration` yields the FloatOperand error. Python 2 would truncate it for `'%02d'`.
  - Display.ValueText: `'%s'` of a float is the literal as received. Python 2 calls `str()`, which rounds to 12 significant digits (`1.50` is shown as `1.5`, `0.3333333333333333` as `0.333333333333`).
- Client.CmusRemote.Skip compares the two `file` values as data. Python's numeric equality across types is not modelled: `1 == True == 1.0`, and `1.0` equals `1.00`. Only file names that read as numbers are affected.
- Text.ParseInt: Python 2's `int()` is modelled as surrounding whitespace, one sign and ASCII digits. Other spellings it accepts on a byte string are not modelled: blanks between the sign and the digits (`int("- 5")` is -5) and, for values too large for a machine int, a trailing `L`.
- Coercion.IsFloatText: Python 2's `float()` is modelled as surrounding whitespace, one sign, and a decimal mantissa with an optional exponent, or `inf` / `infinity` / `nan` in any case. Other spellings it accepts are not modelled.
- The environment and the password database are parameters of the model. `HOME` is an `Option` argument, and so is the home directory of a named user.
- The Python 3 differences are not modelled, because the source only runs on Python 2. On Python 3, `recv` returns bytes that the `str` patterns refuse.
- The daemon changing state between the separate round trips of one command is allowed, not excluded: each answer in the script is arbitrary.
- Client.CmusRemote.Open uses the corrected socket path of the finding below. Client.SocketPath keeps the code as written.

## Findings

| source | as written | input that shows it | evidently intended | confidence | as-written member | corrected member |
|---|---|---|---|---|---|---|
| cmus/lib.py:28 | `os.expanduser('~' + user)` (the same line is cmus.py:28), a function the `os` module does not have, so passing a user raises AttributeError | `CmusRemote(user='cmus')` | `os.path.expanduser`, giving the named user's `~/.cmus/socket` | high, not executed | Client.NamedUserFails | Client.IntendedSocketPath |
