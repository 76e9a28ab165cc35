/** The client object: the socket path it resolves, the socket it holds and
    replaces, and the queries and playback commands it performs as ordered
    round trips with the daemon. The daemon is an object of its own that
    records each command it receives and answers as it chooses. */
module Client {
  import opened Outcomes
  import opened Text
  import opened Reply
  import opened ReplyLaws
  import opened Coercion
  import Display
  import opened Protocol

  /** os.path.join(home, rel) for a relative `rel`. */
  function Join(home: string, rel: string): (path: string)
    ensures StartsWith(path, home) && |path| >= |home| + |rel|
    ensures path[|path| - |rel|..] == rel
    ensures home != [] ==> path[|path| - |rel| - 1] == '/'
    ensures |path| == if home == [] || home[|home| - 1] == '/' then |home| + |rel| else |home| + 1 + |rel|
  {
    if home == [] || home[|home| - 1] == '/' then home + rel else home + "/" + rel
  }

  /** The socket path of `CmusRemote(user)`: a user name reaches
      os.expanduser, which does not exist; without one the `HOME` variable is
      read, and its absence is a KeyError. An empty user name counts as
      none. */
  function SocketPath(user: string, home: Option<string>): (r: Result<string>)
    ensures user != "" ==> r == Err(AttributeError)
    ensures user == "" && home.None? ==> r == Err(KeyError("HOME"))
    ensures r.Ok? ==> home.Some? && StartsWith(r.value, home.value) && |r.value| >= 12 &&
                      r.value[|r.value| - 12..] == ".cmus/socket" &&
                      |r.value| == (if home.value == [] || home.value[|home.value| - 1] == '/'
                                    then |home.value| + 12 else |home.value| + 13) &&
                      (home.value != [] ==> |r.value| >= 13 && r.value[|r.value| - 13] == '/') &&
                      (home.value == [] ==> r.value == ".cmus/socket")
  {
    if user != "" then Err(AttributeError)
    else
      match home
      case None => Err(KeyError("HOME"))
      case Some(h) => Ok(Join(h, ".cmus/socket"))
  }

  /** `path` without its trailing slashes. */
  function TrimSlashes(path: string): (t: string)
    ensures |t| <= |path| && t == path[..|t|]
    ensures t == [] || t[|t| - 1] != '/'
    ensures forall i :: |t| <= i < |path| ==> path[i] == '/'
  {
    if path != [] && path[|path| - 1] == '/' then TrimSlashes(path[..|path| - 1]) else path
  }

  /** os.path.expanduser('~' + user) on POSIX: the home directory the
      password database records for `user`, without trailing slashes (`/`
      when nothing is left); for an unknown user the text is returned
      unchanged. */
  function ExpandUser(user: string, pwDir: Option<string>): (path: string)
    ensures pwDir.None? ==> path == "~" + user
    ensures pwDir.Some? ==> path != [] && (path == "/" || path[|path| - 1] != '/')
    ensures pwDir.Some? && path != "/" ==>
              StartsWith(pwDir.value, path) && forall i :: |path| <= i < |pwDir.value| ==> pwDir.value[i] == '/'
    ensures pwDir.Some? && path == "/" ==> forall i :: 0 <= i < |pwDir.value| ==> pwDir.value[i] == '/'
  {
    match pwDir
    case None => "~" + user
    case Some(d) => var t := TrimSlashes(d); if t == [] then "/" else t
  }

  /** The socket path with the user branch calling os.path.expanduser, as
      evidently intended: only a missing `HOME` fails. */
  function IntendedSocketPath(user: string, home: Option<string>, pwDir: Option<string>): (r: Result<string>)
    ensures r.Err? <==> user == "" && home.None?
    ensures r.Err? ==> r.error == KeyError("HOME")
    ensures r.Ok? ==> |r.value| >= 12 && r.value[|r.value| - 12..] == ".cmus/socket"
    ensures user == "" ==> r == SocketPath(user, home)
  {
    if user != "" then Ok(Join(ExpandUser(user, pwDir), ".cmus/socket")) else SocketPath(user, home)
  }

  /** The socket of a named user lies in that user's home directory. */
  lemma UserHomeSocket(user: string, dir: string, home: Option<string>)
    requires user != "" && dir != [] && dir[|dir| - 1] != '/'
    ensures IntendedSocketPath(user, home, Some(dir)) == Ok(dir + "/.cmus/socket")
  {
    assert TrimSlashes(dir) == dir;
    assert ExpandUser(user, Some(dir)) == dir;
    assert dir + "/" + ".cmus/socket" == dir + "/.cmus/socket";
  }

  /** As written, naming a user always fails, whatever the password database
      holds; the intended path exists. */
  lemma NamedUserFails(home: Option<string>, pwDir: Option<string>)
    ensures SocketPath("cmus", home) == Err(AttributeError)
    ensures IntendedSocketPath("cmus", home, pwDir).Ok?
  {
  }

  // ---------------------------------------------------------------------
  // The formatting helpers as round trips: each one fetches a status of its
  // own when the dictionary it is given is empty, and full_status_string
  // hands the dictionary it obtained to three such helpers in turn.
  // ---------------------------------------------------------------------

  /** A formatting helper applied to the dictionary given, or fetched. */
  function HelperRun(w: World, given: Snapshot, format: Snapshot -> Result<string>): (Result<string>, World) {
    var (s, w1) := GivenOrFetched(w, given);
    (if s.Ok? then format(s.value) else Err(s.error), w1)
  }

  function FullStatusRun(w: World, given: Snapshot, utf8: bool): (Result<string>, World) {
    var (s, w1) := GivenOrFetched(w, given);
    if s.Err? then (Err(s.error), w1)
    else
      var (symbol, w2) := HelperRun(w1, s.value, snap => Display.StatusString(snap, utf8));
      if symbol.Err? then (symbol, w2)
      else
        var (now, w3) := HelperRun(w2, s.value, Display.NowPlaying);
        if now.Err? then (now, w3)
        else
          var (time, w4) := HelperRun(w3, s.value, Display.TimeString);
          if time.Err? then (time, w4)
          else (Ok(symbol.value + "  " + now.value + "  [" + time.value + "]"), w4)
  }

  /** With a non-empty dictionary, full_status_string performs at most the one
      fetch and formats that dictionary. */
  lemma FullStatusOnce(w: World, given: Snapshot, utf8: bool)
    requires GivenOrFetched(w, given).0.Ok? && GivenOrFetched(w, given).0.value != map[]
    ensures FullStatusRun(w, given, utf8) ==
              (Display.FullStatusString(GivenOrFetched(w, given).0.value, utf8), GivenOrFetched(w, given).1)
  {
  }

  /** An empty reply parses to an empty dictionary. */
  lemma ParseEmpty()
    ensures Parse("") == map[]
  {
    assert Dict(FindAll("")) == map[];
  }

  /** An empty dictionary counts as none: when the daemon answers `status`
      with nothing, status_string asks again before it fails, so
      full_status_string sends `status` twice. */
  lemma FullStatusRefetches(log: seq<string>, rest: seq<Answer>, utf8: bool)
    ensures FullStatusRun(Online(log, [Data(""), Data("")] + rest), map[], utf8) ==
              (Err(KeyError("status")), Online(log + ["status", "status"], rest))
  {
    ParseEmpty();
    assert ([Data(""), Data("")] + rest)[1..] == [Data("")] + rest;
    assert ([Data("")] + rest)[1..] == rest;
    assert log + ["status"] + ["status"] == log + ["status", "status"];
  }

  /** The daemon end of the socket. */
  class Daemon {
    /** Every command received, in order. */
    var log: seq<string>
    /** The answers to the next commands. */
    var answers: seq<Answer>
    /** 0 when a connect succeeds, otherwise the errno it fails with. */
    var refusal: int

    constructor (answers: seq<Answer>, refusal: int)
      ensures log == [] && this.answers == answers && this.refusal == refusal
    {
      log := [];
      this.answers := answers;
      this.refusal := refusal;
    }

    /** Receive one command and answer it. */
    method Serve(cmd: string) returns (a: Answer)
      modifies this
      ensures log == old(log) + [cmd]
      ensures a == NextAnswer(old(answers)) && answers == Later(old(answers))
      ensures refusal == old(refusal)
    {
      log := log + [cmd];
      a := NextAnswer(answers);
      answers := Later(answers);
    }
  }

  class CmusRemote {
    const socketPath: string
    const daemon: Daemon
    var sock: Sock

    /** The socket together with the daemon's log and next answers. */
    ghost function World(): World
      reads this, daemon
    {
      Protocol.World(sock, daemon.log, daemon.answers)
    }

    /** The object before `_connect`: a fresh socket. */
    constructor (socketPath: string, daemon: Daemon)
      ensures this.socketPath == socketPath && this.daemon == daemon && sock == Unconnected
    {
      this.socketPath := socketPath;
      this.daemon := daemon;
      sock := Unconnected;
    }

    /** `CmusRemote(user)`: resolve the socket path and connect; an exception
        leaves no object to the caller. The path is the intended one: `pwDir`
        is what the password database records for `user`. */
    static method Open(user: string, home: Option<string>, pwDir: Option<string>, daemon: Daemon)
      returns (r: Result<CmusRemote>)
      ensures var path := IntendedSocketPath(user, home, pwDir);
              (path.Err? ==> r == Err(path.error)) &&
              (path.Ok? && daemon.refusal != 0 ==> r == Err(ConnectFailure(daemon.refusal, path.value))) &&
              (path.Ok? && daemon.refusal == 0 ==>
                 r.Ok? && fresh(r.value) && r.value.daemon == daemon &&
                 r.value.socketPath == path.value && r.value.sock == Connected)
    {
      var path := IntendedSocketPath(user, home, pwDir);
      if path.Err? {
        return Err(path.error);
      }
      var c := new CmusRemote(path.value, daemon);
      var connected := c.Connect();
      if connected.Err? {
        return Err(connected.error);
      }
      return Ok(c);
    }

    /** `_connect`: a new socket, connected to the socket path. */
    method Connect() returns (r: Result<()>)
      modifies this
      ensures (r, sock) == ConnectOutcome(daemon.refusal, socketPath)
    {
      if daemon.refusal == 0 {
        sock := Connected;
        r := Ok(());
      } else {
        sock := Unconnected;
        r := Err(ConnectFailure(daemon.refusal, socketPath));
      }
    }

    /** `_disconnect`: close the socket; closing twice is harmless. */
    method Disconnect()
      modifies this
      ensures sock == Closed
    {
      sock := Closed;
    }

    /** `reconnect`: close, then connect a new socket. */
    method Reconnect() returns (r: Result<()>)
      modifies this
      ensures (r, sock) == ConnectOutcome(daemon.refusal, socketPath)
    {
      Disconnect();
      r := Connect();
    }

    /** `_send_cmd`: one round trip. */
    method SendCmd(cmd: string) returns (r: Result<string>)
      modifies daemon
      ensures daemon.refusal == old(daemon.refusal)
      ensures (r, World()) == Exchange(old(World()), cmd)
    {
      match sock
      case Unconnected =>
        r := Err(SendFailure(ENOTCONN));
      case Closed =>
        r := Err(SendFailure(EBADF));
      case Connected =>
        var a := daemon.Serve(cmd);
        match a
        case Data(t) => r := Ok(t);
        case Failure(e) => r := Err(SendFailure(e));
    }

    method IsPlaying() returns (r: Result<bool>)
      modifies daemon
      ensures daemon.refusal == old(daemon.refusal)
      ensures (r, World()) == Ask(old(World()), Reply.IsPlaying)
    {
      var reply := SendCmd("status");
      r := if reply.Ok? then Ok(Reply.IsPlaying(reply.value)) else Err(reply.error);
    }

    method IsPaused() returns (r: Result<bool>)
      modifies daemon
      ensures daemon.refusal == old(daemon.refusal)
      ensures (r, World()) == Ask(old(World()), Reply.IsPaused)
    {
      var reply := SendCmd("status");
      r := if reply.Ok? then Ok(Reply.IsPaused(reply.value)) else Err(reply.error);
    }

    method IsStopped() returns (r: Result<bool>)
      modifies daemon
      ensures daemon.refusal == old(daemon.refusal)
      ensures (r, World()) == Ask(old(World()), Reply.IsStopped)
    {
      var reply := SendCmd("status");
      r := if reply.Ok? then Ok(Reply.IsStopped(reply.value)) else Err(reply.error);
    }

    method IsPausedOrStopped() returns (r: Result<bool>)
      modifies daemon
      ensures daemon.refusal == old(daemon.refusal)
      ensures (r, World()) == Ask(old(World()), Reply.IsPausedOrStopped)
    {
      var reply := SendCmd("status");
      r := if reply.Ok? then Ok(Reply.IsPausedOrStopped(reply.value)) else Err(reply.error);
    }

    /** `status()`: the pairs the line pattern finds, collected into a
        dictionary, whose values the loop of CoerceAll then converts. */
    method Status() returns (r: Result<Snapshot>)
      modifies daemon
      ensures daemon.refusal == old(daemon.refusal)
      ensures (r, World()) == FetchStatus(old(World()))
    {
      var reply := SendCmd("status");
      if reply.Err? {
        return Err(reply.error);
      }
      var raw := Dict(FindAll(reply.value));
      var typed := CoerceAll(raw);
      assert typed == Coerced(raw);
      return Ok(typed);
    }

    /** The dictionary a formatting helper works on. */
    method Given(given: Snapshot) returns (r: Result<Snapshot>)
      modifies daemon
      ensures daemon.refusal == old(daemon.refusal)
      ensures (r, World()) == GivenOrFetched(old(World()), given)
    {
      if given == map[] {
        r := Status();
      } else {
        r := Ok(given);
      }
    }

    method StatusString(given: Snapshot, utf8: bool) returns (r: Result<string>)
      modifies daemon
      ensures daemon.refusal == old(daemon.refusal)
      ensures (r, World()) == HelperRun(old(World()), given, snap => Display.StatusString(snap, utf8))
    {
      var s := Given(given);
      r := if s.Ok? then Display.StatusString(s.value, utf8) else Err(s.error);
    }

    method NowPlayingString(given: Snapshot) returns (r: Result<string>)
      modifies daemon
      ensures daemon.refusal == old(daemon.refusal)
      ensures (r, World()) == HelperRun(old(World()), given, Display.NowPlaying)
    {
      var s := Given(given);
      r := if s.Ok? then Display.NowPlaying(s.value) else Err(s.error);
    }

    method TimeString(given: Snapshot) returns (r: Result<string>)
      modifies daemon
      ensures daemon.refusal == old(daemon.refusal)
      ensures (r, World()) == HelperRun(old(World()), given, Display.TimeString)
    {
      var s := Given(given);
      r := if s.Ok? then Display.TimeString(s.value) else Err(s.error);
    }

    /** The dictionary obtained here is handed to the three helpers, each of
        which fetches again when it is empty. */
    method FullStatusString(given: Snapshot, utf8: bool) returns (r: Result<string>)
      modifies daemon
      ensures daemon.refusal == old(daemon.refusal)
      ensures (r, World()) == FullStatusRun(old(World()), given, utf8)
    {
      var s := Given(given);
      if s.Err? {
        return Err(s.error);
      }
      var symbol := StatusString(s.value, utf8);
      if symbol.Err? {
        return symbol;
      }
      var now := NowPlayingString(s.value);
      if now.Err? {
        return now;
      }
      var time := TimeString(s.value);
      if time.Err? {
        return time;
      }
      r := Ok(symbol.value + "  " + now.value + "  [" + time.value + "]");
    }

    /** `timestring(status_bit, utf8)` of the single-file client, which always
        asks for a fresh status. */
    method Timestring(statusBit: bool, utf8: bool) returns (r: Result<string>)
      modifies daemon
      ensures daemon.refusal == old(daemon.refusal)
      ensures var (s, w) := FetchStatus(old(World()));
              World() == w && r == if s.Ok? then Display.Timestring(s.value, statusBit, utf8) else Err(s.error)
    {
      var s := Status();
      r := if s.Ok? then Display.Timestring(s.value, statusBit, utf8) else Err(s.error);
    }

    /** `_send_cmd(cmd)` followed by a fresh test. */
    method CommandThen(cmd: string, test: string -> bool) returns (r: Result<bool>)
      modifies daemon
      ensures daemon.refusal == old(daemon.refusal)
      ensures (r, World()) == Command(old(World()), cmd, test)
    {
      var sent := SendCmd(cmd);
      if sent.Err? {
        return Err(sent.error);
      }
      var reply := SendCmd("status");
      r := if reply.Ok? then Ok(test(reply.value)) else Err(reply.error);
    }

    method Play() returns (r: Result<bool>)
      modifies daemon
      ensures daemon.refusal == old(daemon.refusal)
      ensures (r, World()) == PlayRun(old(World()))
    {
      var idle := IsPausedOrStopped();
      if idle.Err? {
        return idle;
      }
      if idle.value {
        r := CommandThen("player-play", Reply.IsPlaying);
        return;
      }
      var playing := IsPlaying();
      if playing.Err? {
        return playing;
      }
      if playing.value {
        r := CommandThen("player-pause", Reply.IsPaused);
        return;
      }
      r := CommandThen("player-play", Reply.IsPlaying);
    }

    method Pause() returns (r: Result<bool>)
      modifies daemon
      ensures daemon.refusal == old(daemon.refusal)
      ensures (r, World()) == PauseRun(old(World()))
    {
      var already := IsPaused();
      if already.Err? {
        return already;
      }
      if already.value {
        return Ok(false);
      }
      r := CommandThen("player-pause", Reply.IsPaused);
    }

    method Stop() returns (r: Result<bool>)
      modifies daemon
      ensures daemon.refusal == old(daemon.refusal)
      ensures (r, World()) == StopRun(old(World()))
    {
      var already := IsStopped();
      if already.Err? {
        return already;
      }
      if already.value {
        return Ok(false);
      }
      r := CommandThen("player-stop", Reply.IsStopped);
    }

    /** The body of next() and prev(). */
    method Skip(cmd: string) returns (r: Result<bool>)
      modifies daemon
      ensures daemon.refusal == old(daemon.refusal)
      ensures (r, World()) == SkipRun(old(World()), cmd)
    {
      var before := Status();
      if before.Err? {
        return Err(before.error);
      }
      if "file" !in before.value {
        return Err(KeyError("file"));
      }
      var file := before.value["file"];
      var sent := SendCmd(cmd);
      if sent.Err? {
        return Err(sent.error);
      }
      var after := Status();
      if after.Err? {
        return Err(after.error);
      }
      if "file" !in after.value {
        return Err(KeyError("file"));
      }
      r := Ok(after.value["file"] != file);
    }

    method Next() returns (r: Result<bool>)
      modifies daemon
      ensures daemon.refusal == old(daemon.refusal)
      ensures (r, World()) == SkipRun(old(World()), "player-next")
    {
      r := Skip("player-next");
    }

    method Prev() returns (r: Result<bool>)
      modifies daemon
      ensures daemon.refusal == old(daemon.refusal)
      ensures (r, World()) == SkipRun(old(World()), "player-prev")
    {
      r := Skip("player-prev");
    }
  }

  /** What a caller can conclude from the contracts alone: a client whose
      daemon reports paused answers pause() with false and sends only the
      `status` query. */
  method PauseIdempotent(c: CmusRemote)
    requires c.sock == Connected && c.daemon.answers == [Data(StateLine("paused"))]
    modifies c.daemon
    ensures c.daemon.refusal == old(c.daemon.refusal)
    ensures c.daemon.log == old(c.daemon.log) + ["status"]
  {
    PauseWhenPaused(c.daemon.log, StateLine("paused"), []);
    var r := c.Pause();
    assert r == Ok(false);
  }
}
