/** The client's side of the socket, as values: the socket's state, the
    daemon behind it as an oracle that logs every command it receives and
    answers as it chooses, one round trip of `_send_cmd`, and the fixed
    sequences of round trips that the status queries and the playback
    commands perform. The methods of the client class are proved against
    the functions here. */
module Protocol {
  import opened Outcomes
  import opened Text
  import opened Reply
  import opened ReplyLaws
  import opened Coercion

  /** The size of the single read that follows every command. */
  const BufSize: nat := 4096

  const ENOENT: int := 2
  const EBADF: int := 9
  const EPIPE: int := 32
  const ENOTCONN: int := 107

  /** What one `recv(4096)` can return: at most 4096 characters. */
  type Chunk = s: string | |s| <= BufSize

  /** What the read after a command yields, as the daemon and the socket
      decide: the characters one `recv` returns, or the errno the round
      trip fails with. A reply longer than one read, or the unread rest of
      an earlier one, is just another chunk the script may hold. */
  datatype Answer = Data(text: Chunk) | Failure(errno: int)

  /** A fresh socket (also what a failed connect leaves), a connected one,
      and a closed one. */
  datatype Sock = Unconnected | Connected | Closed

  /** The client's socket, the commands the daemon has received in order,
      and the answers it will give next. */
  datatype World = World(sock: Sock, log: seq<string>, answers: seq<Answer>)

  // ---------------------------------------------------------------------
  // Error classification of _connect and _send_cmd.
  // ---------------------------------------------------------------------

  function ConnectFailure(errno: int, path: string): Error {
    if errno == ENOENT then NoSuchSocket(path) else OsError(errno)
  }

  function SendFailure(errno: int): Error {
    if errno == EPIPE then BrokenPipe
    else if errno == ENOTCONN then NotConnected
    else OsError(errno)
  }

  /** The errno a socket-level error stands for. */
  function Errno(e: Error): Option<int> {
    match e
    case NoSuchSocket(_) => Some(ENOENT)
    case BrokenPipe => Some(EPIPE)
    case NotConnected => Some(ENOTCONN)
    case OsError(n) => Some(n)
    case _ => None
  }

  /** The classification loses no information: the errno can be read back,
      and only errnos 2, 32 and 107 become a CmusConnectionError. */
  lemma ClassificationReversible(errno: int, path: string)
    ensures Errno(ConnectFailure(errno, path)) == Some(errno)
    ensures Errno(SendFailure(errno)) == Some(errno)
    ensures ConnectFailure(errno, path).OsError? <==> errno != ENOENT
    ensures SendFailure(errno).OsError? <==> errno != EPIPE && errno != ENOTCONN
  {
  }

  /** The outcome of _connect on the socket path, given the errno the
      daemon's side refuses with (0 when it accepts). */
  function ConnectOutcome(refusal: int, path: string): (Result<()>, Sock) {
    if refusal == 0 then (Ok(()), Connected) else (Err(ConnectFailure(refusal, path)), Unconnected)
  }

  // ---------------------------------------------------------------------
  // One round trip of _send_cmd.
  // ---------------------------------------------------------------------

  /** The daemon's next answer; a daemon that has nothing more to say
      yields an empty read. */
  function NextAnswer(answers: seq<Answer>): Answer {
    if answers == [] then Data("") else answers[0]
  }

  function Later(answers: seq<Answer>): seq<Answer> {
    if answers == [] then [] else answers[1..]
  }

  /** `_send_cmd(cmd)`: over a connected socket the command reaches the
      daemon, which answers; a fresh socket fails with errno 107 and a closed
      one with errno 9, and then nothing is sent. */
  function Exchange(w: World, cmd: string): (Result<string>, World) {
    match w.sock
    case Unconnected => (Err(SendFailure(ENOTCONN)), w)
    case Closed => (Err(SendFailure(EBADF)), w)
    case Connected =>
      var next := World(Connected, w.log + [cmd], Later(w.answers));
      match NextAnswer(w.answers)
      case Data(t) => (Ok(t), next)
      case Failure(e) => (Err(SendFailure(e)), next)
  }

  /** is_playing, is_paused, is_stopped, is_paused_or_stopped: one `status`
      round trip and a pattern applied to the reply. */
  function Ask(w: World, test: string -> bool): (Result<bool>, World) {
    var (r, w1) := Exchange(w, "status");
    (if r.Ok? then Ok(test(r.value)) else Err(r.error), w1)
  }

  /** status(): one `status` round trip, parsed and coerced. */
  function FetchStatus(w: World): (Result<Snapshot>, World) {
    var (r, w1) := Exchange(w, "status");
    (if r.Ok? then Ok(Parse(r.value)) else Err(r.error), w1)
  }

  /** A formatting helper's `if not status: status = self.status()`: an
      empty dictionary counts as none given. */
  function GivenOrFetched(w: World, given: Snapshot): (Result<Snapshot>, World) {
    if given == map[] then FetchStatus(w) else (Ok(given), w)
  }

  // ---------------------------------------------------------------------
  // The playback commands.
  // ---------------------------------------------------------------------

  /** A mutating command followed by a fresh test of the new state. */
  function Command(w: World, cmd: string, test: string -> bool): (Result<bool>, World) {
    var (r, w1) := Exchange(w, cmd);
    if r.Err? then (Err(r.error), w1) else Ask(w1, test)
  }

  /** play(): resume when paused or stopped, pause when playing, and play
      when the reply shows neither. Each test is a round trip of its own. */
  function PlayRun(w: World): (Result<bool>, World) {
    var (idle, w1) := Ask(w, IsPausedOrStopped);
    if idle.Err? then (idle, w1)
    else if idle.value then Command(w1, "player-play", IsPlaying)
    else
      var (playing, w2) := Ask(w1, IsPlaying);
      if playing.Err? then (playing, w2)
      else if playing.value then Command(w2, "player-pause", IsPaused)
      else Command(w2, "player-play", IsPlaying)
  }

  /** pause() and stop(): false without a command when already there,
      otherwise the command and a fresh test. */
  function PauseRun(w: World): (Result<bool>, World) {
    var (already, w1) := Ask(w, IsPaused);
    if already.Err? then (already, w1)
    else if already.value then (Ok(false), w1)
    else Command(w1, "player-pause", IsPaused)
  }

  function StopRun(w: World): (Result<bool>, World) {
    var (already, w1) := Ask(w, IsStopped);
    if already.Err? then (already, w1)
    else if already.value then (Ok(false), w1)
    else Command(w1, "player-stop", IsStopped)
  }

  /** next() and prev(): the `file` field before and after the skip command
      differs. A missing `file` is a KeyError. */
  function SkipRun(w: World, cmd: string): (Result<bool>, World) {
    var (before, w1) := FetchStatus(w);
    if before.Err? then (Err(before.error), w1)
    else if "file" !in before.value then (Err(KeyError("file")), w1)
    else
      var file := before.value["file"];
      var (sent, w2) := Exchange(w1, cmd);
      if sent.Err? then (Err(sent.error), w2)
      else
        var (after, w3) := FetchStatus(w2);
        if after.Err? then (Err(after.error), w3)
        else if "file" !in after.value then (Err(KeyError("file")), w3)
        else (Ok(after.value["file"] != file), w3)
  }

  datatype Op = Play | Pause | Stop | Next | Prev

  function Run(w: World, op: Op): (Result<bool>, World) {
    match op
    case Play => PlayRun(w)
    case Pause => PauseRun(w)
    case Stop => StopRun(w)
    case Next => SkipRun(w, "player-next")
    case Prev => SkipRun(w, "player-prev")
  }

  // ---------------------------------------------------------------------
  // What the playback commands do.
  // ---------------------------------------------------------------------

  /** A connected socket with the daemon's log and next answers. */
  function Online(log: seq<string>, answers: seq<Answer>): World {
    World(Connected, log, answers)
  }

  /** Without a connected socket no command reaches the daemon, and the
      command fails with the errno the socket gives. */
  lemma DisconnectedRun(w: World, op: Op)
    requires w.sock != Connected
    ensures Run(w, op).1 == w
    ensures Run(w, op).0 == Err(SendFailure(if w.sock == Unconnected then ENOTCONN else EBADF))
  {
  }

  /** A failed first round trip ends the command: only `status` was sent,
      and the error is the classified errno. */
  lemma FailureStops(log: seq<string>, errno: int, rest: seq<Answer>, op: Op)
    ensures Run(Online(log, [Failure(errno)] + rest), op) ==
              (Err(SendFailure(errno)), Online(log + ["status"], rest))
  {
    assert ([Failure(errno)] + rest)[1..] == rest;
  }

  /** One round trip over a connected socket whose daemon answers with a
      reply. */
  lemma ExchangeData(log: seq<string>, t: Chunk, rest: seq<Answer>, cmd: string)
    ensures Exchange(Online(log, [Data(t)] + rest), cmd) == (Ok(t), Online(log + [cmd], rest))
  {
    assert ([Data(t)] + rest)[1..] == rest;
  }

  /** pause() when the daemon already reports paused: false, and no
      `player-pause` is sent. */
  lemma PauseWhenPaused(log: seq<string>, t: Chunk, rest: seq<Answer>)
    requires IsPaused(t)
    ensures PauseRun(Online(log, [Data(t)] + rest)) == (Ok(false), Online(log + ["status"], rest))
  {
    ExchangeData(log, t, rest, "status");
  }

  /** pause() otherwise: exactly one `player-pause`, and the result is the
      pattern on the reply to the fresh `status`. */
  lemma PauseWhenNotPaused(log: seq<string>, t0: Chunk, t1: Chunk, t2: Chunk, rest: seq<Answer>)
    requires !IsPaused(t0)
    ensures PauseRun(Online(log, [Data(t0), Data(t1), Data(t2)] + rest)) ==
              (Ok(IsPaused(t2)), Online(log + ["status", "player-pause", "status"], rest))
  {
    Steps3(log, t0, "status", t1, "player-pause", t2, "status", rest);
  }

  /** Three round trips over a connected socket, each answered with a reply. */
  lemma Steps3(log: seq<string>, t0: Chunk, c0: string, t1: Chunk, c1: string, t2: Chunk, c2: string,
               rest: seq<Answer>)
    ensures var w1 := Online(log + [c0], [Data(t1), Data(t2)] + rest);
            var w2 := Online(log + [c0, c1], [Data(t2)] + rest);
            Exchange(Online(log, [Data(t0), Data(t1), Data(t2)] + rest), c0) == (Ok(t0), w1) &&
            Exchange(w1, c1) == (Ok(t1), w2) &&
            Exchange(w2, c2) == (Ok(t2), Online(log + [c0, c1, c2], rest))
  {
    assert [Data(t0), Data(t1), Data(t2)] + rest == [Data(t0)] + ([Data(t1), Data(t2)] + rest);
    ExchangeData(log, t0, [Data(t1), Data(t2)] + rest, c0);
    assert [Data(t1), Data(t2)] + rest == [Data(t1)] + ([Data(t2)] + rest);
    ExchangeData(log + [c0], t1, [Data(t2)] + rest, c1);
    assert log + [c0] + [c1] == log + [c0, c1];
    ExchangeData(log + [c0, c1], t2, rest, c2);
    assert log + [c0, c1] + [c2] == log + [c0, c1, c2];
  }

  /** Four round trips over a connected socket, each answered with a reply. */
  lemma Steps4(log: seq<string>, t0: Chunk, c0: string, t1: Chunk, c1: string, t2: Chunk, c2: string,
               t3: Chunk, c3: string, rest: seq<Answer>)
    ensures var w1 := Online(log + [c0], [Data(t1), Data(t2), Data(t3)] + rest);
            var w2 := Online(log + [c0, c1], [Data(t2), Data(t3)] + rest);
            var w3 := Online(log + [c0, c1, c2], [Data(t3)] + rest);
            Exchange(Online(log, [Data(t0), Data(t1), Data(t2), Data(t3)] + rest), c0) == (Ok(t0), w1) &&
            Exchange(w1, c1) == (Ok(t1), w2) &&
            Exchange(w2, c2) == (Ok(t2), w3) &&
            Exchange(w3, c3) == (Ok(t3), Online(log + [c0, c1, c2, c3], rest))
  {
    assert [Data(t0), Data(t1), Data(t2), Data(t3)] + rest == [Data(t0)] + ([Data(t1), Data(t2), Data(t3)] + rest);
    ExchangeData(log, t0, [Data(t1), Data(t2), Data(t3)] + rest, c0);
    Steps3(log + [c0], t1, c1, t2, c2, t3, c3, rest);
    assert log + [c0] + [c1] == log + [c0, c1];
    assert log + [c0] + [c1, c2] == log + [c0, c1, c2];
    assert log + [c0] + [c1, c2, c3] == log + [c0, c1, c2, c3];
  }

  /** stop() when the daemon already reports stopped: false, and no
      `player-stop` is sent. */
  lemma StopWhenStopped(log: seq<string>, t: Chunk, rest: seq<Answer>)
    requires IsStopped(t)
    ensures StopRun(Online(log, [Data(t)] + rest)) == (Ok(false), Online(log + ["status"], rest))
  {
    ExchangeData(log, t, rest, "status");
  }

  /** stop() otherwise: exactly one `player-stop`, and the result is the
      pattern on the reply to the fresh `status`. */
  lemma StopWhenNotStopped(log: seq<string>, t0: Chunk, t1: Chunk, t2: Chunk, rest: seq<Answer>)
    requires !IsStopped(t0)
    ensures StopRun(Online(log, [Data(t0), Data(t1), Data(t2)] + rest)) ==
              (Ok(IsStopped(t2)), Online(log + ["status", "player-stop", "status"], rest))
  {
    Steps3(log, t0, "status", t1, "player-stop", t2, "status", rest);
  }

  /** play() from paused or stopped: `player-play`, and whether the daemon
      then reports playing. */
  lemma PlayWhenIdle(log: seq<string>, t0: Chunk, t1: Chunk, t2: Chunk, rest: seq<Answer>)
    requires IsPausedOrStopped(t0)
    ensures PlayRun(Online(log, [Data(t0), Data(t1), Data(t2)] + rest)) ==
              (Ok(IsPlaying(t2)), Online(log + ["status", "player-play", "status"], rest))
  {
    Steps3(log, t0, "status", t1, "player-play", t2, "status", rest);
  }

  /** play() while playing: a second `status`, then `player-pause`, and
      whether the daemon then reports paused. The same boolean thus means
      "now playing" in one branch and "now paused" in the other. */
  lemma PlayWhenPlaying(log: seq<string>, t0: Chunk, t1: Chunk, t2: Chunk, t3: Chunk, rest: seq<Answer>)
    requires !IsPausedOrStopped(t0) && IsPlaying(t1)
    ensures PlayRun(Online(log, [Data(t0), Data(t1), Data(t2), Data(t3)] + rest)) ==
              (Ok(IsPaused(t3)), Online(log + ["status", "status", "player-pause", "status"], rest))
  {
    Steps4(log, t0, "status", t1, "status", t2, "player-pause", t3, "status", rest);
  }

  /** play() when the reply shows no known state: `player-play`, and whether
      the daemon then reports playing. */
  lemma PlayWhenUnknown(log: seq<string>, t0: Chunk, t1: Chunk, t2: Chunk, t3: Chunk, rest: seq<Answer>)
    requires !IsPausedOrStopped(t0) && !IsPlaying(t1)
    ensures PlayRun(Online(log, [Data(t0), Data(t1), Data(t2), Data(t3)] + rest)) ==
              (Ok(IsPlaying(t3)), Online(log + ["status", "status", "player-play", "status"], rest))
  {
    Steps4(log, t0, "status", t1, "status", t2, "player-play", t3, "status", rest);
  }

  /** next() and prev() when both snapshots have a `file`: the skip command
      between two `status` round trips, and whether the file changed. */
  lemma SkipCompares(log: seq<string>, cmd: string, t0: Chunk, t1: Chunk, t2: Chunk, rest: seq<Answer>)
    requires "file" in Parse(t0) && "file" in Parse(t2)
    ensures SkipRun(Online(log, [Data(t0), Data(t1), Data(t2)] + rest), cmd) ==
              (Ok(Parse(t2)["file"] != Parse(t0)["file"]),
               Online(log + ["status", cmd, "status"], rest))
  {
    Steps3(log, t0, "status", t1, cmd, t2, "status", rest);
  }

  /** next() and prev() without a `file` before the skip: a KeyError, and
      the skip command is never sent. */
  lemma SkipWithoutFile(log: seq<string>, cmd: string, t0: Chunk, rest: seq<Answer>)
    requires "file" !in Parse(t0)
    ensures SkipRun(Online(log, [Data(t0)] + rest), cmd) ==
              (Err(KeyError("file")), Online(log + ["status"], rest))
  {
    ExchangeData(log, t0, rest, "status");
  }

  /** next() and prev() when the `file` has gone after the skip (an empty
      playlist): a KeyError rather than a boolean. */
  lemma SkipLosesFile(log: seq<string>, cmd: string, t0: Chunk, t1: Chunk, t2: Chunk, rest: seq<Answer>)
    requires "file" in Parse(t0) && "file" !in Parse(t2)
    ensures SkipRun(Online(log, [Data(t0), Data(t1), Data(t2)] + rest), cmd) ==
              (Err(KeyError("file")), Online(log + ["status", cmd, "status"], rest))
  {
    Steps3(log, t0, "status", t1, cmd, t2, "status", rest);
  }

  /** Calling pause() twice on a daemon that was playing and obeys: the first
      call pauses and reports it, the second returns false and sends no
      second `player-pause`. */
  lemma PauseTwice(log: seq<string>, rest: seq<Answer>)
    ensures var (first, w1) := PauseRun(Online(log, [Data(StateLine("playing")), Data(""),
                                                         Data(StateLine("paused")), Data(StateLine("paused"))] + rest));
            var (second, w2) := PauseRun(w1);
            first == Ok(true) && second == Ok(false) &&
            w2 == Online(log + ["status", "player-pause", "status", "status"], rest)
  {
    var playing, paused := StateLine("playing"), StateLine("paused");
    assert !IsPaused(playing) by {
      assert playing[8] != paused[8];
    }
    assert IsPaused(paused) by {
      assert paused[..|paused|] == paused;
    }
    var a := [Data(playing), Data(""), Data(paused), Data(paused)] + rest;
    assert a == [Data(playing), Data(""), Data(paused)] + ([Data(paused)] + rest);
    PauseWhenNotPaused(log, playing, "", paused, [Data(paused)] + rest);
    PauseWhenPaused(log + ["status", "player-pause", "status"], paused, rest);
  }

  /** play() on a stopped daemon that obeys: `player-play` is sent and the
      result is true. */
  lemma PlayFromStopped(log: seq<string>, rest: seq<Answer>)
    ensures PlayRun(Online(log, [Data(StateLine("stopped")), Data(""), Data(StateLine("playing"))] + rest)) ==
              (Ok(true), Online(log + ["status", "player-play", "status"], rest))
  {
    var stopped, playing := StateLine("stopped"), StateLine("playing");
    assert IsStopped(stopped) && IsPlaying(playing) by {
      assert stopped[..|stopped|] == stopped;
      assert playing[..|playing|] == playing;
    }
    PausedOrStoppedIsEither(stopped);
    PlayWhenIdle(log, stopped, "", playing, rest);
  }
}
