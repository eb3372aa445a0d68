/**
 * The per-guild session state of the audio cog (`AudioBase` in cogs/audio.py): the list of
 * guilds the audio player is connected in and the list of guilds with a capture (replay or
 * recording) running, and the commands that read and update them.
 */
module Sessions {
  import opened Lists
  import opened Validation
  import opened Tags
  import opened Sources

  /** How an awaited call into the voice transport or the audio engine ended. */
  datatype Effect = Returned | Raised

  /** A finished WAV recording, as bytes. */
  type Clip = seq<bv8>

  /** What `voice_client.replay()` or `voice_client.record()` gave back, or that it raised. */
  datatype Capture = Captured(clip: Clip) | NoClip | CaptureRaised

  datatype ConnectOutcome =
    | ReadingElsewhere     // the text-to-speech cog holds the guild's voice connection
    | AlreadyConnected
    | JoinRaised           // joining the voice channel raised; the error propagates
    | Connected

  datatype DisconnectOutcome =
    | DisconnectNotConnected
    | TeardownRaised       // the forced disconnect raised; the error propagates
    | Disconnected

  /** The guard shared by replay and record start. */
  datatype Gate = NotConnected | RecordingInProgress | Admitted

  datatype CaptureOutcome =
    | CaptureRefused(reason: Gate)
    | CaptureFailed        // the capture gave back nothing
    | CaptureErrored       // the capture raised; the error propagates after clean-up
    | Delivered(clip: Clip)

  datatype PlayOutcome =
    | PlayNotConnected
    | PlayRejected(error: SourceError)
    | SourceRaised         // building the playback source raised
    | VoiceClientGone      // the voice connection vanished before playback started
    | Played(file: PlayFile)

  datatype StopOutcome = StopNotConnected | StopSignalled

  /** How a capture that got past the guard ends, given what the voice client gave back. */
  function CaptureEnd(capture: Capture): (r: CaptureOutcome)
    ensures !r.CaptureRefused?
    ensures r.Delivered? <==> capture.Captured?
    ensures r == CaptureFailed <==> capture == NoClip
    ensures r == CaptureErrored <==> capture == CaptureRaised
    ensures r.Delivered? ==> r.clip == capture.clip
  {
    match capture
    case Captured(clip) => Delivered(clip)
    case NoClip => CaptureFailed
    case CaptureRaised => CaptureErrored
  }

  class AudioCog {
    /** `connecting_guilds`: guilds where the audio player holds the voice connection. */
    var connectingGuilds: seq<GuildId>
    /** `recording_guilds`: guilds with a replay or recording in progress. */
    var recordingGuilds: seq<GuildId>

    /** Each guild is listed at most once in each list. */
    ghost predicate Valid()
      reads this
    {
      NoDuplicates(connectingGuilds) && NoDuplicates(recordingGuilds)
    }

    constructor ()
      ensures Valid()
      ensures connectingGuilds == [] && recordingGuilds == []
    {
      connectingGuilds := [];
      recordingGuilds := [];
    }

    /**
     * `audio`: refused while the text-to-speech cog or this cog already holds the guild;
     * otherwise the guild is listed once the join has returned, and not at all if it raised.
     */
    method Connect(guild: GuildId, readingGuilds: set<GuildId>, join: Effect) returns (r: ConnectOutcome)
      requires Valid()
      modifies this
      ensures Valid()
      ensures r == ReadingElsewhere <==> guild in readingGuilds
      ensures r == AlreadyConnected <==> guild !in readingGuilds && guild in old(connectingGuilds)
      ensures r == JoinRaised <==> guild !in readingGuilds && guild !in old(connectingGuilds) && join == Raised
      ensures connectingGuilds == if r == Connected then old(connectingGuilds) + [guild] else old(connectingGuilds)
      ensures recordingGuilds == old(recordingGuilds)
    {
      if guild in readingGuilds {
        return ReadingElsewhere;
      }
      if guild in connectingGuilds {
        return AlreadyConnected;
      }
      if join == Raised {
        return JoinRaised;
      }
      AppendFreshNoDuplicates(connectingGuilds, guild);
      connectingGuilds := connectingGuilds + [guild];
      r := Connected;
    }

    /**
     * `disconnect`: refused when the guild is not listed; otherwise playback is stopped, the
     * connection torn down and the guild unlisted. A running capture stays listed.
     */
    method Disconnect(guild: GuildId, teardown: Effect) returns (r: DisconnectOutcome)
      requires Valid()
      modifies this
      ensures Valid()
      ensures r == DisconnectNotConnected <==> guild !in old(connectingGuilds)
      ensures r == TeardownRaised <==> guild in old(connectingGuilds) && teardown == Raised
      ensures r == Disconnected ==>
        && connectingGuilds == RemoveFirst(old(connectingGuilds), guild)
        && guild !in connectingGuilds
        && forall g :: g in connectingGuilds <==> g in old(connectingGuilds) && g != guild
      ensures r != Disconnected ==> connectingGuilds == old(connectingGuilds)
      ensures recordingGuilds == old(recordingGuilds)
    {
      if guild !in connectingGuilds {
        return DisconnectNotConnected;
      }
      if teardown == Raised {
        return TeardownRaised;
      }
      RemoveFirstNoDuplicates(connectingGuilds, guild);
      connectingGuilds := RemoveFirst(connectingGuilds, guild);
      r := Disconnected;
    }

    /**
     * `play_audio_file` up to the start of playback. It changes neither list. The cooldown is
     * reset on every refusal except an oversize file, and once playback has ended.
     */
    method PlayAudioFile(guild: GuildId, req: PlayRequest, store: Store, build: Effect, voiceClientPresent: bool)
      returns (r: PlayOutcome, resetCooldown: bool)
      ensures r == PlayNotConnected <==> guild !in connectingGuilds
      ensures r.PlayRejected? <==> guild in connectingGuilds && SelectPlaySource(req, guild, store).Err?
      ensures r.PlayRejected? ==> r.error == SelectPlaySource(req, guild, store).error
      ensures r == VoiceClientGone <==>
        guild in connectingGuilds && SelectPlaySource(req, guild, store).Ok? && build == Returned && !voiceClientPresent
      ensures r == SourceRaised <==>
        guild in connectingGuilds && SelectPlaySource(req, guild, store).Ok? && build == Raised
      ensures r.Played? <==>
        guild in connectingGuilds && SelectPlaySource(req, guild, store).Ok? && build == Returned && voiceClientPresent
      ensures r.Played? ==> r.file == SelectPlaySource(req, guild, store).value
      ensures resetCooldown <==>
        r.PlayNotConnected? || r.Played? || (r.PlayRejected? && PlayResetsCooldown(r.error))
    {
      if guild !in connectingGuilds {
        return PlayNotConnected, true;
      }
      var selected := SelectPlaySource(req, guild, store);
      if selected.Err? {
        return PlayRejected(selected.error), PlayResetsCooldown(selected.error);
      }
      if build == Raised {
        return SourceRaised, false;
      }
      if !voiceClientPresent {
        return VoiceClientGone, false;
      }
      r, resetCooldown := Played(selected.value), true;
    }

    /**
     * Entry of the try/finally bracket of `replay_audio` and `record_start`: refused when the
     * guild is not connected or already capturing; otherwise the guild is listed as capturing.
     */
    method EnterCapture(guild: GuildId) returns (r: Gate)
      requires Valid()
      modifies this
      ensures Valid()
      ensures r == NotConnected <==> guild !in connectingGuilds
      ensures r == RecordingInProgress <==> guild in connectingGuilds && guild in old(recordingGuilds)
      ensures recordingGuilds == if r == Admitted then old(recordingGuilds) + [guild] else old(recordingGuilds)
      ensures connectingGuilds == old(connectingGuilds)
    {
      if guild !in connectingGuilds {
        return NotConnected;
      }
      if guild in recordingGuilds {
        return RecordingInProgress;
      }
      AppendFreshNoDuplicates(recordingGuilds, guild);
      recordingGuilds := recordingGuilds + [guild];
      r := Admitted;
    }

    /** The `finally` of that bracket: `recording_guilds.remove(guild)`. */
    method LeaveCapture(guild: GuildId)
      requires Valid() && guild in recordingGuilds
      modifies this
      ensures Valid()
      ensures recordingGuilds == RemoveFirst(old(recordingGuilds), guild)
      ensures guild !in recordingGuilds
      ensures forall g :: g in recordingGuilds <==> g in old(recordingGuilds) && g != guild
      ensures connectingGuilds == old(connectingGuilds)
    {
      RemoveFirstNoDuplicates(recordingGuilds, guild);
      recordingGuilds := RemoveFirst(recordingGuilds, guild);
    }

    /**
     * The awaited `voice_client.replay()` / `voice_client.record()`. The voice client is not part
     * of this model: what it returns is the parameter `capture`. Its precondition is the state
     * the bracket guarantees while it runs: the capture list is `before` with the guild appended.
     */
    method AwaitCapture(guild: GuildId, capture: Capture, ghost before: seq<GuildId>) returns (c: Capture)
      requires recordingGuilds == before + [guild]
      ensures c == capture
    {
      c := capture;
    }

    /**
     * The bracket as a whole: the voice client is awaited only once the guild has been appended
     * to the capture list, and on every way out both lists are as they were.
     */
    method CaptureBracket(guild: GuildId, capture: Capture) returns (r: CaptureOutcome)
      requires Valid()
      modifies this
      ensures Valid()
      ensures connectingGuilds == old(connectingGuilds) && recordingGuilds == old(recordingGuilds)
      ensures r == CaptureRefused(NotConnected) <==> guild !in connectingGuilds
      ensures r == CaptureRefused(RecordingInProgress) <==> guild in connectingGuilds && guild in recordingGuilds
      ensures r.CaptureRefused? ==> r.reason != Admitted
      ensures !r.CaptureRefused? ==> r == CaptureEnd(capture)
    {
      var gate := EnterCapture(guild);
      if gate != Admitted {
        return CaptureRefused(gate);
      }
      var c := AwaitCapture(guild, capture, old(recordingGuilds));
      r := CaptureEnd(c);
      RemoveFirstOfAppended(old(recordingGuilds), guild);
      LeaveCapture(guild);
    }

    /** `replay_audio`: the cooldown is reset only when the guild is not connected. */
    method Replay(guild: GuildId, capture: Capture) returns (r: CaptureOutcome, resetCooldown: bool)
      requires Valid()
      modifies this
      ensures Valid()
      ensures connectingGuilds == old(connectingGuilds) && recordingGuilds == old(recordingGuilds)
      ensures r == CaptureRefused(NotConnected) <==> guild !in connectingGuilds
      ensures r == CaptureRefused(RecordingInProgress) <==> guild in connectingGuilds && guild in recordingGuilds
      ensures r.CaptureRefused? ==> r.reason != Admitted
      ensures !r.CaptureRefused? ==> r == CaptureEnd(capture)
      ensures resetCooldown <==> r == CaptureRefused(NotConnected)
    {
      r := CaptureBracket(guild, capture);
      resetCooldown := r == CaptureRefused(NotConnected);
    }

    /** `record_start`: the cooldown is reset on either refusal. */
    method RecordStart(guild: GuildId, capture: Capture) returns (r: CaptureOutcome, resetCooldown: bool)
      requires Valid()
      modifies this
      ensures Valid()
      ensures connectingGuilds == old(connectingGuilds) && recordingGuilds == old(recordingGuilds)
      ensures r == CaptureRefused(NotConnected) <==> guild !in connectingGuilds
      ensures r == CaptureRefused(RecordingInProgress) <==> guild in connectingGuilds && guild in recordingGuilds
      ensures r.CaptureRefused? ==> r.reason != Admitted
      ensures !r.CaptureRefused? ==> r == CaptureEnd(capture)
      ensures resetCooldown <==> r.CaptureRefused?
    {
      r := CaptureBracket(guild, capture);
      resetCooldown := r.CaptureRefused?;
    }

    /**
     * `record_stop`: when the guild is connected it signals the running recording to end;
     * it changes neither list.
     */
    method RecordStop(guild: GuildId) returns (r: StopOutcome)
      ensures r == StopSignalled <==> guild in connectingGuilds
    {
      r := if guild in connectingGuilds then StopSignalled else StopNotConnected;
    }
  }

  /**
   * While one capture runs on a guild, a replay and a recording start there are both refused;
   * once it has ended, a replay goes through. A second connect is refused meanwhile too.
   */
  method OverlappingCaptures(guild: GuildId, clip: Clip)
    returns (reconnect: ConnectOutcome, replay: CaptureOutcome, record: CaptureOutcome, later: CaptureOutcome)
    ensures reconnect == AlreadyConnected
    ensures replay == CaptureRefused(RecordingInProgress)
    ensures record == CaptureRefused(RecordingInProgress)
    ensures later == Delivered(clip)
  {
    var cog := new AudioCog();
    var connected := cog.Connect(guild, {}, Returned);
    var gate := cog.EnterCapture(guild);
    reconnect := cog.Connect(guild, {}, Returned);
    var reset: bool;
    replay, reset := cog.Replay(guild, Captured(clip));
    record, reset := cog.RecordStart(guild, Captured(clip));
    cog.LeaveCapture(guild);
    later, reset := cog.Replay(guild, Captured(clip));
  }

  /**
   * Disconnecting leaves a running capture listed: after reconnecting, replay on that guild is
   * refused until the earlier capture has returned.
   */
  method DisconnectDuringCapture(guild: GuildId, clip: Clip)
    returns (left: DisconnectOutcome, back: ConnectOutcome, replay: CaptureOutcome, stop: StopOutcome)
    ensures left == Disconnected
    ensures back == Connected
    ensures replay == CaptureRefused(RecordingInProgress)
    ensures stop == StopSignalled
  {
    var cog := new AudioCog();
    var connected := cog.Connect(guild, {}, Returned);
    var gate := cog.EnterCapture(guild);
    left := cog.Disconnect(guild, Returned);
    back := cog.Connect(guild, {}, Returned);
    var reset: bool;
    replay, reset := cog.Replay(guild, Captured(clip));
    stop := cog.RecordStop(guild);
  }
}
