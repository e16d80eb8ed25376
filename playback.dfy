/** The per-guild queue record (index.mjs:425-434) and the transitions the
    bot applies to it: lazy creation, enqueue, the synchronous part of
    `playNext` forward and back, the success of a fetch, the panel update,
    stop, and the loss of the voice connection on a fatal player error. The audio player and the
    chat platform's objects are opaque handles; only whether they are
    held is modelled. */
module Playback {
  import opened Media

  /** A voice connection to a channel (`joinVoiceChannel`). */
  datatype Connection = Connection(channelId: string)

  /** The player panel message posted in a text channel. */
  datatype PanelMessage = PanelMessage(messageId: string)

  /** The queue record of one guild; `current` is the track being fetched
      or played, `previous` the history, last played last. */
  datatype QueueState = QueueState(
    tracks: seq<Track>,
    previous: seq<Track>,
    current: Option<Track>,
    playing: bool,
    connection: Option<Connection>,
    message: Option<PanelMessage>,
    textChannel: Option<string>)

  /** The record `interactionCreate` creates for a guild it has not seen
      (index.mjs:425-434). */
  function Initial(): (r: QueueState)
    ensures Pool(r) == multiset{} && !r.playing
    ensures r.connection == None && r.message == None && r.textChannel == None
  {
    QueueState([], [], None, false, None, None, None)
  }

  /** Every track the record holds, wherever it sits. */
  function Pool(q: QueueState): multiset<Track> {
    multiset(q.previous) + multiset(OptionSeq(q.current)) + multiset(q.tracks)
  }

  /** What the synchronous part of `playNext` ends with: the queue ran dry
      and playback was torn down, a track must now be fetched, or there was
      nothing to select and the call returned. */
  datatype Selection = TornDown | Fetch(track: Track) | NothingSelected

  /** The synchronous part of `playNext(guildId, isBack)` (index.mjs:303-326).
      A forward call on an empty queue tears playback down; a back call with
      history pops the last played track and pushes the current one back
      onto the front; everything else, a back call without history
      included, shifts the front track and pushes the current one onto the
      history. */
  function Select(q: QueueState, isBack: bool): (r: (QueueState, Selection))
    ensures r.1.Fetch? ==> r.0.current == Some(r.1.track) && r.0.playing == q.playing
    ensures r.1.TornDown? <==> !isBack && q.tracks == []
    ensures r.1.NothingSelected? <==> isBack && q.previous == [] && q.tracks == []
    ensures r.1.NothingSelected? ==> r.0 == q.(previous := q.previous + OptionSeq(q.current))
    ensures r.0.textChannel == q.textChannel
  {
    if !isBack && q.tracks == [] then
      (q.(connection := None, message := None, playing := false), TornDown)
    else if isBack && q.previous != [] then
      var track := q.previous[|q.previous| - 1];
      (q.(previous := q.previous[..|q.previous| - 1],
          tracks := OptionSeq(q.current) + q.tracks,
          current := Some(track)),
       Fetch(track))
    else if q.tracks == [] then
      (q.(previous := q.previous + OptionSeq(q.current)), NothingSelected)
    else
      (q.(tracks := q.tracks[1..],
          previous := q.previous + OptionSeq(q.current),
          current := Some(q.tracks[0])),
       Fetch(q.tracks[0]))
  }

  /** The fetch of the selected track succeeded: it is playing now
      (index.mjs:337-340). */
  function Succeed(q: QueueState): (r: QueueState)
    ensures r.playing && r == q.(playing := true)
  {
    q.(playing := true)
  }

  /** The stop command (index.mjs:453-461, 605-613): queue and history are
      emptied and the connection and the panel released; the current track
      and the `playing` flag are not touched. */
  function Stopped(q: QueueState): (r: QueueState)
    ensures r.tracks == [] && r.previous == [] && r.connection == None && r.message == None
    ensures r.current == q.current && r.playing == q.playing && r.textChannel == q.textChannel
  {
    q.(tracks := [], previous := [], connection := None, message := None)
  }

  /** The queue part of the play command (index.mjs:547, 559-576): the text
      channel is recorded; when resolution found tracks they are appended,
      a voice connection is made if none is held, and `playNext` is due
      when nothing is playing. */
  function Enqueued(q: QueueState, found: seq<Track>, channel: string, voice: Connection): (r: (QueueState, bool))
    ensures r.0.textChannel == Some(channel)
    ensures r.0.tracks == q.tracks + found
    ensures r.0.previous == q.previous && r.0.current == q.current && r.0.playing == q.playing
    ensures r.0.message == q.message
    ensures r.0.connection == if found != [] && q.connection.None? then Some(voice) else q.connection
    ensures r.1 <==> found != [] && !q.playing
  {
    var q1 := q.(textChannel := Some(channel));
    if found == [] then (q1, false)
    else
      var q2 := q1.(tracks := q1.tracks + found);
      var q3 := if q2.connection.None? then q2.(connection := Some(voice)) else q2;
      (q3, !q3.playing)
  }

  /** The record part of the player error handler (index.mjs:360-367): the
      connection is released; the panel message is deleted on the platform
      but the record keeps its handle. */
  function Disconnected(q: QueueState): (r: QueueState)
    ensures r.connection == None && r == q.(connection := None)
  {
    q.(connection := None)
  }

  /** `updatePlayerMessage` (index.mjs:243-294) as it bears on the record.
      A held panel is edited; when there is none, or the edit failed, a new
      one is sent to the recorded text channel, and the handle is replaced
      by what the send returned. `editOk` is whether the edit went through,
      `sent` what the last send attempt returned (`None` when it threw).
      The rendered text is not part of the record. */
  function PanelUpdated(q: QueueState, editOk: bool, sent: Option<PanelMessage>): (r: QueueState)
    ensures r == q.(message := r.message)
    ensures q.message.Some? && editOk ==> r == q
    ensures q.textChannel.None? || sent.None? ==> r == q
    ensures (q.message.None? || !editOk) && q.textChannel.Some? && sent.Some? ==> r.message == sent
  {
    if q.message.Some? && editOk then q
    else if q.textChannel.Some? && sent.Some? then q.(message := sent)
    else q
  }

  /** The connection error listener (index.mjs:369-376) is attached only
      when the record holds a connection at the moment `setupPlayerEvents`
      runs. */
  predicate ConnectionListened(created: QueueState) {
    created.connection.Some?
  }

  /** As written, `setupPlayerEvents` runs once, on the fresh record
      (index.mjs:435), which holds no connection; the connection the play
      command makes later (index.mjs:568-573) therefore never gets the
      listener, and a connection error does not tear the guild down. */
  lemma ConnectionErrorsUnheard(found: seq<Track>, channel: string, voice: Connection)
    requires found != []
    ensures !ConnectionListened(Initial())
    ensures Enqueued(Initial(), found, channel, voice).0.connection == Some(voice)
  {
  }

  /** A panel posted after the play command is the one the record holds,
      and a stop or a teardown lets go of it again. */
  lemma PanelPostedThenReleased(q: QueueState, found: seq<Track>, channel: string, voice: Connection, m: PanelMessage)
    ensures var q1 := PanelUpdated(Enqueued(q, found, channel, voice).0, false, Some(m));
      q1.message == Some(m)
      && Stopped(q1).message == None
      && (q1.tracks == [] ==> Select(q1, false).0.message == None)
  {
  }

  /** A forward call with queued tracks moves the front track to `current`
      and the old current track, if any, to the end of the history; no
      track is lost or invented. */
  lemma ForwardAdvance(q: QueueState, isBack: bool)
    requires q.tracks != []
    requires !isBack || q.previous == []
    ensures var (r, sel) := Select(q, isBack);
      sel == Fetch(q.tracks[0]) && r.current == Some(q.tracks[0])
      && r.tracks == q.tracks[1..] && r.previous == q.previous + OptionSeq(q.current)
      && Pool(r) == Pool(q)
  {
    var r := Select(q, isBack).0;
    assert q.tracks == [q.tracks[0]] + q.tracks[1..];
    assert multiset(r.previous) == multiset(q.previous) + multiset(OptionSeq(q.current));
  }

  /** A back call with history moves the last played track to `current` and
      the old current track, if any, to the front of the queue; no track is
      lost or invented. */
  lemma BackAdvance(q: QueueState)
    requires q.previous != []
    ensures var (r, sel) := Select(q, true);
      var last := q.previous[|q.previous| - 1];
      sel == Fetch(last) && r.current == Some(last)
      && r.previous == q.previous[..|q.previous| - 1] && r.tracks == OptionSeq(q.current) + q.tracks
      && Pool(r) == Pool(q)
  {
    var n := |q.previous|;
    assert q.previous == q.previous[..n - 1] + [q.previous[n - 1]];
  }

  /** Forward then back restores the record when a track was current. */
  lemma BackUndoesForward(q: QueueState)
    requires q.current.Some? && q.tracks != []
    ensures Select(Select(q, false).0, true).0 == q
  {
    var r := Select(q, false).0;
    assert r.previous[..|r.previous| - 1] == q.previous;
    assert [q.tracks[0]] + q.tracks[1..] == q.tracks;
  }

  /** Back then forward restores the record when a track was current. */
  lemma ForwardUndoesBack(q: QueueState)
    requires q.current.Some? && q.previous != []
    ensures Select(Select(q, true).0, false).0 == q
  {
    var n := |q.previous|;
    var r := Select(q, true).0;
    assert r.tracks == [q.current.value] + q.tracks;
    assert r.tracks[1..] == q.tracks;
    assert q.previous[..n - 1] + [q.previous[n - 1]] == q.previous;
  }

  /** A forward call on an empty queue releases the connection and the
      panel and stops playing, and keeps the history and the current track. */
  lemma ExhaustedQueueTearsDown(q: QueueState)
    requires q.tracks == []
    ensures var (r, sel) := Select(q, false);
      sel == TornDown && !r.playing && r.connection == None && r.message == None
      && r.tracks == [] && r.previous == q.previous && r.current == q.current
      && Pool(r) == Pool(q)
  {
  }

  /** A back call without history on an empty queue selects nothing, yet
      still pushes the current track onto the history, which then holds it
      twice over (once there and once as `current`). */
  lemma BackWithoutHistoryDuplicatesCurrent(t: Track)
    ensures var q := Initial().(current := Some(t));
      var (r, sel) := Select(q, true);
      sel == NothingSelected && r.current == Some(t) && r.previous == [t]
      && Pool(r) == Pool(q) + multiset{t}
  {
  }

  /** When the fetch of a selected track fails the forward call is repeated
      (index.mjs:332-335): the failed track goes to the history and the next
      queued one is selected, or playback is torn down with the failed
      track left as `current`. The failed track is not fetched again. */
  lemma FailedTrackIsSkipped(q: QueueState, isBack: bool)
    requires Select(q, isBack).1.Fetch?
    ensures var (q1, sel) := Select(q, isBack);
      var (q2, sel2) := Select(q1, false);
      (q1.tracks != [] ==>
         q2.previous == q1.previous + [sel.track] && sel2 == Fetch(q1.tracks[0])
         && q2.tracks == q1.tracks[1..])
      && (q1.tracks == [] ==> sel2 == TornDown && q2.current == Some(sel.track) && !q2.playing)
  {
  }

  /** Stopping empties queue and history but keeps the current track and
      the `playing` flag: a play command right after a stop made during
      playback does not call `playNext` itself. */
  lemma StopKeepsPlaying(q: QueueState, found: seq<Track>, channel: string, voice: Connection)
    requires q.playing && found != []
    ensures Stopped(q).playing
    ensures var (r, due) := Enqueued(Stopped(q), found, channel, voice);
      !due && r.tracks == found && r.connection == Some(voice)
  {
  }

  /** From a fresh record, a play command of two tracks starts the first;
      skipping moves to the second; back returns to the first with the
      second queued again; a stop then keeps only the current track. */
  lemma PlaySkipBackStop(a: Track, b: Track, ch: string, v: Connection)
    ensures var (q1, due) := Enqueued(Initial(), [a, b], ch, v);
      var (q2, s2) := Select(q1, false);
      var q3 := Succeed(q2);
      var (q4, s4) := Select(q3, false);
      var (q5, s5) := Select(q4, true);
      var q6 := Stopped(q5);
      due && s2 == Fetch(a) && q3.tracks == [b] && q3.playing
      && s4 == Fetch(b) && q4.previous == [a] && q4.tracks == []
      && s5 == Fetch(a) && q5.tracks == [b] && q5.previous == []
      && q6.current == Some(a) && q6.tracks == [] && q6.playing && q6.connection == None
  {
    var (q1, due) := Enqueued(Initial(), [a, b], ch, v);
    assert q1.tracks == [a, b];
    var q3 := Succeed(Select(q1, false).0);
    assert q3.tracks == [b];
  }

  /** The queue record as the source keeps it: an object whose fields the
      handlers update in place. */
  class GuildQueue {
    var tracks: seq<Track>
    var previous: seq<Track>
    var current: Option<Track>
    var playing: bool
    var connection: Option<Connection>
    var message: Option<PanelMessage>
    var textChannel: Option<string>

    function State(): QueueState
      reads this
    {
      QueueState(tracks, previous, current, playing, connection, message, textChannel)
    }

    /** Lazy creation (index.mjs:421-436). */
    constructor ()
      ensures State() == Initial()
    {
      tracks, previous, current := [], [], None;
      playing, connection, message, textChannel := false, None, None, None;
    }

    /** The synchronous part of `playNext`, with `shift`, `pop`, `push` and
        `unshift` on the record's arrays. */
    method SelectNext(isBack: bool) returns (sel: Selection)
      modifies this
      ensures (State(), sel) == Select(old(State()), isBack)
    {
      if !isBack && |tracks| == 0 {
        connection := None;
        message := None;
        playing := false;
        return TornDown;
      }
      var track: Track;
      if isBack && |previous| > 0 {
        track := previous[|previous| - 1];
        previous := previous[..|previous| - 1];
        if current.Some? {
          tracks := [current.value] + tracks;
        }
        assert tracks == OptionSeq(old(current)) + old(tracks);
        assert previous == old(previous)[..|old(previous)| - 1];
      } else {
        if current.Some? {
          previous := previous + [current.value];
        }
        assert previous == old(previous) + OptionSeq(old(current));
        if |tracks| == 0 {
          return NothingSelected;
        }
        track := tracks[0];
        tracks := tracks[1..];
        assert tracks == old(tracks)[1..] && track == old(tracks)[0];
      }
      current := Some(track);
      sel := Fetch(track);
    }

    /** `queue.playing = true` once the fetch succeeded. */
    method MarkPlaying()
      modifies this
      ensures State() == Succeed(old(State()))
    {
      playing := true;
    }

    /** The record part of `updatePlayerMessage`. */
    method UpdatePanel(editOk: bool, sent: Option<PanelMessage>)
      modifies this
      ensures State() == PanelUpdated(old(State()), editOk, sent)
    {
      if message.Some? && editOk {
        return;
      }
      if textChannel.Some? && sent.Some? {
        message := sent;
      }
    }

    /** The record part of the stop command. */
    method Stop()
      modifies this
      ensures State() == Stopped(old(State()))
    {
      tracks := [];
      previous := [];
      connection := None;
      message := None;
    }

    /** The record part of the play command; `due` says whether `playNext`
        must be called. */
    method Enqueue(found: seq<Track>, channel: string, voice: Connection) returns (due: bool)
      modifies this
      ensures (State(), due) == Enqueued(old(State()), found, channel, voice)
    {
      textChannel := Some(channel);
      if |found| == 0 {
        return false;
      }
      tracks := tracks + found;
      if connection.None? {
        connection := Some(voice);
      }
      due := !playing;
    }

    /** The record part of the player error handler. */
    method Disconnect()
      modifies this
      ensures State() == Disconnected(old(State()))
    {
      connection := None;
    }
  }
}
