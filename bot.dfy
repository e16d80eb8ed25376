/** The bot's global state and the handlers that tie the pieces together:
    the registry of per-guild queues (index.mjs:51, 421-436), `playNext`
    (index.mjs:299-351), `clearGuildCache` (index.mjs:164-185), the play,
    skip, back and stop commands (index.mjs:450-481, 536-633), the panel
    update (index.mjs:243-294), the player error handler (index.mjs:360-367)
    and the hourly sweep. Everything asynchronous is cut into atomic steps:
    a fetch started by `playNext` is finished by a later `Fetched` or
    `FetchFailed` step, a running download by a later `DownloadFinished`
    step, a panel update by a later `PanelRefreshed` step. */
module Bot {
  import opened Media
  import R = Resolver
  import D = Downloads
  import C = Cache
  import P = Playback

  /** The cache files a guild's eviction spares, for the queue it has (or
      none) when the eviction runs. */
  function KeepOf(q: Option<P.QueueState>): (r: set<string>)
    ensures q.None? ==> r == {}
    ensures q.Some? ==> r == C.KeepSet(q.value.current, q.value.tracks)
  {
    if q.Some? then C.KeepSet(q.value.current, q.value.tracks) else {}
  }

  /** After a teardown or a stop the queue is empty, so the eviction spares
      the current track's file alone, or nothing. */
  lemma EmptyQueueKeepsOnlyCurrent(q: P.QueueState)
    requires q.tracks == []
    ensures KeepOf(Some(q)) == if q.current.Some? then {CacheFileName(q.current.value.id)} else {}
  {
  }

  /** What a handler can change for one guild: its record, the slot state
      and the cache listing. */
  datatype World = World(queue: P.QueueState, slots: D.SlotState, files: C.Listing)

  /** `clearGuildCache(g)` with the record `w.queue` registered, the
      directory present or not. */
  function Cleared(g: GuildId, w: World, present: bool): (r: World)
    ensures r.queue == w.queue
    ensures !present ==> r == w
    ensures present ==>
      r.slots == D.DropGuildStep(w.slots, g) && r.files == C.Retained(w.files, KeepOf(Some(w.queue)))
  {
    if present then World(w.queue, D.DropGuildStep(w.slots, g), C.Retained(w.files, KeepOf(Some(w.queue))))
    else w
  }

  /** `playNext(g, isBack)` up to the download request, for a guild with a
      record: the selection, then the cache clearing after a teardown or
      the request for the selected track, `onDisk` saying whether its file
      exists. */
  function PlayNextStep(g: GuildId, w: World, present: bool, isBack: bool, onDisk: bool): (r: (World, P.Selection, Option<D.Admission>))
    ensures (r.0.queue, r.1) == P.Select(w.queue, isBack)
    ensures r.1.Fetch? ==>
      r.2.Some? && (r.2.value, r.0.slots) == D.Admit(w.slots, D.TrackJob(g, r.1.track), onDisk)
      && r.0.files == w.files
    ensures r.1.TornDown? ==> r.2 == None && r.0 == Cleared(g, w.(queue := r.0.queue), present)
    ensures r.1.NothingSelected? ==> r.2 == None && r.0 == w.(queue := r.0.queue)
  {
    var (q, s) := P.Select(w.queue, isBack);
    match s
    case Fetch(t) =>
      var (a, slots) := D.Admit(w.slots, D.TrackJob(g, t), onDisk);
      (World(q, slots, w.files), s, Some(a))
    case TornDown => (Cleared(g, w.(queue := q), present), s, None)
    case NothingSelected => (w.(queue := q), s, None)
  }

  /** `playNext` keeps the slot cap, and it deletes cache files only after
      a teardown, and then only `VIDEOID-` files outside the keep set. */
  lemma PlayNextKeepsCapAndFiles(g: GuildId, w: World, present: bool, isBack: bool, onDisk: bool)
    requires D.WithinCap(w.slots)
    ensures var (r, s, a) := PlayNextStep(g, w, present, isBack, onDisk);
      D.WithinCap(r.slots)
      && r.files.Keys <= w.files.Keys
      && (forall f :: f in w.files && f !in r.files ==> s.TornDown? && HasPrefix(f, CachePrefix))
  {
  }

  class Bot {
    /** `queues`: guild id to its queue record. */
    var queues: map<GuildId, P.GuildQueue>
    /** `activeDownloads` and `pendingDownloads`. */
    const slots: D.DownloadSlots
    /** The `cache` directory. */
    const cache: C.CacheDir

    /** The slot cap holds and no two guilds share a record. */
    ghost predicate Valid()
      reads this, slots
    {
      slots.Valid()
      && forall g, h :: g in queues && h in queues && g != h ==> queues[g] != queues[h]
    }

    /** The record of guild `g`, if the registry holds one. */
    function QueueOf(g: GuildId): Option<P.QueueState>
      reads this, queues.Values
    {
      if g in queues then Some(queues[g].State()) else None
    }

    /** What the handlers can change for guild `g`, which has a record. */
    function WorldOf(g: GuildId): World
      requires g in queues
      reads this, queues.Values, slots, cache
    {
      World(queues[g].State(), slots.State(), cache.files)
    }

    constructor (cache: C.CacheDir)
      ensures Valid() && queues == map[] && this.cache == cache
      ensures slots.State() == D.InitialSlots()
    {
      queues := map[];
      slots := new D.DownloadSlots();
      this.cache := cache;
    }

    /** The lazy creation at the start of every interaction
        (index.mjs:421-436). */
    method EnsureQueue(g: GuildId) returns (q: P.GuildQueue)
      requires Valid()
      modifies this
      ensures Valid() && g in queues && q == queues[g]
      ensures g in old(queues) ==> queues == old(queues)
      ensures g !in old(queues) ==> fresh(q) && queues == old(queues)[g := q] && q.State() == P.Initial()
    {
      if g in queues {
        return queues[g];
      }
      q := new P.GuildQueue();
      queues := queues[g := q];
    }

    /** `clearGuildCache(g)`: nothing when the directory is missing;
        otherwise the guild's deferred downloads are dropped and every
        `VIDEOID-` file is deleted except those of the guild's current track
        and next three queued tracks. */
    method ClearGuildCache(g: GuildId)
      requires Valid()
      modifies slots, cache
      ensures Valid() && cache.present == old(cache.present)
      ensures !cache.present ==> slots.State() == old(slots.State()) && cache.files == old(cache.files)
      ensures cache.present ==>
        slots.State() == D.DropGuildStep(old(slots.State()), g)
        && cache.files == C.Retained(old(cache.files), KeepOf(QueueOf(g)))
    {
      if !cache.present {
        return;
      }
      slots.DropGuild(g);
      var keep: set<string> := {};
      if g in queues {
        var q := queues[g];
        keep := C.KeepSet(q.current, q.tracks);
      }
      cache.EvictExcept(keep);
    }

    /** `playNext(g, isBack)` up to the download request: nothing without a
        record; otherwise as `PlayNextStep`. */
    method PlayNext(g: GuildId, isBack: bool, onDisk: bool) returns (sel: Option<P.Selection>, admission: Option<D.Admission>)
      requires Valid()
      modifies slots, cache, if g in queues then {queues[g]} else {}
      ensures Valid() && cache.present == old(cache.present)
      ensures g !in queues ==>
        sel == None && admission == None
        && slots.State() == old(slots.State()) && cache.files == old(cache.files)
      ensures g in queues ==>
        sel.Some? && (WorldOf(g), sel.value, admission) == PlayNextStep(g, old(WorldOf(g)), cache.present, isBack, onDisk)
    {
      sel, admission := None, None;
      if g !in queues {
        return;
      }
      var q := queues[g];
      var s := q.SelectNext(isBack);
      sel := Some(s);
      match s
      case TornDown =>
        ClearGuildCache(g);
      case Fetch(track) =>
        var a := slots.Request(D.TrackJob(g, track), onDisk);
        admission := Some(a);
      case NothingSelected =>
    }

    /** The fetch of the current track succeeded (index.mjs:337-348): the
        guild is playing and the next three queued tracks are requested,
        `onDisk[i]` saying whether the i-th one's file exists. */
    method Fetched(g: GuildId, onDisk: seq<bool>) returns (admissions: seq<D.Admission>)
      requires Valid()
      requires g in queues ==> |onDisk| == |C.Upcoming(queues[g].tracks)|
      modifies slots, if g in queues then {queues[g]} else {}
      ensures Valid()
      ensures g !in queues ==> admissions == [] && slots.State() == old(slots.State())
      ensures g in queues ==>
        var ts := C.Upcoming(old(queues[g].tracks));
        queues[g].State() == P.Succeed(old(queues[g].State()))
        && (admissions, slots.State())
           == D.AdmitAll(old(slots.State()), seq(|ts|, i requires 0 <= i < |ts| => D.TrackJob(g, ts[i])), onDisk)
    {
      if g !in queues {
        return [];
      }
      var q := queues[g];
      q.MarkPlaying();
      admissions := slots.Prefetch(g, C.Upcoming(q.tracks), onDisk);
    }

    /** The panel update started after a successful fetch (index.mjs:342)
        has finished: `editOk` and `sent` are what the platform answered.
        A guild without a record is left alone. */
    method PanelRefreshed(g: GuildId, editOk: bool, sent: Option<P.PanelMessage>)
      requires Valid()
      modifies if g in queues then {queues[g]} else {}
      ensures Valid()
      ensures g in queues ==> queues[g].State() == P.PanelUpdated(old(queues[g].State()), editOk, sent)
    {
      if g in queues {
        queues[g].UpdatePanel(editOk, sent);
      }
    }

    /** The fetch of the current track failed (index.mjs:332-335): the
        forward call is repeated. */
    method FetchFailed(g: GuildId, onDisk: bool) returns (sel: Option<P.Selection>, admission: Option<D.Admission>)
      requires Valid()
      modifies slots, cache, if g in queues then {queues[g]} else {}
      ensures Valid() && cache.present == old(cache.present)
      ensures g !in queues ==>
        sel == None && admission == None
        && slots.State() == old(slots.State()) && cache.files == old(cache.files)
      ensures g in queues ==>
        sel.Some? && (WorldOf(g), sel.value, admission) == PlayNextStep(g, old(WorldOf(g)), cache.present, false, onDisk)
    {
      sel, admission := PlayNext(g, false, onDisk);
    }

    /** A running download of guild `g` ended (index.mjs:108-124). */
    method DownloadFinished(g: GuildId, exit: D.Exit) returns (success: bool, next: Option<D.Job>)
      requires Valid() && slots.active > 0
      modifies slots
      ensures Valid()
      ensures (slots.State(), next) == D.CompleteStep(old(slots.State()), g)
      ensures success == D.Succeeded(exit)
    {
      success, next := slots.Complete(g, exit);
    }

    /** The play command (index.mjs:536-579): the input is resolved, the
        tracks found are queued, and `playNext` runs when nothing plays.
        `added` is the count the reply reports, zero for the error reply. */
    method Play(g: GuildId, input: string, run: R.ToolRun, channel: string, voice: P.Connection, onDisk: bool)
      returns (added: nat, sel: Option<P.Selection>)
      requires Valid()
      modifies this, slots, cache, if g in queues then {queues[g]} else {}
      ensures Valid() && g in queues && cache.present == old(cache.present)
      ensures g in old(queues) ==> queues == old(queues)
      ensures g !in old(queues) ==> fresh(queues[g]) && queues == old(queues)[g := queues[g]]
      ensures added == |R.Resolution(input, run)|
      ensures var w0 := World(if g in old(queues) then old(queues[g].State()) else P.Initial(),
                              old(slots.State()), old(cache.files));
        var (q1, due) := P.Enqueued(w0.queue, R.Resolution(input, run), channel, voice);
        (due ==> var (w, s, a) := PlayNextStep(g, w0.(queue := q1), cache.present, false, onDisk);
                 WorldOf(g) == w && sel == Some(s))
        && (!due ==> sel == None && WorldOf(g) == w0.(queue := q1))
    {
      var q := EnsureQueue(g);
      ghost var w0 := WorldOf(g);
      var found := R.Resolve(input, run);
      var due := q.Enqueue(found, channel, voice);
      ghost var w1 := WorldOf(g);
      assert w1 == w0.(queue := P.Enqueued(w0.queue, found, channel, voice).0);
      added := |found|;
      sel := None;
      if due {
        var adm;
        sel, adm := PlayNext(g, false, onDisk);
        assert (WorldOf(g), sel.value, adm) == PlayNextStep(g, w1, cache.present, false, onDisk);
      }
    }

    /** The skip command and button (index.mjs:450-452, 597-604). */
    method Skip(g: GuildId, onDisk: bool) returns (sel: Option<P.Selection>)
      requires Valid()
      modifies this, slots, cache, if g in queues then {queues[g]} else {}
      ensures Valid() && g in queues && cache.present == old(cache.present)
      ensures g in old(queues) ==> queues == old(queues)
      ensures g !in old(queues) ==> fresh(queues[g]) && queues == old(queues)[g := queues[g]]
      ensures var w0 := World(if g in old(queues) then old(queues[g].State()) else P.Initial(),
                              old(slots.State()), old(cache.files));
        var (w, s, a) := PlayNextStep(g, w0, cache.present, false, onDisk);
        WorldOf(g) == w && sel == Some(s)
    {
      var q := EnsureQueue(g);
      var adm;
      sel, adm := PlayNext(g, false, onDisk);
    }

    /** The back command and button (index.mjs:468-481, 620-633): a back
        call only when there is history; `went` is false for the
        "no previous track" reply. */
    method Back(g: GuildId, onDisk: bool) returns (went: bool, sel: Option<P.Selection>)
      requires Valid()
      modifies this, slots, cache, if g in queues then {queues[g]} else {}
      ensures Valid() && g in queues && cache.present == old(cache.present)
      ensures g in old(queues) ==> queues == old(queues)
      ensures g !in old(queues) ==> fresh(queues[g]) && queues == old(queues)[g := queues[g]]
      ensures var w0 := World(if g in old(queues) then old(queues[g].State()) else P.Initial(),
                              old(slots.State()), old(cache.files));
        (went <==> w0.queue.previous != [])
        && (went ==> var (w, s, a) := PlayNextStep(g, w0, cache.present, true, onDisk);
                     WorldOf(g) == w && sel == Some(s))
        && (!went ==> sel == None && WorldOf(g) == w0)
    {
      var q := EnsureQueue(g);
      sel := None;
      went := |q.previous| > 0;
      if went {
        var adm;
        sel, adm := PlayNext(g, true, onDisk);
      }
    }

    /** The stop command and button (index.mjs:453-461, 605-613): the record
        is stopped, then the guild's cache cleared, which now spares only the
        current track's file. */
    method Stop(g: GuildId)
      requires Valid()
      modifies this, slots, cache, if g in queues then {queues[g]} else {}
      ensures Valid() && g in queues && cache.present == old(cache.present)
      ensures g in old(queues) ==> queues == old(queues)
      ensures g !in old(queues) ==> fresh(queues[g]) && queues == old(queues)[g := queues[g]]
      ensures var w0 := World(if g in old(queues) then old(queues[g].State()) else P.Initial(),
                              old(slots.State()), old(cache.files));
        WorldOf(g) == Cleared(g, w0.(queue := P.Stopped(w0.queue)), cache.present)
    {
      var q := EnsureQueue(g);
      q.Stop();
      ClearGuildCache(g);
    }

    /** The player error handler of guild `g` (index.mjs:360-367): the
        connection is released, the guild's cache cleared while its record
        is still registered, and the record removed. The connection error
        handler (index.mjs:369-376) has the same body but is never attached
        (`Playback.ConnectionErrorsUnheard`); were it attached, this step
        would model it too. */
    method FatalError(g: GuildId)
      requires Valid()
      modifies this, slots, cache, if g in queues then {queues[g]} else {}
      ensures Valid() && g !in queues && queues == old(queues) - {g}
      ensures cache.present == old(cache.present)
      ensures cache.present ==>
        slots.State() == D.DropGuildStep(old(slots.State()), g)
        && cache.files == C.Retained(old(cache.files), KeepOf(old(QueueOf(g))))
      ensures !cache.present ==> slots.State() == old(slots.State()) && cache.files == old(cache.files)
      ensures g in old(queues) ==> old(queues[g]).State() == P.Disconnected(old(queues[g].State()))
    {
      if g in queues {
        queues[g].Disconnect();
      }
      ClearGuildCache(g);
      queues := queues - {g};
    }

    /** One run of the hourly sweep at time `now` (index.mjs:150-160). */
    method HourlySweep(now: real)
      modifies cache
      ensures cache.present == old(cache.present)
      ensures cache.files == if cache.present then C.Swept(old(cache.files), now) else old(cache.files)
    {
      cache.Sweep(now);
    }
  }
}
