/** The download slot coordinator (index.mjs:52-54, 88-143): a global counter
    of running yt-dlp processes capped at `MAX_PARALLEL_DOWNLOADS`, and per
    guild a FIFO of deferred starts. The process itself and the file system
    are inputs: whether the output file exists before a request, and how the
    process ended. */
module Downloads {
  import opened Media

  /** `MAX_PARALLEL_DOWNLOADS` (index.mjs:52). */
  const MaxParallelDownloads: nat := 1

  /** One `downloadAudio` request: the guild that asked, the URL handed to
      yt-dlp and the cache file it must produce. A deferred start in the
      source is a closure over exactly these three values. */
  datatype Job = Job(guild: GuildId, url: string, file: string)

  /** The job that fetches a track for a guild (index.mjs:328-331, 346-347). */
  function TrackJob(g: GuildId, t: Track): (j: Job)
    ensures j.guild == g && j.url == t.url && j.file == CacheFileName(t.id)
  {
    Job(g, t.url, CacheFileName(t.id))
  }

  /** `activeDownloads` and `pendingDownloads`. The counter is a plain
      number in the source and nothing keeps it from going below zero. */
  datatype SlotState = SlotState(active: int, pending: map<GuildId, seq<Job>>)

  /** The state at start-up. */
  function InitialSlots(): SlotState {
    SlotState(0, map[])
  }

  /** A guild's FIFO; a guild without an entry has none waiting. */
  function Fifo(s: SlotState, g: GuildId): seq<Job> {
    if g in s.pending then s.pending[g] else []
  }

  /** What became of a request. */
  datatype Admission = CacheHit | Started | Deferred

  /** The synchronous part of `downloadAudio`: an existing output file
      resolves at once; otherwise the job starts when a slot is free and is
      appended to its guild's FIFO when none is. */
  function Admit(s: SlotState, job: Job, onDisk: bool): (r: (Admission, SlotState))
    ensures onDisk ==> r == (CacheHit, s)
    ensures !onDisk && s.active < MaxParallelDownloads ==>
      r.0 == Started && r.1 == SlotState(s.active + 1, s.pending)
    ensures !onDisk && s.active >= MaxParallelDownloads ==>
      r.0 == Deferred && r.1.active == s.active
      && r.1.pending.Keys == s.pending.Keys + {job.guild}
      && Fifo(r.1, job.guild) == Fifo(s, job.guild) + [job]
      && forall h :: h != job.guild && h in s.pending ==> r.1.pending[h] == s.pending[h]
  {
    if onDisk then (CacheHit, s)
    else if s.active < MaxParallelDownloads then (Started, s.(active := s.active + 1))
    else (Deferred, s.(pending := s.pending[job.guild := Fifo(s, job.guild) + [job]]))
  }

  /** `processQueue(guildId)`: start the front of that one guild's FIFO when
      a slot is free. The emptied FIFO stays in the map. */
  function ProcessQueueStep(s: SlotState, g: GuildId): (r: (SlotState, Option<Job>))
    ensures r.1.Some? <==> Fifo(s, g) != [] && s.active < MaxParallelDownloads
    ensures r.1.Some? ==>
      r.1.value == Fifo(s, g)[0] && r.0.active == s.active + 1
      && r.0.pending == s.pending[g := Fifo(s, g)[1..]]
    ensures r.1.None? ==> r.0 == s
  {
    if g in s.pending && |s.pending[g]| > 0 && s.active < MaxParallelDownloads then
      (SlotState(s.active + 1, s.pending[g := s.pending[g][1..]]), Some(s.pending[g][0]))
    else
      (s, None)
  }

  /** The `close` and `error` handlers of a download of guild `g`
      (index.mjs:108-124), each of which releases the slot and then runs
      `processQueue(g)`: the counter ends one lower, or unchanged when a
      deferred job of `g` took the slot, and only `g`'s FIFO can shrink. */
  function CompleteStep(s: SlotState, g: GuildId): (r: (SlotState, Option<Job>))
    ensures r.0.active == if r.1.Some? then s.active else s.active - 1
    ensures r.1.Some? <==> Fifo(s, g) != [] && s.active - 1 < MaxParallelDownloads
    ensures r.1.Some? ==> r.1.value == Fifo(s, g)[0] && Fifo(r.0, g) == Fifo(s, g)[1..]
    ensures forall h :: h != g ==> Fifo(r.0, h) == Fifo(s, h)
  {
    ProcessQueueStep(s.(active := s.active - 1), g)
  }

  /** How a running yt-dlp process ended: it closed, after which the output
      file was or was not there, or it could not be spawned. */
  datatype Exit = Closed(fileExists: bool) | SpawnFailed

  /** The promise resolves exactly when the process closed and left the file
      behind (index.mjs:112-123). */
  predicate Succeeded(e: Exit) {
    e.Closed? && e.fileExists
  }

  /** `clearGuildCache`'s first step (index.mjs:166-169): the guild's
      deferred starts are dropped, their promises never settled. */
  function DropGuildStep(s: SlotState, g: GuildId): (r: SlotState)
    ensures r.active == s.active && g !in r.pending && Fifo(r, g) == []
    ensures forall h :: h != g ==> Fifo(r, h) == Fifo(s, h)
  {
    s.(pending := s.pending - {g})
  }

  /** The cap: never more than `MAX_PARALLEL_DOWNLOADS` processes at once,
      and the counter counts processes, so it is never negative. */
  predicate WithinCap(s: SlotState) {
    0 <= s.active <= MaxParallelDownloads
  }

  /** Every step keeps the cap, so `activeDownloads` never exceeds it. */
  lemma StepsKeepCap(s: SlotState, job: Job, onDisk: bool, g: GuildId)
    requires WithinCap(s)
    ensures WithinCap(Admit(s, job, onDisk).1)
    ensures s.active > 0 ==> WithinCap(CompleteStep(s, g).0)
    ensures WithinCap(DropGuildStep(s, g))
  {
  }

  /** A completion starts at most one deferred job, and only the front of
      the finishing download's own guild; every other FIFO is untouched. */
  lemma CompleteStartsOwnFront(s: SlotState, g: GuildId)
    requires WithinCap(s) && s.active > 0
    ensures var (t, next) := CompleteStep(s, g);
      (next.Some? <==> Fifo(s, g) != [])
      && (next.Some? ==> next.value == Fifo(s, g)[0] && t.active == s.active
                         && Fifo(t, g) == Fifo(s, g)[1..])
      && (next.None? ==> t.active == s.active - 1 && t.pending == s.pending)
      && forall h :: h != g ==> Fifo(t, h) == Fifo(s, h)
  {
  }

  /** Each FIFO holds only its own guild's jobs. */
  ghost predicate FifosOwned(s: SlotState) {
    forall h, i :: h in s.pending && 0 <= i < |s.pending[h]| ==> s.pending[h][i].guild == h
  }

  /** Every step keeps the FIFOs owned by their guilds. */
  lemma StepsKeepFifosOwned(s: SlotState, job: Job, onDisk: bool, g: GuildId)
    requires FifosOwned(s)
    ensures FifosOwned(Admit(s, job, onDisk).1)
    ensures s.active > 0 ==> FifosOwned(CompleteStep(s, g).0)
    ensures FifosOwned(DropGuildStep(s, g))
  {
    if !onDisk && s.active >= MaxParallelDownloads {
      var t := Admit(s, job, onDisk).1;
      forall h, i | h in t.pending && 0 <= i < |t.pending[h]|
        ensures t.pending[h][i].guild == h
      {
        if h == job.guild {
          assert t.pending[h] == Fifo(s, h) + [job];
        }
      }
    }
    if s.active > 0 {
      var t := CompleteStep(s, g).0;
      forall h, i | h in t.pending && 0 <= i < |t.pending[h]|
        ensures t.pending[h][i].guild == h
      {
        if h == g && Fifo(s, g) != [] && s.active - 1 < MaxParallelDownloads {
          assert t.pending[h][i] == s.pending[g][i + 1];
        }
      }
    }
  }

  /** Once a guild's deferred starts are dropped, no completion of any guild
      starts one of that guild's jobs until it asks again: the dropped
      requests are never carried out. */
  lemma DroppedJobsNeverStart(s: SlotState, g: GuildId, h: GuildId)
    requires FifosOwned(s)
    requires s.active > 0
    ensures var next := CompleteStep(DropGuildStep(s, g), h).1;
      next.Some? ==> next.value.guild == h != g
  {
    var t := DropGuildStep(s, g);
    StepsKeepFifosOwned(s, Job(g, "", ""), true, g);
    var next := CompleteStep(t, h).1;
    if next.Some? {
      assert h in t.pending && next.value == t.pending[h][0];
    }
  }

  /** The idle-wait freedom the coordinator is meant to have: whenever a
      slot is free, no guild has a deferred start waiting. */
  ghost predicate NoIdleWait(s: SlotState) {
    s.active < MaxParallelDownloads ==> forall h :: h in s.pending ==> s.pending[h] == []
  }

  /** As written, a completion only looks at its own guild's FIFO, so a
      start deferred for another guild waits while the slot stands free:
      guild `b` starts a download, guild `a` asks while it runs, `b`'s
      download finishes. */
  lemma CompleteStallsOtherGuild(a: GuildId, b: GuildId, ja: Job, jb: Job)
    requires a != b && ja.guild == a && jb.guild == b
    ensures var s1 := Admit(InitialSlots(), jb, false).1;
      var s2 := Admit(s1, ja, false).1;
      var (s3, next) := CompleteStep(s2, b);
      s2.active == 1 && WithinCap(s2) && NoIdleWait(s2)
      && next == None && s3.active == 0 && Fifo(s3, a) == [ja]
      && !NoIdleWait(s3)
  {
    var s1 := Admit(InitialSlots(), jb, false).1;
    assert s1 == SlotState(1, map[]);
    var s2 := Admit(s1, ja, false).1;
    assert Fifo(s1, a) + [ja] == [ja];
    assert s2 == SlotState(1, map[a := [ja]]);
    var s3 := CompleteStep(s2, b).0;
    assert s3 == SlotState(0, map[a := [ja]]);
  }

  /** A download whose process could not be spawned, as written: Node
      emits `error` and then `close` for it, so both handlers run
      (index.mjs:108-124), each releasing the slot and calling
      `processQueue(g)`. The jobs it starts are returned in order. */
  function SpawnFailedAsWritten(s: SlotState, g: GuildId): (r: (SlotState, seq<Job>))
    ensures |r.1| <= 2 && r.0.active == s.active - 2 + |r.1|
    ensures forall h :: h != g ==> Fifo(r.0, h) == Fifo(s, h)
  {
    var (s1, n1) := CompleteStep(s, g);
    var (s2, n2) := CompleteStep(s1, g);
    (s2, OptionSeq(n1) + OptionSeq(n2))
  }

  /** The double release breaks the cap. With jobs `j1` and `j2` of the same
      guild waiting behind a download `j0` that fails to spawn, both start,
      so two processes run while the counter says one. With nothing
      waiting, the counter drops to -1, and the next two requests both
      start at once. */
  lemma SpawnFailureReleasesTwice(g: GuildId, j0: Job, j1: Job, j2: Job)
    ensures var s := SlotState(1, map[g := [j1, j2]]);
      var (t, started) := SpawnFailedAsWritten(s, g);
      WithinCap(s) && started == [j1, j2] && t.active == 1 && |started| > MaxParallelDownloads
    ensures var s := Admit(InitialSlots(), j0, false).1;
      var (t, started) := SpawnFailedAsWritten(s, g);
      var (a1, t1) := Admit(t, j1, false);
      var (a2, t2) := Admit(t1, j2, false);
      WithinCap(s) && started == [] && t.active == -1 && !WithinCap(t)
      && a1 == Started && a2 == Started && t2.active == 1
  {
  }

  /** The intended completion: release the slot and start the front of the
      finishing guild's FIFO, or failing that of any guild's non-empty FIFO. */
  ghost function CompleteAnyGuild(s: SlotState, g: GuildId): (r: (SlotState, Option<Job>))
    requires s.active > 0
  {
    var s1 := s.(active := s.active - 1);
    if Fifo(s1, g) != [] then ProcessQueueStep(s1, g)
    else if exists h :: h in s1.pending && s1.pending[h] != [] then
      var h :| h in s1.pending && s1.pending[h] != [];
      ProcessQueueStep(s1, h)
    else (s1, None)
  }

  /** With the intended completion, requests, drops and completions all
      keep both the cap and the idle-wait freedom, from the start state on. */
  lemma IntendedStepsKeepNoIdleWait(s: SlotState, job: Job, onDisk: bool, g: GuildId)
    requires WithinCap(s) && NoIdleWait(s)
    ensures NoIdleWait(InitialSlots())
    ensures WithinCap(Admit(s, job, onDisk).1) && NoIdleWait(Admit(s, job, onDisk).1)
    ensures WithinCap(DropGuildStep(s, g)) && NoIdleWait(DropGuildStep(s, g))
    ensures s.active > 0 ==>
      WithinCap(CompleteAnyGuild(s, g).0) && NoIdleWait(CompleteAnyGuild(s, g).0)
      && (CompleteAnyGuild(s, g).1.None? <==> forall h :: h in s.pending ==> s.pending[h] == [])
  {
    var d := DropGuildStep(s, g);
    if d.active < MaxParallelDownloads {
      forall h | h in d.pending
        ensures d.pending[h] == []
      {
        assert h in s.pending;
      }
    }
    if s.active > 0 {
      var s1 := s.(active := s.active - 1);
      var (t, next) := CompleteAnyGuild(s, g);
      if next.Some? {
        assert t.active == MaxParallelDownloads;
      }
    }
  }

  /** Admitting a sequence of jobs one after another, as the prefetch loop
      does (index.mjs:345-348). */
  function AdmitAll(s: SlotState, jobs: seq<Job>, onDisk: seq<bool>): (r: (seq<Admission>, SlotState))
    requires |onDisk| == |jobs|
    ensures |r.0| == |jobs|
    decreases |jobs|
  {
    if jobs == [] then ([], s)
    else
      var (a, s1) := Admit(s, jobs[0], onDisk[0]);
      var (rest, s2) := AdmitAll(s1, jobs[1..], onDisk[1..]);
      ([a] + rest, s2)
  }

  /** Admitting jobs never breaks the cap. */
  lemma {:induction false} AdmitAllKeepsCap(s: SlotState, jobs: seq<Job>, onDisk: seq<bool>)
    requires |onDisk| == |jobs| && WithinCap(s)
    ensures WithinCap(AdmitAll(s, jobs, onDisk).1)
    decreases |jobs|
  {
    if jobs != [] {
      StepsKeepCap(s, jobs[0], onDisk[0], jobs[0].guild);
      AdmitAllKeepsCap(Admit(s, jobs[0], onDisk[0]).1, jobs[1..], onDisk[1..]);
    }
  }

  /** `AdmitAll` of a prefix extended by one job is one more `Admit`. */
  lemma {:induction false} AdmitAllSnoc(s: SlotState, jobs: seq<Job>, onDisk: seq<bool>, j: Job, d: bool)
    requires |onDisk| == |jobs|
    ensures AdmitAll(s, jobs + [j], onDisk + [d]) ==
      var (as1, s1) := AdmitAll(s, jobs, onDisk);
      var (a, s2) := Admit(s1, j, d);
      (as1 + [a], s2)
    decreases |jobs|
  {
    if jobs == [] {
      assert jobs + [j] == [j] && onDisk + [d] == [d];
      assert [j][1..] == [] && [d][1..] == [];
      var (a, u) := Admit(s, j, d);
      assert AdmitAll(s, [j], [d]) == ([a] + [], u);
      assert AdmitAll(s, jobs, onDisk) == ([], s);
      assert [a] + [] == [] + [a];
    } else {
      var (a0, t) := Admit(s, jobs[0], onDisk[0]);
      assert (jobs + [j])[0] == jobs[0] && (onDisk + [d])[0] == onDisk[0];
      assert (jobs + [j])[1..] == jobs[1..] + [j];
      assert (onDisk + [d])[1..] == onDisk[1..] + [d];
      AdmitAllSnoc(t, jobs[1..], onDisk[1..], j, d);
      var (rest, u) := AdmitAll(t, jobs[1..], onDisk[1..]);
      var (a, u2) := Admit(u, j, d);
      assert AdmitAll(s, jobs, onDisk) == ([a0] + rest, u);
      assert AdmitAll(s, jobs + [j], onDisk + [d]) == ([a0] + (rest + [a]), u2);
      assert [a0] + (rest + [a]) == ([a0] + rest) + [a];
    }
  }

  /** The coordinator as the source keeps it: two globals updated in place. */
  class DownloadSlots {
    var active: int
    var pending: map<GuildId, seq<Job>>

    function State(): SlotState
      reads this
    {
      SlotState(active, pending)
    }

    ghost predicate Valid()
      reads this
    {
      WithinCap(State())
    }

    constructor ()
      ensures Valid() && State() == InitialSlots()
    {
      active := 0;
      pending := map[];
    }

    /** `downloadAudio(url, outputPath, guildId)` up to the point where it
        waits; `onDisk` is what `fs.existsSync(outputPath)` answered. */
    method Request(job: Job, onDisk: bool) returns (a: Admission)
      requires Valid()
      modifies this
      ensures Valid()
      ensures (a, State()) == Admit(old(State()), job, onDisk)
    {
      if onDisk {
        return CacheHit;
      }
      if active < MaxParallelDownloads {
        active := active + 1;
        a := Started;
      } else {
        var fifo := if job.guild in pending then pending[job.guild] else [];
        pending := pending[job.guild := fifo + [job]];
        a := Deferred;
      }
    }

    /** `processQueue(guildId)`. */
    method ProcessQueue(g: GuildId) returns (next: Option<Job>)
      requires Valid()
      modifies this
      ensures Valid()
      ensures (State(), next) == ProcessQueueStep(old(State()), g)
    {
      next := None;
      if g in pending {
        var queue := pending[g];
        if |queue| > 0 && active < MaxParallelDownloads {
          next := Some(queue[0]);
          pending := pending[g := queue[1..]];
          active := active + 1;
        }
      }
    }

    /** A running download of guild `g` ends: the slot is released once,
        one deferred job of the same guild may start, and the request
        settles successfully exactly when the file is there. A spawn
        failure is released once too, unlike the source, where it runs
        both handlers (`SpawnFailedAsWritten`). */
    method Complete(g: GuildId, exit: Exit) returns (success: bool, next: Option<Job>)
      requires Valid() && active > 0
      modifies this
      ensures Valid()
      ensures (State(), next) == CompleteStep(old(State()), g)
      ensures success == Succeeded(exit)
    {
      active := active - 1;
      next := ProcessQueue(g);
      success := exit.Closed? && exit.fileExists;
    }

    /** Dropping a guild's deferred starts (index.mjs:166-169). */
    method DropGuild(g: GuildId)
      requires Valid()
      modifies this
      ensures Valid()
      ensures State() == DropGuildStep(old(State()), g)
    {
      if g in pending {
        pending := pending - {g};
      }
    }

    /** The prefetch after a successful start of playback (index.mjs:345-348):
        one request for each of the next three queued tracks, in order;
        `onDisk[i]` is the existence answer for the i-th of them. */
    method Prefetch(g: GuildId, upcoming: seq<Track>, onDisk: seq<bool>) returns (admissions: seq<Admission>)
      requires Valid()
      requires |onDisk| == |upcoming| && |upcoming| <= 3
      modifies this
      ensures Valid()
      ensures (admissions, State()) == AdmitAll(old(State()), seq(|upcoming|, i requires 0 <= i < |upcoming| => TrackJob(g, upcoming[i])), onDisk)
    {
      ghost var jobs := seq(|upcoming|, i requires 0 <= i < |upcoming| => TrackJob(g, upcoming[i]));
      admissions := [];
      var i := 0;
      while i < |upcoming|
        invariant 0 <= i <= |upcoming|
        invariant Valid()
        invariant (admissions, State()) == AdmitAll(old(State()), jobs[..i], onDisk[..i])
      {
        var a := Request(TrackJob(g, upcoming[i]), onDisk[i]);
        AdmitAllSnoc(old(State()), jobs[..i], onDisk[..i], jobs[i], onDisk[i]);
        assert jobs[..i + 1] == jobs[..i] + [jobs[i]];
        assert onDisk[..i + 1] == onDisk[..i] + [onDisk[i]];
        admissions := admissions + [a];
        i := i + 1;
      }
      assert jobs[..i] == jobs && onDisk[..i] == onDisk;
    }
  }
}
