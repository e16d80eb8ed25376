/** The audio cache directory (index.mjs:44-45, 55, 148-185): a listing from
    file name to modification time in milliseconds (`mtimeMs`, which
    carries a fractional part, hence `real`). Two passes delete from
    it: the per-guild eviction of `clearGuildCache`, which spares the files
    the guild still needs, and the hourly sweep of files older than a day. */
module Cache {
  import opened Media

  /** `CACHE_DURATION`: 24 hours in milliseconds (index.mjs:55). */
  const CacheDuration: real := 86400000.0

  /** A directory listing: file name to `mtimeMs`. */
  type Listing = map<string, real>

  /** The cache files of a sequence of tracks. */
  function FilesOf(ts: seq<Track>): (r: set<string>)
    ensures |r| <= |ts|
    ensures forall i :: 0 <= i < |ts| ==> CacheFileName(ts[i].id) in r
    ensures forall f :: f in r ==> exists i :: 0 <= i < |ts| && f == CacheFileName(ts[i].id)
    decreases |ts|
  {
    if ts == [] then {}
    else
      var rest := FilesOf(ts[1..]);
      assert forall i :: 1 <= i < |ts| ==> ts[i] == ts[1..][i - 1];
      {CacheFileName(ts[0].id)} + rest
  }

  /** The at most three tracks `tracks.slice(0, 3)` yields. */
  function Upcoming(tracks: seq<Track>): (r: seq<Track>)
    ensures |r| <= 3 && |r| <= |tracks| && r == tracks[..|r|]
    ensures |r| == 3 || r == tracks
  {
    if |tracks| <= 3 then tracks else tracks[..3]
  }

  /** `keepFiles` (index.mjs:171-174): the playing track's file and those of
      the next three queued tracks; a guild without a queue keeps nothing. */
  function KeepSet(current: Option<Track>, tracks: seq<Track>): (r: set<string>)
    ensures |r| <= 4
    ensures current.Some? ==> CacheFileName(current.value.id) in r
    ensures forall i :: 0 <= i < |tracks| && i < 3 ==> CacheFileName(tracks[i].id) in r
    ensures forall f :: f in r ==>
      (current.Some? && f == CacheFileName(current.value.id))
      || exists i :: 0 <= i < |tracks| && i < 3 && f == CacheFileName(tracks[i].id)
  {
    var front := OptionSeq(current);
    var ts := front + Upcoming(tracks);
    assert forall i :: 0 <= i < |tracks| && i < 3 ==> tracks[i] == ts[|front| + i];
    FilesOf(ts)
  }

  /** Whether the eviction spares file `f`. */
  predicate Spared(f: string, keep: set<string>) {
    !HasPrefix(f, CachePrefix) || f in keep
  }

  /** The listing after the eviction loop of index.mjs:176-182: every
      `VIDEOID-` file outside the keep set is removed, nothing else. */
  function Retained(files: Listing, keep: set<string>): (r: Listing)
    ensures forall f :: f in r ==> f in files && r[f] == files[f]
    ensures forall f :: f in r && HasPrefix(f, CachePrefix) ==> f in keep
    ensures forall f :: f in files && f in keep ==> f in r
    ensures forall f :: f in files && !HasPrefix(f, CachePrefix) ==> f in r
  {
    map f | f in files && Spared(f, keep) :: files[f]
  }

  /** Evicting twice with the same keep set changes nothing more. */
  lemma RetainedIdempotent(files: Listing, keep: set<string>)
    ensures Retained(Retained(files, keep), keep) == Retained(files, keep)
  {
  }

  /** Whether a file of modification time `mtime` outlives the sweep at
      `now`: only one strictly older than a day is deleted. */
  predicate Fresh(mtime: real, now: real): (r: bool)
    ensures r <==> mtime >= now - CacheDuration
  {
    !(now - mtime > CacheDuration)
  }

  /** The listing after the sweep of index.mjs:152-159. */
  function Swept(files: Listing, now: real): (r: Listing)
    ensures forall f :: f in r ==> f in files && r[f] == files[f] && now - files[f] <= CacheDuration
    ensures forall f :: f in files && now - files[f] <= CacheDuration ==> f in r
  {
    map f | f in files && Fresh(files[f], now) :: files[f]
  }

  /** A file exactly a day old survives; one any fraction of a millisecond
      older does not. */
  lemma SweepBoundary(f: string, now: real, eps: real)
    requires eps > 0.0
    ensures f in Swept(map[f := now - CacheDuration], now)
    ensures f !in Swept(map[f := now - CacheDuration - eps], now)
  {
    assert Fresh(now - CacheDuration, now);
    assert !Fresh(now - CacheDuration - eps, now);
  }

  /** A later sweep subsumes an earlier one: what the earlier one keeps is
      all the later one needs to look at. */
  lemma LaterSweepSubsumes(files: Listing, earlier: real, later: real)
    requires earlier <= later
    ensures Swept(Swept(files, earlier), later) == Swept(files, later)
  {
    var a := Swept(Swept(files, earlier), later);
    var b := Swept(files, later);
    forall f | f in b
      ensures f in a
    {
      assert Fresh(files[f], earlier);
    }
  }

  /** The two passes commute: evicting then sweeping leaves the same
      listing as sweeping then evicting. */
  lemma EvictionAndSweepCommute(files: Listing, keep: set<string>, now: real)
    ensures Swept(Retained(files, keep), now) == Retained(Swept(files, now), keep)
  {
  }

  /** The cache directory of the running bot. */
  class CacheDir {
    /** Whether the directory exists at all; each pass checks it first. */
    var present: bool
    var files: Listing

    constructor (present: bool, files: Listing)
      ensures this.present == present && this.files == files
    {
      this.present := present;
      this.files := files;
    }

    /** The deletion loop of `clearGuildCache` (index.mjs:176-182), one
        directory entry at a time. */
    method EvictExcept(keep: set<string>)
      modifies this
      ensures present == old(present)
      ensures files == Retained(old(files), keep)
    {
      ghost var orig := files;
      var todo := files.Keys;
      while todo != {}
        invariant todo <= orig.Keys
        invariant forall f :: f in files ==> f in orig && files[f] == orig[f]
        invariant forall f :: f in orig ==> (f in files <==> f in todo || Spared(f, keep))
        invariant present == old(present)
        decreases |todo|
      {
        var f :| f in todo;
        if HasPrefix(f, CachePrefix) && f !in keep {
          files := files - {f};
        }
        todo := todo - {f};
      }
      assert files.Keys == Retained(orig, keep).Keys;
    }

    /** The hourly sweep (index.mjs:150-160) at time `now`: nothing when the
        directory is missing, otherwise every entry strictly older than a
        day is deleted. */
    method Sweep(now: real)
      modifies this
      ensures present == old(present)
      ensures files == if present then Swept(old(files), now) else old(files)
    {
      if !present {
        return;
      }
      ghost var orig := files;
      var todo := files.Keys;
      while todo != {}
        invariant todo <= orig.Keys
        invariant forall f :: f in files ==> f in orig && files[f] == orig[f]
        invariant forall f :: f in orig ==> (f in files <==> f in todo || Fresh(orig[f], now))
        invariant present
        decreases |todo|
      {
        var f :| f in todo;
        if now - files[f] > CacheDuration {
          files := files - {f};
        }
        todo := todo - {f};
      }
      assert files.Keys == Swept(orig, now).Keys;
    }
  }
}
