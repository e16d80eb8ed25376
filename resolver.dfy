/** Shaping yt-dlp's output into tracks (index.mjs:190-238, 551-557). The
    external process is not modelled: each call's outcome is an input, either
    the exception `execSync` throws or the text it printed. */
module Resolver {
  import opened Media
  import opened Text
  import opened Url

  /** The outcome of one `execSync` run of yt-dlp. */
  datatype ToolRun = Threw | Printed(stdout: string)

  /** The title given to an untitled playlist entry: `Música <k>` for the
      entry's 1-based position (index.mjs:198). */
  function DefaultTitle(pair: nat): (r: string)
    ensures |r| > 7 && r[..7] == "Música " && r[7..] == NatToString(pair + 1)
  {
    "Música " + NatToString(pair + 1)
  }

  /** Every output line trimmed, as `lines[i]?.trim()` reads it. */
  function Fields(lines: seq<string>): (r: seq<string>)
    ensures |r| == |lines|
    ensures forall i :: 0 <= i < |lines| ==> r[i] == Trim(lines[i])
  {
    seq(|lines|, i requires 0 <= i < |lines| => Trim(lines[i]))
  }

  /** The number of (title, id) pairs the loop of index.mjs:197 visits. */
  function PairCount(fields: seq<string>): nat {
    (|fields| + 1) / 2
  }

  /** The track that pair `k` (fields `2k` and `2k+1`) contributes, if any:
      none when the id field is missing or empty. */
  function PairTrack(fields: seq<string>, k: nat): (r: Option<Track>)
    requires k < PairCount(fields)
    ensures r.Some? <==> 2 * k + 1 < |fields| && fields[2 * k + 1] != ""
    ensures r.Some? ==> r.value.id == fields[2 * k + 1] && r.value.url == WatchUrl(r.value.id)
    ensures r.Some? ==> r.value.title == (if fields[2 * k] != "" then fields[2 * k] else DefaultTitle(k))
  {
    var title := if fields[2 * k] != "" then fields[2 * k] else DefaultTitle(k);
    if 2 * k + 1 < |fields| && fields[2 * k + 1] != "" then
      var id := fields[2 * k + 1];
      Some(Track(id, WatchUrl(id), title))
    else
      None
  }

  /** The tracks of the first `n` pairs, in order. */
  function PlaylistOf(fields: seq<string>, n: nat): (r: seq<Track>)
    requires n <= PairCount(fields)
    ensures |r| <= n
    decreases n
  {
    if n == 0 then [] else PlaylistOf(fields, n - 1) + OptionSeq(PairTrack(fields, n - 1))
  }

  /** What `extractPlaylist` returns for the text yt-dlp printed: at most
      one track per pair of lines, each with a non-empty id and the watch
      URL of that id. */
  function Playlist(stdout: string): (r: seq<Track>)
    ensures var fields := Fields(Lines(Trim(stdout)));
      |r| <= PairCount(fields)
    ensures forall t :: t in r ==> t.id != "" && t.url == WatchUrl(t.id) && t.title != ""
  {
    var fields := Fields(Lines(Trim(stdout)));
    PlaylistWellFormed(fields, PairCount(fields));
    PlaylistOf(fields, PairCount(fields))
  }

  /** Every track comes from some pair and carries a non-empty id, a watch
      URL built from that id, and a non-empty title. */
  lemma {:induction false} PlaylistWellFormed(fields: seq<string>, n: nat)
    requires n <= PairCount(fields)
    ensures forall t :: t in PlaylistOf(fields, n) ==>
      t.id != "" && t.url == WatchUrl(t.id) && t.title != ""
      && exists k :: 0 <= k < n && PairTrack(fields, k) == Some(t)
    decreases n
  {
    if n > 0 {
      PlaylistWellFormed(fields, n - 1);
      var prev := PlaylistOf(fields, n - 1);
      var last := PairTrack(fields, n - 1);
      forall t | t in PlaylistOf(fields, n)
        ensures t.id != "" && t.url == WatchUrl(t.id) && t.title != ""
        ensures exists k :: 0 <= k < n && PairTrack(fields, k) == Some(t)
      {
        if t in prev {
          var k :| 0 <= k < n - 1 && PairTrack(fields, k) == Some(t);
        } else {
          assert last == Some(t);
        }
      }
    }
  }

  /** When every id field is non-empty, the playlist holds exactly one track
      per complete pair, the k-th track coming from the k-th pair; an odd
      trailing title line is dropped. */
  lemma {:induction false} PlaylistComplete(fields: seq<string>, n: nat)
    requires n <= |fields| / 2
    requires forall i :: 0 <= i < |fields| && i % 2 == 1 ==> fields[i] != ""
    ensures |PlaylistOf(fields, n)| == n
    ensures forall k :: 0 <= k < n ==> PairTrack(fields, k) == Some(PlaylistOf(fields, n)[k])
    decreases n
  {
    if n > 0 {
      PlaylistComplete(fields, n - 1);
      assert (2 * (n - 1) + 1) % 2 == 1;
      assert PairTrack(fields, n - 1).Some?;
    }
  }

  /** With every id field non-empty, the whole output gives one track per
      two lines: a trailing title line without an id line adds nothing. */
  lemma PlaylistCount(fields: seq<string>)
    requires forall i :: 0 <= i < |fields| && i % 2 == 1 ==> fields[i] != ""
    ensures |PlaylistOf(fields, PairCount(fields))| == |fields| / 2
  {
    var n := |fields| / 2;
    PlaylistComplete(fields, n);
    if PairCount(fields) != n {
      assert PairCount(fields) == n + 1 && PairTrack(fields, n) == None;
      assert PlaylistOf(fields, n + 1) == PlaylistOf(fields, n) + [];
    }
  }

  /** The loop of `extractPlaylist` over the trimmed output lines: walk them
      two at a time, keep a pair when its id field is non-empty, default an
      empty title to `Música <k>`. */
  method PairUp(fields: seq<string>) returns (tracks: seq<Track>)
    ensures tracks == PlaylistOf(fields, PairCount(fields))
  {
    tracks := [];
    var i, k := 0, 0;
    while i < |fields|
      invariant i == 2 * k && i <= |fields| + 1
      invariant k <= PairCount(fields)
      invariant tracks == PlaylistOf(fields, k)
    {
      var title := if fields[i] != "" then fields[i] else DefaultTitle(k);
      ghost var pair := PairTrack(fields, k);
      if i + 1 < |fields| {
        var id := fields[i + 1];
        if id != "" {
          assert pair == Some(Track(id, WatchUrl(id), title));
          tracks := tracks + [Track(id, WatchUrl(id), title)];
        } else {
          assert pair == None;
        }
      } else {
        assert pair == None;
      }
      assert tracks == PlaylistOf(fields, k) + OptionSeq(pair);
      i, k := i + 2, k + 1;
    }
  }

  /** `extractPlaylist`: any failure of the tool gives no tracks; otherwise
      the trimmed output is split into lines, each line trimmed, and the
      lines paired up. */
  method ExtractPlaylist(run: ToolRun) returns (tracks: seq<Track>)
    ensures run.Threw? ==> tracks == []
    ensures run.Printed? ==> tracks == Playlist(run.stdout)
  {
    if run.Threw? {
      return [];
    }
    tracks := PairUp(Fields(Lines(Trim(run.stdout))));
  }

  /** `resolveSingleVideo`. With a direct id the tool is asked for the
      title and the track keeps the input as its URL; otherwise the input is
      searched for and the first two output lines are read as title and id.
      At most one track, none when the tool throws. */
  function ResolveSingleVideo(input: string, run: ToolRun): (r: seq<Track>)
    ensures |r| <= 1
    ensures run.Threw? ==> r == []
    ensures GetVideoIdFromUrl(input).Some? ==>
      (r != [] <==> run.Printed?)
      && (r != [] ==> r[0] == Track(GetVideoIdFromUrl(input).value, input, Trim(run.stdout)))
    ensures GetVideoIdFromUrl(input).None? ==>
      (r != [] <==> run.Printed? && |Lines(Trim(run.stdout))| >= 2)
      && (r != [] ==>
            r[0].url == WatchUrl(r[0].id) && [r[0].title, r[0].id] == Lines(Trim(run.stdout))[..2])
  {
    match GetVideoIdFromUrl(input)
    case Some(directId) =>
      if run.Threw? then [] else [Track(directId, input, Trim(run.stdout))]
    case None =>
      if run.Threw? then []
      else
        var out := Lines(Trim(run.stdout));
        if |out| >= 2 then [Track(out[1], WatchUrl(out[1]), out[0])] else []
  }

  /** What the resolution step of the `play` command (index.mjs:551-557)
      yields: a pure playlist is expanded, anything else gives at most one
      track. */
  function Resolution(input: string, run: ToolRun): (r: seq<Track>)
    ensures IsPurePlaylistUrl(input) && run.Threw? ==> r == []
    ensures IsPurePlaylistUrl(input) ==> forall t :: t in r ==> t.url == WatchUrl(t.id) && t.id != ""
    ensures !IsPurePlaylistUrl(input) ==> |r| <= 1
  {
    if IsPurePlaylistUrl(input) then
      if run.Threw? then [] else Playlist(run.stdout)
    else
      ResolveSingleVideo(input, run)
  }

  /** The resolution step itself, running the playlist loop. */
  method Resolve(input: string, run: ToolRun) returns (tracks: seq<Track>)
    ensures tracks == Resolution(input, run)
  {
    if IsPurePlaylistUrl(input) {
      tracks := ExtractPlaylist(run);
    } else {
      tracks := ResolveSingleVideo(input, run);
    }
  }
}
