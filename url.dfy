/** URL classification (index.mjs:61-82): the three regular expressions of the
    source are written out as explicit scans over the positions of the input.
    `youtu\.be\/`, `[?&]v=` and `[?&]list=` are markers; a video id is the
    greedy run of `[A-Za-z0-9_-]` after a marker, and it only counts when it
    has at least six characters. */
module Url {
  import opened Media

  /** The character class `[A-Za-z0-9_-]`. */
  predicate IdChar(c: char) {
    ('A' <= c <= 'Z') || ('a' <= c <= 'z') || ('0' <= c <= '9') || c == '_' || c == '-'
  }

  /** The longest prefix of `t` made of id characters: what a greedy
      `[A-Za-z0-9_-]+` at the start of `t` captures. */
  function IdRun(t: string): (r: string)
    ensures |r| <= |t| && r == t[..|r|]
    ensures forall i :: 0 <= i < |r| ==> IdChar(r[i])
    ensures |r| == |t| || !IdChar(t[|r|])
    decreases |t|
  {
    if t != [] && IdChar(t[0]) then [t[0]] + IdRun(t[1..]) else []
  }

  datatype Marker = ShortLink | VideoParam | ListParam

  function MarkerLength(m: Marker): nat {
    match m
    case ShortLink => 9
    case VideoParam => 3
    case ListParam => 6
  }

  /** `youtu\.be\/`, `[?&]v=` or `[?&]list=` matches at position `k`. */
  predicate MarkerAt(s: string, k: nat, m: Marker) {
    k + MarkerLength(m) <= |s| &&
    match m
    case ShortLink => s[k..k + 9] == "youtu.be/"
    case VideoParam => (s[k] == '?' || s[k] == '&') && s[k + 1..k + 3] == "v="
    case ListParam => (s[k] == '?' || s[k] == '&') && s[k + 1..k + 6] == "list="
  }

  /** A marker alone (the `test` calls of index.mjs:79-80), or a marker
      followed by at least six id characters (the `match` calls of
      index.mjs:64, 68). */
  datatype Pattern = Bare(m: Marker) | WithId(m: Marker)

  predicate Hit(s: string, k: nat, p: Pattern) {
    MarkerAt(s, k, p.m) && (p.WithId? ==> |IdRun(s[k + MarkerLength(p.m)..])| >= 6)
  }

  /** The leftmost position at or after `from` where the pattern matches, as
      a regular-expression search finds it. */
  function FirstHit(s: string, from: nat, p: Pattern): (r: Option<nat>)
    requires from <= |s|
    ensures r.Some? ==> from <= r.value <= |s| && Hit(s, r.value, p)
    ensures r.Some? ==> forall j :: from <= j < r.value ==> !Hit(s, j, p)
    ensures r.None? ==> forall j :: from <= j <= |s| ==> !Hit(s, j, p)
    decreases |s| - from
  {
    if Hit(s, from, p) then Some(from)
    else if from == |s| then None
    else FirstHit(s, from + 1, p)
  }

  /** `getVideoIdFromUrl`: the id after the leftmost `youtu.be/` that is
      followed by six or more id characters; failing that, the id after the
      leftmost such `?v=`/`&v=`; failing that, null. */
  function GetVideoIdFromUrl(url: string): (r: Option<string>)
    ensures r.Some? ==> |r.value| >= 6 && forall i :: 0 <= i < |r.value| ==> IdChar(r.value[i])
  {
    match FirstHit(url, 0, WithId(ShortLink))
    case Some(k) => Some(IdRun(url[k + 9..]))
    case None =>
      match FirstHit(url, 0, WithId(VideoParam))
      case Some(k) => Some(IdRun(url[k + 3..]))
      case None => None
  }

  /** No direct id exactly when no marker of either kind is followed by six
      id characters. */
  lemma NoVideoIdIff(url: string)
    ensures GetVideoIdFromUrl(url).None? <==>
      forall k :: 0 <= k <= |url| ==> !Hit(url, k, WithId(ShortLink)) && !Hit(url, k, WithId(VideoParam))
  {
  }

  /** `k` is the leftmost match of `p` in `s`. */
  ghost predicate Leftmost(s: string, k: nat, p: Pattern) {
    Hit(s, k, p) && forall j :: 0 <= j < k ==> !Hit(s, j, p)
  }

  /** The id returned is the whole maximal run captured at the leftmost
      matching marker, and a short-link id takes precedence over a `v=` id. */
  lemma VideoIdIsLeftmostCapture(url: string)
    ensures GetVideoIdFromUrl(url).Some? ==>
      (exists k :: Leftmost(url, k, WithId(ShortLink)) && GetVideoIdFromUrl(url).value == IdRun(url[k + 9..]))
      || ((forall k :: 0 <= k <= |url| ==> !Hit(url, k, WithId(ShortLink)))
          && exists k :: Leftmost(url, k, WithId(VideoParam)) && GetVideoIdFromUrl(url).value == IdRun(url[k + 3..]))
  {
    match FirstHit(url, 0, WithId(ShortLink))
    case Some(k) =>
      assert Leftmost(url, k, WithId(ShortLink));
    case None =>
      match FirstHit(url, 0, WithId(VideoParam))
      case Some(k) =>
        assert Leftmost(url, k, WithId(VideoParam));
      case None =>
  }

  /** `isPurePlaylistUrl`: a playlist marker and no video marker of either
      kind; the length of what follows `v=` plays no part here. A pure
      playlist never yields a direct video id, so the two helpers never
      both claim an input. */
  function IsPurePlaylistUrl(url: string): (r: bool)
    ensures r ==> FirstHit(url, 0, Bare(ListParam)).Some?
    ensures r ==> GetVideoIdFromUrl(url) == None
  {
    var hasList := FirstHit(url, 0, Bare(ListParam)).Some?;
    var hasVideo := FirstHit(url, 0, Bare(VideoParam)).Some? || FirstHit(url, 0, Bare(ShortLink)).Some?;
    if hasVideo then false
    else
      NoVideoMarkerNoId(url);
      hasList
  }

  /** Without a bare video marker there is no video marker followed by an
      id either. */
  lemma NoVideoMarkerNoId(url: string)
    requires FirstHit(url, 0, Bare(VideoParam)).None? && FirstHit(url, 0, Bare(ShortLink)).None?
    ensures GetVideoIdFromUrl(url) == None
  {
    forall k | 0 <= k <= |url|
      ensures !Hit(url, k, WithId(ShortLink)) && !Hit(url, k, WithId(VideoParam))
    {
      assert !Hit(url, k, Bare(ShortLink)) && !Hit(url, k, Bare(VideoParam));
    }
  }

  /** `t` occurs in `s` as a contiguous piece. */
  ghost predicate Contains(s: string, t: string) {
    exists k :: OccursAt(s, t, k)
  }

  ghost predicate OccursAt(s: string, t: string, k: nat) {
    k + |t| <= |s| && s[k..k + |t|] == t
  }

  /** The two spellings a marker has as literal text (the same twice for
      `youtu.be/`). */
  function MarkerTexts(m: Marker): (string, string) {
    match m
    case ShortLink => ("youtu.be/", "youtu.be/")
    case VideoParam => ("?v=", "&v=")
    case ListParam => ("?list=", "&list=")
  }

  lemma HitIffOccurs(s: string, k: nat, m: Marker)
    ensures Hit(s, k, Bare(m)) <==> OccursAt(s, MarkerTexts(m).0, k) || OccursAt(s, MarkerTexts(m).1, k)
  {
    if k + MarkerLength(m) <= |s| {
      match m
      case ShortLink =>
      case VideoParam =>
        assert s[k..k + 3] == [s[k]] + s[k + 1..k + 3];
        assert "?v=" == ['?'] + "v=" && "&v=" == ['&'] + "v=";
      case ListParam =>
        assert s[k..k + 6] == [s[k]] + s[k + 1..k + 6];
        assert "?list=" == ['?'] + "list=" && "&list=" == ['&'] + "list=";
    }
  }

  /** A marker occurs somewhere exactly when the scan finds one. */
  lemma HasMarkerIffContains(s: string, m: Marker)
    ensures FirstHit(s, 0, Bare(m)).Some? <==> Contains(s, MarkerTexts(m).0) || Contains(s, MarkerTexts(m).1)
  {
    var (a, b) := MarkerTexts(m);
    var r := FirstHit(s, 0, Bare(m));
    if r.Some? {
      HitIffOccurs(s, r.value, m);
    }
    if Contains(s, a) {
      var k :| OccursAt(s, a, k);
      HitIffOccurs(s, k, m);
    }
    if Contains(s, b) {
      var k :| OccursAt(s, b, k);
      HitIffOccurs(s, k, m);
    }
  }

  /** The classification the source promises: a playlist marker, and none of
      `?v=`, `&v=`, `youtu.be/`. */
  lemma PurePlaylistIff(url: string)
    ensures IsPurePlaylistUrl(url) <==>
      (Contains(url, "?list=") || Contains(url, "&list="))
      && !Contains(url, "?v=") && !Contains(url, "&v=") && !Contains(url, "youtu.be/")
  {
    HasMarkerIffContains(url, ListParam);
    HasMarkerIffContains(url, VideoParam);
    HasMarkerIffContains(url, ShortLink);
  }

  /** A playlist link that also names a video whose id is shorter than six
      characters is not a pure playlist, yet yields no direct id either: it
      is resolved as a free-text search. */
  lemma ShortVideoIdGoesToSearch()
    ensures !IsPurePlaylistUrl("?list=L&v=ab")
    ensures GetVideoIdFromUrl("?list=L&v=ab") == None
  {
    ShortVideoIdHasVideoMarker("?list=L&v=ab");
    ShortVideoIdHasNoId("?list=L&v=ab");
  }

  lemma ShortVideoIdHasVideoMarker(url: string)
    requires url == "?list=L&v=ab"
    ensures !IsPurePlaylistUrl(url)
  {
    assert Hit(url, 7, Bare(VideoParam));
  }

  lemma ShortVideoIdHasNoId(url: string)
    requires url == "?list=L&v=ab"
    ensures GetVideoIdFromUrl(url) == None
  {
    NoShortLinkIn(url);
    NoLongVideoIdIn(url);
  }

  lemma NoShortLinkIn(url: string)
    requires url == "?list=L&v=ab"
    ensures forall k :: 0 <= k <= |url| ==> !Hit(url, k, WithId(ShortLink))
  {
    forall k | 0 <= k <= |url|
      ensures !Hit(url, k, WithId(ShortLink))
    {
      if k + 9 <= |url| {
        assert url[k..k + 9][0] == url[k] != 'y';
      }
    }
  }

  lemma NoLongVideoIdIn(url: string)
    requires url == "?list=L&v=ab"
    ensures forall k :: 0 <= k <= |url| ==> !Hit(url, k, WithId(VideoParam))
  {
    forall k | 0 <= k <= |url|
      ensures !Hit(url, k, WithId(VideoParam))
    {
      if k == 0 {
        assert url[1..3][0] == 'l';
      }
      if k == 7 {
        assert |IdRun(url[10..])| <= 2;
      }
    }
  }
}
