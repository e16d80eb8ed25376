/** Values shared by every part of the bot: the optional-value wrapper, the
    resolved track record, guild identifiers and the deterministic names of
    cache files (index.mjs:51-55, 174, 200, 328). */
module Media {

  datatype Option<T> = None | Some(value: T)

  /** The `[x]` or `[]` a nullable field contributes to a sequence. */
  function OptionSeq<T>(o: Option<T>): (r: seq<T>)
    ensures |r| <= 1
    ensures o.Some? ==> r == [o.value]
    ensures o.None? ==> r == []
  {
    if o.Some? then [o.value] else []
  }

  /** A guild snowflake, as the chat platform hands it to the bot. */
  type GuildId = string

  /** A resolved track: identity is `id`; `url` is what the downloader is
      given; `title` is shown on the panel. */
  datatype Track = Track(id: string, url: string, title: string)

  /** The canonical watch link built from a video id (index.mjs:200, 231). */
  function WatchUrl(id: string): (r: string)
    ensures |r| == |id| + 32 && r[32..] == id
    ensures r[..32] == "https://www.youtube.com/watch?v="
  {
    "https://www.youtube.com/watch?v=" + id
  }

  /** Every file the bot itself writes into the cache starts with this. */
  const CachePrefix: string := "VIDEOID-"

  /** `VIDEOID-<id>.mp3`, the cache path of a track (index.mjs:174, 328). */
  function CacheFileName(id: string): (r: string)
    ensures |r| == |id| + 12
    ensures r[..8] == CachePrefix && r[8..8 + |id|] == id && r[|r| - 4..] == ".mp3"
  {
    CachePrefix + id + ".mp3"
  }

  /** Two tracks share a cache file exactly when they share an id. */
  lemma CacheFileNameInjective(a: string, b: string)
    ensures CacheFileName(a) == CacheFileName(b) <==> a == b
  {
    if CacheFileName(a) == CacheFileName(b) {
      assert |a| == |b|;
      assert a == CacheFileName(a)[8..8 + |a|];
    }
  }

  predicate HasPrefix(s: string, p: string) {
    |p| <= |s| && s[..|p|] == p
  }
}
