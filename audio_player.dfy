/** The pure part of `playBase64Audio` (lib/audioPlayer.ts): stripping a
    `data:...;base64,` prefix (the `dataurl` syntax of section 3 of RFC 2397)
    off the payload, choosing the file extension from the MIME type, and
    building the cache path the payload is written to. Writing the file and
    playing it are left to the platform. */
module AudioPlayer {
  import opened Text

  const DataScheme := "data:"
  const Base64Marker := ";base64,"
  const DefaultMime := "audio/mpeg"

  /** `/^data:.*;base64,/` matches `s[..j + 8]`: `s` starts with `data:`,
      `;base64,` sits at index `j`, and the `.*` between them crosses no
      line terminator. */
  predicate PrefixMatches(s: string, j: int) {
    DataScheme <= s && 5 <= j && j + 8 <= |s| && s[j..j + 8] == Base64Marker &&
    forall k :: 5 <= k < j ==> !IsLineTerminator(s[k])
  }

  /** The greedy `.*` tries the longest candidate first: the search runs
      from index `j` downwards and stops at the first match. */
  function LastMatch(s: string, j: int): (r: Option<nat>)
    decreases j + 1
    ensures r.Some? ==> r.value <= j && PrefixMatches(s, r.value)
    ensures r.Some? ==> forall k :: r.value < k <= j ==> !PrefixMatches(s, k)
    ensures r.None? ==> forall k :: k <= j ==> !PrefixMatches(s, k)
  {
    if j < 5 then None
    else if PrefixMatches(s, j) then Some(j)
    else LastMatch(s, j - 1)
  }

  /** `audioB64.replace(/^data:.*;base64,/, "")`: the result is a suffix of the
      input; it is shorter exactly when the pattern matches, and then the cut
      is at the last `;base64,` the pattern can reach; otherwise the input
      comes back unchanged. */
  function StripDataPrefix(s: string): (r: string)
    ensures !(DataScheme <= s) ==> r == s
    ensures |r| <= |s| && r == s[|s| - |r|..]
    ensures |r| < |s| <==> exists j :: PrefixMatches(s, j)
    ensures |r| < |s| ==> PrefixMatches(s, |s| - |r| - 8)
    ensures |r| < |s| ==> forall k :: |s| - |r| - 8 < k ==> !PrefixMatches(s, k)
  {
    match LastMatch(s, |s| - 8)
    case Some(j) => s[j + 8..]
    case None => s
  }

  /** A match in what follows a match is a later match in the whole
      string: the first match's `;base64,` and the second's `data:` hold no
      line terminator. */
  lemma MatchShifts(s: string, j0: nat, j: nat)
    requires PrefixMatches(s, j0) && PrefixMatches(s[j0 + 8..], j)
    ensures PrefixMatches(s, j0 + 8 + j)
  {
    var r := s[j0 + 8..];
    var k := j0 + 8 + j;
    assert s[k..k + 8] == r[j..j + 8];
    forall i | j0 <= i < j0 + 8 ensures !IsLineTerminator(s[i]) {
      assert s[i] == s[j0..j0 + 8][i - j0];
    }
    forall i | j0 + 8 <= i < j0 + 13 ensures !IsLineTerminator(s[i]) {
      assert s[i] == r[i - j0 - 8] == r[..5][i - j0 - 8];
    }
    forall i | j0 + 13 <= i < k ensures !IsLineTerminator(s[i]) {
      assert s[i] == r[i - j0 - 8];
    }
  }

  /** Stripping is idempotent: the output holds no further match, because a
      match in it would be a later match in the input. */
  lemma StripIdempotent(s: string)
    ensures StripDataPrefix(StripDataPrefix(s)) == StripDataPrefix(s)
  {
    var r := StripDataPrefix(s);
    if |r| < |s| {
      var j0 := |s| - |r| - 8;
      forall j | PrefixMatches(r, j) ensures false {
        MatchShifts(s, j0, j);
      }
    }
  }

  /** `mime.includes("m4a") || mime.includes("mp4") ? "m4a" : "mp3"`. */
  function Ext(mime: string): (r: string)
    ensures r == "m4a" || r == "mp3"
    ensures r == "m4a" <==>
              (exists i: nat :: OccursAt(mime, "m4a", i)) || (exists i: nat :: OccursAt(mime, "mp4", i))
  {
    ContainsIff(mime, "m4a");
    ContainsIff(mime, "mp4");
    if Contains(mime, "m4a") || Contains(mime, "mp4") then "m4a" else "mp3"
  }

  /** With the default MIME type the file is an `.mp3`: "audio/mpeg" has
      no `4`, which both "m4a" and "mp4" need. */
  lemma DefaultMimeIsMp3()
    ensures Ext(DefaultMime) == "mp3"
  {
    assert Lacks(DefaultMime, '4');
    MissingCharNotContained(DefaultMime, "m4a", 1);
    MissingCharNotContained(DefaultMime, "mp4", 2);
  }

  /** The file written before playback. */
  datatype CacheFile = CacheFile(path: string, base64: string)

  /** `<cacheDirectory>reply_<now>.<ext>`: the directory first, then
      `reply_` and the clock reading as a numeral that reads back as that
      reading, the extension last. */
  function CachePath(cacheDirectory: string, now: nat, ext: string): (path: string)
    requires |ext| == 3
    ensures |path| > 4 && path[|path| - 4..] == "." + ext
    ensures cacheDirectory <= path
    ensures var d := |cacheDirectory|;
            d + 6 < |path| - 4 && path[d..d + 6] == "reply_" &&
            ParseNat(path[d + 6..|path| - 4]) == Some(now)
  {
    var stem := cacheDirectory + "reply_" + NatToString(now);
    var path := stem + "." + ext;
    var d := |cacheDirectory|;
    assert path[|stem|..] == "." + ext;
    assert path[..d] == stem[..d] == cacheDirectory;
    assert path[d..d + 6] == "reply_";
    assert path[d + 6..|path| - 4] == NatToString(now);
    NatToStringRoundTrip(now);
    path
  }

  /** Readings taken at different milliseconds never share a cache file. */
  lemma CachePathsDiffer(cacheDirectory: string, m: nat, n: nat, ext: string)
    requires |ext| == 3 && m != n
    ensures CachePath(cacheDirectory, m, ext) != CachePath(cacheDirectory, n, ext)
  {
  }

  /** The path and the payload without its data-URI prefix. `now` is the
      clock reading taken by the caller. */
  function CacheFileFor(audioB64: string, mime: string, cacheDirectory: string, now: nat): (f: CacheFile)
    ensures |f.path| > 4
    ensures f.path[|f.path| - 4..] == ".m4a" || f.path[|f.path| - 4..] == ".mp3"
    ensures f.path[|f.path| - 4..] == "." + Ext(mime)
    ensures cacheDirectory <= f.path
    ensures f.path == CachePath(cacheDirectory, now, Ext(mime))
    ensures f.base64 == StripDataPrefix(audioB64)
  {
    CacheFile(CachePath(cacheDirectory, now, Ext(mime)), StripDataPrefix(audioB64))
  }
}
