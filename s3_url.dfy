/** `normalizeS3Url` (components/ChatHistory.tsx): S3 object URLs in the
    path style (`https://s3.<region>.amazonaws.com/<bucket>/<key>`) and in the
    virtual-hosted style (`https://<bucket>.s3.<region>.amazonaws.com/<key>`),
    either with a dot or a dash after `s3`, are rewritten to the dot form of
    the virtual-hosted style with the key passed through `encodeURI`.

    Both regular expressions are anchored at both ends. A capture group
    `[^.]+` or `[^/]+` that must be followed by a `.` or `/` ends at the first
    such character, so the path-style match and the region of the
    virtual-hosted match are unique; the virtual-hosted bucket `([^/]+)` is
    greedy and may contain dots, so it is the LONGEST bucket for which the
    rest of the pattern matches. */
module S3Url {
  import opened Text
  import opened UriEncoding

  /** The three capture groups. */
  datatype Parts = Parts(bucket: string, region: string, key: string)

  const Https := "https://"
  const Domain := ".amazonaws.com/"

  /** `[.-]` after `s3`. */
  predicate IsSep(c: char) {
    c == '.' || c == '-'
  }

  predicate SingleLine(s: string) {
    forall k :: 0 <= k < |s| ==> !IsLineTerminator(s[k])
  }

  /** What the groups can capture: a bucket `[^/]+`, a region `[^.]+` and a
      key `.+` that runs to the end of the input. */
  predicate Admissible(p: Parts) {
    p.bucket != [] && Lacks(p.bucket, '/') &&
    p.region != [] && Lacks(p.region, '.') &&
    p.key != [] && SingleLine(p.key)
  }

  function PathStyleUrl(sep: char, p: Parts): string {
    "https://s3" + [sep] + p.region + Domain + p.bucket + "/" + p.key
  }

  function VhostUrl(sep: char, p: Parts): string {
    Https + p.bucket + ".s3" + [sep] + p.region + Domain + p.key
  }

  /** The rewrite's output: dot form, key encoded. */
  function Canonical(p: Parts): string {
    VhostUrl('.', Parts(p.bucket, p.region, EncodeUri(p.key)))
  }

  /** The first `c` at or after `i` (`|s|` when there is none). */
  function FindFrom(s: string, c: char, i: nat): (k: nat)
    requires i <= |s|
    ensures i <= k <= |s| && (k < |s| ==> s[k] == c)
    ensures forall j :: i <= j < k ==> s[j] != c
    decreases |s| - i
  {
    if i == |s| || s[i] == c then i else FindFrom(s, c, i + 1)
  }

  lemma FindFromIs(s: string, c: char, i: nat, k: nat)
    requires i <= k <= |s| && (k < |s| ==> s[k] == c)
    requires forall j :: i <= j < k ==> s[j] != c
    ensures FindFrom(s, c, i) == k
  {
  }

  // ---------------------------------------------------------------------
  // The path-style pattern `^https:\/\/s3[.-]([^.]+)\.amazonaws\.com\/([^/]+)\/(.+)$`.

  /** The path-style match: a match is exactly a path-style URL of admissible
      parts (this contract and `MatchPathComplete`). */
  function MatchPath(s: string): (r: Option<Parts>)
    ensures r.Some? ==> Admissible(r.value) && |s| > 10 && IsSep(s[10]) &&
                        s == PathStyleUrl(s[10], r.value)
  {
    if |s| < 11 || s[..10] != "https://s3" || !IsSep(s[10]) then None
    else
      var e := FindFrom(s, '.', 11);
      if e == 11 || e + 15 > |s| || s[e..e + 15] != Domain then None
      else
        var d := FindFrom(s, '/', e + 15);
        if d == e + 15 || d + 1 >= |s| || !SingleLine(s[d + 1..]) then None
        else
          MatchPathSound(s, e, d);
          Some(Parts(s[e + 15..d], s[11..e], s[d + 1..]))
  }

  /** The groups cut out of a path-style match are admissible and rebuild
      the input. */
  lemma MatchPathSound(s: string, e: nat, d: nat)
    requires 11 < e && e + 15 < d && d + 1 < |s|
    requires s[..10] == "https://s3" && IsSep(s[10]) && s[e..e + 15] == Domain && s[d] == '/'
    requires forall j :: 11 <= j < e ==> s[j] != '.'
    requires forall j :: e + 15 <= j < d ==> s[j] != '/'
    requires SingleLine(s[d + 1..])
    ensures var p := Parts(s[e + 15..d], s[11..e], s[d + 1..]);
            Admissible(p) && s == PathStyleUrl(s[10], p)
  {
    var p := Parts(s[e + 15..d], s[11..e], s[d + 1..]);
    assert Lacks(p.region, '.') by {
      forall k | 0 <= k < |p.region| ensures p.region[k] != '.' {
        assert p.region[k] == s[11 + k];
      }
    }
    assert Lacks(p.bucket, '/') by {
      forall k | 0 <= k < |p.bucket| ensures p.bucket[k] != '/' {
        assert p.bucket[k] == s[e + 15 + k];
      }
    }
    assert s[..11] == s[..10] + [s[10]];
    assert s[..e] == s[..11] + p.region;
    assert s[..e + 15] == s[..e] + Domain;
    assert s[..d] == s[..e + 15] + p.bucket;
    assert s[..d + 1] == s[..d] + "/";
    assert s == s[..d + 1] + p.key;
  }

  lemma MatchPathComplete(sep: char, p: Parts)
    requires IsSep(sep) && Admissible(p)
    ensures MatchPath(PathStyleUrl(sep, p)) == Some(p)
  {
    var s := PathStyleUrl(sep, p);
    var e := 11 + |p.region|;
    var d := e + 15 + |p.bucket|;
    assert s[..10] == "https://s3" && s[10] == sep;
    assert s[11..e] == p.region;
    assert s[e..e + 15] == Domain;
    assert s[e + 15..d] == p.bucket;
    assert s[d] == '/';
    assert s[d + 1..] == p.key;
    forall j | 11 <= j < e ensures s[j] != '.' {
      assert s[j] == p.region[j - 11];
    }
    FindFromIs(s, '.', 11, e);
    forall j | e + 15 <= j < d ensures s[j] != '/' {
      assert s[j] == p.bucket[j - e - 15];
    }
    FindFromIs(s, '/', e + 15, d);
  }

  // ---------------------------------------------------------------------
  // The virtual-hosted pattern `^https:\/\/([^/]+)\.s3[.-]([^.]+)\.amazonaws\.com\/(.+)$`.

  /** The virtual-hosted match with the bucket ending at index `b`. */
  function VhostAt(s: string, b: nat): (r: Option<Parts>)
    ensures r.Some? ==> Admissible(r.value) && |r.value.bucket| == b - 8 &&
                        b + 3 < |s| && IsSep(s[b + 3]) && s == VhostUrl(s[b + 3], r.value)
  {
    if b <= 8 || b + 4 > |s| || s[..8] != Https || !Lacks(s[8..b], '/') ||
       s[b..b + 3] != ".s3" || !IsSep(s[b + 3]) then None
    else
      var e := FindFrom(s, '.', b + 4);
      if e == b + 4 || e + 15 >= |s| || s[e..e + 15] != Domain || !SingleLine(s[e + 15..]) then None
      else
        VhostAtSound(s, b, e);
        Some(Parts(s[8..b], s[b + 4..e], s[e + 15..]))
  }

  /** The groups cut out of a virtual-hosted match are admissible and
      rebuild the input. */
  lemma VhostAtSound(s: string, b: nat, e: nat)
    requires 8 < b && b + 4 < e && e + 15 < |s|
    requires s[..8] == Https && Lacks(s[8..b], '/') && s[b..b + 3] == ".s3" && IsSep(s[b + 3])
    requires forall j :: b + 4 <= j < e ==> s[j] != '.'
    requires s[e..e + 15] == Domain && SingleLine(s[e + 15..])
    ensures var p := Parts(s[8..b], s[b + 4..e], s[e + 15..]);
            Admissible(p) && s == VhostUrl(s[b + 3], p)
  {
    var p := Parts(s[8..b], s[b + 4..e], s[e + 15..]);
    assert Lacks(p.region, '.') by {
      forall k | 0 <= k < |p.region| ensures p.region[k] != '.' {
        assert p.region[k] == s[b + 4 + k];
      }
    }
    assert s[..b] == Https + p.bucket;
    assert s[..b + 3] == s[..b] + ".s3";
    assert s[..b + 4] == s[..b + 3] + [s[b + 3]];
    assert s[..e] == s[..b + 4] + p.region;
    assert s[..e + 15] == s[..e] + Domain;
    assert s == s[..e + 15] + p.key;
  }

  lemma VhostAtComplete(sep: char, p: Parts)
    requires IsSep(sep) && Admissible(p)
    ensures VhostAt(VhostUrl(sep, p), 8 + |p.bucket|) == Some(p)
  {
    var s := VhostUrl(sep, p);
    var b := 8 + |p.bucket|;
    var e := b + 4 + |p.region|;
    assert s[..8] == Https;
    assert s[8..b] == p.bucket;
    assert s[b..b + 3] == ".s3" && s[b + 3] == sep;
    assert s[b + 4..e] == p.region;
    assert s[e..e + 15] == Domain;
    assert s[e + 15..] == p.key;
    forall j | b + 4 <= j < e ensures s[j] != '.' {
      assert s[j] == p.region[j - b - 4];
    }
    FindFromIs(s, '.', b + 4, e);
  }

  /** The last present entry at or below index `b`. */
  function LastSome<T>(c: seq<Option<T>>, b: nat): (r: Option<nat>)
    requires b < |c|
    ensures r.Some? ==> r.value <= b && c[r.value].Some?
    ensures r.Some? ==> forall k :: r.value < k <= b ==> c[k].None?
    ensures r.None? ==> forall k :: 0 <= k <= b ==> c[k].None?
    decreases b
  {
    if c[b].Some? then Some(b)
    else if b == 0 then None
    else LastSome(c, b - 1)
  }

  /** The bucket candidates, one per end index. */
  function VhostCandidates(s: string): (c: seq<Option<Parts>>)
    ensures |c| == |s| + 1
  {
    seq(|s| + 1, b requires 0 <= b => VhostAt(s, b))
  }

  /** The virtual-hosted match: the greedy bucket tries the candidates from the
      longest down. A match is a virtual-hosted URL of admissible parts
      (this contract), and no longer bucket makes the pattern match
      (`MatchVhostLongest`). */
  function MatchVhost(s: string): (r: Option<Parts>)
    ensures r.Some? ==> VhostAt(s, 8 + |r.value.bucket|) == r
    ensures r.Some? ==> Admissible(r.value) && 8 + |r.value.bucket| + 3 < |s| &&
                        IsSep(s[8 + |r.value.bucket| + 3]) &&
                        s == VhostUrl(s[8 + |r.value.bucket| + 3], r.value)
  {
    var c := VhostCandidates(s);
    match LastSome(c, |s|)
    case None => None
    case Some(b) => assert c[b] == VhostAt(s, b); c[b]
  }

  lemma MatchVhostLongest(s: string, k: nat)
    requires VhostAt(s, k).Some?
    ensures MatchVhost(s).Some? && k <= 8 + |MatchVhost(s).value.bucket|
  {
    var c := VhostCandidates(s);
    assert k <= |s|;
    assert c[k].Some?;
    var b := LastSome(c, |s|).value;
    assert c[b] == VhostAt(s, b);
  }

  // ---------------------------------------------------------------------
  // The rewrite.

  /** `normalizeS3Url`: no URL for a missing or empty input; the path-style
      pattern is tried first, then the virtual-hosted one; an input matching
      neither comes back as it is. */
  function NormalizeS3Url(url: Option<string>): (r: Option<string>)
    ensures r.None? <==> url.None? || url.value == []
    ensures url.Some? && url.value != [] && MatchPath(url.value).Some? ==>
              r == Some(Canonical(MatchPath(url.value).value))
    ensures url.Some? && url.value != [] && MatchPath(url.value).None? && MatchVhost(url.value).Some? ==>
              r == Some(Canonical(MatchVhost(url.value).value))
    ensures url.Some? && url.value != [] && MatchPath(url.value).None? && MatchVhost(url.value).None? ==> r == url
  {
    match url
    case None => None
    case Some(u) =>
      if u == [] then None
      else match MatchPath(u)
        case Some(p) => Some(Canonical(p))
        case None =>
          match MatchVhost(u)
          case Some(p) => Some(Canonical(p))
          case None => Some(u)
  }

  /** A path-style URL becomes the dot-form virtual-hosted URL of the same
      bucket, region and (encoded) key. */
  lemma NormalizePathStyle(sep: char, p: Parts)
    requires IsSep(sep) && Admissible(p)
    ensures NormalizeS3Url(Some(PathStyleUrl(sep, p))) == Some(Canonical(p))
  {
    MatchPathComplete(sep, p);
  }

  /** Where each part of a virtual-hosted URL sits: the bucket ends at `P`
      and the region at `Q`. */
  lemma VhostLayout(sep: char, p: Parts)
    ensures var s := VhostUrl(sep, p);
            var P := 8 + |p.bucket|;
            var Q := P + 4 + |p.region|;
            |s| == Q + 15 + |p.key| && s[..8] == Https && s[8..P] == p.bucket &&
            s[P] == '.' && s[P + 1] == 's' && s[P + 2] == '3' && s[P + 3] == sep &&
            s[P + 4..Q] == p.region && s[Q..Q + 15] == Domain && s[Q + 15..] == p.key
  {
  }

  /** A virtual-hosted URL does not match the path-style pattern, unless it is
      the dash form with the bucket `s3`. */
  lemma VhostNotPathStyle(sep: char, p: Parts)
    requires IsSep(sep) && Admissible(p) && (sep == '.' || p.bucket != "s3")
    ensures MatchPath(VhostUrl(sep, p)).None?
  {
    var s := VhostUrl(sep, p);
    var P := 8 + |p.bucket|;
    VhostLayout(sep, p);
    if |p.bucket| == 1 {
      assert s[..10][9] == s[P] == '.';
    } else if |p.bucket| == 2 && p.bucket != "s3" {
      assert s[..10][8..] == p.bucket;
    } else if |p.bucket| == 2 {
      assert s[..10] == "https://s3" && s[11..13] == "s3";
      FindFromIs(s, '.', 11, 13);
      assert s[14..14 + |p.region|] == p.region;
      assert s[14 + |p.region|..14 + |p.region| + 15] == Domain;
      if 28 <= |s| {
        ShortBucketMisses(s, p.region);
      }
    } else {
      var e := FindFrom(s, '.', 11);
      assert e <= P;
      if e + 15 <= |s| {
        VhostBucketMisses(s, p.bucket, e);
      }
    }
  }

  /** With a bucket of three or more characters, the first dot after index 11
      (inside the bucket, or the one that ends it) does not open the domain. */
  lemma VhostBucketMisses(s: string, bucket: string, e: nat)
    requires |bucket| >= 3 && Lacks(bucket, '/')
    requires 8 + |bucket| + 3 <= |s| && s[8..8 + |bucket|] == bucket
    requires s[8 + |bucket|] == '.' && s[8 + |bucket| + 1] == 's'
    requires 11 <= e <= 8 + |bucket| && e + 15 <= |s|
    ensures s[e..e + 15] != Domain
  {
    var P := 8 + |bucket|;
    var w := s[e..e + 15];
    if e == P {
      assert w[1] == 's';
    } else if e + 14 < P {
      assert w[14] == bucket[e + 6];
    } else if P - e == 10 {
      assert w[11] == s[P + 1];
    } else {
      assert w[P - e] == '.';
    }
  }

  /** The bucket `s3` in the dot form, `https://s3.s3.<region>...`: the
      region and domain do not spell `.amazonaws.com/` from index 13. */
  lemma ShortBucketMisses(s: string, region: string)
    requires region != [] && Lacks(region, '.')
    requires |s| >= 28 && |s| >= 14 + |region| + 15 && s[14..14 + |region|] == region
    requires s[14 + |region|..14 + |region| + 15] == Domain
    ensures s[13..28] != Domain
  {
    var w := s[13..28];
    if |region| > 9 {
      assert w[10] == region[9];
    } else if |region| < 9 {
      assert w[1 + |region|] == s[14 + |region|] == '.';
    } else {
      assert w[11] == s[24] == 'a';
    }
  }

  /** A virtual-hosted URL whose region does not itself begin with `s3` is
      matched with exactly its own bucket: no longer bucket fits the pattern. */
  lemma VhostUnique(sep: char, p: Parts)
    requires IsSep(sep) && Admissible(p) && !("s3" <= p.region)
    ensures MatchVhost(VhostUrl(sep, p)) == Some(p)
  {
    var s := VhostUrl(sep, p);
    var P := 8 + |p.bucket|;
    VhostAtComplete(sep, p);
    MatchVhostLongest(s, P);
    var n := 8 + |MatchVhost(s).value.bucket|;
    assert n <= P by {
      if n > P {
        VhostNoLongerBucket(sep, p, n);
      }
    }
  }

  lemma VhostNoLongerBucket(sep: char, p: Parts, b: nat)
    requires IsSep(sep) && Admissible(p) && !("s3" <= p.region)
    requires 8 + |p.bucket| < b
    ensures VhostAt(VhostUrl(sep, p), b).None?
  {
    var s := VhostUrl(sep, p);
    VhostLayout(sep, p);
    if b + 4 <= |s| {
      NoMarkerAfterBucket(s, b, 8 + |p.bucket|, p.region);
      VhostAtNeedsMarker(s, b);
    }
  }

  /** Past the first `.s3`, a virtual-hosted URL offers no other `.s3`
      before its first slash. */
  lemma NoMarkerAfterBucket(s: string, b: nat, P: nat, region: string)
    requires 8 <= P < b && b + 3 <= |s|
    requires s[P] == '.' && s[P + 1] == 's' && s[P + 2] == '3'
    requires region != [] && Lacks(region, '.') && !("s3" <= region)
    requires P + 4 + |region| + 15 <= |s| && s[P + 4..P + 4 + |region|] == region
    requires s[P + 4 + |region|..P + 4 + |region| + 15] == Domain
    ensures Lacks(s[8..b], '/') ==> s[b..b + 3] != ".s3"
  {
    var Q := P + 4 + |region|;
    if b < P + 3 {
      assert s[b..b + 3][0] == s[b];
    } else if b == P + 3 {
      assert s[Q] == Domain[0];
      NoMarkerAtSeparator(s, b, region);
    } else if b < Q {
      assert s[b..b + 3][0] == s[P + 4..Q][b - P - 4];
    } else if b < Q + 15 {
      NoMarkerInDomain(s, b, Q);
    } else {
      assert s[Q + 14] == Domain[14];
      assert s[8..b][Q + 6] == s[Q + 14];
    }
  }

  /** Just after `s3` and the separator, the region (which does not begin
      with `s3`, and is followed by a dot) cannot complete `.s3`. */
  lemma NoMarkerAtSeparator(s: string, b: nat, region: string)
    requires region != [] && !("s3" <= region)
    requires b + 1 + |region| < |s| && s[b + 1..b + 1 + |region|] == region
    requires s[b + 1 + |region|] == '.'
    ensures s[b..b + 3] != ".s3"
  {
    var w := s[b..b + 3];
    if |region| == 1 {
      assert w[2] == s[b + 2] == '.';
    } else {
      assert w[1] == region[0] && w[2] == region[1];
      assert region[..2] != "s3";
    }
  }

  /** Inside `.amazonaws.com/` no dot is followed by `s`. */
  lemma NoMarkerInDomain(s: string, b: nat, Q: nat)
    requires Q <= b < Q + 15 && b + 3 <= |s| && Q + 15 <= |s| && s[Q..Q + 15] == Domain
    ensures s[b..b + 3] != ".s3"
  {
    var w := s[b..b + 3];
    assert w[0] == Domain[b - Q];
    if b == Q || b == Q + 10 {
      assert w[1] == Domain[b - Q + 1];
    }
  }

  lemma VhostAtNeedsMarker(s: string, b: nat)
    requires 8 <= b && b + 4 <= |s| && (Lacks(s[8..b], '/') ==> s[b..b + 3] != ".s3")
    ensures VhostAt(s, b).None?
  {
  }

  /** A virtual-hosted URL (dot or dash form) becomes the dot form with its
      own bucket, region and encoded key. */
  lemma NormalizeVhostStyle(sep: char, p: Parts)
    requires IsSep(sep) && Admissible(p) && !("s3" <= p.region) && (sep == '.' || p.bucket != "s3")
    ensures NormalizeS3Url(Some(VhostUrl(sep, p))) == Some(Canonical(p))
  {
    VhostNotPathStyle(sep, p);
    VhostUnique(sep, p);
  }

  /** The output of a rewrite matches the virtual-hosted pattern again, so a
      second pass encodes the key a second time. */
  lemma NormalizeTwice(p: Parts)
    requires Admissible(p) && !("s3" <= p.region)
    ensures NormalizeS3Url(Some(Canonical(p))) ==
              Some(Canonical(Parts(p.bucket, p.region, EncodeUri(p.key))))
  {
    var k := EncodeUri(p.key);
    EncodeUriAlphabet(p.key);
    assert SingleLine(k) by {
      forall i | 0 <= i < |k| ensures !IsLineTerminator(k[i]) {
        assert IsUriUnescaped(k[i]) || k[i] == '%';
      }
    }
    NormalizeVhostStyle('.', Parts(p.bucket, p.region, k));
  }

  /** The second pass leaves the rewritten URL as it is exactly when
      `encodeURI` leaves the key as it is. */
  lemma NormalizeTwiceFixedIff(p: Parts)
    requires Admissible(p) && !("s3" <= p.region)
    ensures NormalizeS3Url(Some(Canonical(p))) == Some(Canonical(p)) <==> AllUnescaped(p.key)
  {
    NormalizeTwice(p);
    var k := EncodeUri(p.key);
    var once := Canonical(p);
    var twice := Canonical(Parts(p.bucket, p.region, k));
    EncodeUriIdentityIff(k);
    EncodeUriAllUnescapedIff(p.key);
    if once == twice {
      var pre := |Https + p.bucket + ".s3." + p.region + Domain|;
      assert once[pre..] == k;
      assert twice[pre..] == EncodeUri(k);
    }
  }
}
