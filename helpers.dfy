/**
 * The pure helpers of the music service: URL classification, the Spotify
 * track-id extraction, the "m:ss" duration label and the artist heuristic
 * for video titles.
 */
module Helpers {
  import opened Wrappers
  import opened Strings

  // ---------------------------------------------------------------------
  // URL classification (plain substring checks)

  /** `url.includes("youtube.com") || url.includes("youtu.be")`. */
  function IsYouTubeUrl(url: string): (b: bool)
    ensures b <==> (exists i :: OccursAt(url, "youtube.com", i)) || (exists i :: OccursAt(url, "youtu.be", i))
  {
    ContainsIff(url, "youtube.com");
    ContainsIff(url, "youtu.be");
    Contains(url, "youtube.com") || Contains(url, "youtu.be")
  }

  /** `url.includes("spotify.com")`. */
  function IsSpotifyUrl(url: string): (b: bool)
    ensures b <==> exists i :: OccursAt(url, "spotify.com", i)
  {
    ContainsIff(url, "spotify.com");
    Contains(url, "spotify.com")
  }

  // ---------------------------------------------------------------------
  // Spotify track id: the first match of /track\/([a-zA-Z0-9]+)/

  const TrackMarker: string := "track/"

  predicate IsAsciiAlnum(c: char) {
    ('a' <= c <= 'z') || ('A' <= c <= 'Z') || ('0' <= c <= '9')
  }

  /** A match of the pattern starts at `i`: the marker followed by at least one alphanumeric. */
  predicate TrackIdAt(s: string, i: int) {
    OccursAt(s, TrackMarker, i) && i + |TrackMarker| < |s| && IsAsciiAlnum(s[i + |TrackMarker|])
  }

  /** `i` is the leftmost position where the pattern matches. */
  predicate LeftmostTrackIdAt(s: string, i: int) {
    TrackIdAt(s, i) && forall j :: 0 <= j < i ==> !TrackIdAt(s, j)
  }

  /** `id` is the maximal alphanumeric run of `s` that starts at `k`. */
  predicate MaximalRunAt(s: string, k: int, id: string) {
    OccursAt(s, id, k)
    && (forall j :: 0 <= j < |id| ==> IsAsciiAlnum(id[j]))
    && (k + |id| < |s| ==> !IsAsciiAlnum(s[k + |id|]))
  }

  /** Length of the alphanumeric prefix of `s` (the greedy `[a-zA-Z0-9]+`). */
  function AlnumRun(s: string): (n: nat)
    ensures n <= |s|
    ensures forall k :: 0 <= k < n ==> IsAsciiAlnum(s[k])
    ensures n < |s| ==> !IsAsciiAlnum(s[n])
  {
    if s == [] || !IsAsciiAlnum(s[0]) then 0 else 1 + AlnumRun(s[1..])
  }

  /** The first position at or after `from` where the pattern matches. */
  function FindTrackId(s: string, from: nat): (r: Option<nat>)
    ensures r.Some? ==> from <= r.value && TrackIdAt(s, r.value)
    ensures r.Some? ==> forall j :: from <= j < r.value ==> !TrackIdAt(s, j)
    ensures r.None? ==> forall j :: from <= j ==> !TrackIdAt(s, j)
    decreases |s| - from
  {
    if from >= |s| then None
    else if TrackIdAt(s, from) then Some(from)
    else FindTrackId(s, from + 1)
  }

  /** `url.match(/track\/([a-zA-Z0-9]+)/)?.[1] ?? null`. */
  function ExtractSpotifyId(url: string): Option<string>
  {
    match FindTrackId(url, 0)
    case None => None
    case Some(i) =>
      var k := i + |TrackMarker|;
      Some(url[k..k + AlnumRun(url[k..])])
  }

  /**
   * The id is absent exactly when "track/" followed by an alphanumeric occurs
   * nowhere; otherwise it is the whole alphanumeric run after the leftmost
   * such occurrence.
   */
  lemma ExtractSpotifyIdSpec(url: string)
    ensures ExtractSpotifyId(url).None? <==> forall i :: !TrackIdAt(url, i)
    ensures ExtractSpotifyId(url).Some? ==>
      exists i :: LeftmostTrackIdAt(url, i) && MaximalRunAt(url, i + |TrackMarker|, ExtractSpotifyId(url).value)
    ensures ExtractSpotifyId(url).Some? ==> |ExtractSpotifyId(url).value| >= 1
  {
    match FindTrackId(url, 0)
    case None =>
    case Some(i) =>
      var k := i + |TrackMarker|;
      var n := AlnumRun(url[k..]);
      var id := url[k..k + n];
      assert id == url[k..][..n];
      assert OccursAt(url, id, k);
      assert k + n < |url| ==> url[k + n] == url[k..][n];
      assert MaximalRunAt(url, k, id);
      assert LeftmostTrackIdAt(url, i);
  }

  // ---------------------------------------------------------------------
  // Duration label

  /** `${Math.floor(n / 60)}:${(n % 60).toString().padStart(2, "0")}` for a whole number of seconds. */
  function FormatDuration(seconds: nat): string
  {
    NatToString(seconds / 60) + ":" + PadStart(NatToString(seconds % 60), 2, '0')
  }

  /**
   * The label is "<minutes>:<ss>": the minutes in decimal without padding, a
   * colon, and exactly two digits that read back as the seconds below 60, so
   * the label determines the number of seconds.
   */
  lemma FormatDurationRoundTrip(seconds: nat)
    ensures var r := FormatDuration(seconds);
      && |r| >= 4
      && r[|r| - 3] == ':'
      && AllDigits(r[..|r| - 3]) && AllDigits(r[|r| - 2..])
      && ParseDigits(r[..|r| - 3]) == seconds / 60
      && ParseDigits(r[|r| - 2..]) == seconds % 60
      && 60 * ParseDigits(r[..|r| - 3]) + ParseDigits(r[|r| - 2..]) == seconds
  {
    var mm := NatToString(seconds / 60);
    var ss := PadStart(NatToString(seconds % 60), 2, '0');
    NatToStringRoundTrip(seconds / 60);
    PaddedRoundTrip(seconds % 60);
    SplitLabel(mm, ss);
    assert FormatDuration(seconds) == mm + ":" + ss;
  }

  lemma SplitLabel(mm: string, ss: string)
    requires |ss| == 2
    ensures var r := mm + ":" + ss; r[..|r| - 3] == mm && r[|r| - 2..] == ss && r[|r| - 3] == ':'
  {
    var r := mm + ":" + ss;
    assert r[..|r| - 3] == mm;
    assert r[|r| - 2..] == ss;
  }

  /** A number below 100 padded to two digits reads back as itself. */
  lemma PaddedRoundTrip(n: nat)
    requires n < 100
    ensures var ss := PadStart(NatToString(n), 2, '0');
      |ss| == 2 && AllDigits(ss) && ParseDigits(ss) == n
  {
    var ss := PadStart(NatToString(n), 2, '0');
    if n < 10 {
      assert ss == ['0', DigitChar(n)];
      assert ss[..1] == ['0'] && ss[..1][..0] == [];
      assert ParseDigits(ss[..1]) == 0;
    } else {
      assert NatToString(n / 10) == [DigitChar(n / 10)];
      assert ss == [DigitChar(n / 10), DigitChar(n % 10)];
      assert ss[..1] == [DigitChar(n / 10)];
    }
  }

  // ---------------------------------------------------------------------
  // Artist heuristic: title.match(/^([^-]+)\s*-\s*(.+)$/)?.[1].trim() ?? "Unknown Artist"

  const UnknownArtist: string := "Unknown Artist"

  /** Index of the first `c` in `s`. */
  function IndexOf(s: string, c: char): (r: Option<nat>)
    ensures r.Some? ==> r.value < |s| && s[r.value] == c && forall k :: 0 <= k < r.value ==> s[k] != c
    ensures r.None? ==> forall k :: 0 <= k < |s| ==> s[k] != c
  {
    if s == [] then None
    else if s[0] == c then Some(0)
    else match IndexOf(s[1..], c)
      case None => None
      case Some(k) => Some(k + 1)
  }

  /** The tail `\s*(.+)$`: optional white space, then at least one character up to the end, no line terminator among them. */
  function TailMatches(t: string): bool
  {
    |t| > 0 && (NoLineTerminator(t) || (IsWhitespace(t[0]) && TailMatches(t[1..])))
  }

  /** The tail may be split after white space into a non-empty rest without line terminators. */
  predicate TailSplit(t: string, k: int) {
    0 <= k < |t| && AllWhitespace(t[..k]) && NoLineTerminator(t[k..])
  }

  lemma {:induction false} TailMatchesIff(t: string)
    ensures TailMatches(t) <==> exists k :: TailSplit(t, k)
  {
    if |t| == 0 {
    } else if NoLineTerminator(t) {
      assert t[0..] == t;
      assert TailSplit(t, 0);
    } else {
      TailMatchesIff(t[1..]);
      if exists k :: TailSplit(t[1..], k) {
        var k :| TailSplit(t[1..], k);
        if IsWhitespace(t[0]) {
          assert t[..k + 1] == [t[0]] + t[1..][..k];
          assert t[k + 1..] == t[1..][k..];
          assert TailSplit(t, k + 1);
        }
      }
      forall k | TailSplit(t, k)
        ensures IsWhitespace(t[0]) && TailSplit(t[1..], k - 1)
      {
        assert t[0..] == t;
        assert k > 0;
        assert t[..k][0] == t[0];
        assert t[1..][..k - 1] == t[1..k];
        assert t[1..][k - 1..] == t[k..];
      }
    }
  }

  /**
   * A match of /^([^-]+)\s*-\s*(.+)$/ in which the greedy group ends at the
   * first hyphen `i`: a non-empty hyphen-free head, the hyphen, white space
   * up to `k`, and a non-empty rest without line terminators.
   */
  predicate ArtistPatternAt(title: string, i: int, k: int) {
    && 1 <= i < |title|
    && title[i] == '-'
    && (forall j :: 0 <= j < i ==> title[j] != '-')
    && TailSplit(title[i + 1..], k)
  }

  /** The first capture group, when the title matches. */
  function ArtistGroup(title: string): Option<string>
  {
    match IndexOf(title, '-')
    case None => None
    case Some(i) => if i >= 1 && TailMatches(title[i + 1..]) then Some(title[..i]) else None
  }

  /** `extractArtistFromTitle`. */
  function ExtractArtistFromTitle(title: string): string
  {
    match ArtistGroup(title)
    case Some(g) => Trim(g)
    case None => UnknownArtist
  }

  /**
   * The artist is the trimmed text before the first hyphen whenever the title
   * matches the pattern (that hyphen is not the first character and at least
   * one character follows it, the tail has no line break after its leading
   * white space), and "Unknown Artist" otherwise.
   */
  lemma ExtractArtistFromTitleSpec(title: string)
    ensures (forall i, k :: !ArtistPatternAt(title, i, k)) ==> ExtractArtistFromTitle(title) == UnknownArtist
    ensures forall i, k :: ArtistPatternAt(title, i, k) ==> ExtractArtistFromTitle(title) == Trim(title[..i])
  {
    forall i, k | ArtistPatternAt(title, i, k)
      ensures ExtractArtistFromTitle(title) == Trim(title[..i])
    {
      ArtistGroupAt(title, i, k);
    }
    if ArtistGroup(title).Some? {
      var i := IndexOf(title, '-').value;
      TailMatchesIff(title[i + 1..]);
      var k :| TailSplit(title[i + 1..], k);
      assert ArtistPatternAt(title, i, k);
    }
  }

  /** A match can only end its group at the first hyphen. */
  lemma ArtistGroupAt(title: string, i: int, k: int)
    requires ArtistPatternAt(title, i, k)
    ensures ArtistGroup(title) == Some(title[..i])
  {
    var r := IndexOf(title, '-');
    assert r.Some?;
    assert r.value == i;
    TailMatchesIff(title[i + 1..]);
    assert TailSplit(title[i + 1..], k);
  }
}
