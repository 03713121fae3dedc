/**
 * The three URL patterns of server.ts (lines 22-26), the candidate fix-up
 * and the "looks like a video" test (lines 33-41), written as scanners.
 *
 * Each global regex is modelled by the loop `String.prototype.match` runs
 * with the `g` flag: try a match at the current position, and on success
 * record it and continue where it ended, otherwise move one character on.
 * A URL character is one that `[^\s<>"']` accepts. Under `/i` only ASCII
 * letters fold, so the case-insensitive comparisons use `Lower`.
 */
module UrlScan {
  import opened Base

  // ---------------------------------------------------------------- characters

  /** JavaScript's `\s`: the whitespace and line terminators of ECMAScript. */
  predicate JsSpace(c: char) {
    c == '\t' || c == '\n' || c == '\U{000B}' || c == '\U{000C}' || c == '\r' || c == ' ' ||
    c == '\U{00A0}' || c == '\U{1680}' || ('\U{2000}' <= c <= '\U{200A}') ||
    c == '\U{2028}' || c == '\U{2029}' || c == '\U{202F}' || c == '\U{205F}' ||
    c == '\U{3000}' || c == '\U{FEFF}'
  }

  /** A character of the class `[^\s<>"']`. */
  predicate UrlChar(c: char) {
    !JsSpace(c) && c != '<' && c != '>' && c != '"' && c != '\''
  }

  /** The end of the longest run of URL characters starting at `k`. */
  function RunEnd(s: string, k: nat): (e: nat)
    requires k <= |s|
    ensures k <= e <= |s|
    ensures forall i :: k <= i < e ==> UrlChar(s[i])
    ensures e == |s| || !UrlChar(s[e])
    decreases |s| - k
  {
    if k < |s| && UrlChar(s[k]) then RunEnd(s, k + 1) else k
  }

  /** `w` occurs at `i` in `s`, ASCII letters compared without case. */
  predicate OccursAtIgnoreCase(s: string, w: string, i: nat) {
    i <= |s| && StartsWithIgnoreCase(s[i..], w)
  }

  // ---------------------------------------------------------------- pattern 1

  /**
   * The length of the scheme with which `/https?:\/\/[^\s<>"']+/` matches at
   * `i`, 0 when it does not: `s?` tries "https://" first, and the class
   * must then accept at least one character.
   */
  function SchemeLength(s: string, i: nat): nat {
    if OccursAt(s, "https://", i) && i + 8 < |s| && UrlChar(s[i + 8]) then 8
    else if OccursAt(s, "http://", i) && i + 7 < |s| && UrlChar(s[i + 7]) then 7
    else 0
  }

  /** The matches of pattern 1 (server.ts:23) at or after `p`. */
  function Pattern1From(s: string, p: nat): seq<string>
    requires p <= |s|
    decreases |s| - p
  {
    if p == |s| then []
    else if SchemeLength(s, p) > 0 then
      var e := RunEnd(s, p + SchemeLength(s, p));
      [s[p..e]] + Pattern1From(s, e)
    else Pattern1From(s, p + 1)
  }

  // ---------------------------------------------------------------- patterns 2 and 3

  /** The length of `.mp4`, `.webm`, `.mov` or `.avi` at `i`, case-insensitively; 0 when none. */
  function ExtLength(s: string, i: nat): nat {
    if OccursAtIgnoreCase(s, ".mp4", i) || OccursAtIgnoreCase(s, ".mov", i) ||
       OccursAtIgnoreCase(s, ".avi", i) then 4
    else if OccursAtIgnoreCase(s, ".webm", i) then 5
    else 0
  }

  /** The length of `video`, `media` or `cdn` at `i`, case-insensitively; 0 when none. */
  function KeywordLength(s: string, i: nat): nat {
    if OccursAtIgnoreCase(s, "video", i) || OccursAtIgnoreCase(s, "media", i) then 5
    else if OccursAtIgnoreCase(s, "cdn", i) then 3
    else 0
  }

  /** An extension starts at or after `j` and ends by `e`. */
  predicate HasExt(s: string, j: nat, e: nat)
    decreases e - j
  {
    j < e && ((ExtLength(s, j) > 0 && j + ExtLength(s, j) <= e) || HasExt(s, j + 1, e))
  }

  /** A keyword starts at or after `j`, and an extension follows it by `e`. */
  predicate HasKeywordThenExt(s: string, j: nat, e: nat)
    decreases e - j
  {
    j < e &&
    ((KeywordLength(s, j) > 0 && j + KeywordLength(s, j) <= e && HasExt(s, j + KeywordLength(s, j), e)) ||
     HasKeywordThenExt(s, j + 1, e))
  }

  /**
   * The matches of pattern 2 (server.ts:24). At `p` the optional scheme and
   * the classes make the match run to the end of the URL characters, and it
   * succeeds when an extension lies inside that run.
   */
  function Pattern2From(s: string, p: nat): seq<string>
    requires p <= |s|
    decreases |s| - p
  {
    if p == |s| then []
    else
      var e := RunEnd(s, p);
      if HasExt(s, p, e) then [s[p..e]] + Pattern2From(s, e) else Pattern2From(s, p + 1)
  }

  /** The matches of pattern 3 (server.ts:25): a keyword, then an extension, inside the run. */
  function Pattern3From(s: string, p: nat): seq<string>
    requires p <= |s|
    decreases |s| - p
  {
    if p == |s| then []
    else
      var e := RunEnd(s, p);
      if HasKeywordThenExt(s, p, e) then [s[p..e]] + Pattern3From(s, e) else Pattern3From(s, p + 1)
  }

  /** `content.match(urlPatterns[k])`, the empty sequence standing for `null`. */
  function Matches(k: nat, content: string): seq<string>
    requires k < 3
  {
    if k == 0 then Pattern1From(content, 0)
    else if k == 1 then Pattern2From(content, 0)
    else Pattern3From(content, 0)
  }

  // ---------------------------------------------------------------- acceptance

  /** server.ts:33-36: a candidate without "http" in front gets "https://". */
  function WithScheme(m: string): (u: string)
    ensures StartsWith(u, "http")
    ensures StartsWith(m, "http") ==> u == m
    ensures !StartsWith(m, "http") ==> u == "https://" + m
  {
    if StartsWith(m, "http") then m
    else
      assert ("https://" + m)[..4] == "http";
      "https://" + m
  }

  /** `/\.(mp4|webm|mov|avi)(\?|$)/i` finds an extension, at or after `j`, followed by `?` or the end. */
  predicate ExtBeforeQueryOrEnd(u: string, j: nat)
    decreases |u| - j
  {
    j < |u| &&
    ((ExtLength(u, j) > 0 && (j + ExtLength(u, j) == |u| || u[j + ExtLength(u, j)] == '?')) ||
     ExtBeforeQueryOrEnd(u, j + 1))
  }

  /** server.ts:38-41; the substring tests are case-sensitive. */
  predicate LooksLikeVideo(u: string) {
    ExtBeforeQueryOrEnd(u, 0) || Includes(u, "video") || Includes(u, "media") || Includes(u, "cdn")
  }

  /** The inner loop of server.ts:31-46: the first match that, fixed up, looks like a video. */
  function FirstAccepted(ms: seq<string>): Option<string> {
    if ms == [] then None
    else if LooksLikeVideo(WithScheme(ms[0])) then Some(WithScheme(ms[0]))
    else FirstAccepted(ms[1..])
  }

  /**
   * The pattern loop of server.ts:28-49 from pattern `k` on, with `v` the
   * current `videoUrl`. A pattern with no match is passed over; after one
   * with matches the loop stops as soon as `videoUrl` is set, whether by
   * this pattern or by an earlier line.
   */
  function ScanFrom(content: string, k: nat, v: Option<string>): Option<string>
    requires k <= 3
    decreases 3 - k
  {
    if k == 3 then v
    else
      var ms := Matches(k, content);
      if ms == [] then ScanFrom(content, k + 1, v)
      else
        var found := FirstAccepted(ms);
        var v' := if found.Some? then found else v;
        if v'.Some? then v' else ScanFrom(content, k + 1, v')
  }

  function ScanPatterns(content: string, v: Option<string>): Option<string> {
    ScanFrom(content, 0, v)
  }

  // ---------------------------------------------------------------- lemmas

  /** Every match of pattern 1 carries its scheme, so the fix-up leaves it alone. */
  lemma {:induction false} Pattern1HasScheme(s: string, p: nat)
    requires p <= |s|
    ensures forall m :: m in Pattern1From(s, p) ==>
      (StartsWith(m, "http://") || StartsWith(m, "https://")) && WithScheme(m) == m
    decreases |s| - p
  {
    if p < |s| {
      var n := SchemeLength(s, p);
      if n > 0 {
        var e := RunEnd(s, p + n);
        var m := s[p..e];
        assert m[..n] == s[p..p + n];
        assert StartsWith(m, "http");
        Pattern1HasScheme(s, e);
      } else {
        Pattern1HasScheme(s, p + 1);
      }
    }
  }

  /** A non-empty string of URL characters. */
  predicate UrlRun(m: string) {
    m != [] && forall i :: 0 <= i < |m| ==> UrlChar(m[i])
  }

  /** Every match of the three patterns is a non-empty run of URL characters. */
  lemma {:induction false} MatchesAreUrlRuns(k: nat, s: string)
    requires k < 3
    ensures forall m :: m in Matches(k, s) ==> UrlRun(m)
  {
    if k == 0 { Pattern1Runs(s, 0); }
    else if k == 1 { Pattern2Runs(s, 0); }
    else { Pattern3Runs(s, 0); }
  }

  /** A slice of the string that lies inside a run of URL characters is a run. */
  lemma SliceIsRun(s: string, p: nat, e: nat)
    requires p < e <= |s| && forall i :: p <= i < e ==> UrlChar(s[i])
    ensures UrlRun(s[p..e])
  {
    forall i | 0 <= i < e - p ensures UrlChar(s[p..e][i]) {
      assert s[p..e][i] == s[p + i];
    }
  }

  lemma {:induction false} Pattern1Runs(s: string, p: nat)
    requires p <= |s|
    ensures forall m :: m in Pattern1From(s, p) ==> UrlRun(m)
    decreases |s| - p
  {
    if p < |s| {
      var n := SchemeLength(s, p);
      if n > 0 {
        var e := RunEnd(s, p + n);
        SchemeIsUrlText(s, p, n);
        SliceIsRun(s, p, e);
        Pattern1Runs(s, e);
        assert Pattern1From(s, p) == [s[p..e]] + Pattern1From(s, e);
      } else {
        Pattern1Runs(s, p + 1);
      }
    }
  }

  /** The scheme "http://" or "https://" consists of URL characters. */
  lemma SchemeIsUrlText(s: string, p: nat, n: nat)
    requires p <= |s| && n == SchemeLength(s, p) && n > 0
    ensures forall i :: p <= i < p + n ==> UrlChar(s[i])
  {
    forall i | p <= i < p + n ensures UrlChar(s[i]) {
      assert s[i] == s[p..p + n][i - p];
    }
  }

  lemma {:induction false} Pattern2Runs(s: string, p: nat)
    requires p <= |s|
    ensures forall m :: m in Pattern2From(s, p) ==> UrlRun(m)
    decreases |s| - p
  {
    if p < |s| {
      var e := RunEnd(s, p);
      if HasExt(s, p, e) {
        SliceIsRun(s, p, e);
        Pattern2Runs(s, e);
        assert Pattern2From(s, p) == [s[p..e]] + Pattern2From(s, e);
      } else {
        Pattern2Runs(s, p + 1);
      }
    }
  }

  lemma {:induction false} Pattern3Runs(s: string, p: nat)
    requires p <= |s|
    ensures forall m :: m in Pattern3From(s, p) ==> UrlRun(m)
    decreases |s| - p
  {
    if p < |s| {
      var e := RunEnd(s, p);
      if HasKeywordThenExt(s, p, e) {
        SliceIsRun(s, p, e);
        Pattern3Runs(s, e);
        assert Pattern3From(s, p) == [s[p..e]] + Pattern3From(s, e);
      } else {
        Pattern3Runs(s, p + 1);
      }
    }
  }

  /** A run that holds a keyword before an extension holds an extension. */
  lemma {:induction false} KeywordThenExtHasExt(s: string, j: nat, e: nat)
    requires HasKeywordThenExt(s, j, e)
    ensures HasExt(s, j, e)
    decreases e - j
  {
    if KeywordLength(s, j) > 0 && j + KeywordLength(s, j) <= e && HasExt(s, j + KeywordLength(s, j), e) {
      ExtLater(s, j, j + KeywordLength(s, j), e);
    } else {
      KeywordThenExtHasExt(s, j + 1, e);
    }
  }

  lemma {:induction false} ExtLater(s: string, j: nat, j': nat, e: nat)
    requires j <= j' && HasExt(s, j', e)
    ensures HasExt(s, j, e)
    decreases j' - j
  {
    if j < j' { ExtLater(s, j + 1, j', e); }
  }

  /**
   * Pattern 3 finds nothing pattern 2 does not: at every position where it
   * would match, pattern 2 matches the same run.
   */
  lemma Pattern3WithinPattern2(s: string, p: nat)
    requires p < |s| && HasKeywordThenExt(s, p, RunEnd(s, p))
    ensures HasExt(s, p, RunEnd(s, p))
  {
    KeywordThenExtHasExt(s, p, RunEnd(s, p));
  }

  /** `FirstAccepted` picks the first accepted match, and finds none only when there is none. */
  lemma {:induction false} FirstAcceptedIsFirst(ms: seq<string>)
    ensures FirstAccepted(ms).Some? ==>
      exists i :: 0 <= i < |ms| && FirstAccepted(ms) == Some(WithScheme(ms[i])) &&
        LooksLikeVideo(WithScheme(ms[i])) &&
        forall j :: 0 <= j < i ==> !LooksLikeVideo(WithScheme(ms[j]))
    ensures FirstAccepted(ms).None? <==> forall i :: 0 <= i < |ms| ==> !LooksLikeVideo(WithScheme(ms[i]))
  {
    if ms != [] && !LooksLikeVideo(WithScheme(ms[0])) {
      FirstAcceptedIsFirst(ms[1..]);
      if FirstAccepted(ms).Some? {
        var i :| 0 <= i < |ms[1..]| && FirstAccepted(ms[1..]) == Some(WithScheme(ms[1..][i])) &&
          LooksLikeVideo(WithScheme(ms[1..][i])) &&
          forall j :: 0 <= j < i ==> !LooksLikeVideo(WithScheme(ms[1..][j]));
        assert ms[1..][i] == ms[i + 1];
        forall j | 0 <= j < i + 1 ensures !LooksLikeVideo(WithScheme(ms[j])) {
          if j > 0 { assert ms[j] == ms[1..][j - 1]; }
        }
      }
      forall i | 0 < i < |ms| ensures ms[i] == ms[1..][i - 1] { }
    }
  }

  /** A fix-up that is accepted is a URL that starts with "http" and looks like a video. */
  predicate VideoLike(u: string) {
    StartsWith(u, "http") && LooksLikeVideo(u)
  }

  /** A URL the scan of `content` can produce: the fix-up of an accepted match of one of the patterns. */
  predicate IsCandidate(content: string, u: string) {
    exists k, i | 0 <= k < 3 && 0 <= i < |Matches(k, content)| ::
      u == WithScheme(Matches(k, content)[i]) && LooksLikeVideo(u)
  }

  /**
   * The scan hands back the `videoUrl` it was given or a candidate of this
   * content; either way a new value starts with "http" and looks like a video.
   */
  lemma {:induction false} ScanFromResult(content: string, k: nat, v: Option<string>)
    requires k <= 3
    ensures var r := ScanFrom(content, k, v);
      r == v || (r.Some? && IsCandidate(content, r.value) && VideoLike(r.value))
    decreases 3 - k
  {
    if k < 3 {
      var ms := Matches(k, content);
      if ms == [] {
        ScanFromResult(content, k + 1, v);
      } else {
        var found := FirstAccepted(ms);
        FirstAcceptedIsFirst(ms);
        if found.Some? {
          var i :| 0 <= i < |ms| && found == Some(WithScheme(ms[i])) && LooksLikeVideo(WithScheme(ms[i]));
          assert IsCandidate(content, found.value);
        } else if v.None? {
          ScanFromResult(content, k + 1, v);
        }
      }
    }
  }

  /** With no earlier URL the scan is: the first accepted match of pattern 1, else of 2, else of 3. */
  lemma FreshScanTakesPatternsInOrder(content: string)
    ensures ScanPatterns(content, None) ==
      if FirstAccepted(Matches(0, content)).Some? then FirstAccepted(Matches(0, content))
      else if FirstAccepted(Matches(1, content)).Some? then FirstAccepted(Matches(1, content))
      else FirstAccepted(Matches(2, content))
  {
    assert ScanFrom(content, 1, None) ==
      if FirstAccepted(Matches(1, content)).Some? then FirstAccepted(Matches(1, content))
      else ScanFrom(content, 2, None);
  }

  /** An accepted match of pattern 1 replaces whatever `videoUrl` held. */
  lemma FirstPatternOverwrites(content: string, v: Option<string>)
    requires FirstAccepted(Matches(0, content)).Some?
    ensures ScanPatterns(content, v) == FirstAccepted(Matches(0, content))
  {
  }

  /**
   * The `if (videoUrl) break;` of server.ts:47 reads the value left by an
   * earlier line: when one is set and pattern 1 matches without an accepted
   * candidate, patterns 2 and 3 are not tried and the old value stays.
   */
  lemma EarlierUrlStopsScan(content: string, w: string)
    requires Matches(0, content) != [] && FirstAccepted(Matches(0, content)).None?
    ensures ScanPatterns(content, Some(w)) == Some(w)
  {
  }
}
