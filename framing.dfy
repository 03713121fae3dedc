/**
 * `String.prototype.split` with a non-empty string separator, and the
 * "split the buffer, keep the last piece" idiom that both stream readers use
 * (`buffer.split('\n')` in server.ts, `buffer.split('\n\n')` in
 * feishu-frontend.js, each followed by `buffer = lines.pop() || ''`).
 *
 * The lemmas here are what lets a reader that sees its input in arbitrary
 * chunks be proved equal to one that sees all of it at once.
 */
module Framing {
  import opened Base

  /** `sep` occurs nowhere in `s`. */
  predicate Free(s: string, sep: string) {
    forall i :: 0 <= i <= |s| ==> !OccursAt(s, sep, i)
  }

  /**
   * A piece that ends where the leftmost following `sep` starts: no
   * occurrence of `sep` begins inside `f`, even one running into the
   * separator behind it (for "\n\n": `f` has no blank line and does not end
   * in '\n').
   */
  predicate Clean(f: string, sep: string) {
    forall i :: 0 <= i < |f| ==> !OccursAt(f + sep, sep, i)
  }

  predicate AllClean(fs: seq<string>, sep: string) {
    forall j :: 0 <= j < |fs| ==> Clean(fs[j], sep)
  }

  /** The leftmost occurrence of `sep` at or after `k`, or `|s|` when none. */
  function IndexOf(s: string, sep: string, k: nat): (i: nat)
    requires sep != "" && k <= |s|
    ensures k <= i <= |s|
    ensures i < |s| ==> OccursAt(s, sep, i)
    ensures forall j :: k <= j < i ==> !OccursAt(s, sep, j)
    decreases |s| - k
  {
    if k == |s| then |s|
    else if OccursAt(s, sep, k) then k
    else IndexOf(s, sep, k + 1)
  }

  /** `s.split(sep)`: never empty; "" splits into [""]. */
  function Split(s: string, sep: string): (parts: seq<string>)
    requires sep != ""
    ensures |parts| >= 1
    decreases |s|
  {
    var i := IndexOf(s, sep, 0);
    if i == |s| then [s] else [s[..i]] + Split(s[i + |sep|..], sep)
  }

  /** The pieces followed by a separator: what `lines.pop()` leaves in `lines`. */
  function Complete(s: string, sep: string): seq<string>
    requires sep != ""
  {
    var parts := Split(s, sep);
    parts[..|parts| - 1]
  }

  /** The piece after the last separator: what `lines.pop()` returns. */
  function Pending(s: string, sep: string): string
    requires sep != ""
  {
    var parts := Split(s, sep);
    parts[|parts| - 1]
  }

  /** Each piece followed by the separator. */
  function Terminated(fs: seq<string>, sep: string): string {
    if fs == [] then "" else fs[0] + sep + Terminated(fs[1..], sep)
  }

  /** `text` is cut into complete pieces `fs` and a pending remainder `rest`. */
  predicate Cut(text: string, fs: seq<string>, rest: string, sep: string) {
    text == Terminated(fs, sep) + rest && AllClean(fs, sep) && Free(rest, sep)
  }

  lemma {:induction false} TerminatedAppend(f: seq<string>, g: seq<string>, sep: string)
    ensures Terminated(f + g, sep) == Terminated(f, sep) + Terminated(g, sep)
    decreases |f|
  {
    if f == [] {
      assert f + g == g;
    } else {
      assert (f + g)[1..] == f[1..] + g;
      TerminatedAppend(f[1..], g, sep);
    }
  }

  lemma {:induction false} TerminatedEndsWithSep(fs: seq<string>, sep: string)
    requires fs != []
    ensures |Terminated(fs, sep)| >= |sep|
    ensures Terminated(fs, sep)[|Terminated(fs, sep)| - |sep|..] == sep
    decreases |fs|
  {
    if fs[1..] != [] {
      TerminatedEndsWithSep(fs[1..], sep);
    }
  }

  /** An occurrence inside a prefix is an occurrence in the whole string. */
  lemma OccursInPrefix(s: string, t: string, sep: string, j: int)
    requires 0 <= j && j + |sep| <= |s|
    ensures OccursAt(s + t, sep, j) == OccursAt(s, sep, j)
  {
    assert (s + t)[j..j + |sep|] == s[j..j + |sep|];
  }

  /** Splitting and re-joining gives the text back. */
  lemma {:induction false} SplitJoin(s: string, sep: string)
    requires sep != ""
    ensures s == Terminated(Complete(s, sep), sep) + Pending(s, sep)
    decreases |s|
  {
    var i := IndexOf(s, sep, 0);
    if i < |s| {
      var rest := s[i + |sep|..];
      SplitJoin(rest, sep);
      var parts, tail := Split(s, sep), Split(rest, sep);
      assert parts == [s[..i]] + tail;
      assert Complete(s, sep) == [s[..i]] + Complete(rest, sep);
      assert Pending(s, sep) == Pending(rest, sep);
      assert s == s[..i] + sep + rest;
      JoinFront(s[..i], Complete(rest, sep), Pending(rest, sep), rest, sep);
    }
  }

  lemma JoinFront(f: string, fs: seq<string>, last: string, rest: string, sep: string)
    requires rest == Terminated(fs, sep) + last
    ensures f + sep + rest == Terminated([f] + fs, sep) + last
  {
    assert ([f] + fs)[1..] == fs;
  }

  /** The pieces `split` produces before the last are clean; the last has no separator. */
  lemma {:induction false} SplitPieces(s: string, sep: string)
    requires sep != ""
    ensures AllClean(Complete(s, sep), sep)
    ensures Free(Pending(s, sep), sep)
    decreases |s|
  {
    var i := IndexOf(s, sep, 0);
    if i < |s| {
      var rest := s[i + |sep|..];
      SplitPieces(rest, sep);
      assert Complete(s, sep) == [s[..i]] + Complete(rest, sep);
      assert s[..i] + sep == s[..i + |sep|];
      forall j | 0 <= j < i
        ensures !OccursAt(s[..i] + sep, sep, j)
      {
        assert s == s[..i + |sep|] + s[i + |sep|..];
        OccursInPrefix(s[..i + |sep|], s[i + |sep|..], sep, j);
      }
    }
  }

  /** A string without the separator splits into itself alone. */
  lemma SplitFree(b: string, sep: string)
    requires sep != "" && Free(b, sep)
    ensures Split(b, sep) == [b]
  {
  }

  /** Cutting is unique: the leftmost-first split recovers any clean cut. */
  lemma {:induction false} SplitOfCut(fs: seq<string>, rest: string, sep: string)
    requires sep != ""
    requires AllClean(fs, sep) && Free(rest, sep)
    ensures Split(Terminated(fs, sep) + rest, sep) == fs + [rest]
    decreases |fs|
  {
    if fs == [] {
      assert Terminated(fs, sep) + rest == rest;
      SplitFree(rest, sep);
    } else {
      AllCleanTail(fs, sep);
      SplitOfCut(fs[1..], rest, sep);
      SplitOfCutStep(fs, rest, sep);
    }
  }

  /** The inductive step of `SplitOfCut`: a clean first piece splits off in front of the rest's split. */
  lemma SplitOfCutStep(fs: seq<string>, rest: string, sep: string)
    requires sep != "" && fs != [] && Clean(fs[0], sep)
    requires Split(Terminated(fs[1..], sep) + rest, sep) == fs[1..] + [rest]
    ensures Split(Terminated(fs, sep) + rest, sep) == fs + [rest]
  {
    TerminatedCons(fs, rest, sep);
    SplitAfterClean(fs[0], Terminated(fs[1..], sep) + rest, sep);
    assert [fs[0]] + (fs[1..] + [rest]) == fs + [rest];
  }

  lemma TerminatedCons(fs: seq<string>, rest: string, sep: string)
    requires fs != []
    ensures Terminated(fs, sep) + rest == (fs[0] + sep) + (Terminated(fs[1..], sep) + rest)
  {
  }

  /** A clean piece followed by the separator splits off first. */
  lemma SplitAfterClean(f: string, r: string, sep: string)
    requires sep != "" && Clean(f, sep)
    ensures Split((f + sep) + r, sep) == [f] + Split(r, sep)
  {
    FirstSeparatorAfterClean(f, r, sep);
  }

  /** After a clean piece, the leftmost separator is the one right behind it. */
  lemma FirstSeparatorAfterClean(f: string, r: string, sep: string)
    requires sep != "" && Clean(f, sep)
    ensures var s := (f + sep) + r;
      IndexOf(s, sep, 0) == |f| && s[..|f|] == f && s[|f| + |sep|..] == r
  {
    SeparatorBehindClean(f, r, sep);
    IndexOfFinds((f + sep) + r, sep, 0, |f|);
    SlicesAroundSeparator(f, r, sep);
  }

  lemma SeparatorBehindClean(f: string, r: string, sep: string)
    requires Clean(f, sep)
    ensures OccursAt((f + sep) + r, sep, |f|)
    ensures forall j :: 0 <= j < |f| ==> !OccursAt((f + sep) + r, sep, j)
  {
    var s := (f + sep) + r;
    assert s[|f|..|f| + |sep|] == sep;
    forall j | 0 <= j < |f|
      ensures !OccursAt(s, sep, j)
    {
      OccursInPrefix(f + sep, r, sep, j);
    }
  }

  lemma SlicesAroundSeparator(f: string, r: string, sep: string)
    ensures ((f + sep) + r)[..|f|] == f && ((f + sep) + r)[|f| + |sep|..] == r
  {
    var s := (f + sep) + r;
    assert s[|f| + |sep|..] == r;
    assert s[..|f|] == f;
  }

  /** `IndexOf` finds an occurrence with none before it. */
  lemma {:induction false} IndexOfFinds(s: string, sep: string, k: nat, p: nat)
    requires sep != "" && k <= p && OccursAt(s, sep, p)
    requires forall j :: k <= j < p ==> !OccursAt(s, sep, j)
    ensures p < |s| && IndexOf(s, sep, k) == p
    decreases p - k
  {
    if k < p {
      IndexOfFinds(s, sep, k + 1, p);
    }
  }

  lemma AllCleanTail(fs: seq<string>, sep: string)
    requires fs != [] && AllClean(fs, sep)
    ensures Clean(fs[0], sep) && AllClean(fs[1..], sep)
  {
    forall j | 0 <= j < |fs[1..]| ensures Clean(fs[1..][j], sep) {
      assert fs[1..][j] == fs[j + 1];
    }
  }

  /** So a cut determines `Complete` and `Pending`. */
  lemma CutIsSplit(text: string, fs: seq<string>, rest: string, sep: string)
    requires sep != "" && Cut(text, fs, rest, sep)
    ensures Complete(text, sep) == fs && Pending(text, sep) == rest
  {
    SplitOfCut(fs, rest, sep);
    assert (fs + [rest])[..|fs|] == fs;
  }

  /**
   * One read-loop step: append a chunk to the pending remainder, split, and
   * keep the last piece. The cut of the text received so far is extended.
   */
  lemma CutStep(text: string, fs: seq<string>, rest: string, chunk: string, sep: string)
    requires sep != "" && Cut(text, fs, rest, sep)
    ensures Cut(text + chunk, fs + Complete(rest + chunk, sep), Pending(rest + chunk, sep), sep)
  {
    var parts, last := Complete(rest + chunk, sep), Pending(rest + chunk, sep);
    CutTextStep(text, fs, rest, chunk, sep);
    SplitPieces(rest + chunk, sep);
    AllCleanAppend(fs, parts, sep);
  }

  /** The text part of `CutStep`. */
  lemma CutTextStep(text: string, fs: seq<string>, rest: string, chunk: string, sep: string)
    requires sep != "" && text == Terminated(fs, sep) + rest
    ensures text + chunk == Terminated(fs + Complete(rest + chunk, sep), sep) + Pending(rest + chunk, sep)
  {
    SplitJoin(rest + chunk, sep);
    JoinStep(text, fs, rest, chunk, Complete(rest + chunk, sep), Pending(rest + chunk, sep), sep);
  }

  lemma JoinStep(text: string, fs: seq<string>, rest: string, chunk: string,
                 parts: seq<string>, last: string, sep: string)
    requires text == Terminated(fs, sep) + rest
    requires rest + chunk == Terminated(parts, sep) + last
    ensures text + chunk == Terminated(fs + parts, sep) + last
  {
    TerminatedAppend(fs, parts, sep);
    calc {
      text + chunk;
      Terminated(fs, sep) + (rest + chunk);
      Terminated(fs, sep) + (Terminated(parts, sep) + last);
      Terminated(fs + parts, sep) + last;
    }
  }

  lemma AllCleanAppend(f: seq<string>, g: seq<string>, sep: string)
    requires AllClean(f, sep) && AllClean(g, sep)
    ensures AllClean(f + g, sep)
  {
    forall j | 0 <= j < |f + g| ensures Clean((f + g)[j], sep) {
      if j < |f| { assert (f + g)[j] == f[j]; }
      else { assert (f + g)[j] == g[j - |f|]; }
    }
  }

  /** Every string is cut by its own split. */
  lemma SplitIsCut(text: string, sep: string)
    requires sep != ""
    ensures Cut(text, Complete(text, sep), Pending(text, sep), sep)
  {
    SplitJoin(text, sep);
    SplitPieces(text, sep);
  }

  /**
   * A trailing partial piece is never released: more text that does not
   * complete a separator leaves the complete pieces as they were.
   */
  lemma PartialTailNotReleased(s: string, t: string, sep: string)
    requires sep != "" && Free(Pending(s, sep) + t, sep)
    ensures Complete(s + t, sep) == Complete(s, sep)
    ensures Pending(s + t, sep) == Pending(s, sep) + t
  {
    SplitIsCut(s, sep);
    var fs, rest := Complete(s, sep), Pending(s, sep);
    assert s + t == Terminated(fs, sep) + (rest + t);
    CutIsSplit(s + t, fs, rest + t, sep);
  }

  /**
   * The pending piece is exactly the text after the last separator: a suffix
   * of the text without a separator, that is the whole text or follows one.
   */
  lemma PendingFollowsLastSeparator(s: string, sep: string)
    requires sep != ""
    ensures var b := Pending(s, sep);
      |b| <= |s| && s[|s| - |b|..] == b && Free(b, sep) &&
      (|b| == |s| || (|b| + |sep| <= |s| && s[|s| - |b| - |sep|..|s| - |b|] == sep))
  {
    SplitIsCut(s, sep);
    var fs := Complete(s, sep);
    if fs != [] {
      TerminatedEndsWithSep(fs, sep);
    }
    SuffixAfter(s, Terminated(fs, sep), Pending(s, sep), sep);
  }

  lemma SuffixAfter(s: string, head: string, b: string, sep: string)
    requires s == head + b
    requires head == "" || (|head| >= |sep| && head[|head| - |sep|..] == sep)
    ensures |b| <= |s| && s[|s| - |b|..] == b
    ensures |b| == |s| || (|b| + |sep| <= |s| && s[|s| - |b| - |sep|..|s| - |b|] == sep)
  {
    assert s[|s| - |b|..] == b;
    if head != "" {
      assert s[|s| - |b| - |sep|..|s| - |b|] == head[|head| - |sep|..];
    }
  }
}
