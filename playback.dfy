/** What playback does when every scheduled timeout is allowed to fire and no
    other operation intervenes: the self-rescheduling of `run` walks the list
    to the end. */
module Playback {
  import opened Text
  import opened Focus
  import opened Engine

  /** The frames shown for the tokens `words[lo..hi]`, in order. */
  function Played(words: seq<string>, lo: nat, hi: nat): (r: seq<Parts>)
    requires lo <= hi <= |words|
    ensures |r| == hi - lo
    decreases hi - lo
  {
    if hi == lo then [] else Played(words, lo, hi - 1) + [Decompose(words[hi - 1])]
  }

  /** The `k`-th frame of `Played` is the split of token `lo + k`. */
  lemma {:induction false} PlayedAt(words: seq<string>, lo: nat, hi: nat, k: nat)
    requires lo <= k < hi <= |words|
    ensures Played(words, lo, hi)[k - lo] == Decompose(words[k])
    decreases hi - lo
  {
    if k < hi - 1 {
      PlayedAt(words, lo, hi - 1, k);
    }
  }

  /** The progress reports for the positions `lo..hi` of a list of `n` tokens. */
  function Progress(n: nat, lo: nat, hi: nat): (r: seq<Report>)
    requires lo <= hi <= n
    ensures |r| == hi - lo
    decreases hi - lo
  {
    if hi == lo then [] else Progress(n, lo, hi - 1) + [Report(Percent(hi - 1, n), hi - 1)]
  }

  /** The `k`-th report of `Progress` is the percentage and index of position `lo + k`. */
  lemma {:induction false} ProgressAt(n: nat, lo: nat, hi: nat, k: nat)
    requires lo <= k < hi <= n
    ensures Progress(n, lo, hi)[k - lo] == Report(Percent(k, n), k)
    decreases hi - lo
  {
    if k < hi - 1 {
      ProgressAt(n, lo, hi - 1, k);
    }
  }

  /** What has been shown and reported while playing from `start` up to and
      including the current position (or to the end, once stopped). */
  ghost predicate PlayedSoFar(e: RsvpEngine, start: nat, before: seq<Parts>, reported: seq<Report>)
    reads e
    requires start <= |e.words|
  {
    var hi := if e.pending then e.currentIndex + 1 else e.currentIndex;
    start <= hi <= |e.words| &&
    e.frames == before + Played(e.words, start, hi) &&
    e.reports == reported + (if e.hasOnProgress then Progress(|e.words|, start, hi) else [])
  }

  /** One timeout firing during uninterrupted playback. */
  method FireStep(e: RsvpEngine, ghost start: nat, ghost before: seq<Parts>, ghost reported: seq<Report>)
    requires e.Valid() && e.Synced() && e.pending
    requires start <= e.currentIndex < |e.words|
    requires PlayedSoFar(e, start, before, reported)
    modifies e
    ensures e.Valid() && e.Synced()
    ensures e.words == old(e.words) && e.SameSettings()
    ensures e.currentIndex == old(e.currentIndex) + 1
    ensures e.pending <==> e.currentIndex < |e.words|
    ensures PlayedSoFar(e, start, before, reported)
    ensures e.completions == old(e.completions) + (if !e.pending && e.hasOnComplete then 1 else 0)
  {
    ghost var i := e.currentIndex;
    var ok := e.Fire();
    if e.pending {
      assert Played(e.words, start, i + 2) == Played(e.words, start, i + 1) + [Decompose(e.words[i + 1])];
      assert Progress(|e.words|, start, i + 2)
        == Progress(|e.words|, start, i + 1) + [Report(Percent(i + 1, |e.words|), i + 1)];
    }
  }

  /** Plays from an in-range position and fires every timeout: each token from
      the start position on is shown once, in order, and reported when a
      progress callback is set; the position ends at the length of the list,
      playing stops and completion is notified once. */
  method PlayToEnd(e: RsvpEngine)
    requires e.Valid() && !e.isPlaying && 0 <= e.currentIndex < |e.words|
    modifies e
    ensures e.Valid() && e.Synced() && !e.isPlaying && !e.pending
    ensures e.words == old(e.words) && e.SameSettings() && e.currentIndex == |e.words|
    ensures e.frames == old(e.frames) + Played(e.words, old(e.currentIndex), |e.words|)
    ensures e.reports == old(e.reports) +
      (if e.hasOnProgress then Progress(|e.words|, old(e.currentIndex), |e.words|) else [])
    ensures e.completions == old(e.completions) + (if e.hasOnComplete then 1 else 0)
  {
    ghost var start := e.currentIndex;
    ghost var before := e.frames;
    ghost var reported := e.reports;
    var ok := e.Play();
    assert Played(e.words, start, start + 1) == [Decompose(e.words[start])];
    assert Progress(|e.words|, start, start + 1) == [Report(Percent(start, |e.words|), start)];
    while e.pending
      invariant e.Valid() && e.Synced()
      invariant e.words == old(e.words) && e.SameSettings()
      invariant start <= e.currentIndex <= |e.words|
      invariant e.pending <==> e.currentIndex < |e.words|
      invariant PlayedSoFar(e, start, before, reported)
      invariant e.completions ==
        old(e.completions) + (if !e.pending && e.hasOnComplete then 1 else 0)
      decreases |e.words| - e.currentIndex
    {
      FireStep(e, start, before, reported);
    }
  }

  /** `pause` straight after `play`, before the timeout fires: the position is
      unchanged and nothing is left scheduled. */
  method PlayThenPause(e: RsvpEngine)
    requires e.Valid()
    modifies e
    ensures e.Valid() && e.Synced() && !e.isPlaying && !e.pending
    ensures e.currentIndex == old(e.currentIndex) && e.words == old(e.words)
  {
    var _ := e.Play();
    e.Pause();
  }

  /** Four tokens such as `Hello,`, `world.`, a paragraph break and
      `Goodbye`, loaded and played to the end: the loading frame and four
      played frames (the break shown as a blank), one completion notice,
      final position 4. */
  method FourTokenScenario(first: string, second: string, last: string) returns (e: RsvpEngine)
    ensures fresh(e) && e.Valid() && !e.isPlaying && !e.pending
    ensures e.currentIndex == 4 && e.completions == 1
    ensures |e.frames| == 5
    ensures e.frames[3] == Parts("", " ", "")
  {
    e := new RsvpEngine();
    e.hasOnComplete := true;
    var ok := e.SetWords([first, second, Sentinel, last], 0);
    assert |e.frames| == 1 && e.words[2] == Sentinel;
    PlayToEnd(e);
    PlayedAt(e.words, 0, 4, 2);
  }
}
