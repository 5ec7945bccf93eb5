/**
 * The render side: how the captioned-video composition turns the caption list
 * of an artifact into display windows on the frame timeline, how long the
 * composition is, which artifact path it reads for an audio track, and when it
 * shows the "no caption file" placeholder.
 *
 * Times and frames are exact reals (the code computes with JavaScript numbers
 * and never rounds a start frame); `Infinity` is `None`.
 */
module CaptionedVideo {
  import opened Text
  import opened Wrappers

  /** One entry of the artifact's `transcription` list. */
  datatype Subtitle = Subtitle(startInSeconds: real, text: string)

  /** One rendered caption: a sequence starting at frame `from`, lasting `durationInFrames`. */
  datatype Window = Window(index: nat, from: real, durationInFrames: real, text: string)

  /** An entry of the project's static-file list; only `src` is compared. */
  datatype StaticFile = StaticFile(name: string, src: string)

  // ---------------------------------------------------------------------------
  // Frame arithmetic

  /** `Math.ceil` on exact reals. */
  function Ceil(x: real): (n: int)
    ensures x <= n as real < x + 1.0
  {
    -((-x).Floor)
  }

  /** Length of the composition: `Math.ceil(audioDuration * fps)`. */
  function TotalFrames(audioDurationInSeconds: real, fps: real): (n: int)
    ensures audioDurationInSeconds * fps <= n as real < audioDurationInSeconds * fps + 1.0
  {
    Ceil(audioDurationInSeconds * fps)
  }

  /** `subtitle.startInSeconds * fps`, with no rounding. */
  function StartFrame(s: Subtitle, fps: real): real {
    s.startInSeconds * fps
  }

  /** `Math.min(a, b, c)` where `a` may be `Infinity`. */
  function Min3(a: Option<real>, b: real, c: real): (m: real)
    ensures m <= b && m <= c && (a.Some? ==> m <= a.value)
    ensures m == b || m == c || (a.Some? && m == a.value)
  {
    var bc := if b <= c then b else c;
    match a
    case None => bc
    case Some(x) => if x <= bc then x else bc
  }

  // ---------------------------------------------------------------------------
  // The schedule

  /** The start frame of the subtitle after `i`, or `None` (`Infinity`) for the last one. */
  function NextStart(subs: seq<Subtitle>, i: nat, fps: real): (r: Option<real>)
    requires i < |subs|
    ensures r.Some? <==> i + 1 < |subs|
    ensures r.Some? ==> r.value == StartFrame(subs[i + 1], fps)
  {
    if i + 1 < |subs| then Some(StartFrame(subs[i + 1], fps)) else None
  }

  /**
   * The window the composition emits for subtitle `i`, or `None` when the
   * computed duration is not positive (the map callback returns `null`).
   */
  function WindowAt(subs: seq<Subtitle>, i: nat, fps: real, totalFrames: int): (r: Option<Window>)
    requires i < |subs|
    // A window is dropped exactly when one of the three bounds is at or before the start.
    ensures r.None? <==>
      (fps <= 0.0
       || totalFrames as real <= StartFrame(subs[i], fps)
       || (i + 1 < |subs| && StartFrame(subs[i + 1], fps) <= StartFrame(subs[i], fps)))
    ensures r.Some? ==>
      var w := r.value;
      var end := w.from + w.durationInFrames;
      && w.index == i
      && w.text == subs[i].text
      && w.from == subs[i].startInSeconds * fps
      && 0.0 < w.durationInFrames <= fps
      && end <= totalFrames as real
      && (i + 1 < |subs| ==> end <= StartFrame(subs[i + 1], fps))
      // the end is one of the three bounds, so it is their minimum
      && (end == w.from + fps || end == totalFrames as real
          || (i + 1 < |subs| && end == StartFrame(subs[i + 1], fps)))
  {
    var start := StartFrame(subs[i], fps);
    var end := Min3(NextStart(subs, i, fps), start + fps, totalFrames as real);
    var duration := end - start;
    if duration <= 0.0 then None
    else Some(Window(i, start, duration, subs[i].text))
  }

  /** The windows of subtitles `i..`, in input order, with dropped ones left out. */
  function ScheduleFrom(subs: seq<Subtitle>, i: nat, fps: real, totalFrames: int): (ws: seq<Window>)
    requires i <= |subs|
    decreases |subs| - i
    ensures |ws| <= |subs| - i
  {
    if i == |subs| then []
    else
      var rest := ScheduleFrom(subs, i + 1, fps, totalFrames);
      match WindowAt(subs, i, fps, totalFrames)
      case None => rest
      case Some(w) => [w] + rest
  }

  /** Every window of `ScheduleFrom(subs, i, ...)` is the window of one subtitle at or after `i`. */
  lemma {:induction false} ScheduleFromSound(subs: seq<Subtitle>, i: nat, fps: real, totalFrames: int)
    requires i <= |subs|
    decreases |subs| - i
    ensures forall k :: 0 <= k < |ScheduleFrom(subs, i, fps, totalFrames)| ==>
      var w := ScheduleFrom(subs, i, fps, totalFrames)[k];
      i <= w.index < |subs| && WindowAt(subs, w.index, fps, totalFrames) == Some(w)
  {
    if i < |subs| {
      ScheduleFromSound(subs, i + 1, fps, totalFrames);
      var rest := ScheduleFrom(subs, i + 1, fps, totalFrames);
      match WindowAt(subs, i, fps, totalFrames)
      case None =>
        assert ScheduleFrom(subs, i, fps, totalFrames) == rest;
      case Some(w) =>
        assert ScheduleFrom(subs, i, fps, totalFrames) == [w] + rest;
        assert forall k :: 0 < k < |rest| + 1 ==> ([w] + rest)[k] == rest[k - 1];
    }
  }

  /** The windows of `ScheduleFrom(subs, i, ...)` keep the subtitles' order. */
  lemma {:induction false} ScheduleFromOrdered(subs: seq<Subtitle>, i: nat, fps: real, totalFrames: int)
    requires i <= |subs|
    decreases |subs| - i
    ensures IndicesIncrease(ScheduleFrom(subs, i, fps, totalFrames))
  {
    if i < |subs| {
      ScheduleFromOrdered(subs, i + 1, fps, totalFrames);
      var rest := ScheduleFrom(subs, i + 1, fps, totalFrames);
      assert forall m :: 0 <= m < |rest| ==> i < rest[m].index by {
        ScheduleFromSound(subs, i + 1, fps, totalFrames);
      }
      match WindowAt(subs, i, fps, totalFrames)
      case None =>
        assert ScheduleFrom(subs, i, fps, totalFrames) == rest;
      case Some(w) =>
        assert ScheduleFrom(subs, i, fps, totalFrames) == [w] + rest;
        IndicesIncreaseCons(w, rest);
    }
  }

  predicate IndicesIncrease(ws: seq<Window>) {
    forall k, l :: 0 <= k < l < |ws| ==> ws[k].index < ws[l].index
  }

  lemma IndicesIncreaseCons(w: Window, rest: seq<Window>)
    requires IndicesIncrease(rest)
    requires forall m :: 0 <= m < |rest| ==> w.index < rest[m].index
    ensures IndicesIncrease([w] + rest)
  {
    var ws := [w] + rest;
    forall k, l | 0 <= k < l < |ws|
      ensures ws[k].index < ws[l].index
    {
      assert ws[l] == rest[l - 1];
      if k > 0 {
        assert ws[k] == rest[k - 1];
      }
    }
  }

  /** Every subtitle at or after `i` whose window is not dropped has its window in the schedule. */
  lemma {:induction false} ScheduleFromComplete(subs: seq<Subtitle>, i: nat, fps: real, totalFrames: int, j: nat)
    requires i <= j < |subs|
    requires WindowAt(subs, j, fps, totalFrames).Some?
    decreases |subs| - i
    ensures WindowAt(subs, j, fps, totalFrames).value in ScheduleFrom(subs, i, fps, totalFrames)
  {
    var rest := ScheduleFrom(subs, i + 1, fps, totalFrames);
    var head := WindowAt(subs, i, fps, totalFrames);
    ScheduleFromStep(subs, i, fps, totalFrames);
    if j == i {
      assert head.value in [head.value];
    } else {
      ScheduleFromComplete(subs, i + 1, fps, totalFrames, j);
    }
  }

  /** One step of `ScheduleFrom`: the window of subtitle `i`, if any, then the rest. */
  lemma ScheduleFromStep(subs: seq<Subtitle>, i: nat, fps: real, totalFrames: int)
    requires i < |subs|
    ensures ScheduleFrom(subs, i, fps, totalFrames)
         == (if WindowAt(subs, i, fps, totalFrames).Some? then [WindowAt(subs, i, fps, totalFrames).value] else [])
            + ScheduleFrom(subs, i + 1, fps, totalFrames)
  {
    if WindowAt(subs, i, fps, totalFrames).None? {
      assert [] + ScheduleFrom(subs, i + 1, fps, totalFrames) == ScheduleFrom(subs, i + 1, fps, totalFrames);
    }
  }

  /**
   * The composition's caption windows: `subtitles.map(...)` with the `null`s
   * removed.
   */
  function Schedule(subs: seq<Subtitle>, fps: real, totalFrames: int): seq<Window>
  {
    ScheduleFrom(subs, 0, fps, totalFrames)
  }

  /** Sorted by start time, non-decreasing. */
  predicate SortedByStart(subs: seq<Subtitle>) {
    forall i, j :: 0 <= i < j < |subs| ==> subs[i].startInSeconds <= subs[j].startInSeconds
  }

  /** The end frame of a window. */
  function End(w: Window): real {
    w.from + w.durationInFrames
  }

  /**
   * What every emitted window satisfies: it belongs to one subtitle, starts at
   * that subtitle's unrounded start frame, lasts more than zero and at most
   * `fps` frames (one second), ends no later than the composition, and ends no
   * later than the next subtitle by index starts. The last subtitle is bounded
   * only by the one-second cap and the composition's end.
   */
  lemma ScheduleWindowBounds(subs: seq<Subtitle>, fps: real, totalFrames: int)
    ensures var ws := Schedule(subs, fps, totalFrames);
      |ws| <= |subs| &&
      forall k :: 0 <= k < |ws| ==>
        && ws[k].index < |subs|
        && ws[k].text == subs[ws[k].index].text
        && ws[k].from == subs[ws[k].index].startInSeconds * fps
        && 0.0 < ws[k].durationInFrames <= fps
        && End(ws[k]) <= totalFrames as real
        && StartFrame(subs[ws[k].index], fps) < totalFrames as real
        && (ws[k].index + 1 < |subs| ==> End(ws[k]) <= StartFrame(subs[ws[k].index + 1], fps))
        && (ws[k].index + 1 == |subs| ==>
              End(ws[k]) == ws[k].from + fps || End(ws[k]) == totalFrames as real)
  {
    ScheduleFromSound(subs, 0, fps, totalFrames);
  }

  /** The output keeps the input's order: window indices strictly increase. */
  lemma ScheduleKeepsOrder(subs: seq<Subtitle>, fps: real, totalFrames: int)
    ensures var ws := Schedule(subs, fps, totalFrames);
      forall k, l :: 0 <= k < l < |ws| ==> ws[k].index < ws[l].index
  {
    ScheduleFromOrdered(subs, 0, fps, totalFrames);
  }

  /**
   * Subtitle `j` has a window in the schedule exactly when its computed
   * duration is positive, i.e. unless the next subtitle starts no later, it
   * starts at or after the composition's last frame, or `fps` is not positive.
   */
  lemma ScheduleDropsExactly(subs: seq<Subtitle>, fps: real, totalFrames: int, j: nat)
    requires j < |subs|
    ensures (exists k :: 0 <= k < |Schedule(subs, fps, totalFrames)| && Schedule(subs, fps, totalFrames)[k].index == j)
      <==> !(fps <= 0.0
             || totalFrames as real <= StartFrame(subs[j], fps)
             || (j + 1 < |subs| && StartFrame(subs[j + 1], fps) <= StartFrame(subs[j], fps)))
  {
    ScheduleFromSound(subs, 0, fps, totalFrames);
    if WindowAt(subs, j, fps, totalFrames).Some? {
      ScheduleFromComplete(subs, 0, fps, totalFrames, j);
      var ws := Schedule(subs, fps, totalFrames);
      var k :| 0 <= k < |ws| && ws[k] == WindowAt(subs, j, fps, totalFrames).value;
      assert ws[k].index == j;
    }
  }

  /** Later starts have later start frames when `fps` is positive. */
  lemma StartFrameMonotone(s: Subtitle, t: Subtitle, fps: real)
    requires s.startInSeconds <= t.startInSeconds && 0.0 < fps
    ensures StartFrame(s, fps) <= StartFrame(t, fps)
  {
    assert (t.startInSeconds - s.startInSeconds) * fps >= 0.0;
  }

  /** Two windows of sorted subtitles `i < j` do not overlap. */
  lemma WindowsDisjoint(subs: seq<Subtitle>, fps: real, totalFrames: int, i: nat, j: nat)
    requires SortedByStart(subs)
    requires i < j < |subs|
    requires WindowAt(subs, i, fps, totalFrames).Some? && WindowAt(subs, j, fps, totalFrames).Some?
    ensures End(WindowAt(subs, i, fps, totalFrames).value) <= WindowAt(subs, j, fps, totalFrames).value.from
  {
    var wi, wj := WindowAt(subs, i, fps, totalFrames).value, WindowAt(subs, j, fps, totalFrames).value;
    assert End(wi) <= StartFrame(subs[i + 1], fps);
    StartFrameMonotone(subs[i + 1], subs[j], fps);
  }

  /**
   * With subtitles sorted by start time, the emitted windows are pairwise
   * disjoint: each ends before every later one begins.
   */
  lemma ScheduleDisjointWhenSorted(subs: seq<Subtitle>, fps: real, totalFrames: int)
    requires SortedByStart(subs)
    ensures var ws := Schedule(subs, fps, totalFrames);
      forall k, l :: 0 <= k < l < |ws| ==> End(ws[k]) <= ws[l].from
  {
    var ws := Schedule(subs, fps, totalFrames);
    ScheduleFromSound(subs, 0, fps, totalFrames);
    ScheduleFromOrdered(subs, 0, fps, totalFrames);
    forall k, l | 0 <= k < l < |ws|
      ensures End(ws[k]) <= ws[l].from
    {
      WindowsDisjoint(subs, fps, totalFrames, ws[k].index, ws[l].index);
    }
  }

  /**
   * Two captions at 30 fps over two seconds of audio: the first is cut at the
   * second's start frame 27, the second lasts the one-second cap, 30 frames.
   */
  lemma ScheduleTwoCaptionsExample()
    ensures Schedule([Subtitle(0.0, "Hi"), Subtitle(0.9, "there")], 30.0, TotalFrames(2.0, 30.0))
         == [Window(0, 0.0, 27.0, "Hi"), Window(1, 27.0, 30.0, "there")]
  {
    var subs := [Subtitle(0.0, "Hi"), Subtitle(0.9, "there")];
    assert TotalFrames(2.0, 30.0) == 60;
    assert WindowAt(subs, 1, 30.0, 60) == Some(Window(1, 27.0, 30.0, "there"));
    assert ScheduleFrom(subs, 2, 30.0, 60) == [];
    assert ScheduleFrom(subs, 1, 30.0, 60) == [Window(1, 27.0, 30.0, "there")];
    assert WindowAt(subs, 0, 30.0, 60) == Some(Window(0, 0.0, 27.0, "Hi"));
  }

  // ---------------------------------------------------------------------------
  // Caption artifact path and placeholder

  /** `audioSrc.replace(/.wav$/, '.json').replace(/.mp3$/, '.json')`. */
  function SubtitlesFile(audioSrc: string): string {
    ReplaceDotTail(ReplaceDotTail(audioSrc, "wav", ".json"), "mp3", ".json")
  }

  /** Any character (but a line terminator) followed by `wav` at the end becomes `.json`. */
  lemma SubtitlesFileOfWav(pre: string, c: char)
    requires !IsLineTerminator(c)
    ensures SubtitlesFile(pre + [c] + "wav") == pre + ".json"
  {
    var once := ReplaceDotTail(pre + [c] + "wav", "wav", ".json");
    ReplaceDotTailAt(pre, c, "wav", ".json");
    assert once[|once| - 3..] == "son";
    assert !DotTailMatches(once, "mp3");
  }

  /** Any character (but a line terminator) followed by `mp3` at the end becomes `.json`. */
  lemma SubtitlesFileOfMp3(pre: string, c: char)
    requires !IsLineTerminator(c)
    ensures SubtitlesFile(pre + [c] + "mp3") == pre + ".json"
  {
    var p := pre + [c] + "mp3";
    assert p[|p| - 3..] == "mp3";
    assert !DotTailMatches(p, "wav");
    ReplaceDotTailAt(pre, c, "mp3", ".json");
  }

  /** A path that ends in neither pattern is used unchanged. */
  lemma SubtitlesFileOfOther(p: string)
    requires !DotTailMatches(p, "wav") && !DotTailMatches(p, "mp3")
    ensures SubtitlesFile(p) == p
  {}

  /** A path that already ends in `.json` is used unchanged. */
  lemma SubtitlesFileOfJson(q: string)
    requires EndsWith(q, ".json")
    ensures SubtitlesFile(q) == q
  {
    assert q[|q| - 3..] == q[|q| - 5..][2..] == "son";
    SubtitlesFileOfOther(q);
  }

  /** Deriving the artifact path twice changes nothing more. */
  lemma SubtitlesFileIdempotent(p: string)
    ensures SubtitlesFile(SubtitlesFile(p)) == SubtitlesFile(p)
  {
    if DotTailMatches(p, "wav") {
      SubtitlesFileOfWav(p[..|p| - 4], p[|p| - 4]);
      assert p == p[..|p| - 4] + [p[|p| - 4]] + "wav";
      SubtitlesFileOfJson(p[..|p| - 4] + ".json");
    } else if DotTailMatches(p, "mp3") {
      SubtitlesFileOfMp3(p[..|p| - 4], p[|p| - 4]);
      assert p == p[..|p| - 4] + [p[|p| - 4]] + "mp3";
      SubtitlesFileOfJson(p[..|p| - 4] + ".json");
    } else {
      SubtitlesFileOfOther(p);
    }
  }

  /** Every track the audio selector offers maps to the same name with `.json`. */
  lemma SubtitlesFileOfSelectableAudio(src: string)
    requires IsSelectableAudio(src)
    ensures SubtitlesFile(src) == src[..|src| - 4] + ".json"
  {
    var pre := src[..|src| - 4];
    if EndsWith(src, ".wav") {
      assert src == pre + ['.'] + "wav";
      SubtitlesFileOfWav(pre, '.');
    } else {
      assert src == pre + ['.'] + "mp3";
      SubtitlesFileOfMp3(pre, '.');
    }
  }

  /** The `.` is unescaped: a name ending in `twav` loses its `t`. */
  lemma SubtitlesFileUnescapedDot()
    ensures SubtitlesFile("podcastwav") == "podcas.json"
  {
    assert "podcas" + ['t'] + "wav" == "podcastwav";
    SubtitlesFileOfWav("podcas", 't');
  }

  /** The `.` does not match a line break, so `a`, a line break, `wav` is left alone. */
  lemma SubtitlesFileLineBreakBeforeWav()
    ensures SubtitlesFile("a\nwav") == "a\nwav"
  {
    var q := "a" + ['\n'] + "wav";
    assert q == "a\nwav";
    ReplaceDotTailAt("a", '\n', "wav", ".json");
    assert q[|q| - 3..] == "wav";
    SubtitlesFileOfOther(q);
  }

  /** `getStaticFiles().find(f => f.src === file)`. */
  function FindStaticFile(files: seq<StaticFile>, file: string): (r: Option<StaticFile>)
    ensures r.None? <==> forall k :: 0 <= k < |files| ==> files[k].src != file
    ensures r.Some? ==> exists k :: (0 <= k < |files| && files[k] == r.value && r.value.src == file
      && forall j :: 0 <= j < k ==> files[j].src != file)
  {
    if files == [] then None
    else if files[0].src == file then Some(files[0])
    else
      var r := FindStaticFile(files[1..], file);
      assert forall k :: 0 < k < |files| ==> files[k] == files[1..][k - 1];
      r
  }

  /** `getFileExists`: `Boolean` of the found file object, i.e. whether one was found. */
  function FileExists(files: seq<StaticFile>, file: string): (b: bool)
    ensures b <==> exists k :: 0 <= k < |files| && files[k].src == file
  {
    FindStaticFile(files, file).Some?
  }

  /** `AudioSelector`'s filter: the options offered as audio tracks. */
  predicate IsSelectableAudio(src: string) {
    EndsWith(src, ".wav") || EndsWith(src, ".mp3")
  }

  // ---------------------------------------------------------------------------
  // One render pass

  datatype Frame = Frame(windows: seq<Window>, showsNoCaptionFile: bool)

  /**
   * What the composition renders once the caption list and the audio duration
   * have been loaded: the caption windows and whether the placeholder shows.
   */
  function Render(subs: seq<Subtitle>, fps: real, audioDurationInSeconds: real,
                  audioSrc: string, staticFiles: seq<StaticFile>): (f: Frame)
    ensures f.windows == Schedule(subs, fps, TotalFrames(audioDurationInSeconds, fps))
    ensures f.showsNoCaptionFile <==>
      forall k :: 0 <= k < |staticFiles| ==> staticFiles[k].src != SubtitlesFile(audioSrc)
  {
    var subtitlesFile := SubtitlesFile(audioSrc);
    Frame(Schedule(subs, fps, TotalFrames(audioDurationInSeconds, fps)),
          !FileExists(staticFiles, subtitlesFile))
  }
}
