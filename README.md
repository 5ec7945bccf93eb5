# Captioned video: a verified model of the caption pipeline

The repository is a Remotion project that puts captions on an audio track.
It has two halves, and this project models both.

- **The batch driver** (`sub.mjs`). It reads an optional `--lang <code>`
  flag from the command line. It then walks the given paths, or the
  `public` directory when none are given. For every media file that has
  no `.json` artifact beside it yet, it:
  1. extracts a 16 kHz WAV file into a scratch directory `temp`;
  2. transcribes that WAV file;
  3. merges the raw items into captions;
  4. writes an artifact next to the source file. The artifact is the
     transcription result, with `transcription` replaced by the captions
     and a `fullTranscription` field added (the raw texts joined by
     spaces).
- **The composition** (`src/CaptionedVideo/index.tsx`). For a selected
  audio file it reads the artifact with the same stem. It gives each
  caption a display window on the frame timeline: the window starts at the
  caption's start frame and ends at the earliest of three bounds:
  - the next caption's start;
  - one second later;
  - the end of the composition.

  A window whose duration is not positive is dropped. When the artifact is
  missing, the composition shows a placeholder.

The Dafny modules follow the program's structure:

- `Text` (`regex.dfy`): the `/.wav$/`-style replacement with its unescaped
  dot, and ASCII lower-casing.
- `CaptionedVideo` (`timeline.dfy`): frame arithmetic, the caption
  schedule, the subtitle-file path, the static-file lookup and one render
  pass.
- `Paths` (`paths.dfy`): Node's `join`, `relative`, `extname` and
  `basename` on absolute paths, which are held as lists of segments.
- `CommandLine` (`cli.dfy`): `indexOf`, the language flag and the splice.
- `Artifact` (`artifact.dfy`): `convertCaptionsToParagraphs` and the shape
  of the artifact object.
- `Pipeline` (`pipeline.dfy`): `subFile`, `processFile`,
  `processDirectory` and the top-level dispatch. Each is a function from
  the state before to the outcome and the state after.
- `ProcessFileFacts`, `WalkFacts` and `RerunFacts`: what those functions guarantee.
  - The skip rule, where the artifact lands, and what else a call changes.
  - A processed file is skipped the next time.
  - The walk is depth first and visits every file exactly once; the
    arguments are handled in order.
  - What happens to `temp`.
  - A second walk after a completed one calls no transcription.
- `Driver` (`driver.dfy`): the script as it runs. A `Session` object holds
  the argument array, the file system and the call record. Its methods
  update them step by step: the `splice`, the `shouldRemoveTempDirectory`
  flag, the `for` loops and the recursion. Each method is proved equal to
  the `Pipeline` function it implements.

The state is `State(nodes, visited, transcribed)`:

- `nodes`: the file system, a map from paths to nodes. A path "exists"
  when it is in the map.
- `visited`: the paths `processFile` was called with, in call order.
- `transcribed`: the WAV paths `transcribe` was called with, in call order.

Directory listings come from a snapshot tree taken when the run starts.
The outside programs are parameters (`Services`):

- audio extraction;
- the transcription engine;
- caption merging.

Each of them may fail. Nothing in the driver catches a failure, so a
failure ends the whole run, and the model returns it as `Failed(...)`.

The model follows what the code does, and in several places that differs
from the system's written specification:

- **Start frames are not rounded.** A caption starts at
  `startInSeconds * fps` exactly. The specification asks for ceiling
  rounding of the start.
- **The one-second cap is `fps` frames,** not `ceil(fps)`.
- **The specification's two-caption example is wrong about the second
  caption.** At 30 fps over 2.0 s, the second caption gets 30 frames, not
  33 (`ScheduleTwoCaptionsExample`).
- **Errors are not isolated per asset.** A failed extraction or
  transcription aborts the run; later files are not processed
  (`WalkFacts.DirectoryVisits`).
- **`temp` is not cleaned up on failure.** The scratch directory is
  removed only after a successful call that created it. There is no
  `finally`, so a failure leaves it behind (`Pipeline.ProcessFile`).
- **The skip check is case-sensitive.** The probe path is built from the
  lower-cased extension with a regular expression of its own. So a file
  whose extension is not all lower case (`X.MP4`) is always skipped
  (`ProcessFileFacts.OtherCaseExtensionAlwaysSkipped`).
- **The dot before `wav`/`mp3` is unescaped.** The subtitle path of the
  composition replaces any character followed by `wav` or `mp3` at the end
  (`CaptionedVideo.SubtitlesFileUnescapedDot`).

## Model

| member | source | states |
|---|---|---|
| Text.ReplaceDotTail | src/CaptionedVideo/index.tsx:59-61 | `s.replace(/.tail$/, repl)` (definition; properties in `Text.ReplaceDotTailAt` and the `CaptionedVideo.SubtitlesFileOf*` lemmas) |
| Text.ReplaceDotTailAt | src/CaptionedVideo/index.tsx:59-61 | on `pre + [c] + tail`, the pattern `.tail$` matches iff `c` is not a line terminator; when it matches, `c` and the tail are replaced, otherwise the text is unchanged |
| Text.LowerChar | sub.mjs:86 | an ASCII capital becomes the letter 32 code points later, its lower-case form; every other character is unchanged |
| Text.Lower | sub.mjs:86 | `toLowerCase` on ASCII letters (definition; properties in `Text.LowerIsLowerCase` and the `ProbeOf*Extension` lemmas) |
| Text.LowerIsLowerCase | sub.mjs:86 | the result holds no ASCII capital; lower-casing twice is lower-casing once; a text without capitals is unchanged; lower-casing distributes over concatenation |
| CaptionedVideo.Ceil | src/CaptionedVideo/index.tsx:38 | `Math.ceil`: the least integer at or above `x` |
| CaptionedVideo.TotalFrames | src/CaptionedVideo/index.tsx:38 | the composition length is the least whole number of frames covering `duration * fps` |
| CaptionedVideo.StartFrame | src/CaptionedVideo/index.tsx:106 | `startInSeconds * fps`, unrounded (definition; monotone by `StartFrameMonotone`, used by `WindowAt`) |
| CaptionedVideo.Min3 | src/CaptionedVideo/index.tsx:107-111 | `Math.min` with `Infinity` as `None`: at most each bound, and equal to one of them |
| CaptionedVideo.WindowAt | src/CaptionedVideo/index.tsx:105-125 | no window iff `fps <= 0`, or the caption starts at or after the last frame, or the next caption starts no later; otherwise it starts at the unrounded start frame, lasts more than 0 and at most `fps` frames, ends no later than any of the three bounds, and its end is one of them |
| CaptionedVideo.ScheduleFrom | src/CaptionedVideo/index.tsx:104-126 | at most one window per remaining caption |
| CaptionedVideo.ScheduleFromSound | src/CaptionedVideo/index.tsx:104-126 | every window of the tail's schedule is the window `WindowAt` gives its caption, which is at or after the start index |
| CaptionedVideo.ScheduleFromOrdered | src/CaptionedVideo/index.tsx:104-126 | the windows of the tail's schedule have strictly increasing indices |
| CaptionedVideo.ScheduleFromComplete | src/CaptionedVideo/index.tsx:104-126 | every caption from the start index on that has a window contributes it to the schedule |
| CaptionedVideo.Schedule | src/CaptionedVideo/index.tsx:104-126 | the windows of all captions (definition; its properties are `ScheduleWindowBounds`, `ScheduleKeepsOrder`, `ScheduleDropsExactly`, `ScheduleDisjointWhenSorted`) |
| CaptionedVideo.ScheduleWindowBounds | src/CaptionedVideo/index.tsx:104-126 | each emitted window belongs to one caption and carries its text; it starts at that caption's start frame, which is before the last frame, and lasts more than 0 and at most `fps` frames; it ends by the composition's end and by the next caption's start; the last caption is bounded only by the cap and the end |
| CaptionedVideo.ScheduleKeepsOrder | src/CaptionedVideo/index.tsx:104-126 | windows come out in caption order |
| CaptionedVideo.ScheduleDropsExactly | src/CaptionedVideo/index.tsx:112-115 | a caption has a window iff its computed duration is positive, and is dropped (not clamped) otherwise |
| CaptionedVideo.StartFrameMonotone | src/CaptionedVideo/index.tsx:106 | a later start time gives a later start frame when `fps` is positive |
| CaptionedVideo.WindowsDisjoint | src/CaptionedVideo/index.tsx:107-111 | for captions sorted by start time, the window of an earlier caption ends by the time a later one starts |
| CaptionedVideo.ScheduleDisjointWhenSorted | src/CaptionedVideo/index.tsx:104-126 | for captions sorted by start time, no two windows overlap |
| CaptionedVideo.ScheduleTwoCaptionsExample | src/CaptionedVideo/index.tsx:104-126 | captions at 0.0 s and 0.9 s, at 30 fps over 2.0 s, give windows (0, 27) and (27, 30) |
| CaptionedVideo.SubtitlesFile | src/CaptionedVideo/index.tsx:59-61 | `audioSrc` with `/.wav$/` and then `/.mp3$/` replaced by `.json` (definition; its properties are the `SubtitlesFileOf*`, `SubtitlesFileIdempotent` and the two quirk lemmas below) |
| CaptionedVideo.SubtitlesFileOfWav | src/CaptionedVideo/index.tsx:59-61 | `x.wav` maps to `x.json` (the character before `wav` may be anything but a line terminator) |
| CaptionedVideo.SubtitlesFileOfMp3 | src/CaptionedVideo/index.tsx:59-61 | `x.mp3` maps to `x.json` in the same way |
| CaptionedVideo.SubtitlesFileOfOther | src/CaptionedVideo/index.tsx:59-61 | a path matching neither pattern is returned unchanged |
| CaptionedVideo.SubtitlesFileOfJson | src/CaptionedVideo/index.tsx:59-61 | a `.json` path is returned unchanged |
| CaptionedVideo.SubtitlesFileIdempotent | src/CaptionedVideo/index.tsx:59-61 | applying the mapping twice is applying it once |
| CaptionedVideo.SubtitlesFileOfSelectableAudio | src/AudioSelector.tsx:8-10 | every track the audio selector offers (`.wav`/`.mp3`) maps to its stem plus `.json` |
| CaptionedVideo.SubtitlesFileUnescapedDot | src/CaptionedVideo/index.tsx:60 | the unescaped dot: `podcastwav` maps to `podcas.json` |
| CaptionedVideo.SubtitlesFileLineBreakBeforeWav | src/CaptionedVideo/index.tsx:60 | the dot does not match a line break: `a\nwav` is left alone |
| CaptionedVideo.FindStaticFile | src/CaptionedVideo/index.tsx:42-48 | none is found iff no static file has that `src`; otherwise the first one with that `src` is returned |
| CaptionedVideo.FileExists | src/CaptionedVideo/index.tsx:42-48 | true iff some static file has that `src` |
| CaptionedVideo.Render | src/CaptionedVideo/index.tsx:89-127 | the rendered windows are the schedule over `ceil(duration * fps)` frames; the placeholder shows iff no static file has the subtitle file's path |
| Paths.SegmentLength | sub.mjs:106 | the length of the first segment: no `/` before it, and a `/` or the end at it |
| Paths.Split | sub.mjs:106 | the segments of a path string: non-empty and without `/` |
| Paths.SplitAppend | sub.mjs:106 | the segments of `x/y` are those of `x` followed by those of `y` (so extra and leading slashes add no segment) |
| Paths.SplitName | sub.mjs:123 | a plain name is a single segment |
| Paths.Resolve | sub.mjs:46-51 | normalising join on a segment list: `.` stays, `..` goes up but not above the root, a name is appended (definition; properties in `ResolveAppend`, `ResolveNormal`, `ResolveUps`) |
| Paths.Join | sub.mjs:46-51 | `path.join(base, s)`: `Resolve` of the segments of `s` (definition; properties via `SplitAppend`, `SplitName`, `ResolveAppend`) |
| Paths.ResolveAppend | sub.mjs:46-51 | joining with `x + y` is joining with `x`, then with `y` |
| Paths.ResolveNormal | sub.mjs:46-51 | ordinary names are appended as they are |
| Paths.Ups | sub.mjs:112 | `n` segments, each `..` |
| Paths.ResolveUps | sub.mjs:112 | `n` segments of `..` remove the last `n` segments |
| Paths.CommonPrefix | sub.mjs:112 | the longest common prefix of two paths |
| Paths.ResolveThroughPrefix | sub.mjs:112 | going up from `from` to a common prefix and then down to `to` reaches `to` |
| Paths.Relative | sub.mjs:112 | `path.relative(from, to)`: one `..` per segment of `from` below the common prefix, then the rest of `to` (definition; its property is `ResolveRelative`) |
| Paths.ResolveRelative | sub.mjs:46-51 | joining `from` with `relative(from, to)` gives `to` back |
| Paths.LastDot | sub.mjs:86 | the position of the last `.`, or -1 |
| Paths.Extname | sub.mjs:86 | the extension is non-empty iff the name is not `..` and has a `.` after its first character; a non-empty one starts with `.`, ends the name, is shorter than it and has no other `.` (so it runs from the last `.`) |
| Paths.Basename | sub.mjs:105 | `path.basename(name, ext)`: `ext` removed from the end when the name ends with it and is not just `ext` (definition; properties in `StemAndExtension`, `WavNameStem`) |
| Paths.StemAndExtension | sub.mjs:105 | a name with an extension is a non-empty stem followed by that extension |
| Paths.WavNameStem | sub.mjs:50 | the base name of `stem.wav` is `stem` again |
| CommandLine.IndexOf | sub.mjs:25 | -1 iff the flag is absent; otherwise the position of its first occurrence |
| CommandLine.Language | sub.mjs:25-26 | the value after the first `--lang` when there is a non-empty one, else `en` (definition; properties in the three lemmas below) |
| CommandLine.WithoutLanguage | sub.mjs:29-31 | `splice(langIndex, 2)` of the first `--lang` (definition; properties in the three lemmas below) |
| CommandLine.NoLanguageFlag | sub.mjs:24-31 | without `--lang` the language is `en` and the arguments are untouched |
| CommandLine.LanguageFlagWithValue | sub.mjs:24-31 | with a first `--lang v`, the language is `v` (or `en` when `v` is empty), and exactly those two elements are removed, the rest keeping their order |
| CommandLine.LanguageFlagLast | sub.mjs:24-31 | a trailing `--lang` gives `en` and is removed alone |
| CommandLine.LanguageFlagExample | sub.mjs:25-30 | only the first `--lang` counts, even when its value is another `--lang` |
| Artifact.JoinWithSpaces | sub.mjs:34 | `join(' ')` (definition; properties in `JoinWithSpacesShape`, `JoinWithSpacesAppend`) |
| Artifact.JoinWithSpacesShape | sub.mjs:34 | `join(' ')` of a non-empty list begins with the first text, and its length is the total length plus one space between each neighbouring pair |
| Artifact.JoinWithSpacesAppend | sub.mjs:34 | joining `a + b` is joining `a`, a space, then joining `b` |
| Artifact.Texts | sub.mjs:34 | `map(item => item.text)` (definition; properties in `Artifact.FullTranscriptionShape`, `Artifact.FullTranscriptionSnoc`) |
| Artifact.FullTranscription | sub.mjs:33-35 | `convertCaptionsToParagraphs`: the raw texts joined by spaces (definition; properties in `FullTranscriptionShape`, `FullTranscriptionSnoc`) |
| Artifact.FullTranscriptionSnoc | sub.mjs:33-35 | one more raw item appends a space and its text |
| Artifact.FullTranscriptionShape | sub.mjs:33-35 | no items give the empty text, one item gives its own text, and a longer list gives the first text, a space, then the rest joined |
| Artifact.RawItems | sub.mjs:63-68 | `result.transcription` (definition; properties in `ProcessFileFacts.SubFileNeedsRawItems` and `ProcessFileFacts.TranscodeWritesArtifact`) |
| Artifact.Build | sub.mjs:72-77 | the artifact has every key of the result plus `transcription` and `fullTranscription`; the other fields are kept; `transcription` holds the merged captions; `fullTranscription` holds the joined raw texts |
| Pipeline.RemoveTree | sub.mjs:115 | `rmSync(dir, {recursive: true})` (definition; properties in `Pipeline.RemoveTreeFacts` and `ProcessFileFacts.ChangesOnlyRemoveTemp`) |
| Pipeline.RemoveTreeFacts | sub.mjs:115 | removing a tree twice is removing it once; removing a tree that holds nothing changes nothing; a write outside the tree is kept in either order, and a write inside it is lost |
| Pipeline.LowerExtension | sub.mjs:86 | `path.extname(fullPath).toLowerCase()` (definition; properties in the `ProbeOf*` lemmas) |
| Pipeline.SkipProbe | sub.mjs:92-94 | the path whose existence makes `processFile` skip (definition; properties in the `ProbeOf*` lemmas) |
| Pipeline.TempWavName | sub.mjs:105 | the source's stem plus `.wav` (definition; property in `WavNameStem`) |
| Pipeline.TempWavPath | sub.mjs:106 | `cwd/temp/` joined with the name (definition; property in `TempWavPathInTemp`) |
| Pipeline.OutPath | sub.mjs:46-51 | `cwd/public/folder/stem.json` (definition; property in `OutPathBesideSource`) |
| Pipeline.Visible | sub.mjs:120 | the listing minus the `.DS_Store` entries: every kept entry is from the listing and not `.DS_Store`, and every other entry is kept (order: `WalkFacts.VisibleAppend`, `WalkFacts.VisibleOne`) |
| Pipeline.SubFile | sub.mjs:45-82 | `transcribe` is called once, on the WAV path; a failure leaves the files unchanged; success adds exactly the artifact path and every other path keeps what it held |
| Pipeline.ProcessFile | sub.mjs:84-117 | records the call; an unsupported extension changes nothing else; at most one transcription; a pre-existing `temp` is never removed; one created by the call is gone after success and left behind after a failure |
| Pipeline.Transcode | sub.mjs:98-116 | a failed extraction ends the call with no transcription; a successful one is followed by exactly one transcription, of the scratch WAV file; plus the same `temp` rules |
| Pipeline.ProcessDirectory | sub.mjs:119-132 | the walk of the visible entries (definition; properties in `WalkFacts` and `RerunFacts`) |
| Pipeline.WalkEntries | sub.mjs:122-131 | the `for` loop from an entry on, stopping at the first failure (definition; properties in `WalkFacts` and `RerunFacts`) |
| Pipeline.EntryStep | sub.mjs:123-130 | one iteration: recurse into a directory, or process a file with its name and directory (definition; properties in `WalkFacts` and `RerunFacts`) |
| Pipeline.FilesDepthFirst | sub.mjs:119-132 | the paths a complete walk hands to `processFile` (definition; properties in `WalkFacts.DirectoryVisits`, `FilesOfSplit`, `FilesDepthFirstDistinct`, `VisibleFilesListed`, `ListedFilesVisible`) |
| Pipeline.Find | sub.mjs:124 | the entry found has the name asked for; none is found iff no entry has it |
| Pipeline.Lookup | sub.mjs:124 | the entry at a non-empty path is named after the path's last segment and lies in a directory |
| Pipeline.RunPaths | sub.mjs:145-158 | the loop over the arguments, stopping at the first failure (definition; properties in `WalkFacts.ArgsVisits`, `WalkFacts.ArgsExist`) |
| Pipeline.RunPath | sub.mjs:146-157 | one argument: a missing path fails, a directory is walked, anything else is processed with its dirname and basename (definition; property in `WalkFacts.ArgVisits`) |
| Pipeline.Run | sub.mjs:138-158 | the public directory without arguments, the arguments otherwise (definition; properties in `WalkFacts.RunVisits`, `RerunFacts.RunIdempotent`) |
| ProcessFileFacts.TempWavPathInTemp | sub.mjs:106 | the scratch WAV path is the entry of that name in `temp` |
| ProcessFileFacts.StemIsName | sub.mjs:105 | the stem of a name with an extension is non-empty, has no `/`, and the name is the stem plus the extension |
| ProcessFileFacts.JsonNameIsName | sub.mjs:50 | `stem.json` is a plain name |
| ProcessFileFacts.OutPathBesideSource | sub.mjs:46-51 | the artifact of `directory/entry` is `directory/stem.json` |
| ProcessFileFacts.ProbeOfStem | sub.mjs:92-94 | the probe of `stem.tail` for extension `.tail` is `stem.json` in the same directory |
| ProcessFileFacts.ProbeOfExtension | sub.mjs:92-94 | the probe of `stem` followed by an extension is `stem.json` in the same directory |
| ProcessFileFacts.ProbeOfLowerCaseExtension | sub.mjs:86-94 | for a lower-case extension, the probe is the sibling with the same stem and extension `.json` |
| ProcessFileFacts.ProbeOfOtherCaseExtension | sub.mjs:86-94 | for an extension that is not lower case, the probe is the file itself |
| ProcessFileFacts.ProbeOfOtherTail | sub.mjs:92-94 | a pattern of the extension's length with the same `.` but a different tail does not match, so the probe is the file itself |
| ProcessFileFacts.OtherCaseExtensionAlwaysSkipped | sub.mjs:92-97 | an existing file with such an extension is always skipped, with nothing but the call recorded |
| ProcessFileFacts.SkipExactlyWhenProbeExists | sub.mjs:92-113 | for a supported extension: the file is skipped iff its probe exists; otherwise a failed extraction ends the run with no transcription, and a successful one transcribes the scratch WAV file exactly once |
| ProcessFileFacts.TranscodeFrame | sub.mjs:98-116 | a conversion removes nothing outside `temp`, creates nothing but `temp`, the scratch WAV file and the artifact, and changes nothing else outside `temp` |
| ProcessFileFacts.ProcessFileFrame | sub.mjs:84-117 | the same for a whole `processFile` call |
| ProcessFileFacts.ArtifactOutsideTemp | sub.mjs:114-116 | an artifact outside `temp` is not removed with it |
| ProcessFileFacts.SubFileNeedsRawItems | sub.mjs:63-68 | once the transcription returns, `subFile` fails with `NoTranscription` exactly when the result has no items under `transcription`, and then it writes nothing |
| ProcessFileFacts.TranscodeWritesArtifact | sub.mjs:70-81 | after a completed conversion, the artifact path holds the transcription result with the merged captions and the joined raw texts |
| ProcessFileFacts.ArtifactWrittenBesideSource | sub.mjs:84-117 | a completed call on a lower-case supported file leaves that artifact at `directory/stem.json` |
| ProcessFileFacts.ProcessedFileIsSkippedNextTime | sub.mjs:92-97 | once a file is processed, processing it again is a skip that calls no transcription |
| WalkFacts.DirectoryVisits | sub.mjs:119-132 | a completed walk calls `processFile` on exactly the depth-first file list, in order; a failed walk calls it on a prefix of that list |
| WalkFacts.EntriesVisits | sub.mjs:122-131 | the same for the loop from an entry on |
| WalkFacts.EntryVisits | sub.mjs:126-130 | the same for one entry |
| WalkFacts.ArgVisits | sub.mjs:146-157 | one argument hands `processFile` the depth-first list of a directory, the path itself for a file, nothing for a missing path; a failure hands it a prefix |
| WalkFacts.ArgsVisits | sub.mjs:145-158 | a completed loop over the arguments hands `processFile` each argument's paths in argument order; a failed loop hands it a prefix of that |
| WalkFacts.ArgsExist | sub.mjs:145-147 | a completed loop found every argument in the file system |
| WalkFacts.RunVisits | sub.mjs:138-158 | the same for a whole run: the public directory's list without arguments, the arguments' lists otherwise |
| WalkFacts.FilesOfMember | sub.mjs:122-131 | every listed path comes from one entry |
| WalkFacts.EntryFilesBelow | sub.mjs:123 | the paths an entry contributes lie below it and are not named `.DS_Store` |
| WalkFacts.FilesBelow | sub.mjs:119-132 | every path handed to `processFile` lies strictly below the walked directory and is not named `.DS_Store` |
| WalkFacts.VisibleKeepsDistinctNames | sub.mjs:120 | the filter keeps names distinct |
| WalkFacts.VisibleKeepsUniqueNames | sub.mjs:120 | the filter keeps names distinct at every level |
| WalkFacts.VisibleAppend | sub.mjs:120 | the filter keeps order: the visible entries of `a + b` are those of `a`, then those of `b` |
| WalkFacts.VisibleOne | sub.mjs:120 | one entry is kept iff it is not `.DS_Store` |
| WalkFacts.FilesDepthFirstDistinct | sub.mjs:119-132 | no path is handed to `processFile` twice |
| WalkFacts.FilesOfDistinct | sub.mjs:122-131 | the same for the loop from an entry on |
| WalkFacts.EntryFilesDistinct | sub.mjs:126-130 | the same for one entry |
| WalkFacts.FilesOfAppend | sub.mjs:122-131 | the paths of two consecutive runs of entries are those of the first, then those of the second |
| WalkFacts.FilesOfSplit | sub.mjs:122-131 | depth first: an entry's paths (a whole subtree for a directory) come after every earlier sibling's and before every later one's |
| WalkFacts.EntryFilesInFilesOf | sub.mjs:122-131 | an entry's paths are among its listing's |
| WalkFacts.VisibleFilesListed | sub.mjs:119-132 | every file reached without passing a `.DS_Store` entry is handed to `processFile` |
| WalkFacts.ListedFilesVisible | sub.mjs:119-132 | every path handed to `processFile` is such a file |
| WalkFacts.EntryFileVisible | sub.mjs:126-130 | the same for the paths of one entry |
| WalkFacts.DirectoryKeepsTemp | sub.mjs:119-132 | a `temp` that existed before a walk survives it; one that did not is absent after a completed walk |
| WalkFacts.EntriesKeepTemp | sub.mjs:122-131 | the same for the loop from an entry on |
| WalkFacts.EntryKeepsTemp | sub.mjs:126-130 | the same for one entry |
| RerunFacts.DirectoryKeepsOutside | sub.mjs:119-132 | a walk removes nothing outside `temp` |
| RerunFacts.FileSettles | sub.mjs:84-117 | after a completed call on an existing file, processing it again would skip it: its extension is unsupported, or its probe exists outside `temp` |
| RerunFacts.DirectorySettles | sub.mjs:119-132 | after a completed walk over files that exist, every listed file is settled in that sense |
| RerunFacts.DirectoryQuiet | sub.mjs:119-132 | a walk over settled files completes, records the depth-first list and changes neither the files nor the transcriptions |
| RerunFacts.WalkIdempotent | sub.mjs:119-132 | walking a listing again after a completed walk calls no transcription and changes no file |
| RerunFacts.PublicFilesPresent | sub.mjs:141 | the files below the public directory lie in directories apart from `temp` |
| RerunFacts.RunIdempotent | sub.mjs:138-143 | a second run without arguments after a completed one calls no transcription and changes no file |
| Driver.Session.constructor | sub.mjs:24 | the argument array is `argv` without its first two elements, and nothing has been called yet |
| Driver.Session.TakeLanguage | sub.mjs:25-31 | returns `Language(args)` and leaves `WithoutLanguage(args)` in the array; the rest of the state is unchanged |
| Driver.Session.SubFile | sub.mjs:45-82 | the new state and outcome are `Pipeline.SubFile` of the old state |
| Driver.Session.ProcessFile | sub.mjs:84-117 | with the `shouldRemoveTempDirectory` flag: the new state and outcome are `Pipeline.ProcessFile` of the old state |
| Driver.Session.ProcessDirectory | sub.mjs:119-132 | the loop and the recursion: the new state and outcome are `Pipeline.ProcessDirectory` of the old state |
| Driver.Session.Run | sub.mjs:138-158 | the new state and outcome are `Pipeline.Run` of the old state |
| Driver.Session.ProcessArguments | sub.mjs:145-158 | the loop over the arguments: the new state and outcome are `Pipeline.RunPaths` of the old state |
| Driver.Session.ProcessArgument | sub.mjs:146-157 | one argument: the new state and outcome are `Pipeline.RunPath` of the old state |
| Driver.Session.Start | sub.mjs:24-158 | the whole script: the language is taken from the arguments, and the run on what remains equals `Pipeline.Run` |

Helpers with no row of their own, used only inside other proofs: the
unfolding lemmas `WalkFacts.WalkEntriesStep`, `EntryStepOfDir`,
`EntryStepOfFile`, `RunPathsStep`, `RunPathOfDir`, `RunPathOfFile` (used by
the `Driver` proofs), `CaptionedVideo.ScheduleFromStep` and
`IndicesIncreaseCons`, and the list lemmas `WalkFacts.PrefixChain`,
`SizeOfMember`, `PrefixOfLonger`, `NoDuplicatesAppend`, `VisibleFileOfDir`,
`Paths.SegmentLengthIs`, `Paths.FirstSegmentOfAppend`, the `ChangesOnly*`
lemmas of `ProcessFileFacts`, and the small `RerunFacts` lemmas.

## Left out

- Audio extraction (`sub.mjs:37-43`) is the parameter `Services.extract`. The model keeps only whether it succeeds for a source path. The WAV file it writes is modelled as a node that records its source, and overwriting through `-y` is a map update.
- Transcription and caption merging (`sub.mjs:53-66`) are the parameters `Services.transcribe` and `Services.toCaptions`. Both are external libraries. The 200 ms token merge and the whisper model, path and options are not modelled. A transcription depends only on the extracted source and the language.
- `execSync` interpolates the file names into a shell command unquoted, so names with spaces or shell characters behave differently. The model does not capture this: extraction's outcome is abstract.
- `writeFileSync`, `mkdirSync` and `rmSync` are assumed to succeed. Their failures (permissions, a full disk) are not modelled.
- Directory listings are a snapshot taken when the run starts. Files and directories the run itself creates never appear in a later listing; that includes artifacts and `temp`.
- Pipeline.RunPath: the snapshot semantics differ from the program on two argument inputs. First, an argument that names a file an earlier argument created: with `public/a.mp4 public/a.json`, the program finds `a.json` with `lstatSync` and `processFile` returns because `.json` is unsupported, while the model's `Lookup` does not find it in the snapshot and the run fails with `NoSuchPath`. Second, a file argument with a trailing slash (`a.mp4/`): `path.join` keeps the slash and `lstatSync` throws ENOTDIR, which ends the run, while the model's `Split` drops the slash and the file is processed.
- `lstatSync` is `Lookup` on the snapshot. Anything that is not a directory (a symbolic link, a device) is treated as a file, as `isDirectory()` on `lstat` does.
- Path names in listings and arguments are plain strings. The model splits arguments on `/` and resolves `.` and `..`. For names from a listing it assumes they contain no `/`, which `readdirSync` guarantees.
- `console.log`, `process.exit(0)` and the JSON text layout (`JSON.stringify` with two-space indent) are left out. The artifact is modelled as an object.
- The composition's React lifecycle is left out (`src/CaptionedVideo/index.tsx:54-87`): `fetch`, the font loading, `delayRender`/`continueRender`, `useState` and the `watchStaticFile` subscription. The loaded caption list, the audio duration and the static-file list are parameters of `Render`.
- The error path of the caption load (`src/CaptionedVideo/index.tsx:63-75`, `cancelRender`) is not modelled. When the artifact is missing, `fetch` still resolves with an error response and `res.json()` throws. That error, and any error from `loadFont` or `getAudioDurationInSeconds`, reaches the one `catch`, which cancels the render. `Render` describes one frame given whatever caption list is loaded, which is empty before the load.
- The fixed frame rate of 30 in the metadata (`src/CaptionedVideo/index.tsx:34`) is a parameter `fps` here. The schedule holds for any rate.
- JavaScript numbers are IEEE doubles. The model computes with exact reals, so rounding in `startInSeconds * fps` is not modelled.
- Text.Lower: lower-cases ASCII letters only, where `toLowerCase` maps all of Unicode. Some non-ASCII characters lower-case to ASCII letters: U+212A KELVIN SIGN becomes `k`, so the program treats `x.m\u{212A}v` as a supported `.mkv` file where the model does not. The outcome is the same in both: the case-sensitive probe built from `.mkv` does not match the name, the probe is the file itself, and the existing file is skipped.
- Text.ReplaceDotTail: a `string` here is a sequence of Unicode scalar values, while JavaScript's `.` matches one UTF-16 code unit. For a character outside the Basic Multilingual Plane before `wav` (`"\u{1F3B5}wav"`), the program replaces only the low surrogate and leaves a lone high surrogate before `.json`; the model replaces the whole character.
- The listing snapshot and the file-system map are not tied together in general. `RerunFacts` assumes every listed file exists in the map, and re-walks the same listing: the artifacts a first run writes would appear in a new listing as `.json` files, which are unsupported and skipped, but that is not proved.
- The subtitle-page components, the audio selector's rendering, `Root.tsx` and the translation utility (`translate.mjs`) are not part of this model. The last is a network client for a translation service.
