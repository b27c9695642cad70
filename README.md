# SoundDeck in Dafny

A model of the core of SoundDeck, a macOS soundboard: a grid of sound
buttons that play audio files, with a waveform strip for the sound that is
playing. The model has four modules.

- `System` (system.dfy) covers the Foundation values the app handles: optionals, URLs, bookmarks and file names. It also holds `Platform`, which bundles the operating-system and media-framework calls as oracles.
- `Catalog` (catalog.dfy) models SoundDeckModel.swift:
  - the `SoundItem` record and how an item resolves to a file URL;
  - the `SoundDeckModel` class, whose list of sounds is saved to and loaded from a key-value store;
  - how the list is seeded from the bundled `.wav`/`.aiff` resources on first run.
- `Waveform` (waveform.dfy) models WaveformView.swift:
  - `AVAsset.waveformSamples`: gather the decoded buffers, cut them into chunks of `n / sampleCount` samples, take each chunk's peak, and normalise by the largest magnitude;
  - which sample indices `WaveformView` turns into path points.
- `Deck` (deck.dfy) models ContentView.swift:
  - the `ContentView` class and its `@State` fields;
  - playing, stopping and replaying a sound;
  - the remove and import handlers;
  - the late write of the waveform;
  - the icon each sound button shows and the space/return key dispatch.

Pure parts of the program are Dafny functions with lemmas about them. Parts
that change state are classes whose methods are proved against those
functions. These are `SoundDeckModel`, `ContentView` and the buffer-gathering
loop.

Behaviour of the code worth noting, all of it followed by the model:

- **Chunk peak.** A chunk's peak is its signed maximum (`chunk.max()`), not its largest magnitude. A chunk such as [-2, 1] therefore has peak 1, not the louder -2 (`Waveform.PeakIsSigned`), and a chunk such as [-1, 0] has peak 0 (`Waveform.NaNWithoutSilence`).
- **Number of peaks.** The chunk length is the truncated quotient `n / sampleCount`. The peak count is `ceil(n / step)`, which is at least `sampleCount` and may exceed it: 999 samples at 500 give 999 peaks (`Waveform.PeakCountOverrun`).
- **Division by zero.** Normalisation is not guarded against a zero maximum. Silent input, and also input whose chunk maxima are all 0, yields NaN values rather than nil (`Waveform.ExtractionZeroPeaks`, `Waveform.ExtractionSilent`, `Waveform.NaNWithoutSilence`).
- **Short sounds trap.** With 1 to 499 samples the stride is 0, which traps (`Waveform.ExtractionTraps`, `Deck.PlayAnalysisTraps`).
- **Late waveform write.** The analysis result is written whenever it arrives, even after a stop or after another sound has started (`Deck.LateDeliveryAfterStop`).
- **Failed play.** A failed play leaves the old player, `currentlyPlaying` and `lastPlayed` untouched; nothing is stopped first. A successful play replaces the old player without calling `stop()` on it.
- **Lookups by name.** Replay and the button icons go by name. Two sounds with the same name light up together, and replay finds the first of them.
- **Removing the last-played sound.** Removing a sound leaves `currentlyPlaying` and `lastPlayed` as they were.
- **Access released early.** Security-scoped access is released when `playSound` returns. Nothing orders the asynchronous waveform analysis after that, so access may be released before the analysis reads the file.

## Model

| member | source | states |
|---|---|---|
| System.AppendingPathComponent | SoundDeck/SoundDeckModel.swift:13 | the appended URL keeps the scheme and the parent path and ends in the given name |
| System.LastDot | SoundDeck/SoundDeckModel.swift:98 | the position found for the extension's dot lies inside the name |
| System.LastDotSpec | SoundDeck/SoundDeckModel.swift:98 | the position holds a '.' and no '.' follows it; no position means the name has no '.' |
| System.LastDotFinds | SoundDeck/SoundDeckModel.swift:98 | a '.' with no '.' after it is the one found |
| Catalog.BundledItem | SoundDeck/SoundDeckModel.swift:29-35 | a bundled item has the given id and name, no bookmark, and is marked bundled |
| Catalog.ImportedItem | SoundDeck/SoundDeckModel.swift:36-42 | an imported item has the given id, name and bookmark, and is not marked bundled |
| Catalog.BundledFileURL | SoundDeck/SoundDeckModel.swift:9-13 | a bundled item resolves to the resource root plus its name, or to nothing without a root; its bookmark field is never read |
| Catalog.ImportedFileURL | SoundDeck/SoundDeckModel.swift:14-26 | a non-bundled item resolves only through its bookmark: nothing without one or when resolution fails, else the resolved URL, stale or not |
| Catalog.ImportedItemIgnoresResourceRoot | SoundDeck/SoundDeckModel.swift:9-26 | an imported item's URL does not depend on the resource root and exists exactly when its bookmark resolves |
| Catalog.FilterMembers | SoundDeck/SoundDeckModel.swift:98 | the `where` filter keeps exactly the listed files that pass the test |
| Catalog.FilterConcat | SoundDeck/SoundDeckModel.swift:98 | the filter keeps listing order: filtering a concatenation concatenates the filtered parts |
| Catalog.FilterSnoc | SoundDeck/SoundDeckModel.swift:98-101 | one more listed file adds that file to the kept ones exactly when it passes the test |
| Catalog.BundledItems | SoundDeck/SoundDeckModel.swift:99-100 | one item per kept file |
| Catalog.BundledItemsSnoc | SoundDeck/SoundDeckModel.swift:99-100 | one more kept file appends exactly one bundled item, named after that file |
| Catalog.DefaultItemsSnoc | SoundDeck/SoundDeckModel.swift:98-101 | one more listed file adds one bundled item, carrying the next id, exactly when that file is kept, and nothing otherwise |
| Catalog.BundledItemsSpec | SoundDeck/SoundDeckModel.swift:99-100 | the k-th item is the bundled item for the k-th kept file, named by its last path component |
| Catalog.DefaultItems | SoundDeck/SoundDeckModel.swift:98-101 | seeding produces as many items as there are audio files |
| Catalog.DefaultItemsSpec | SoundDeck/SoundDeckModel.swift:98-101 | every seeded item is bundled, has no bookmark, and is named after its file, in listing order |
| Catalog.SeedTwoBundledFiles | SoundDeck/SoundDeckModel.swift:93-102 | a resource root listing a.wav and b.aiff seeds exactly those two bundled sounds, in that order |
| Catalog.WavAndAiffAreKept | SoundDeck/SoundDeckModel.swift:98 | a.wav and b.aiff file URLs pass the seeding filter |
| Catalog.SaveLoadRoundTrip | SoundDeck/SoundDeckModel.swift:74-91 | loading after saving returns the saved list, whatever was stored or held before |
| Catalog.LoadWithoutList | SoundDeck/SoundDeckModel.swift:82-91 | a missing or undecodable entry leaves the list unchanged |
| Catalog.SaveKeepsOtherKeys | SoundDeck/SoundDeckModel.swift:74-80 | saving changes no other key of the store |
| Catalog.KeptOffsetsMembers | SoundDeck/SoundDeckModel.swift:70 | the positions kept by `remove(atOffsets:)` are exactly those in range and not removed |
| Catalog.KeptOffsetsIncreasing | SoundDeck/SoundDeckModel.swift:70 | the kept positions appear in increasing order, so relative order survives |
| Catalog.KeptOffsetsCount | SoundDeck/SoundDeckModel.swift:70 | with all offsets in range, exactly one element per offset is removed |
| Catalog.KeptOffsetsAgree | SoundDeck/SoundDeckModel.swift:70 | offsets beyond the list do not affect which elements are kept |
| Catalog.RemoveOffsetsSpec | SoundDeck/SoundDeckModel.swift:70 | the result is the original elements at the kept positions, in order |
| Catalog.SoundDeckModel.constructor | SoundDeck/SoundDeckModel.swift:50-55 | a stored non-empty list is used unchanged; otherwise the bundled defaults are seeded and saved; with no root or a failed listing the list stays empty and nothing is saved |
| Catalog.SoundDeckModel.AddSound | SoundDeck/SoundDeckModel.swift:57-67 | a created bookmark appends one imported item named after the file and saves; a failure changes neither list nor store |
| Catalog.SoundDeckModel.RemoveSound | SoundDeck/SoundDeckModel.swift:69-72 | the list loses exactly the given offsets, keeps its order, and is saved |
| Catalog.SoundDeckModel.SaveSounds | SoundDeck/SoundDeckModel.swift:74-80 | the store holds the current list under the save key and nothing else changes |
| Catalog.SoundDeckModel.LoadSounds | SoundDeck/SoundDeckModel.swift:82-91 | the stored list replaces the current one when it decodes; otherwise nothing changes |
| Catalog.SoundDeckModel.LoadDefaultSounds | SoundDeck/SoundDeckModel.swift:93-106 | appends the seeded items and saves; with no resource root or a failed listing, changes nothing |
| Waveform.SwiftDiv | SoundDeck/WaveformView.swift:65 | Swift's quotient truncates toward zero: bounds of quotient times divisor for either sign of divisor |
| Waveform.CeilBounds | SoundDeck/WaveformView.swift:65 | the stride has the least count of steps that reaches the bound |
| Waveform.Stride | SoundDeck/WaveformView.swift:65 | a negative step gives no elements; a positive one gives ceil(bound / step) |
| Waveform.StrideSpec | SoundDeck/WaveformView.swift:65 | the stride starts at 0, its k-th element is k * step, it stays below the bound and strictly increases, and each position lies in the window of one element |
| Waveform.StrideBelow | SoundDeck/WaveformView.swift:65 | a non-empty stride starts at 0, and its k-th element is k * step, below the bound |
| Waveform.StrideIncreasing | SoundDeck/WaveformView.swift:65 | stride elements strictly increase |
| Waveform.StrideCovers | SoundDeck/WaveformView.swift:65-66 | every position below the bound lies in the window of stride element `i / step` |
| Waveform.SeqMax | SoundDeck/WaveformView.swift:67 | `max()` is at least every element and equal to one of them |
| Waveform.BlockSamples | SoundDeck/WaveformView.swift:57-59 | a block contributes `length / 4` floats |
| Waveform.CollectedConcat | SoundDeck/WaveformView.swift:56-61 | gathering buffers that all carry data concatenates their floats in order |
| Waveform.CollectedStopsAtGap | SoundDeck/WaveformView.swift:56 | the first sample buffer without a data buffer ends the loop |
| Waveform.CollectedLength | SoundDeck/WaveformView.swift:57-60 | the gathered length is the sum of `length / 4` over the buffers |
| Waveform.CollectSamples | SoundDeck/WaveformView.swift:55-61 | the `while let` loop yields exactly the in-order gathering of the buffers |
| Waveform.Chunks | SoundDeck/WaveformView.swift:65-66 | there is one chunk per stride element |
| Waveform.Downsample | SoundDeck/WaveformView.swift:65-68 | there is one peak per chunk: ceil(n / step) |
| Waveform.MaxAbs | SoundDeck/WaveformView.swift:69 | `maxAbs` is 1 for no peaks; otherwise the largest magnitude, reached by some peak |
| Waveform.ChunkAt | SoundDeck/WaveformView.swift:65-66 | chunk k is `samples[k*step ..< min(k*step + step, n)]`; only the last one is cut short by n |
| Waveform.FlattenChunks | SoundDeck/WaveformView.swift:65-66 | the first k chunks together are the first min(k*step, n) samples |
| Waveform.ChunksPartition | SoundDeck/WaveformView.swift:65-66 | chunks are non-empty and contiguous, all but the last have exactly `step` samples, and together they are the samples |
| Waveform.ChunksCover | SoundDeck/WaveformView.swift:65-66 | laid end to end, the chunks are exactly the samples |
| Waveform.ChunkOf | SoundDeck/WaveformView.swift:65-66 | sample i falls in chunk `i / step`, which exists |
| Waveform.PeaksAreChunkMaxima | SoundDeck/WaveformView.swift:67 | each peak is at least every sample of its chunk and equal to one of them |
| Waveform.PositiveSampleGivesPositivePeak | SoundDeck/WaveformView.swift:67-69 | a positive sample makes its chunk's peak positive, so `maxAbs` is positive |
| Waveform.NormalizedBounds | SoundDeck/WaveformView.swift:69-70 | with a positive `maxAbs`, normalising keeps the length, every value lies in [-1, 1] and one has magnitude 1 |
| Waveform.NormalizedAt | SoundDeck/WaveformView.swift:69-70 | each normalised value times `maxAbs` is its peak, lies in [-1, 1], and has magnitude 1 for a peak of largest magnitude |
| Waveform.ZeroMaxAbsMeansSilence | SoundDeck/WaveformView.swift:69-70 | for a non-empty list of peaks, `maxAbs` is 0 exactly when every peak is 0 |
| Waveform.PeakCount | SoundDeck/WaveformView.swift:65 | for 0 < sampleCount <= n the step is positive and the peak count is at least sampleCount, exactly sampleCount when it divides n |
| Waveform.PeakCountOverrun | SoundDeck/WaveformView.swift:65 | 999 samples at 500 give 999 peaks |
| Waveform.PeakIsSigned | SoundDeck/WaveformView.swift:67 | the peak of [-2, 1] is 1, not the magnitude 2 |
| Waveform.WaveformSamples | SoundDeck/WaveformView.swift:33-72 | the task's completion value is the extraction of the asset |
| Waveform.ExtractionNilPaths | SoundDeck/WaveformView.swift:36-63 | the completion gets nil exactly when there is no audio track, no reader, or no samples |
| Waveform.SwiftDivZero | SoundDeck/WaveformView.swift:65 | a truncated quotient of a positive count is 0 exactly when the divisor is larger in magnitude |
| Waveform.ExtractionTraps | SoundDeck/WaveformView.swift:65 | the task traps exactly when there are samples and sampleCount is 0 or larger in magnitude than the sample count |
| Waveform.ExtractionPeaks | SoundDeck/WaveformView.swift:63-70 | with 0 < sampleCount <= n and some peak of non-zero magnitude, the completion gets ceil(n / step) values, at least sampleCount, all in [-1, 1], one of magnitude 1 |
| Waveform.ExtractionPositiveSample | SoundDeck/WaveformView.swift:63-70 | with 0 < sampleCount <= n, one positive sample is enough for the completion to get normalised values rather than NaNs |
| Waveform.ExtractionZeroPeaks | SoundDeck/WaveformView.swift:63-70 | with 0 < sampleCount <= n and every peak 0, the unguarded 0 / 0 gives one NaN per peak, ceil(n / step) of them |
| Waveform.ExtractionSilent | SoundDeck/WaveformView.swift:69-70 | silent samples reach the unguarded 0 / 0 and deliver NaN values |
| Waveform.NaNWithoutSilence | SoundDeck/WaveformView.swift:67-70 | non-silent samples whose chunk maxima are 0 also deliver NaN |
| Waveform.DisplayStep | SoundDeck/WaveformView.swift:13 | the display step is at least 1 |
| Waveform.DisplayIndicesSpec | SoundDeck/WaveformView.swift:12-21 | the drawn indices start at 0, strictly increase, and stay below count; a path is drawn exactly when count exceeds one step |
| Waveform.DisplayAllWhenWide | SoundDeck/WaveformView.swift:13-14 | at most one sample per point of width means every sample is drawn |
| Deck.Attempt | SoundDeck/ContentView.swift:170-187 | playback starts exactly when the URL resolves, the file is readable and the player loads; the access answer is that of the resolved URL |
| Deck.OutstandingConcat | SoundDeck/ContentView.swift:175-179 | the count of held accesses adds up over consecutive stretches of calls |
| Deck.AccessBalanced | SoundDeck/ContentView.swift:175-179 | access is released iff granted, once, last, for the same URL; at most one access is held at any point; none more is held on return |
| Deck.FailedPlayChangesNothing | SoundDeck/ContentView.swift:171-201 | without a URL, a readable file or a loaded player, the player and the playback fields stay as they were |
| Deck.StartedPlay | SoundDeck/ContentView.swift:187-190 | a started play installs a playing player for the file and sets both playing and last played to the sound's name |
| Deck.StopSpec | SoundDeck/ContentView.swift:204-208 | stopping clears the playing name and the waveform, silences the player, keeps last played, and is idempotent |
| Deck.Delivered | SoundDeck/ContentView.swift:194-197 | the strip is cleared only by a nil completion |
| Deck.PlayAnalysisTraps | SoundDeck/ContentView.swift:193-194 | the 500-sample analysis a play starts traps exactly for a readable sound of 1 to 499 samples |
| Deck.LateDeliveryAfterStop | SoundDeck/ContentView.swift:194-208 | a completion that arrives after a stop still puts a waveform on the strip, with nothing playing |
| Deck.ReplayTarget | SoundDeck/ContentView.swift:210-214 | a sound to replay exists iff a last name is set and some sound has it; it carries that name and is the earliest such sound |
| Deck.FirstNamed | SoundDeck/ContentView.swift:211 | it finds the first sound with the name, or none when there is no such sound |
| Deck.IndexOf | SoundDeck/ContentView.swift:113 | it finds the first position of an equal item, or none when the item is absent |
| Deck.RemoveAtSpec | SoundDeck/ContentView.swift:114 | removing at a position drops exactly that one copy and keeps the rest in order |
| Deck.NameLookupFindsEarliest | SoundDeck/ContentView.swift:211 | of several sounds sharing a name, the lookup never gets past the first |
| Deck.ImportSpec | SoundDeck/ContentView.swift:140-160 | an item is appended iff the first URL is bookmarked; an alert with a non-empty message is raised iff the picker or the bookmark failed; never both; an empty pick does neither |
| Deck.ImportUsesFirstUrl | SoundDeck/ContentView.swift:142 | only the first picked URL matters |
| Deck.IconPriority | SoundDeck/ContentView.swift:228-229 | playing outranks last played, which outranks the default; symbol and tint agree |
| Deck.IconsFollowPlayback | SoundDeck/ContentView.swift:228 | after a started play every button with that name shows the speaker; after a stop, the replay arrow |
| Deck.KeyDispatch | SoundDeck/ContentView.swift:266-273 | key 49 stops, 36 replays, every other key is forwarded |
| Deck.ContentView.constructor | SoundDeck/ContentView.swift:57-64 | a fresh model over the given store, holding the stored list when it is non-empty and otherwise the seeded defaults (saved) or nothing; no player, nothing playing or last played, no waveform, no alert |
| Deck.ContentView.PlaySound | SoundDeck/ContentView.swift:170-202 | the new playback state is that of the attempt, and the access calls are its calls; the analysis is requested exactly when playback starts |
| Deck.ContentView.StopSound | SoundDeck/ContentView.swift:204-208 | the new playback state is the stopped one |
| Deck.ContentView.ReplayLastSound | SoundDeck/ContentView.swift:210-214 | with no sound to replay nothing happens; otherwise that sound is played exactly as `playSound` plays it, access calls and analysis included; last played never changes |
| Deck.ContentView.RemoveSound | SoundDeck/ContentView.swift:112-117 | the first equal item is removed and the list saved; an absent item changes nothing; the playback fields do not change |
| Deck.ContentView.ImportFile | SoundDeck/ContentView.swift:140-160 | appends and saves the imported item, or raises the alert, exactly as the import outcome says; playback is untouched |
| Deck.ContentView.DeliverWaveform | SoundDeck/ContentView.swift:194-197 | the strip takes the delivered value whatever the playback state |
| Deck.ContentView.HandleKey | SoundDeck/ContentView.swift:266-273 | space stops and makes no access calls; return does exactly what `replayLastSound` does, a no-op when there is no sound to replay; other keys change nothing |

## Left out

- Views and layout are not modelled: colours as values, the card and button views, the grid-column count (`CGFloat` arithmetic), the alert as a view, and the point coordinates of the waveform path.
- Printing for debugging is left out.
- Foreign calls are oracles in `System.Platform`:
  - `Bundle.main.resourceURL`;
  - bookmark creation and resolution;
  - the directory listing, including how hidden files are skipped;
  - `startAccessingSecurityScopedResource`, `isReadableFile`;
  - whether `AVAudioPlayer(contentsOf:)` succeeds.
- The asset side of the analysis is the value `Waveform.Asset`: whether track loading gives tracks, whether the asset reader is created, and the sample buffers its output yields.
- The player itself is a value with a `playing` flag. `play()` has no oracle: playback is assumed to start whenever the player is created, whatever `play()` returns. `stop()` only clears the flag.
- Random `UUID()` values are inputs: an id for each import, and a `newId` function for the k-th seeded item.
- Asynchrony is not modelled: the `Task`, `DispatchQueue.main.async` and the scheduling of completions. The analysis is a function of the asset. Its late write is a separate method, `Deck.ContentView.DeliverWaveform`, that can be called at any time after a play.
- A trap ends the process, so the model has no state after one. `Deck.ContentView.DeliverWaveform` requires a completion that did not trap, and `Waveform.DisplayStep` requires `Int(width) != 0`.
- Catalog.SoundDeckModel.RemoveSound: requires every offset to be in range, because `remove(atOffsets:)` is taken to trap on one that is not; the model does not capture what an out-of-range offset does. The pure `Catalog.RemoveOffsets` ignores such offsets (`Catalog.KeptOffsetsAgree`).
- Persistence internals are abstract. `UserDefaults` is a map from key to stored value. The JSON bytes are an encoded list or an undecodable value, and encoding is taken never to fail.
- Foundation's file-name handling is simplified:
  - `pathExtension` is the text after the last '.' of the last path component, or empty when the dot starts the name;
  - `lowercased()` folds only ASCII letters.
- Samples are reals, so 32-bit float rounding is not modelled. The NaN values that 0 / 0 produces are recorded only by their count.
- Waveform.BlockSamples: `CMBlockBufferCopyDataBytes` copies `length` bytes into a buffer of `length / 4` floats, so a length that is not a multiple of 4 writes past the buffer. The model gives the buffer's `length / 4` values and does not capture the overrun.
- The `Int` widths of counts and key codes are unbounded in the model. Key codes are 16-bit in the source, and no count here comes near overflow.
