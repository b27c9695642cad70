/**
 * The playback controller of ContentView.swift: playing a sound, stopping,
 * replaying the last one, the remove and import handlers, the icon a sound
 * button shows and the space/enter key dispatch.
 */
module Deck {
  import opened System
  import opened Catalog
  import Waveform

  /** `AVAudioPlayer`: the file it was created for and whether it is playing. */
  datatype Player = Player(url: Url, playing: bool)

  /**
   * What the waveform strip holds once an analysis has delivered: the
   * normalised peaks, or `count` NaN values when every peak was zero.
   */
  datatype Shown = Shown(samples: seq<real>) | ShownNaN(count: nat)

  /** The `@State` fields that playback reads and writes. */
  datatype Playback = Playback(
    player: Option<Player>,
    currentlyPlaying: Option<string>,
    lastPlayed: Option<string>,
    waveform: Option<Shown>)

  /** A call into the security-scoped resource API: a start and its answer, or a stop. */
  datatype AccessEvent = StartAccess(url: Url, granted: bool) | StopAccess(url: Url)

  // ---------------------------------------------------------------------
  // Playing a sound
  // ---------------------------------------------------------------------

  /**
   * How far `playSound` gets: no file URL; the file is not readable; the
   * player cannot be created; or playback starts. Past the first step the
   * URL and the answer of `startAccessingSecurityScopedResource` are known.
   */
  datatype PlayAttempt =
    | Unresolved
    | Unreadable(url: Url, granted: bool)
    | PlayerFailed(url: Url, granted: bool)
    | Started(url: Url, granted: bool)

  /** Which exit `playSound` takes for `sound`, given the platform's answers. */
  function Attempt(sound: SoundItem, platform: Platform): (a: PlayAttempt)
    ensures a.Unresolved? <==> FileURL(sound, platform).None?
    ensures !a.Unresolved? ==> a.url == FileURL(sound, platform).value && a.granted == platform.startAccessing(a.url)
    ensures a.Started? <==> !a.Unresolved? && platform.isReadableFile(a.url) && platform.playerLoads(a.url)
  {
    match FileURL(sound, platform)
    case None => Unresolved
    case Some(url) =>
      var granted := platform.startAccessing(url);
      if !platform.isReadableFile(url) then Unreadable(url, granted)
      else if !platform.playerLoads(url) then PlayerFailed(url, granted)
      else Started(url, granted)
  }

  /** The playback state `playSound` leaves: only a started attempt changes anything. */
  function AfterPlay(p: Playback, sound: SoundItem, a: PlayAttempt): Playback
  {
    if a.Started? then
      p.(player := Some(Player(a.url, true)),
         currentlyPlaying := Some(sound.name),
         lastPlayed := Some(sound.name))
    else p
  }

  /** The security-scoped calls `playSound` makes, in order (the `defer` stop comes last). */
  function AccessCalls(a: PlayAttempt): seq<AccessEvent>
  {
    if a.Unresolved? then []
    else [StartAccess(a.url, a.granted)] + (if a.granted then [StopAccess(a.url)] else [])
  }

  /** Granted starts minus stops: the number of accesses still held after a log of calls. */
  function Outstanding(log: seq<AccessEvent>): int
  {
    if |log| == 0 then 0
    else
      var last := log[|log| - 1];
      Outstanding(log[..|log| - 1]) + (if last.StartAccess? then (if last.granted then 1 else 0) else -1)
  }

  /** The count is additive over consecutive stretches of the log. */
  lemma {:induction false} OutstandingConcat(a: seq<AccessEvent>, b: seq<AccessEvent>)
    ensures Outstanding(a + b) == Outstanding(a) + Outstanding(b)
  {
    if |b| == 0 {
      assert a + b == a;
    } else {
      assert (a + b)[..|a + b| - 1] == a + b[..|b| - 1];
      assert (a + b)[|a + b| - 1] == b[|b| - 1];
      OutstandingConcat(a, b[..|b| - 1]);
    }
  }

  /**
   * `playSound` releases access exactly when it was granted, at most once,
   * and only for the URL it started on; it never holds more than one access,
   * and it returns holding none more than before.
   */
  lemma AccessBalanced(a: PlayAttempt, before: seq<AccessEvent>)
    ensures var calls := AccessCalls(a);
      && ((exists k :: 0 <= k < |calls| && calls[k].StopAccess?) <==> !a.Unresolved? && a.granted)
      && (forall k :: 0 <= k < |calls| && calls[k].StopAccess? ==> k == |calls| - 1 && calls[k].url == a.url)
      && (forall k :: 0 <= k <= |calls| ==> 0 <= Outstanding(calls[..k]) <= 1)
      && Outstanding(before + calls) == Outstanding(before)
  {
    var calls := AccessCalls(a);
    OutstandingConcat(before, calls);
    assert calls[..0] == [];
    if !a.Unresolved? {
      var start := StartAccess(a.url, a.granted);
      assert calls[..1] == [start];
      assert [start][..0] == [];
      assert Outstanding([start]) == (if a.granted then 1 else 0);
      if a.granted {
        assert calls == [start, StopAccess(a.url)];
        assert calls[..2] == calls && calls[..|calls| - 1] == [start];
        assert Outstanding(calls) == 0;
        assert calls[1].StopAccess?;
      } else {
        assert calls == [start] && calls[..1] == calls;
      }
      forall k | 0 <= k <= |calls|
        ensures 0 <= Outstanding(calls[..k]) <= 1
      {
        if k == |calls| {
          assert calls[..k] == calls;
        }
      }
    }
  }

  /** A failed attempt leaves the player, `currentlyPlaying`, `lastPlayed` and the waveform as they were. */
  lemma FailedPlayChangesNothing(p: Playback, sound: SoundItem, platform: Platform)
    requires !Attempt(sound, platform).Started?
    ensures AfterPlay(p, sound, Attempt(sound, platform)) == p
    ensures FileURL(sound, platform).None? || !platform.isReadableFile(FileURL(sound, platform).value)
         || !platform.playerLoads(FileURL(sound, platform).value)
  {
  }

  /**
   * A started attempt replaces the player by a playing one for the sound's
   * file, marks the sound's name as both playing and last played, and leaves
   * the waveform to the analysis.
   */
  lemma StartedPlay(p: Playback, sound: SoundItem, platform: Platform)
    requires FileURL(sound, platform).Some?
    requires platform.isReadableFile(FileURL(sound, platform).value)
    requires platform.playerLoads(FileURL(sound, platform).value)
    ensures var q := AfterPlay(p, sound, Attempt(sound, platform));
      && q.player == Some(Player(FileURL(sound, platform).value, true))
      && q.currentlyPlaying == q.lastPlayed == Some(sound.name)
      && q.waveform == p.waveform
  {
  }

  // ---------------------------------------------------------------------
  // Stopping and the late waveform write
  // ---------------------------------------------------------------------

  /** What `stopSound` leaves: the player stopped, nothing playing, no waveform. */
  function Stopped(p: Playback): Playback
  {
    p.(player := if p.player.Some? then Some(p.player.value.(playing := false)) else None,
       currentlyPlaying := None,
       waveform := None)
  }

  /** Stopping keeps the player slot and `lastPlayed`, silences the player, and is idempotent. */
  lemma StopSpec(p: Playback)
    ensures Stopped(p).currentlyPlaying == None && Stopped(p).waveform == None
    ensures Stopped(p).lastPlayed == p.lastPlayed
    ensures Stopped(p).player.Some? <==> p.player.Some?
    ensures Stopped(p).player.Some? ==> !Stopped(p).player.value.playing && Stopped(p).player.value.url == p.player.value.url
    ensures Stopped(Stopped(p)) == Stopped(p)
  {
  }

  /** What an analysis that ran to completion hands to the main queue. */
  function Delivered(c: Waveform.Completion): (s: Option<Shown>)
    requires !c.Trapped?
    ensures s.None? <==> c == Waveform.Completed(None)
  {
    match c
    case Completed(None) => None
    case Completed(Some(samples)) => Some(Shown(samples))
    case CompletedWithNaN(n) => Some(ShownNaN(n))
  }

  /** The number of samples `playSound` asks the waveform analysis for. */
  const AnalysisSampleCount: int := 500

  /**
   * The analysis a started play launches traps exactly for a readable
   * sound of 1 to 499 samples; every other sound gets a completion.
   */
  lemma PlayAnalysisTraps(asset: Waveform.Asset)
    ensures Waveform.Extraction(asset, AnalysisSampleCount).Trapped? <==>
      Waveform.FirstTrack(asset).Some? && asset.readerCreates && 0 < |Waveform.AssetSamples(asset)| < 500
  {
    Waveform.ExtractionTraps(asset, AnalysisSampleCount);
  }

  /** The completion's write to `waveformSamples`, made whatever happened since the analysis began. */
  function Deliver(p: Playback, c: Waveform.Completion): Playback
    requires !c.Trapped?
  {
    p.(waveform := Delivered(c))
  }

  /**
   * The write is not checked against the current state: an analysis that
   * finishes after a stop puts a waveform back although nothing plays, and
   * one started for an earlier sound overwrites the strip of the current one.
   */
  lemma LateDeliveryAfterStop(p: Playback, c: Waveform.Completion)
    requires !c.Trapped? && c != Waveform.Completed(None)
    ensures Deliver(Stopped(p), c).currentlyPlaying == None
    ensures Deliver(Stopped(p), c).waveform.Some?
    ensures Deliver(Stopped(p), c).waveform == Deliver(p, c).waveform
  {
  }

  // ---------------------------------------------------------------------
  // Looking sounds up
  // ---------------------------------------------------------------------

  /** `first(where: { $0.name == name })`, as an index: the first sound with that name. */
  function FirstNamed(sounds: seq<SoundItem>, name: string): (r: Option<nat>)
    ensures r.Some? ==> r.value < |sounds| && sounds[r.value].name == name
    ensures r.Some? ==> forall j :: 0 <= j < r.value ==> sounds[j].name != name
    ensures r.None? <==> forall j :: 0 <= j < |sounds| ==> sounds[j].name != name
  {
    if |sounds| == 0 then None
    else if sounds[0].name == name then Some(0)
    else match FirstNamed(sounds[1..], name)
      case None => None
      case Some(i) => Some(i + 1)
  }

  /** The sound `replayLastSound()` plays: the first one named like the last played, if any. */
  function ReplayTarget(sounds: seq<SoundItem>, lastPlayed: Option<string>): (r: Option<SoundItem>)
    ensures r.Some? <==> lastPlayed.Some? && exists j :: 0 <= j < |sounds| && sounds[j].name == lastPlayed.value
    ensures r.Some? ==> r.value.name == lastPlayed.value
    ensures r.Some? ==>
      exists i :: 0 <= i < |sounds| && sounds[i] == r.value && forall j :: 0 <= j < i ==> sounds[j].name != lastPlayed.value
  {
    if lastPlayed.None? then None
    else match FirstNamed(sounds, lastPlayed.value)
      case None => None
      case Some(i) => Some(sounds[i])
  }

  /** `firstIndex(of:)`: the first position holding an item equal to `sound`. */
  function IndexOf(sounds: seq<SoundItem>, sound: SoundItem): (r: Option<nat>)
    ensures r.Some? ==> r.value < |sounds| && sounds[r.value] == sound
    ensures r.Some? ==> forall j :: 0 <= j < r.value ==> sounds[j] != sound
    ensures r.None? <==> sound !in sounds
  {
    if |sounds| == 0 then None
    else if sounds[0] == sound then Some(0)
    else match IndexOf(sounds[1..], sound)
      case None => None
      case Some(i) => Some(i + 1)
  }

  /** `remove(at:)`. */
  function RemoveAt(s: seq<SoundItem>, i: nat): seq<SoundItem>
    requires i < |s|
  {
    s[..i] + s[i + 1..]
  }

  /**
   * Removing the item at a position drops one copy of it and nothing else,
   * keeps every other item in order, and leaves the item in the list only
   * when it occurred more than once.
   */
  lemma RemoveAtSpec(s: seq<SoundItem>, i: nat)
    requires i < |s|
    ensures var r := RemoveAt(s, i);
      && |r| == |s| - 1
      && (forall j :: 0 <= j < i ==> r[j] == s[j])
      && (forall j :: i <= j < |r| ==> r[j] == s[j + 1])
      && multiset(r) == multiset(s) - multiset{s[i]}
      && (s[i] in r <==> multiset(s)[s[i]] > 1)
  {
    var r := RemoveAt(s, i);
    var front, back := s[..i], s[i + 1..];
    assert s == front + [s[i]] + back;
    assert multiset(r) == multiset(front) + multiset(back);
    assert multiset(r)[s[i]] == multiset(s)[s[i]] - 1;
  }

  /** A lookup by name never gets past the first of several sounds sharing that name. */
  lemma NameLookupFindsEarliest(sounds: seq<SoundItem>, i: nat, j: nat)
    requires i < j < |sounds| && sounds[i].name == sounds[j].name
    ensures FirstNamed(sounds, sounds[j].name).Some? && FirstNamed(sounds, sounds[j].name).value <= i
  {
  }

  // ---------------------------------------------------------------------
  // Importing a picked file
  // ---------------------------------------------------------------------

  /** The result the file importer hands back; a failure carries its description. */
  datatype PickResult = PickSuccess(urls: seq<Url>) | PickFailure(description: string)

  /** The item the import handler appends, if any: only the first URL is tried. */
  function Imported(result: PickResult, id: Uuid, platform: Platform): Option<SoundItem>
  {
    match result
    case PickFailure(_) => None
    case PickSuccess(urls) =>
      if |urls| == 0 then None
      else match platform.createBookmark(urls[0])
        case Created(bookmark) => Some(ImportedItem(id, LastPathComponent(urls[0]), bookmark))
        case CreationFailed(_) => None
  }

  /** The message the import handler raises an alert with, if any. */
  function ImportAlert(result: PickResult, platform: Platform): Option<string>
  {
    match result
    case PickFailure(d) => Some("Failed to import file: " + d)
    case PickSuccess(urls) =>
      if |urls| == 0 then None
      else match platform.createBookmark(urls[0])
        case Created(_) => None
        case CreationFailed(d) => Some("Failed to add sound: " + d)
  }

  /**
   * An import appends an item exactly when the first picked URL could be
   * bookmarked, and then the item is an imported one named after that file;
   * it alerts, with a non-empty message, exactly when the picker or the
   * bookmark failed; an empty selection does neither.
   */
  lemma ImportSpec(result: PickResult, id: Uuid, platform: Platform)
    ensures Imported(result, id, platform).Some? <==>
      result.PickSuccess? && |result.urls| > 0 && platform.createBookmark(result.urls[0]).Created?
    ensures Imported(result, id, platform).Some? ==>
      Imported(result, id, platform).value == ImportedItem(id, LastPathComponent(result.urls[0]),
                                                           platform.createBookmark(result.urls[0]).bookmark)
    ensures ImportAlert(result, platform).Some? <==>
      result.PickFailure? || (|result.urls| > 0 && platform.createBookmark(result.urls[0]).CreationFailed?)
    ensures ImportAlert(result, platform).Some? ==> |ImportAlert(result, platform).value| > 0
    ensures !(Imported(result, id, platform).Some? && ImportAlert(result, platform).Some?)
    ensures result.PickSuccess? && |result.urls| == 0 ==>
      Imported(result, id, platform).None? && ImportAlert(result, platform).None?
  {
  }

  /** Picking several files imports the same item as picking the first one alone. */
  lemma ImportUsesFirstUrl(urls: seq<Url>, id: Uuid, platform: Platform)
    requires |urls| > 0
    ensures Imported(PickSuccess(urls), id, platform) == Imported(PickSuccess([urls[0]]), id, platform)
    ensures ImportAlert(PickSuccess(urls), platform) == ImportAlert(PickSuccess([urls[0]]), platform)
  {
  }

  // ---------------------------------------------------------------------
  // Button icons and keys
  // ---------------------------------------------------------------------

  /** The palette colours an icon can be tinted with. */
  datatype Tint = Teal | Grey | Dark

  datatype Icon = Icon(symbol: string, tint: Tint)

  /** The SF Symbol and tint of a sound button. */
  function IconFor(isPlaying: bool, isLastPlayed: bool): Icon
  {
    if isPlaying then Icon("speaker.wave.2.fill", Teal)
    else if isLastPlayed then Icon("arrow.counterclockwise.circle.fill", Grey)
    else Icon("play.circle.fill", Dark)
  }

  /** The icon of the button for `sound` in a playback state: matched by name. */
  function ButtonIcon(p: Playback, sound: SoundItem): Icon
  {
    IconFor(p.currentlyPlaying == Some(sound.name), p.lastPlayed == Some(sound.name))
  }

  /**
   * Playing outranks last played, which outranks the default; symbol and
   * tint always agree, and each of the three icons is shown in exactly one case.
   */
  lemma IconPriority(isPlaying: bool, isLastPlayed: bool)
    ensures IconFor(isPlaying, isLastPlayed).symbol == "speaker.wave.2.fill" <==> isPlaying
    ensures IconFor(isPlaying, isLastPlayed).symbol == "arrow.counterclockwise.circle.fill" <==> !isPlaying && isLastPlayed
    ensures IconFor(isPlaying, isLastPlayed).symbol == "play.circle.fill" <==> !isPlaying && !isLastPlayed
    ensures IconFor(isPlaying, isLastPlayed).tint == Teal <==> isPlaying
    ensures IconFor(isPlaying, isLastPlayed).tint == Grey <==> !isPlaying && isLastPlayed
  {
  }

  /**
   * After a started play every button with the played name shows the
   * speaker; after a stop the same buttons show the replay arrow.
   */
  lemma IconsFollowPlayback(p: Playback, sound: SoundItem, other: SoundItem, platform: Platform)
    requires Attempt(sound, platform).Started? && other.name == sound.name
    ensures ButtonIcon(AfterPlay(p, sound, Attempt(sound, platform)), other).symbol == "speaker.wave.2.fill"
    ensures ButtonIcon(Stopped(AfterPlay(p, sound, Attempt(sound, platform))), other).symbol
         == "arrow.counterclockwise.circle.fill"
  {
  }

  /** What `keyDown(with:)` does with a key code. */
  datatype KeyAction = OnSpace | OnEnter | Forward

  /** The key dispatch: 49 (space) stops, 36 (return) replays, any other key goes up the responder chain. */
  function KeyActionFor(keyCode: nat): KeyAction
  {
    if keyCode == 49 then OnSpace
    else if keyCode == 36 then OnEnter
    else Forward
  }

  /** Each of the three actions is taken for exactly its key codes. */
  lemma KeyDispatch(keyCode: nat)
    ensures KeyActionFor(keyCode) == OnSpace <==> keyCode == 49
    ensures KeyActionFor(keyCode) == OnEnter <==> keyCode == 36
    ensures KeyActionFor(keyCode) == Forward <==> keyCode != 49 && keyCode != 36
  {
  }

  // ---------------------------------------------------------------------
  // The view's state
  // ---------------------------------------------------------------------

  /** `ContentView`: its catalog, its `@State` fields, and the log of security-scoped calls it made. */
  class ContentView {
    const model: SoundDeckModel
    var audioPlayer: Option<Player>
    var showAlert: bool
    var alertMessage: string
    var currentlyPlaying: Option<string>
    var lastPlayed: Option<string>
    var waveformSamples: Option<Shown>
    var accessLog: seq<AccessEvent>

    function State(): Playback
      reads this
    {
      Playback(audioPlayer, currentlyPlaying, lastPlayed, waveformSamples)
    }

    /** The view as first built: a freshly loaded catalog and every `@State` field at its initial value. */
    constructor (store: KeyValueStore, platform: Platform, newId: nat -> Uuid)
      modifies store
      ensures fresh(model) && model.store == store
      ensures Loaded(old(store.entries), []) != [] ==>
        model.sounds == Loaded(old(store.entries), []) && store.entries == old(store.entries)
      ensures Loaded(old(store.entries), []) == [] && Seed(platform, newId).Some? ==>
        model.sounds == Seed(platform, newId).value && store.entries == Saved(old(store.entries), model.sounds)
      ensures Loaded(old(store.entries), []) == [] && Seed(platform, newId).None? ==>
        model.sounds == [] && store.entries == old(store.entries)
      ensures State() == Playback(None, None, None, None)
      ensures !showAlert && alertMessage == "" && accessLog == []
    {
      model := new SoundDeckModel(store, platform, newId);
      audioPlayer := None;
      showAlert := false;
      alertMessage := "";
      currentlyPlaying := None;
      lastPlayed := None;
      waveformSamples := None;
      accessLog := [];
    }

    /**
     * `playSound(_:)`. Returns the file whose waveform analysis it starts
     * (at 500 samples), which happens only when playback started; the
     * analysis delivers later through `DeliverWaveform`.
     */
    method PlaySound(sound: SoundItem, platform: Platform) returns (analysis: Option<Url>)
      modifies this
      ensures State() == AfterPlay(old(State()), sound, Attempt(sound, platform))
      ensures accessLog == old(accessLog) + AccessCalls(Attempt(sound, platform))
      ensures analysis.Some? <==> Attempt(sound, platform).Started?
      ensures analysis.Some? ==> analysis.value == Attempt(sound, platform).url
      ensures showAlert == old(showAlert) && alertMessage == old(alertMessage)
    {
      analysis := None;
      var resolved := FileURL(sound, platform);
      if resolved.None? {
        return;
      }
      var url := resolved.value;
      var didStartAccessing := platform.startAccessing(url);
      accessLog := accessLog + [StartAccess(url, didStartAccessing)];
      if platform.isReadableFile(url) && platform.playerLoads(url) {
        audioPlayer := Some(Player(url, false));
        audioPlayer := Some(audioPlayer.value.(playing := true));
        currentlyPlaying := Some(sound.name);
        lastPlayed := Some(sound.name);
        analysis := Some(url);
      }
      // the deferred release runs on every exit past this point
      if didStartAccessing {
        accessLog := accessLog + [StopAccess(url)];
      }
    }

    /** `stopSound()`. */
    method StopSound()
      modifies this
      ensures State() == Stopped(old(State()))
      ensures accessLog == old(accessLog) && showAlert == old(showAlert) && alertMessage == old(alertMessage)
    {
      if audioPlayer.Some? {
        audioPlayer := Some(audioPlayer.value.(playing := false));
      }
      currentlyPlaying := None;
      waveformSamples := None;
    }

    /** `replayLastSound()`: play the first sound named like the last one played, if there is one. */
    method ReplayLastSound(platform: Platform) returns (analysis: Option<Url>)
      modifies this
      ensures ReplayTarget(model.sounds, old(lastPlayed)).None? ==>
        State() == old(State()) && accessLog == old(accessLog) && analysis.None?
      ensures ReplayTarget(model.sounds, old(lastPlayed)).Some? ==>
        var sound := ReplayTarget(model.sounds, old(lastPlayed)).value;
        && State() == AfterPlay(old(State()), sound, Attempt(sound, platform))
        && accessLog == old(accessLog) + AccessCalls(Attempt(sound, platform))
        && (analysis.Some? <==> Attempt(sound, platform).Started?)
        && (analysis.Some? ==> analysis.value == Attempt(sound, platform).url)
      ensures lastPlayed == old(lastPlayed)
      ensures showAlert == old(showAlert) && alertMessage == old(alertMessage)
    {
      analysis := None;
      if lastPlayed.Some? {
        var found := FirstNamed(model.sounds, lastPlayed.value);
        if found.Some? {
          analysis := PlaySound(model.sounds[found.value], platform);
        }
      }
    }

    /** The remove action of a sound button: drop the first equal item and save. */
    method RemoveSound(sound: SoundItem)
      modifies model, model.store
      ensures IndexOf(old(model.sounds), sound).None? ==>
        model.sounds == old(model.sounds) && model.store.entries == old(model.store.entries)
      ensures IndexOf(old(model.sounds), sound).Some? ==>
        && model.sounds == RemoveAt(old(model.sounds), IndexOf(old(model.sounds), sound).value)
        && model.store.entries == Saved(old(model.store.entries), model.sounds)
        && model.Persisted()
      ensures State() == old(State())
    {
      var idx := IndexOf(model.sounds, sound);
      if idx.Some? {
        model.sounds := RemoveAt(model.sounds, idx.value);
        model.SaveSounds();
      }
    }

    /** The file importer's completion: import the first picked file, or raise an alert. */
    method ImportFile(result: PickResult, id: Uuid, platform: Platform)
      modifies this, model, model.store
      ensures Imported(result, id, platform).Some? ==>
        && model.sounds == old(model.sounds) + [Imported(result, id, platform).value]
        && model.store.entries == Saved(old(model.store.entries), model.sounds)
      ensures Imported(result, id, platform).None? ==>
        model.sounds == old(model.sounds) && model.store.entries == old(model.store.entries)
      ensures ImportAlert(result, platform).Some? ==>
        showAlert && alertMessage == ImportAlert(result, platform).value
      ensures ImportAlert(result, platform).None? ==>
        showAlert == old(showAlert) && alertMessage == old(alertMessage)
      ensures State() == old(State()) && accessLog == old(accessLog)
    {
      match result
      case PickSuccess(urls) =>
        if |urls| > 0 {
          var url := urls[0];
          match platform.createBookmark(url)
          case Created(bookmark) =>
            model.sounds := model.sounds + [ImportedItem(id, LastPathComponent(url), bookmark)];
            model.SaveSounds();
          case CreationFailed(d) =>
            alertMessage := "Failed to add sound: " + d;
            showAlert := true;
        }
      case PickFailure(d) =>
        alertMessage := "Failed to import file: " + d;
        showAlert := true;
    }

    /** The completion handler of the analysis, run on the main queue whenever it arrives. */
    method DeliverWaveform(c: Waveform.Completion)
      requires !c.Trapped?
      modifies this
      ensures State() == Deliver(old(State()), c)
      ensures accessLog == old(accessLog) && showAlert == old(showAlert) && alertMessage == old(alertMessage)
    {
      waveformSamples := Delivered(c);
    }

    /** `keyDown(with:)` wired to `stopSound` and `replayLastSound`. */
    method HandleKey(keyCode: nat, platform: Platform) returns (analysis: Option<Url>)
      modifies this
      ensures KeyActionFor(keyCode) == OnSpace ==>
        State() == Stopped(old(State())) && accessLog == old(accessLog) && analysis.None?
      ensures KeyActionFor(keyCode) == Forward ==>
        State() == old(State()) && accessLog == old(accessLog) && analysis.None?
      ensures KeyActionFor(keyCode) == OnEnter && ReplayTarget(model.sounds, old(lastPlayed)).None? ==>
        State() == old(State()) && accessLog == old(accessLog) && analysis.None?
      ensures KeyActionFor(keyCode) == OnEnter && ReplayTarget(model.sounds, old(lastPlayed)).Some? ==>
        var sound := ReplayTarget(model.sounds, old(lastPlayed)).value;
        && State() == AfterPlay(old(State()), sound, Attempt(sound, platform))
        && accessLog == old(accessLog) + AccessCalls(Attempt(sound, platform))
        && (analysis.Some? <==> Attempt(sound, platform).Started?)
        && (analysis.Some? ==> analysis.value == Attempt(sound, platform).url)
      ensures KeyActionFor(keyCode) == OnEnter ==> lastPlayed == old(lastPlayed)
      ensures showAlert == old(showAlert) && alertMessage == old(alertMessage)
    {
      analysis := None;
      match KeyActionFor(keyCode)
      case OnSpace =>
        StopSound();
      case OnEnter =>
        analysis := ReplayLastSound(platform);
      case Forward =>
    }
  }
}
