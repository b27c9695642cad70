/**
 * The sound catalog of SoundDeckModel.swift: the `SoundItem` record, how an
 * item resolves to a file URL, and `SoundDeckModel`, the persisted list of
 * items that is seeded from the bundled resources on first run.
 */
module Catalog {
  import opened System

  /** `UUID()`; the generator is random, so the model takes each new id as an input. */
  type Uuid = nat

  /**
   * A catalog entry: a bundled resource (looked up by name) or an imported
   * file (reached through a security-scoped bookmark). Equality compares all
   * four fields, as Swift's synthesised `Equatable` does.
   */
  datatype SoundItem = SoundItem(id: Uuid, name: string, bookmarkData: Option<Bytes>, isBundled: bool)

  /** `SoundItem(name:)`, the initialiser for bundled sounds. */
  function BundledItem(id: Uuid, name: string): (item: SoundItem)
    ensures item.isBundled && item.bookmarkData == None
    ensures item.name == name && item.id == id
  {
    SoundItem(id, name, None, true)
  }

  /** `SoundItem(name:bookmarkData:)`, the initialiser for imported sounds. */
  function ImportedItem(id: Uuid, name: string, bookmark: Bytes): (item: SoundItem)
    ensures !item.isBundled && item.bookmarkData == Some(bookmark)
    ensures item.name == name && item.id == id
  {
    SoundItem(id, name, Some(bookmark), false)
  }

  /** `SoundItem.fileURL`. */
  function FileURL(item: SoundItem, platform: Platform): Option<Url>
  {
    if item.isBundled then
      match platform.resourceURL
      case None => None
      case Some(root) => Some(AppendingPathComponent(root, item.name))
    else if item.bookmarkData.Some? then
      match platform.resolveBookmark(item.bookmarkData.value)
      case Resolved(url, _) => Some(url)
      case ResolutionFailed => None
    else
      None
  }

  /**
   * A bundled item resolves to the resource root plus its name whenever the
   * root exists, to nothing otherwise, and its bookmark field is never consulted.
   */
  lemma BundledFileURL(item: SoundItem, platform: Platform, bookmark: Option<Bytes>)
    requires item.isBundled
    ensures FileURL(item, platform) == FileURL(item.(bookmarkData := bookmark), platform)
    ensures platform.resourceURL.Some? ==>
      FileURL(item, platform) == Some(AppendingPathComponent(platform.resourceURL.value, item.name))
    ensures platform.resourceURL.None? ==> FileURL(item, platform) == None
  {
  }

  /**
   * A non-bundled item resolves only through its bookmark: no bookmark or a
   * bookmark that fails gives nothing, and a resolved bookmark gives its URL
   * whether it is stale or not.
   */
  lemma ImportedFileURL(item: SoundItem, platform: Platform)
    requires !item.isBundled
    ensures item.bookmarkData.None? ==> FileURL(item, platform) == None
    ensures item.bookmarkData.Some? && platform.resolveBookmark(item.bookmarkData.value).ResolutionFailed?
      ==> FileURL(item, platform) == None
    ensures item.bookmarkData.Some? && platform.resolveBookmark(item.bookmarkData.value).Resolved?
      ==> FileURL(item, platform) == Some(platform.resolveBookmark(item.bookmarkData.value).url)
  {
  }

  /** Whatever the bookmark, an item built by the imported initialiser never looks in the resource root. */
  lemma ImportedItemIgnoresResourceRoot(id: Uuid, name: string, bookmark: Bytes, platform: Platform, root: Option<Url>)
    ensures FileURL(ImportedItem(id, name, bookmark), platform)
         == FileURL(ImportedItem(id, name, bookmark), platform.(resourceURL := root))
    ensures FileURL(ImportedItem(id, name, bookmark), platform).Some?
        <==> platform.resolveBookmark(bookmark).Resolved?
  {
  }

  // ---------------------------------------------------------------------
  // Bundled defaults
  // ---------------------------------------------------------------------

  /** The `where` clause of the seeding loop: a file URL whose lower-cased extension is "wav" or "aiff". */
  predicate IsDefaultSoundFile(file: Url)
  {
    file.isFileURL && IsAudioExtension(Lowercased(PathExtension(LastPathComponent(file))))
  }

  /** The two extensions the seeding loop accepts, compared after lower-casing. */
  predicate IsAudioExtension(ext: string)
  {
    ext == "wav" || ext == "aiff"
  }

  /** The files of a listing that satisfy `keep`, in listing order. */
  function Filter(files: seq<Url>, keep: Url -> bool): seq<Url>
  {
    if |files| == 0 then []
    else
      var last := files[|files| - 1];
      Filter(files[..|files| - 1], keep) + (if keep(last) then [last] else [])
  }

  /** The listed files the seeding loop keeps. */
  function AudioFiles(files: seq<Url>): seq<Url>
  {
    Filter(files, IsDefaultSoundFile)
  }

  /** Filtering keeps exactly the files that satisfy the test ... */
  lemma {:induction false} FilterMembers(files: seq<Url>, keep: Url -> bool)
    ensures forall u :: u in Filter(files, keep) <==> u in files && keep(u)
  {
    if |files| > 0 {
      var init := files[..|files| - 1];
      FilterMembers(init, keep);
      assert files == init + [files[|files| - 1]];
    }
  }

  /** ... and respects listing order: filtering distributes over concatenation. */
  lemma {:induction false} FilterConcat(a: seq<Url>, b: seq<Url>, keep: Url -> bool)
    ensures Filter(a + b, keep) == Filter(a, keep) + Filter(b, keep)
  {
    if |b| == 0 {
      assert a + b == a;
    } else {
      var init, last := b[..|b| - 1], b[|b| - 1];
      var tail := if keep(last) then [last] else [];
      assert (a + b)[..|a + b| - 1] == a + init;
      assert (a + b)[|a + b| - 1] == last;
      assert Filter(a + b, keep) == Filter(a + init, keep) + tail;
      assert Filter(b, keep) == Filter(init, keep) + tail;
      FilterConcat(a, init, keep);
    }
  }

  /** One bundled item per file, the k-th named after the k-th file and given the k-th new id. */
  function BundledItems(files: seq<Url>, newId: nat -> Uuid): (items: seq<SoundItem>)
    ensures |items| == |files|
  {
    if |files| == 0 then []
    else
      var last := |files| - 1;
      BundledItems(files[..last], newId) + [BundledItem(newId(last), LastPathComponent(files[last]))]
  }

  lemma BundledItemsSnoc(files: seq<Url>, file: Url, newId: nat -> Uuid)
    ensures BundledItems(files + [file], newId)
         == BundledItems(files, newId) + [BundledItem(newId(|files|), LastPathComponent(file))]
  {
    assert (files + [file])[..|files|] == files;
  }

  /** The k-th bundled item is named after the k-th file, carries the k-th id and no bookmark. */
  lemma {:induction false} BundledItemsSpec(files: seq<Url>, newId: nat -> Uuid)
    ensures forall k :: 0 <= k < |files| ==>
      BundledItems(files, newId)[k] == BundledItem(newId(k), LastPathComponent(files[k]))
  {
    if |files| > 0 {
      var init := files[..|files| - 1];
      BundledItemsSpec(init, newId);
      assert forall k :: 0 <= k < |init| ==> init[k] == files[k];
    }
  }

  /** The bundled items seeding appends for a listing. */
  function DefaultItems(files: seq<Url>, newId: nat -> Uuid): (items: seq<SoundItem>)
    ensures |items| == |AudioFiles(files)|
  {
    BundledItems(AudioFiles(files), newId)
  }

  /** Extending the listing by one file extends the kept files by that file, if it passes the test. */
  lemma FilterSnoc(files: seq<Url>, i: nat, keep: Url -> bool)
    requires i < |files|
    ensures Filter(files[..i + 1], keep) == Filter(files[..i], keep) + (if keep(files[i]) then [files[i]] else [])
  {
    assert files[..i + 1][..i] == files[..i];
  }

  /** One more listed file adds one bundled item, with the next id, exactly when it is kept. */
  lemma DefaultItemsSnoc(files: seq<Url>, i: nat, newId: nat -> Uuid)
    requires i < |files|
    ensures |AudioFiles(files[..i + 1])| == |AudioFiles(files[..i])| + (if IsDefaultSoundFile(files[i]) then 1 else 0)
    ensures DefaultItems(files[..i + 1], newId) == DefaultItems(files[..i], newId) +
      (if IsDefaultSoundFile(files[i])
       then [BundledItem(newId(|AudioFiles(files[..i])|), LastPathComponent(files[i]))]
       else [])
  {
    var kept := AudioFiles(files[..i]);
    FilterSnoc(files, i, IsDefaultSoundFile);
    if IsDefaultSoundFile(files[i]) {
      assert AudioFiles(files[..i + 1]) == kept + [files[i]];
      BundledItemsSnoc(kept, files[i], newId);
    } else {
      assert AudioFiles(files[..i + 1]) == kept;
    }
  }

  /** Seeding appends one bundled, bookmark-free item per kept file, named after it, in order. */
  lemma DefaultItemsSpec(files: seq<Url>, newId: nat -> Uuid)
    ensures var items := DefaultItems(files, newId);
      && |items| == |AudioFiles(files)|
      && forall k :: 0 <= k < |items| ==>
           && items[k].isBundled && items[k].bookmarkData == None
           && items[k].name == LastPathComponent(AudioFiles(files)[k])
           && items[k].id == newId(k)
  {
    BundledItemsSpec(AudioFiles(files), newId);
  }

  /** What `loadDefaultSounds` finds: nothing without a resource root or when listing throws. */
  function Seed(platform: Platform, newId: nat -> Uuid): Option<seq<SoundItem>>
  {
    match platform.resourceURL
    case None => None
    case Some(root) =>
      match platform.contentsOfDirectory(root)
      case ListingFailed => None
      case Listed(files) => Some(DefaultItems(files, newId))
  }

  /** A first run over a resource root holding a.wav and b.aiff seeds exactly two bundled entries, in that order. */
  lemma SeedTwoBundledFiles(platform: Platform, newId: nat -> Uuid, root: Url)
    requires platform.resourceURL == Some(root)
    requires platform.contentsOfDirectory(root) == Listed([
      Url(true, root.components + ["a.wav"]), Url(true, root.components + ["b.aiff"])])
    ensures Seed(platform, newId) == Some([BundledItem(newId(0), "a.wav"), BundledItem(newId(1), "b.aiff")])
  {
    var a, b := Url(true, root.components + ["a.wav"]), Url(true, root.components + ["b.aiff"]);
    WavAndAiffAreKept(root);
    assert [a, b][..1] == [a];
    assert Filter([a], IsDefaultSoundFile) == [a];
    assert Filter([a, b], IsDefaultSoundFile) == [a, b];
    assert BundledItems([a], newId) == [BundledItem(newId(0), "a.wav")];
    assert BundledItems([a, b], newId) == BundledItems([a], newId) + [BundledItem(newId(1), "b.aiff")];
    assert DefaultItems([a, b], newId) == [BundledItem(newId(0), "a.wav"), BundledItem(newId(1), "b.aiff")];
    assert platform.contentsOfDirectory(root) == Listed([a, b]);
  }

  /** Both files of the example pass the seeding filter. */
  lemma WavAndAiffAreKept(root: Url)
    ensures IsDefaultSoundFile(Url(true, root.components + ["a.wav"]))
    ensures IsDefaultSoundFile(Url(true, root.components + ["b.aiff"]))
  {
    assert LastPathComponent(Url(true, root.components + ["a.wav"])) == "a.wav";
    LastDotFinds("a.wav", 1);
    assert "a.wav"[2..] == "wav";
    assert Lowercased("wav") == "wav";
    assert LastPathComponent(Url(true, root.components + ["b.aiff"])) == "b.aiff";
    LastDotFinds("b.aiff", 1);
    assert "b.aiff"[2..] == "aiff";
    assert Lowercased("aiff") == "aiff";
  }

  // ---------------------------------------------------------------------
  // Persistence
  // ---------------------------------------------------------------------

  /** The `UserDefaults` key the catalog is stored under. */
  const SaveKey: string := "SoundDeckSounds"

  /** A stored value: an encoded sound list, or a value that does not decode as one. */
  datatype Blob = SoundList(items: seq<SoundItem>) | Undecodable

  /** The `UserDefaults` store, shared by every model in the process and kept across launches. */
  class KeyValueStore {
    var entries: map<string, Blob>

    constructor (entries: map<string, Blob>)
      ensures this.entries == entries
    {
      this.entries := entries;
    }
  }

  /** The store after `saveSounds` writes `sounds`. */
  function Saved(entries: map<string, Blob>, sounds: seq<SoundItem>): map<string, Blob>
  {
    entries[SaveKey := SoundList(sounds)]
  }

  /** The list after `loadSounds` reads the store: the stored list, or `current` when none decodes. */
  function Loaded(entries: map<string, Blob>, current: seq<SoundItem>): seq<SoundItem>
  {
    if SaveKey in entries && entries[SaveKey].SoundList? then entries[SaveKey].items else current
  }

  /** Saving and then loading gives back the saved list, whatever was in memory or in the store before. */
  lemma SaveLoadRoundTrip(entries: map<string, Blob>, sounds: seq<SoundItem>, current: seq<SoundItem>)
    ensures Loaded(Saved(entries, sounds), current) == sounds
  {
  }

  /** A missing or undecodable blob leaves the in-memory list as it was. */
  lemma LoadWithoutList(entries: map<string, Blob>, current: seq<SoundItem>)
    requires SaveKey !in entries || entries[SaveKey] == Undecodable
    ensures Loaded(entries, current) == current
  {
  }

  /** Saving touches no other key of the store. */
  lemma SaveKeepsOtherKeys(entries: map<string, Blob>, sounds: seq<SoundItem>, key: string)
    requires key != SaveKey
    ensures key in Saved(entries, sounds) <==> key in entries
    ensures key in entries ==> Saved(entries, sounds)[key] == entries[key]
  {
  }

  // ---------------------------------------------------------------------
  // Removing by offsets
  // ---------------------------------------------------------------------

  /** `remove(atOffsets:)`: the list without the elements at the given offsets. */
  function RemoveOffsets<T>(s: seq<T>, offsets: set<nat>): seq<T>
  {
    if |s| == 0 then []
    else RemoveOffsets(s[..|s| - 1], offsets) + (if |s| - 1 in offsets then [] else [s[|s| - 1]])
  }

  /** The offsets below `n` that are kept, in increasing order. */
  function KeptOffsets(n: nat, offsets: set<nat>): seq<nat>
  {
    if n == 0 then [] else KeptOffsets(n - 1, offsets) + (if n - 1 in offsets then [] else [n - 1])
  }

  /** The kept offsets are exactly those below `n` not removed ... */
  lemma {:induction false} KeptOffsetsMembers(n: nat, offsets: set<nat>)
    ensures forall i: nat :: i in KeptOffsets(n, offsets) <==> i < n && i !in offsets
  {
    if n > 0 {
      KeptOffsetsMembers(n - 1, offsets);
      assert KeptOffsets(n, offsets)
          == KeptOffsets(n - 1, offsets) + (if n - 1 in offsets then [] else [n - 1]);
    }
  }

  /** ... listed in strictly increasing order. */
  lemma {:induction false} KeptOffsetsIncreasing(n: nat, offsets: set<nat>)
    ensures forall j, k :: 0 <= j < k < |KeptOffsets(n, offsets)| ==>
      KeptOffsets(n, offsets)[j] < KeptOffsets(n, offsets)[k]
  {
    if n > 0 {
      var init := KeptOffsets(n - 1, offsets);
      var kept := KeptOffsets(n, offsets);
      KeptOffsetsIncreasing(n - 1, offsets);
      KeptOffsetsMembers(n - 1, offsets);
      assert kept == init + (if n - 1 in offsets then [] else [n - 1]);
      forall j, k | 0 <= j < k < |kept|
        ensures kept[j] < kept[k]
      {
        if k < |init| {
          assert kept[j] == init[j] && kept[k] == init[k];
        } else {
          assert kept[j] == init[j] && init[j] in init;
        }
      }
    }
  }

  /** When every offset is in range, exactly `|offsets|` elements go. */
  lemma {:induction false} KeptOffsetsCount(n: nat, offsets: set<nat>)
    requires forall i :: i in offsets ==> i < n
    ensures |KeptOffsets(n, offsets)| == n - |offsets|
  {
    if n > 0 {
      var rest := offsets - {n - 1};
      KeptOffsetsCount(n - 1, rest);
      assert KeptOffsets(n - 1, rest) == KeptOffsets(n - 1, offsets) by {
        KeptOffsetsAgree(n - 1, rest, offsets);
      }
      if n - 1 in offsets {
        assert offsets == rest + {n - 1};
      } else {
        assert rest == offsets;
      }
    }
  }

  lemma {:induction false} KeptOffsetsAgree(n: nat, a: set<nat>, b: set<nat>)
    requires forall i :: i < n ==> (i in a <==> i in b)
    ensures KeptOffsets(n, a) == KeptOffsets(n, b)
  {
    if n > 0 {
      KeptOffsetsAgree(n - 1, a, b);
    }
  }

  /**
   * Removing by offsets keeps exactly the elements at the kept offsets, in
   * their original relative order.
   */
  lemma {:induction false} RemoveOffsetsSpec<T>(s: seq<T>, offsets: set<nat>)
    ensures var r, kept := RemoveOffsets(s, offsets), KeptOffsets(|s|, offsets);
      && |r| == |kept|
      && forall k :: 0 <= k < |r| ==> kept[k] < |s| && r[k] == s[kept[k]]
  {
    if |s| > 0 {
      var init := s[..|s| - 1];
      RemoveOffsetsSpec(init, offsets);
      KeptOffsetsIncreasing(|s|, offsets);
      KeptOffsetsMembers(|s|, offsets);
    }
  }

  // ---------------------------------------------------------------------
  // The model object
  // ---------------------------------------------------------------------

  /** `SoundDeckModel`: the published list of sounds and the store it is saved in. */
  class SoundDeckModel {
    var sounds: seq<SoundItem>
    const store: KeyValueStore

    /** The store holds exactly the in-memory list. */
    predicate Persisted()
      reads this, store
    {
      SaveKey in store.entries && store.entries[SaveKey] == SoundList(sounds)
    }

    /** `init()`: load the stored list; seed the bundled defaults only if the list is then empty. */
    constructor (store: KeyValueStore, platform: Platform, newId: nat -> Uuid)
      modifies store
      ensures this.store == store
      ensures Loaded(old(store.entries), []) != [] ==>
        sounds == Loaded(old(store.entries), []) && store.entries == old(store.entries)
      ensures Loaded(old(store.entries), []) == [] && Seed(platform, newId).Some? ==>
        sounds == Seed(platform, newId).value && store.entries == Saved(old(store.entries), sounds)
      ensures Loaded(old(store.entries), []) == [] && Seed(platform, newId).None? ==>
        sounds == [] && store.entries == old(store.entries)
    {
      this.store := store;
      sounds := [];
      new;
      LoadSounds();
      if |sounds| == 0 {
        LoadDefaultSounds(platform, newId);
      }
    }

    /** `addSound(url:)`: on a created bookmark append one imported item named after the file, then save. */
    method AddSound(url: Url, id: Uuid, platform: Platform)
      modifies this, store
      ensures platform.createBookmark(url).Created? ==>
        && sounds == old(sounds) + [ImportedItem(id, LastPathComponent(url), platform.createBookmark(url).bookmark)]
        && store.entries == Saved(old(store.entries), sounds)
        && Persisted()
      ensures platform.createBookmark(url).CreationFailed? ==>
        sounds == old(sounds) && store.entries == old(store.entries)
    {
      match platform.createBookmark(url)
      case Created(bookmark) =>
        sounds := sounds + [ImportedItem(id, LastPathComponent(url), bookmark)];
        SaveSounds();
      case CreationFailed(_) =>
    }

    /** `removeSound(at:)`; offsets past the end trap in `remove(atOffsets:)`. */
    method RemoveSound(offsets: set<nat>)
      requires forall i :: i in offsets ==> i < |sounds|
      modifies this, store
      ensures sounds == RemoveOffsets(old(sounds), offsets)
      ensures |sounds| == |old(sounds)| - |offsets|
      ensures store.entries == Saved(old(store.entries), sounds) && Persisted()
    {
      KeptOffsetsCount(|sounds|, offsets);
      RemoveOffsetsSpec(sounds, offsets);
      sounds := RemoveOffsets(sounds, offsets);
      SaveSounds();
    }

    /** `saveSounds()`: write the whole list under the save key. */
    method SaveSounds()
      modifies store
      ensures store.entries == Saved(old(store.entries), sounds)
      ensures Persisted()
    {
      store.entries := store.entries[SaveKey := SoundList(sounds)];
    }

    /** `loadSounds()`: replace the list by the stored one when it decodes. */
    method LoadSounds()
      modifies this
      ensures sounds == Loaded(store.entries, old(sounds))
    {
      if SaveKey in store.entries && store.entries[SaveKey].SoundList? {
        sounds := store.entries[SaveKey].items;
      }
    }

    /**
     * `loadDefaultSounds()`: append a bundled item for every listed audio
     * file and save; without a resource root, or when listing throws, do nothing.
     */
    method LoadDefaultSounds(platform: Platform, newId: nat -> Uuid)
      modifies this, store
      ensures Seed(platform, newId).None? ==> sounds == old(sounds) && store.entries == old(store.entries)
      ensures Seed(platform, newId).Some? ==>
        && sounds == old(sounds) + Seed(platform, newId).value
        && store.entries == Saved(old(store.entries), sounds)
    {
      if platform.resourceURL.None? {
        return;
      }
      var listing := platform.contentsOfDirectory(platform.resourceURL.value);
      if listing.ListingFailed? {
        return;
      }
      var files := listing.files;
      var i, added := 0, 0;
      while i < |files|
        invariant 0 <= i <= |files|
        invariant added == |AudioFiles(files[..i])|
        invariant sounds == old(sounds) + DefaultItems(files[..i], newId)
        invariant store.entries == old(store.entries)
      {
        var file := files[i];
        DefaultItemsSnoc(files, i, newId);
        if IsDefaultSoundFile(file) {
          sounds := sounds + [BundledItem(newId(added), LastPathComponent(file))];
          added := added + 1;
        }
        i := i + 1;
      }
      assert files[..|files|] == files;
      SaveSounds();
    }
  }
}
