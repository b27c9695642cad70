/**
 * Foundation-level values the app works with (optionals, URLs, byte blobs,
 * file names) and the foreign calls it makes into the operating system and
 * its media frameworks, which the model takes as oracles.
 */
module System {

  datatype Option<T> = None | Some(value: T)

  /** Foundation's `Data`. */
  type Bytes = seq<bv8>

  /** A URL: whether it uses the `file` scheme, and its path components. */
  datatype Url = Url(isFileURL: bool, components: seq<string>)

  /** `URL.lastPathComponent`; the empty path is given the empty name. */
  function LastPathComponent(u: Url): string
  {
    if |u.components| == 0 then "" else u.components[|u.components| - 1]
  }

  /** `URL.appendingPathComponent(_:)`. */
  function AppendingPathComponent(u: Url, component: string): (r: Url)
    ensures r.isFileURL == u.isFileURL
    ensures |r.components| == |u.components| + 1
    ensures r.components[..|u.components|] == u.components
    ensures LastPathComponent(r) == component
  {
    Url(u.isFileURL, u.components + [component])
  }

  /** Position of the last '.' in a file name, if there is one. */
  function LastDot(name: string): (r: Option<nat>)
    ensures r.Some? ==> r.value < |name|
  {
    if |name| == 0 then None
    else if name[|name| - 1] == '.' then Some(|name| - 1)
    else LastDot(name[..|name| - 1])
  }

  /** `LastDot` finds a '.', and no '.' follows it; `None` means the name has none. */
  lemma {:induction false} LastDotSpec(name: string)
    ensures LastDot(name).Some? ==> name[LastDot(name).value] == '.'
    ensures LastDot(name).Some? ==> forall j :: LastDot(name).value < j < |name| ==> name[j] != '.'
    ensures LastDot(name).None? ==> forall j :: 0 <= j < |name| ==> name[j] != '.'
  {
    if |name| > 0 && name[|name| - 1] != '.' {
      var init := name[..|name| - 1];
      LastDotSpec(init);
      assert forall j :: 0 <= j < |init| ==> init[j] == name[j];
    }
  }

  /** A '.' with no '.' after it is the one `LastDot` finds. */
  lemma {:induction false} LastDotFinds(name: string, i: nat)
    requires i < |name| && name[i] == '.'
    requires forall j :: i < j < |name| ==> name[j] != '.'
    ensures LastDot(name) == Some(i)
  {
    if i < |name| - 1 {
      var init := name[..|name| - 1];
      assert init[i] == '.';
      LastDotFinds(init, i);
    }
  }

  /**
   * `pathExtension` of a file name: the text after its last '.', or "" when
   * the name has no '.' or its only '.' starts the name (a hidden file).
   */
  function PathExtension(name: string): (ext: string)
  {
    match LastDot(name)
    case None => ""
    case Some(i) => if i == 0 then "" else name[i + 1..]
  }

  /** ASCII lower-casing of one character. */
  function LowerChar(c: char): char
  {
    if 'A' <= c <= 'Z' then (c as int + 32) as char else c
  }

  /** `String.lowercased()` restricted to ASCII letters. */
  function Lowercased(s: string): string
  {
    seq(|s|, i requires 0 <= i < |s| => LowerChar(s[i]))
  }

  /** What `URL(resolvingBookmarkData:...)` gives back. */
  datatype Resolution = Resolved(url: Url, isStale: bool) | ResolutionFailed

  /** What `URL.bookmarkData(options:...)` gives back; a throw carries its description. */
  datatype BookmarkCreation = Created(bookmark: Bytes) | CreationFailed(description: string)

  /** What `FileManager.contentsOfDirectory(at:...)` gives back (hidden files already skipped). */
  datatype Listing = Listed(files: seq<Url>) | ListingFailed

  /**
   * The foreign calls of the core, one oracle each:
   * `Bundle.main.resourceURL`, bookmark resolution and creation, directory
   * listing, `startAccessingSecurityScopedResource`, `isReadableFile` and
   * whether `AVAudioPlayer(contentsOf:)` succeeds for a URL.
   */
  datatype Platform = Platform(
    resourceURL: Option<Url>,
    resolveBookmark: Bytes -> Resolution,
    createBookmark: Url -> BookmarkCreation,
    contentsOfDirectory: Url -> Listing,
    startAccessing: Url -> bool,
    isReadableFile: Url -> bool,
    playerLoads: Url -> bool)
}
