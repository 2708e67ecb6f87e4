/**
 * The "only missing" rule of slo/slo-uploader.go: which chunk objects the
 * pipeline treats as already stored and routes around reading, hashing and
 * uploading (the `noupload` side of `Separate`).
 */
module OnlyMissing {
  import opened Wrappers

  /** What the destination's `FileNames(container)` hands back: the names, and an error if the listing failed. */
  datatype Listing = Listing(names: seq<string>, problem: Option<string>)

  /** The line sent to the output log when the listing reports an error. */
  function ListingProblemLine(problem: string): (line: string)
    ensures var prefix := "Problem getting existing chunks names from object storage: ";
      && |line| == |prefix| + |problem| + 1
      && line[..|prefix|] == prefix
      && line[|prefix|..|line| - 1] == problem
      && line[|line| - 1] == '\n'
  {
    "Problem getting existing chunks names from object storage: " + problem + "\n"
  }

  /**
   * The server-side name list the skip predicate consults. Without
   * `onlyMissing` it is empty and the destination is not asked; with it,
   * it is whatever the listing returned, even alongside an error.
   */
  function ServerSideChunks(onlyMissing: bool, listing: Listing): (names: seq<string>)
    ensures !onlyMissing ==> |names| == 0
    ensures onlyMissing ==> names == listing.names
  {
    if onlyMissing then listing.names else []
  }

  /** The output lines that choosing the list produces. */
  function ListingLog(onlyMissing: bool, listing: Listing): (log: seq<string>)
    ensures |log| <= 1
    ensures |log| == 1 <==> onlyMissing && listing.problem.Some?
    ensures |log| == 1 ==> log[0] == ListingProblemLine(listing.problem.value)
  {
    if onlyMissing && listing.problem.Some? then [ListingProblemLine(listing.problem.value)] else []
  }

  /**
   * The predicate handed to `Separate`: scan the server-side names in order
   * and answer true at the first one equal to the chunk's object name.
   */
  method ListedOnServer(serverside: seq<string>, chunkObject: string) returns (skip: bool)
    ensures skip <==> chunkObject in serverside
  {
    for i := 0 to |serverside|
      invariant forall j | 0 <= j < i :: serverside[j] != chunkObject
    {
      if serverside[i] == chunkObject {
        return true;
      }
    }
    return false;
  }

  /** How many times a name occurs in a list. */
  function Occurrences(names: seq<string>, name: string): (n: nat)
    ensures n <= |names|
  {
    if names == [] then 0
    else (if names[0] == name then 1 else 0) + Occurrences(names[1..], name)
  }

  /** A chunk is skipped exactly when its name occurs at least once; how often does not matter. */
  lemma {:induction false} ListedIffOccurs(names: seq<string>, name: string)
    ensures name in names <==> Occurrences(names, name) > 0
  {
    if names != [] {
      ListedIffOccurs(names[1..], name);
      assert names == [names[0]] + names[1..];
    }
  }

  /** Reordering the listing, or repeating names in it, does not change which chunks are skipped. */
  lemma SkipIgnoresOrderAndDuplicates(a: seq<string>, b: seq<string>, name: string)
    requires forall x :: x in a <==> x in b
    ensures name in a <==> name in b
  {
  }

  /** Without `onlyMissing` nothing is skipped: every chunk goes on to be read, hashed and uploaded. */
  lemma NothingSkippedWithoutOnlyMissing(listing: Listing, chunkObject: string)
    ensures chunkObject !in ServerSideChunks(false, listing)
    ensures ListingLog(false, listing) == []
  {
  }

  /** With `onlyMissing`, a chunk is skipped exactly when the listing named it, whether or not it also reported an error. */
  lemma OnlyMissingSkipsListed(listing: Listing, chunkObject: string)
    ensures chunkObject in ServerSideChunks(true, listing) <==> chunkObject in listing.names
    ensures |ListingLog(true, listing)| == if listing.problem.Some? then 1 else 0
  {
  }
}
