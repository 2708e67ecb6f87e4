/**
 * The `Uploader` of slo/slo-uploader.go, reduced to its sequential parts:
 * the constructor's checks and list selection, and the tail of `Upload`
 * that drains the shared error channel into the output log.
 */
module SloUploader {
  import opened Wrappers
  import opened UploaderConfig
  import opened OnlyMissing

  /** An error a pipeline stage put on the shared error channel. */
  datatype StageError = StageError(message: string)

  /** The log lines draining `errors` produces: one per error, its message, in arrival order. */
  function ErrorLines(errors: seq<StageError>): (lines: seq<string>)
    ensures |lines| == |errors|
    ensures forall k | 0 <= k < |errors| :: lines[k] == errors[k].message
  {
    if errors == [] then [] else [errors[0].message] + ErrorLines(errors[1..])
  }

  /** Draining errors in two batches logs the same lines as draining them at once. */
  lemma ErrorLinesAppend(a: seq<StageError>, b: seq<StageError>)
    ensures ErrorLines(a + b) == ErrorLines(a) + ErrorLines(b)
  {
  }

  class Uploader {
    /** The messages sent on the output channel, oldest first. */
    var output: seq<string>
    /** The names the skip predicate of this session's `Separate` stage consults. */
    const serverside: seq<string>
    const maxUploaders: Uint

    constructor (serverside: seq<string>, maxUploaders: Uint, output: seq<string>)
      ensures this.serverside == serverside && this.maxUploaders == maxUploaders
      ensures this.output == output
    {
      this.serverside := serverside;
      this.maxUploaders := maxUploaders;
      this.output := output;
    }

    /** The skip predicate of this session's `Separate` stage, over the list it captured. */
    method SkipsChunk(chunkObject: string) returns (skip: bool)
      ensures skip <==> chunkObject in serverside
    {
      skip := ListedOnServer(serverside, chunkObject);
    }

    /**
     * The end of `Upload`: once the pipeline has run and its error channel
     * has closed, forward every error message to the output log, then
     * report success whatever was forwarded.
     */
    method Upload(stageErrors: seq<StageError>) returns (err: Option<string>)
      modifies this
      ensures output == old(output) + ErrorLines(stageErrors)
      ensures err == None
    {
      for i := 0 to |stageErrors|
        invariant output == old(output) + ErrorLines(stageErrors[..i])
      {
        assert stageErrors[..i + 1] == stageErrors[..i] + [stageErrors[i]];
        output := output + [stageErrors[i].message];
      }
      assert stageErrors[..|stageErrors|] == stageErrors;
      return None;
    }
  }

  /**
   * `NewUploader` up to the point where the pipeline is wired: run the
   * guards, and on success choose the server-side list and log a listing
   * problem if there was one.
   */
  method NewUploader(c: Config, onlyMissing: bool, listing: Listing) returns (u: Uploader?, err: Option<ConfigError>)
    ensures Validate(c).Fail? ==> u == null && err == Some(Validate(c).error)
    ensures Validate(c).Pass? ==>
      && err == None
      && u != null && fresh(u)
      && u.serverside == ServerSideChunks(onlyMissing, listing)
      && u.output == ListingLog(onlyMissing, listing)
      && u.maxUploaders == c.maxUploads
  {
    var v := Validate(c);
    if v.Fail? {
      return null, Some(v.error);
    }
    var serverside: seq<string>;
    var output: seq<string> := [];
    if onlyMissing {
      serverside := listing.names;
      if listing.problem.Some? {
        output := output + [ListingProblemLine(listing.problem.value)];
      }
    } else {
      serverside := [];
    }
    u := new Uploader(serverside, c.maxUploads, output);
    err := None;
  }
}
