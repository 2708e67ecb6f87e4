/**
 * The argument checks at the start of the uploader's constructor
 * (`NewUploader` in slo/slo-uploader.go). Five guards run in a fixed order:
 * the source file is present, there is at least one uploader, the container
 * name is non-empty, the object name is non-empty, and the chunk size lies
 * in [1, 5 000 000 000]. The first failing guard decides the error.
 */
module UploaderConfig {
  import Decimal

  /** Go's `uint` on the 64-bit platforms the package compiles for. */
  type Uint = n: int | 0 <= n < 0x1_0000_0000_0000_0000

  /** `maxChunkSize`: the largest segment object storage accepts (5 GB). */
  const MaxChunkSize: Uint := 1000 * 1000 * 1000 * 5

  /** The constructor arguments the guards look at; the file is abstracted to whether it is nil. */
  datatype Config = Config(
    sourcePresent: bool,
    maxUploads: Uint,
    containerName: string,
    objectName: string,
    chunkSize: Uint)

  datatype ConfigError =
    | NilSource
    | TooFewUploaders(uploaders: Uint)
    | EmptyContainer
    | EmptyObject
    | ChunkSizeOutOfRange

  datatype Outcome = Pass | Fail(error: ConfigError)

  /** The error text the constructor returns for each rejection, spelling as in the source. */
  function Message(e: ConfigError): (text: string)
    ensures |text| > 0
    ensures e == TooFewUploaders(0) ==> text == "Unable to upload with 0 uploaders (minimum 1 required)"
  {
    match e
    case NilSource => "Unable to upload nil file"
    case TooFewUploaders(n) => "Unable to upload with " + Decimal.Format(n) + " uploaders (minimum 1 required)"
    case EmptyContainer => "Container name cannot be the emtpy string"
    case EmptyObject => "Object name cannot be the emtpy string"
    case ChunkSizeOutOfRange => "Chunk size must be between 1byte and 5GB"
  }

  /** The guards of the constructor, in the order it runs them. */
  const GuardCount: nat := 5

  /** Whether guard `k` lets the configuration through. */
  predicate GuardHolds(c: Config, k: nat)
    requires k < GuardCount
  {
    if k == 0 then c.sourcePresent
    else if k == 1 then c.maxUploads >= 1
    else if k == 2 then c.containerName != ""
    else if k == 3 then c.objectName != ""
    else 1 <= c.chunkSize <= MaxChunkSize
  }

  /** The error guard `k` reports when it fails. */
  function GuardError(c: Config, k: nat): ConfigError
    requires k < GuardCount
  {
    if k == 0 then NilSource
    else if k == 1 then TooFewUploaders(c.maxUploads)
    else if k == 2 then EmptyContainer
    else if k == 3 then EmptyObject
    else ChunkSizeOutOfRange
  }

  /** The validation prefix of `NewUploader`. */
  function Validate(c: Config): (r: Outcome)
    ensures r.Pass? <==>
      c.sourcePresent && c.maxUploads != 0 && |c.containerName| > 0 && |c.objectName| > 0
      && 1 <= c.chunkSize <= 5_000_000_000
    ensures r.Fail? && r.error.TooFewUploaders? ==> r.error.uploaders == 0
  {
    if !c.sourcePresent then Fail(NilSource)
    else if c.maxUploads < 1 then Fail(TooFewUploaders(c.maxUploads))
    else if c.containerName == "" then Fail(EmptyContainer)
    else if c.objectName == "" then Fail(EmptyObject)
    else if c.chunkSize > MaxChunkSize || c.chunkSize < 1 then Fail(ChunkSizeOutOfRange)
    else Pass
  }

  /**
   * Validation passes exactly when every guard holds, and otherwise reports
   * the error of the first guard, in constructor order, that fails.
   */
  lemma FirstFailingGuardWins(c: Config)
    ensures Validate(c).Pass? <==> forall k | 0 <= k < GuardCount :: GuardHolds(c, k)
    ensures Validate(c).Fail? ==>
      exists k | 0 <= k < GuardCount ::
        && !GuardHolds(c, k)
        && Validate(c).error == GuardError(c, k)
        && forall j | 0 <= j < k :: GuardHolds(c, j)
  {
    if !c.sourcePresent {
      assert !GuardHolds(c, 0);
    } else if c.maxUploads < 1 {
      assert !GuardHolds(c, 1) && GuardHolds(c, 0);
    } else if c.containerName == "" {
      assert !GuardHolds(c, 2) && GuardHolds(c, 0) && GuardHolds(c, 1);
    } else if c.objectName == "" {
      assert !GuardHolds(c, 3) && GuardHolds(c, 0) && GuardHolds(c, 1) && GuardHolds(c, 2);
    } else if !(1 <= c.chunkSize <= MaxChunkSize) {
      assert !GuardHolds(c, 4) && GuardHolds(c, 0) && GuardHolds(c, 1) && GuardHolds(c, 2) && GuardHolds(c, 3);
    }
  }

  /** A nil source is rejected whatever the other arguments are. */
  lemma NilSourceCheckedFirst(c: Config)
    requires !c.sourcePresent
    ensures Validate(c) == Fail(NilSource)
  {
  }

  /** With a source, zero uploaders (the only `uint` below 1) is rejected next. */
  lemma ZeroUploadersRejected(c: Config)
    requires c.sourcePresent && c.maxUploads == 0
    ensures Validate(c) == Fail(TooFewUploaders(0))
    ensures Message(Validate(c).error) == "Unable to upload with 0 uploaders (minimum 1 required)"
  {
  }

  /** An empty container name is reported even when the object name is empty too. */
  lemma EmptyContainerRejected(c: Config)
    requires c.sourcePresent && c.maxUploads >= 1 && c.containerName == ""
    ensures Validate(c) == Fail(EmptyContainer)
  {
  }

  /** An empty object name is reported only once the container name is known to be non-empty. */
  lemma EmptyObjectRejected(c: Config)
    requires c.sourcePresent && c.maxUploads >= 1
    ensures Validate(c) == Fail(EmptyObject) <==> c.containerName != "" && c.objectName == ""
  {
  }

  /**
   * Once the first four guards pass, the chunk size alone decides: both
   * boundaries 1 and 5 000 000 000 are accepted, 0 and anything above are not.
   */
  lemma ChunkSizeDecides(c: Config)
    requires c.sourcePresent && c.maxUploads >= 1 && c.containerName != "" && c.objectName != ""
    ensures Validate(c) == if 1 <= c.chunkSize <= MaxChunkSize then Pass else Fail(ChunkSizeOutOfRange)
    ensures Validate(c.(chunkSize := 1)) == Pass
    ensures Validate(c.(chunkSize := 5_000_000_000)) == Pass
    ensures Validate(c.(chunkSize := 0)) == Fail(ChunkSizeOutOfRange)
    ensures Validate(c.(chunkSize := 5_000_000_001)) == Fail(ChunkSizeOutOfRange)
  {
  }

  /** The constructor cases of the package's own tests. */
  lemma ConstructorScenarios()
    ensures Validate(Config(true, 1, "container", "object", 10)) == Pass
    ensures Validate(Config(true, 1, "container", "object", 0)) == Fail(ChunkSizeOutOfRange)
    ensures Validate(Config(true, 1, "", "object", 10)) == Fail(EmptyContainer)
    ensures Validate(Config(true, 1, "container", "", 10)) == Fail(EmptyObject)
    ensures Validate(Config(false, 1, "container", "object", 10)) == Fail(NilSource)
    ensures Validate(Config(true, 0, "container", "object", 10)) == Fail(TooFewUploaders(0))
  {
  }

  /** Each error text names one error: a caller can tell the rejection from the message alone. */
  lemma MessageIdentifiesError(e1: ConfigError, e2: ConfigError)
    requires Message(e1) == Message(e2)
    ensures e1 == e2
  {
    var m1, m2 := Message(e1), Message(e2);
    if e1.TooFewUploaders? && e2.TooFewUploaders? {
      var prefix := "Unable to upload with ";
      var suffix := " uploaders (minimum 1 required)";
      var d1, d2 := Decimal.Format(e1.uploaders), Decimal.Format(e2.uploaders);
      assert m1 == prefix + d1 + suffix && m2 == prefix + d2 + suffix;
      assert |d1| == |d2|;
      assert d1 == m1[|prefix|..|prefix| + |d1|];
      assert d2 == m2[|prefix|..|prefix| + |d2|];
      Decimal.FormatInjective(e1.uploaders, e2.uploaders);
    }
  }
}
