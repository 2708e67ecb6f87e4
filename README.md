# swiftlygo SLO uploader: the sequential core in Dafny

`slo/slo-uploader.go` builds an uploader that splits a local file into
segments, uploads them to OpenStack object storage and writes a two-level
static large object (SLO) manifest. Most of the file connects concurrent
pipeline stages with channels, and those stages are defined elsewhere. This
project models the parts of the file that are plain sequential logic:

- **Constructor guards** (`UploaderConfig`). `NewUploader` checks its
  arguments in a fixed order, and the first failing check decides the error:
  1. the source file is not nil;
  2. there is at least one uploader;
  3. the container name is non-empty;
  4. the object name is non-empty;
  5. the chunk size lies in `[1, maxChunkSize]`, with `maxChunkSize` = 5 000 000 000.

  `Validate` is a pure function from a `Config` record to `Pass | Fail(error)`. `Message` gives each error's text as the source spells it, including "emtpy". Go's `%d` in the uploader-count message is modelled by `Decimal.Format`.
- **Only-missing selection** (`OnlyMissing`). When `onlyMissing` is false, the server-side name list is empty. When it is true, the list is what the destination's listing returned. A listing error adds one line to the output log, but the names returned with the error are still used. `ListedOnServer` is the predicate given to `Separate`. It scans the list and returns early on the first name equal to the chunk's object name.
- **Error drain** (`SloUploader`). `Uploader.Upload` ends by forwarding every stage error to the output channel, one message each, in the order received. It then returns `nil` no matter how many errors there were. `NewUploader` ties the guards and the list selection to the `Uploader` object it returns.

Go's `uint` is modelled as the 64-bit range (`Uint`). `maxChunkSize` does not fit in 32 bits, so the package only builds where `uint` is 64 bits wide. The open file is abstracted to whether it is nil. The destination's listing is an input (`Listing`). The errors the pipeline reports during a run are a parameter of `Upload`.

`NewUploader` checks no chunk count: slo/slo-uploader.go never refers to `maxFileChunks`, and none of the guards at slo/slo-uploader.go:46-63 looks at the file size. This source has no excluded-index set and no operation that resumes from a saved manifest. `Upload` takes no arguments.

## Model

| member | source | states |
|---|---|---|
| `UploaderConfig.Validate` | slo/slo-uploader.go:46-63 | the arguments are accepted iff the source is present, the uploader count is non-zero, both names are non-empty and 1 ≤ chunk size ≤ 5 000 000 000; a too-few-uploaders error always carries the count 0 |
| `UploaderConfig.FirstFailingGuardWins` | slo/slo-uploader.go:46-63 | with the five guards listed in constructor order: validation passes iff every guard holds; otherwise the reported error is that of a failing guard all of whose predecessors hold |
| `UploaderConfig.NilSourceCheckedFirst` | slo/slo-uploader.go:46-48 | a nil source is rejected with the nil-file error whatever the other arguments are |
| `UploaderConfig.ZeroUploadersRejected` | slo/slo-uploader.go:50-52 | with a source present, zero uploaders is rejected with the message "Unable to upload with 0 uploaders (minimum 1 required)" |
| `UploaderConfig.EmptyContainerRejected` | slo/slo-uploader.go:55-56 | an empty container name is rejected once the first two guards pass, even when the object name is empty too |
| `UploaderConfig.EmptyObjectRejected` | slo/slo-uploader.go:55-59 | after the first two guards, the empty-object error is reported iff the container name is non-empty and the object name is empty |
| `UploaderConfig.ChunkSizeDecides` | slo/slo-uploader.go:61-63 | once the first four guards pass, the chunk size alone decides; 1 and 5 000 000 000 are accepted, 0 and 5 000 000 001 are rejected |
| `UploaderConfig.ConstructorScenarios` | slo/slo-uploader_test.go:48-85 | the six constructor test cases: valid input passes; zero chunk size, empty container, empty object, nil file and zero uploaders each give their own error |
| `UploaderConfig.Message` | slo/slo-uploader.go:47-62 | each rejection's error text, spelled as in the source; the texts are non-empty, and the only uploader-count text the guards can produce reads "Unable to upload with 0 uploaders (minimum 1 required)" |
| `UploaderConfig.MessageIdentifiesError` | slo/slo-uploader.go:46-63 | supporting fact about the texts of `Message`, not a promise of the source: two errors with the same message text are the same error, uploader count included |
| `Decimal.Format` | slo/slo-uploader.go:51 | `%d` of an unsigned number is a non-empty string of ASCII digits with no leading zero |
| `Decimal.FormatRoundTrip` | slo/slo-uploader.go:51 | supporting fact about `%d`, which the guards only ever apply to 0: reading the digits that `%d` printed gives back the number |
| `Decimal.FormatInjective` | slo/slo-uploader.go:51 | supporting fact, used by `MessageIdentifiesError`: distinct numbers are printed as distinct strings |
| `OnlyMissing.ListingProblemLine` | slo/slo-uploader.go:75 | the listing-problem line is the fixed prefix, then the listing's error text exactly, then a newline, so the error text can be read back from the line |
| `OnlyMissing.ServerSideChunks` | slo/slo-uploader.go:72-79 | without `onlyMissing` the server-side list is empty; with it, the list is exactly the names the listing returned |
| `OnlyMissing.ListingLog` | slo/slo-uploader.go:72-79 | choosing the list logs at most one line; it logs one iff `onlyMissing` is set and the listing failed, and that line is the listing-problem line for the error |
| `OnlyMissing.ListedOnServer` | slo/slo-uploader.go:119-126 | the early-return scan answers true iff the chunk's object name is an element of the server-side list |
| `OnlyMissing.ListedIffOccurs` | slo/slo-uploader.go:119-125 | supporting fact, stated through an occurrence count: a name is in the list iff it occurs at least once; the number of duplicates does not matter |
| `OnlyMissing.SkipIgnoresOrderAndDuplicates` | slo/slo-uploader.go:119-125 | two lists with the same elements, in any order and with any repetition, skip the same chunks |
| `OnlyMissing.NothingSkippedWithoutOnlyMissing` | slo/slo-uploader.go:77-79 | without `onlyMissing`, no object name is in the server-side list, so nothing is routed around the upload, and nothing is logged |
| `OnlyMissing.OnlyMissingSkipsListed` | slo/slo-uploader.go:72-76 | with `onlyMissing`, a name is skipped iff the listing returned it, even when the listing also failed; exactly one log line is written iff it failed |
| `SloUploader.ErrorLines` | slo/slo-uploader.go:191-193 | the drain writes one line per error, in arrival order, and line k is the message of error k |
| `SloUploader.ErrorLinesAppend` | slo/slo-uploader.go:191-193 | draining errors in two batches gives the same lines as draining them all at once |
| `SloUploader.Uploader.SkipsChunk` | slo/slo-uploader.go:119-126 | the predicate the constructor hands to `Separate`, over the list it captured: true iff the chunk's object name is in that list |
| `SloUploader.Uploader.Upload` | slo/slo-uploader.go:190-194 | the output log becomes the old log followed by the error lines, and the result is `nil` (success) in every case |
| `SloUploader.Uploader.constructor` | slo/slo-uploader.go:162-172 | the uploader records the uploader count, the output channel and, for the skip predicate, the server-side list |
| `SloUploader.NewUploader` | slo/slo-uploader.go:40-79 | on a failed guard it returns no uploader and that guard's error; otherwise it returns a fresh uploader, no error, the selected server-side list and the listing-problem log |

## Left out

- Goroutines and channels: the output printer, the status ticker, the pipeline wiring, and the chunk feeding and counting loops of `Upload` (slo/slo-uploader.go:82-89, 101-161, 177-189). The error channel is modelled as the sequence of errors it delivers, in order.
- `BuildChunks`, `ObjectNamer`, `Containerizer`, `ReadData`, `HashData`, `Separate`, `Divide`, `UploadData`, `Join`, `Map`, `Counter`, `ManifestBuilder`, `UploadManifests`, `newStatus` and the `Status` methods: they are defined in files that are not part of this model. Only the predicate given to `Separate` is modelled.
- The object-name template `object+"-chunk-%04[1]d-size-%[2]d"` and the manifest names. The formatting is done by `ObjectNamer`, which is not part of this model.
- The manifest announcement line (`printManifest`): its text depends on `FileChunk.Path`, which is not part of this model.
- `getSize` and its error return (slo/slo-uploader.go:32-38, 91-94): these stat the file. `connection.FileNames` is network I/O, so its result is an input.
- OnlyMissing.ListedOnServer: returns only the boolean. The Go predicate's second result is always `nil`.
- `maxFileChunks` (slo/slo-uploader.go:13) is not referred to anywhere in slo/slo-uploader.go, and no guard of `NewUploader` checks a chunk count. Whether the stages defined in other files of the package use it is not part of this model, so no chunk-count cap is modelled.
- Writes to standard error and the trailing newline `Fprintln` adds: the log is modelled as the messages sent on the output channel.
