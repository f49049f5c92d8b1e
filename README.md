# spinevis: downsampler, query validation and page title

This project models three pieces of the spinevis imaging-session viewer in
Dafny and proves properties of them.

- **Downsampler service** (`app/client/src/timeline/downsampler.service.js`):
  `init` records the session id and relative timestamps; `process` refuses to
  run before `init` or without a trace name; `downsample` normalises every
  requested resolution (floor, then at least 1). Below 100% it cuts the series
  into chunks of `100 / r` samples and keeps, per chunk, the global index of the
  first occurrence of the chunk's maximum. At 100% or more it returns the series
  itself as `y` with converted timestamps as `x`. Modules `Peaks` (chunking,
  first maximum, the peak index specification) and `Downsampler` (the service
  class `DownsamplerService`).
- **Query layer** (`app/server/src/queries.js`): pagination validation, the two
  error builders, the guard and projection of `findAllTrials`, and the
  first-or-missing lookup of `getTrialMeta`. Module `Queries`.
- **Title factory** (`app/client/src/core/title.factory.js`): `set(where)` and
  `useBase()`, writing the browser document's title. Module `Title`.

Samples are `int` (only their order matters). Resolutions are `real`
(finite numbers). JavaScript values passed to pagination are `JsValue`:
a number, NaN, or a value of another type together with its `typeof` name and
the number it converts to when compared with a number.

## Model

| member | source | states |
|---|---|---|
| Peaks.Chunks | app/client/src/timeline/downsampler.service.js:48 | chunking gives ceil(N / c) chunks, none empty (so an empty series gives none) |
| Peaks.ChunkAt | app/client/src/timeline/downsampler.service.js:48-56 | chunk k is exactly the samples from k*c up to min((k+1)*c, N) |
| Peaks.ChunksCover | app/client/src/timeline/downsampler.service.js:48 | the chunks joined back together are the whole series: no gap, no overlap |
| Peaks.Max | app/client/src/timeline/downsampler.service.js:53 | the maximum of a chunk occurs in it and no sample of it exceeds it |
| Peaks.IndexOf | app/client/src/timeline/downsampler.service.js:53 | position of the first occurrence, -1 exactly when the value is absent |
| Peaks.LocalPeak | app/client/src/timeline/downsampler.service.js:53 | local index in the chunk of a maximum, with every earlier sample strictly smaller |
| Peaks.PeakIndexesCorrect | app/client/src/timeline/downsampler.service.js:47-59 | the index list has ceil(N / c) entries, the k-th lies in chunk k, holds the chunk's maximum and is its first occurrence |
| Peaks.PeakIndexListUnique | app/client/src/timeline/downsampler.service.js:50-58 | these conditions determine the index list completely (the tie-break leaves no choice) |
| Peaks.PeakIndexesIncreasing | app/client/src/timeline/downsampler.service.js:50-58 | the returned indexes strictly increase |
| Peaks.PeakIndexesInRange | app/client/src/timeline/downsampler.service.js:56 | every returned index is a valid index of the series |
| Peaks.EmptySeries | app/client/src/timeline/downsampler.service.js:48-59 | an empty series gives an empty index list |
| Peaks.ExampleChunks | app/client/src/timeline/downsampler.service.js:48 | at 50%, [1,5,3,2,8,4,0,9] is cut into [1,5], [3,2], [8,4], [0,9] |
| Peaks.HalfResolutionExample | app/client/src/timeline/downsampler.service.js:46-59 | at 50%, [1,5,3,2,8,4,0,9] gives indexes [1,2,4,7] |
| Downsampler.Normalise | app/client/src/timeline/downsampler.service.js:33-35 | a resolution is floored and raised to at least 1 |
| Downsampler.ToInstants | app/client/src/timeline/downsampler.service.js:62 | `x` has one converted instant per relative timestamp, in order |
| Downsampler.ResolutionResult | app/client/src/timeline/downsampler.service.js:37-65 | full data exactly at 100 or more, with `y` the series and `x` as long as the timestamps; indexes exactly for divisors of 100 below 100, meeting the peak index specification |
| Downsampler.DownsampleDeterministic | app/client/src/timeline/downsampler.service.js:25-76 | two results for the same inputs are equal |
| Downsampler.ReduceToPeaks | app/client/src/timeline/downsampler.service.js:47-59 | the chunk loop builds a list meeting the peak index specification |
| Downsampler.DownsamplerService.constructor | app/client/src/timeline/downsampler.service.js:6-7 | a new service is not initialised |
| Downsampler.DownsamplerService.Init | app/client/src/timeline/downsampler.service.js:9-13 | sets the session id, the timestamps and the initialised flag, nothing else |
| Downsampler.DownsamplerService.Process | app/client/src/timeline/downsampler.service.js:15-23 | fails with "init() first" before init, then with "traceName was undefined" without a trace; otherwise downsamples the given series (the intended behaviour of line 21, see "Left out") |
| Downsampler.DownsamplerService.Downsample | app/client/src/timeline/downsampler.service.js:25-76 | keys are exactly the normalised resolutions, each with its per-resolution data; `fullRes` is the input unchanged |
| Queries.ErrorMissing | app/server/src/queries.js:20-22 | stamps type "missing", which differs from "pagination", keeping message and data |
| Queries.ErrorPagination | app/server/src/queries.js:24-30 | stamps type "pagination", which differs from "missing", with data {start, limit} |
| Queries.PaginationAccepts | app/server/src/queries.js:32-40 | no message exactly when both are numbers and neither `limit <= 0` nor `start < 0` holds |
| Queries.PaginationAcceptsNumbers | app/server/src/queries.js:32-40 | for ordinary numbers: accepted exactly when limit > 0 and start >= 0 |
| Queries.NegativeStartWins | app/server/src/queries.js:37 | a negative start reports the start message whatever the limit |
| Queries.VerifyPaginationData | app/server/src/queries.js:32-40 | the sequence of overwriting checks yields the last failing check's message, none exactly when valid, always one for a non-number |
| Queries.FindAllTrials | app/server/src/queries.js:46-64 | rejects exactly when validation fails, with a pagination error carrying the message and both arguments; otherwise projects exactly the five identifying properties to 1 |
| Queries.FindById | app/server/src/queries.js:72 | the documents with the id, empty exactly when none has it, the first being the earliest match |
| Queries.GetTrialMeta | app/server/src/queries.js:71-78 | the earliest matching document when there is one, otherwise a "missing" error with data {_id: id} |
| Title.TitleStartsWithBase | app/client/src/core/title.factory.js:1-19 | every title starts with "spinevis" |
| Title.TitleShape | app/client/src/core/title.factory.js:12-19 | no argument gives exactly "spinevis"; an argument w gives "spinevis", the separator and w |
| Title.TitleRoundTrip | app/client/src/core/title.factory.js:12-19 | the argument can be read back from the title |
| Title.TitleInjective | app/client/src/core/title.factory.js:12-19 | different arguments give different titles |
| Title.TitleFactory.constructor | app/client/src/core/title.factory.js:3 | the factory writes to the given window's document |
| Title.TitleFactory.Set | app/client/src/core/title.factory.js:12-20 | overwrites the title with one that depends only on the argument, so repeating a call changes nothing |
| Title.TitleFactory.UseBase | app/client/src/core/title.factory.js:25 | same effect as `set()`: the title becomes "spinevis" |

## Left out

- Downsampler.ResolutionResult: for a resolution below 100 that does not divide 100 (33, say) the source uses the fractional chunk size `100 / r` both for chunking and in `i * chunkSize + localIndex`, so the reported indexes are fractional and drift; the model records only `NonDivisor(r)` for these, since the chunking library's treatment of a fractional size is not part of this model.
- Downsampler.DownsamplerService.Process: as written, line 21 reads an undeclared `sessionId` (not `this.sessionId`), so once both guards pass it throws a ReferenceError before any downsampling, unless a global of that name exists. The success branch models the evidently intended behaviour: the trace of `this.sessionId` is fetched and downsampled. The asynchronous fetch itself is replaced by a parameter holding the fetched series, and fetch failures are not modelled.
- Downsampler.DownsamplerService.Downsample: reads `relTimes` when `Process` is called; in the source `self.relTimes` is read when the fetch resolves, so an `init` between the call and the resolution would change `x`, which the model does not capture.
- The conversion of relative timestamps to dates (`relTime.relativeMillis`, `new Date`) is a parameter `toInstant`; relative-time.js is not part of this model.
- The second clamp of the resolution inside the reduced branch (line 41) can never fire after the first one and is omitted.
- Timing instrumentation (`console.time`) and the log label are left out.
- Non-numeric resolutions and NaN samples: resolutions are reals and samples integers, so `Math.floor` of NaN and `_.max` over NaN are not modelled; the lodash helpers are replaced by definitions of their own (`Chunks`, `Max`, `IndexOf`).
- Queries.FindAllTrials: returns the query (projection, skip, limit) instead of running it; the MongoDB cursor is not part of this model.
- Queries.GetTrialMeta: the collection is an input sequence and `find({_id: id}).limit(1)` is its earliest document with that id; document fields are simplified to strings.
- JavaScript comparisons that throw (a Symbol argument) are not modelled; a non-number argument carries the number it converts to.
- Infinite numbers: `real` cannot hold ±Infinity, so an infinite resolution (which the source floors to Infinity, sends to the full branch and stores under the key "Infinity") and infinite pagination arguments (`verifyPaginationData(0, Infinity)` accepts) are not representable.
- A `NonNumber` value is meant to stand for a JavaScript value whose `typeof` is not "number" and whose conversion agrees with its type; the datatype does not enforce this, and for a value such as `NonNumber("number", …)`, which no JavaScript value matches, the model's messages mean nothing.
- Title.TitleFactory.Set: the argument is given as its string form (None for `undefined`); JavaScript's string conversion of other values is not modelled.
