# HLS conformance dashboard: a Dafny model of its core

The dashboard checks which media containers, codecs and HLS playlist quirks a
browser can handle. This project models three parts of it in Dafny and proves
their properties:

- **The constant tables** (`conformance.js`), in module `Catalog`. These are the
  eight container MIME types and the 24 codec strings probed by the support
  grids, plus the catalog of 25 HLS test cases. Each test case has an optional
  `expected` field.
- **One conformance run** (`test_runner.js`), in module `TestRunner`. A run is
  one (test case, player) pair driven to one published result. The browser and
  the player libraries become an ordered trace of events. Each event is one of:
  - a `console.error` call;
  - a service-worker message;
  - the media element's `error` or `canplay` event;
  - a `play()` promise settling;
  - the 500 ms grace timer or the 15000 ms run timer firing;
  - an hls.js or Shaka error.

  The run is a state machine. It stays `Running` until the first call of
  `finishTest`, and from then on it is `Finished`, holding the record it
  resolved with. `finishTest` is modelled as `Finish`, which does three things:
  - takes a screenshot, but only for a raw PASS on a frame of non-zero size;
  - attaches the buffered logs and network requests;
  - applies the expected-failure rewrite.

  `RunPage` models the page's `main`. It looks up the test case by index and
  builds the `test_result` message posted to the parent window.
- **The two capability grids** (`main.js`), in module `CodecGrid`. Each grid
  covers the MIME type × codec table in row-major order. Every cell is queried
  with the type string `mime; codecs="codec"`. The cell's class comes from
  `MediaSource.isTypeSupported` in the MSE grid and from `canPlayType` in the
  `<video>` grid. These browser queries are function parameters. The grid
  widget is reduced to the sequence of `setCell` calls it receives.

Module `Base` holds the shared vocabulary:
- an optional value;
- `startsWith` and `endsWith`;
- `Array.prototype.join`;
- ASCII lower-casing;
- pairwise distinctness.

The two H.264 baseline strings `avc1.42001e` and `avc1.42E01E` are separate
entries of the codec table. They differ in the profile-compatibility byte (`00` against
`E0`), not only in letter case. `Catalog.BaselineCodecVariants` proves they are
still different after lower-casing.

## Model

| member | source | states |
|---|---|---|
| Catalog.EffectiveExpected | conformance.js:48-182 | a test case's effective expected outcome is FAIL exactly when `expected` is `'fail'`; an absent field means PASS |
| Catalog.CatalogWellFormed | conformance.js:48-182 | every catalog entry has a `/manifests/….m3u8` path and an `expected` field that is absent or `'fail'`; it expects failure exactly when its manifest starts with `/manifests/fail-` or it is the VP9 or AV1 case |
| Catalog.TableSizes | conformance.js:1-46 | there are 8 MIME types and 24 codec strings, none repeated |
| Catalog.BaselineCodecVariants | conformance.js:22-27 | `avc1.42001e` and `avc1.42E01E` sit at positions 6 and 11 and stay different under ASCII lower-casing |
| Catalog.ManifestShapes | conformance.js:48-182 | every manifest starts with `/manifests/` and ends with `.m3u8` |
| Catalog.NamesDistinct | conformance.js:48-182 | the catalog has 25 entries with pairwise distinct names |
| Catalog.ManifestsDistinct | conformance.js:48-182 | no two catalog entries share a manifest path |
| Catalog.ExpectedValues | conformance.js:48-182 | every `expected` field is absent or `'fail'`, so the effective outcome is PASS exactly when the field is absent |
| Catalog.FailPrefixedManifests | conformance.js:48-182 | every `fail-` manifest expects failure, and the only other expected failures are VP9 VOD and AV1 VOD |
| Catalog.ExpectedFailureSet | conformance.js:48-182 | the entries expecting failure are exactly those at positions 7, 8 and 19-24 |
| Catalog.ExpectedFailureCount | conformance.js:48-182 | eight of the 25 entries expect failure |
| TestRunner.BackendOf | test_runner.js:80-111 | `'hls.js'` selects hls.js, `'shaka-player'` selects Shaka, and any other value, including a missing one, plays natively |
| TestRunner.CaptureFrame | test_runner.js:33-47 | a screenshot exists exactly for a raw PASS whose frame has non-zero width and height and whose drawing succeeded, and it is that drawing's data URL. The logs change exactly when such a frame's drawing throws, and then gain one "Could not generate screenshot" line |
| TestRunner.Invert | test_runner.js:51-59 | the rewrite flips the raw status, always sets a reason and leaves logs, screenshot and network requests alone |
| TestRunner.Finish | test_runner.js:28-62 | the published status is the raw status, flipped exactly for expected failures; network requests are the buffer as given; a screenshot implies a raw PASS on a non-empty frame; the buffered logs are a prefix of the published logs |
| TestRunner.Start | test_runner.js:80-111 | a run finishes before any event exactly when the chosen library is hls.js or Shaka and reports itself unsupported |
| TestRunner.RunPage | test_runner.js:116-128 | a message is posted only for an index inside the catalog. It is always posted once that run has finished. It has type `test_result`, echoes `testId` and `testIndex`, and carries the run's finished record |
| TestRunner.InversionTable | test_runner.js:49-59 | for expected failures, raw FAIL becomes PASS with "Player failed as expected: <reason>" and raw PASS becomes FAIL with "Unexpected pass"; other tests keep the raw status and reason |
| TestRunner.InversionInvolutiveOnStatus | test_runner.js:51-59 | reading a rewritten record back as a raw result and rewriting again restores the raw status |
| TestRunner.InversionLosesReason | test_runner.js:51-59 | rewriting twice does not restore the reason: a confirmed "Timed out" comes back as "Unexpected pass" |
| TestRunner.ScreenshotGating | test_runner.js:33-49 | the published record has a screenshot if and only if the raw result was PASS and the frame had non-zero size and could be drawn |
| TestRunner.ConfirmedFailureHasNoScreenshot | test_runner.js:33-59 | an expected failure reported as PASS never carries a screenshot |
| TestRunner.UnexpectedPassKeepsScreenshot | test_runner.js:33-59 | an "Unexpected pass" keeps the screenshot taken before the rewrite |
| TestRunner.CaptureNeverChangesOutcome | test_runner.js:33-49 | the frame never affects status, reason or network requests. A raw PASS whose non-empty frame fails to draw appends exactly one log line. A zero-size frame adds none |
| TestRunner.FrameIrrelevantOnFail | test_runner.js:33-47 | for a raw FAIL the frame is never looked at and the logs are passed through unchanged |
| Base.Join | test_runner.js:13 | the `console.error` line of no arguments is empty and of one argument is that argument; otherwise it starts with the first argument and its length is the arguments' total plus one separator between each pair |
| TestRunner.Relevant | test_runner.js:18 | a message counts only if it carries this run's `testId`, so a message without one never counts for a run with a string or `null` id |
| TestRunner.Step | test_runner.js:12-108 | one event applied to a run: a finished run is returned unchanged; a finished run never becomes pending again; an event that finishes a pending run publishes its network list as it was and logs that begin with the logs gathered so far |
| TestRunner.RunTrace | test_runner.js:4-112 | the whole call as a trace fold: if the run finishes before any event (unsupported library) no later event changes it; a pending result can only come from a pending start |
| TestRunner.StepsAppend | test_runner.js:4-112 | feeding a trace in two parts is the same as feeding it at once |
| TestRunner.FinishedAbsorbs | test_runner.js:28-62 | once finished, no event changes the run |
| TestRunner.RunTraceSnoc | test_runner.js:4-112 | the run after one more event is one step from the run before it |
| TestRunner.FirstFinishWins | test_runner.js:5-61 | once a run has resolved, any later events leave it resolved with the same record |
| TestRunner.StepWhileRunning | test_runner.js:12-22 | an event that leaves a run pending appends only its own `console.error` line and, when the message is addressed to this run, its URL |
| TestRunner.RunningInvariant | test_runner.js:9-22 | while pending, the logs are exactly the `console.error` lines so far and the network list is exactly the URLs of this run's `network_request` messages so far; every pending `play()` or grace timer was started by an earlier `canplay` or resolved `play()` |
| TestRunner.NetworkRequestsFiltered | test_runner.js:17-22 | the published network requests are exactly the URLs of `network_request` messages carrying this run's `testId` that arrived before the finishing event; the published logs begin with that prefix's `console.error` lines |
| TestRunner.UnsupportedLibrary | test_runner.js:91-108 | with an unsupported library the run resolves before any event, whatever follows: logs exactly "HLS.js is not supported" or "Shaka Player is not supported", no network requests, "HLS.js not supported" or "Shaka Player not supported", rewritten for expected failures |
| TestRunner.TimeoutSettles | test_runner.js:24-26 | the run timer firing while the run is pending publishes a raw "Timed out" with the logs and network requests gathered so far, and nothing later changes it |
| TestRunner.TimeoutBoundsRun | test_runner.js:24-26 | every trace that contains the run timer's expiry leaves the run finished |
| TestRunner.PassFollowsPlay | test_runner.js:70-73 | a grace timer that finishes the run publishes a raw PASS with that frame, and only after at least one `canplay` and one resolved `play()` |
| TestRunner.PlayStartsGrace | test_runner.js:70-73 | from any pending run, `canplay` followed by a resolved `play()` leaves the run pending with one more grace timer and nothing else changed |
| TestRunner.TimeoutInsideGraceWins | test_runner.js:24-26 | from any pending run, if the run timer fires between `play()` resolving and the 500 ms grace timer, the run is reported "Timed out" with the logs and network requests gathered before; the later grace timer changes nothing |
| TestRunner.PlaybackPasses | test_runner.js:70-73 | from any pending run, `canplay`, a resolved `play()` and the grace timer publish a raw PASS with the frame captured then and the logs and network requests gathered before |
| TestRunner.EventOutcomes | test_runner.js:64-108 | an event that can reach its listener finishes a pending run exactly when the event table gives it a raw result. The table is: video error → "Player error"; rejected `play()` → "Could not play"; grace timer → PASS; run timer → "Timed out"; fatal hls.js error → "HLS.js fatal error"; Shaka error → "Shaka Player error". The published status and reason are what `finishTest` makes of that raw result, so they are rewritten for a test expected to fail, and the logs are those gathered so far plus the failing listener's own line: "Video Error: code C, message: M", "Play promise rejected: M", "HLS.js Error: T - D" or "Shaka Player Error: C". A finishing grace timer publishes exactly what `finishTest` makes of a raw PASS with its frame |
| TestRunner.NonFatalHlsErrorIgnored | test_runner.js:85-90 | a non-fatal hls.js error leaves a pending run unchanged |
| TestRunner.UntaggedMessagesIgnored | test_runner.js:17-22 | a `network_request` message without a `testId` is never attributed to a run whose id is a string or `null` |
| TestRunner.ErrorConfirmsExpectedFailure | test_runner.js:51-68 | a test expected to fail, played natively, whose media element errors first is published as PASS with "Player failed as expected: Player error" |
| TestRunner.ExpectedFailureScenario | test_runner.js:64-68 | catalog entry 19, which expects failure, played natively and hitting a video error, is posted as PASS with "Player failed as expected: Player error" |
| CodecGrid.TypeString | main.js:11 | the type string is the MIME type, then `; codecs="`, then the codec, then a closing quote |
| CodecGrid.ParseType | main.js:11 | a parsed type string rebuilds, through `TypeString`, to the string it came from, with a MIME part free of `;` |
| CodecGrid.ParseTypeRoundTrip | main.js:11 | the type string of a MIME type without `;` parses back to exactly its MIME type and codec |
| CodecGrid.TypeStringInjective | main.js:11 | two type strings with `;`-free MIME types are equal only for equal MIME types and codecs |
| CodecGrid.MimeTypesHaveNoParameters | conformance.js:1-10 | no MIME type of the table contains `;` |
| CodecGrid.TableQueriesDistinct | main.js:9-15 | the 192 cells of a grid send 192 different type strings |
| CodecGrid.MseClass | main.js:12-13 | an MSE cell is "pass" exactly when the type is supported, and "fail" otherwise; it is never "maybe" |
| CodecGrid.VideoClass | main.js:28-34 | a `<video>` cell's class is "pass" exactly for "probably" and "maybe" exactly for "maybe"; every other answer gives "fail" |
| CodecGrid.WrittenAppend | main.js:13 | one more `setCell` call keeps every cell written so far and writes its own cell |
| CodecGrid.RenderRow | main.js:10-14 | writing one row appends exactly one write per codec and keeps the writes classified, strictly row-major and covering every finished row |
| CodecGrid.RenderGrid | main.js:3-37 | the axes are the codecs (x) and the MIME types (y). There are rows × columns writes, each inside the grid and holding its cell's class. They are in strictly increasing row-major order, and every cell is written |
| CodecGrid.ExactlyOnce | main.js:9-15 | in row-major order two writes hit the same cell exactly when they are the same write |
| CodecGrid.RenderMseGrid | main.js:3-16 | the MSE grid has 192 writes over 24 codecs × 8 MIME types; each is "pass" exactly when the browser supports its type string and is never "maybe"; order is row-major and every cell is written |
| CodecGrid.RenderVideoGrid | main.js:18-38 | the `<video>` grid has 192 writes over 24 codecs × 8 MIME types; each holds the class of the `canPlayType` answer for its type string; order is row-major and every cell is written |

## Left out

- The browser is an event trace. There are no media element, canvas, service worker, player libraries or real timers. A timer's expiry is an event at the point in the trace where it fires.
- A `play()` settlement is ignored unless a `play()` started by `canplay` is pending. A grace timer is ignored unless one was started by a resolved `play()`. Events the page could not receive are not modelled.
- The published record is the one at the first `finishTest`. This is a modelling assumption. `finishTest` puts the live `logs` array into the record, so a listener that pushes a line before `main` posts the message changes what is posted.
- In particular, two pending `play()` promises, one for each `canplay`, are rejected together. The second `.catch` runs before the message is posted, so the posted logs hold two "Play promise rejected" lines, while the model keeps one. Pushes in later tasks, after posting, do not matter.
- The screenshot is an abstract capture outcome: the frame size and either a data URL or a thrown message. PNG encoding is not modelled.
- `runSingleHlsTest` also restores `console.error`, clears the timer and removes the message listener. These side effects are not modelled beyond the fact that a finished run ignores all events.
- `RunPage` takes the already-parsed query parameters: the index, the test id, the player and the library support flag. `URLSearchParams` and `parseInt` are not modelled. A missing or non-numeric index is just an index outside the catalog.
- `worker.js` is not part of this model. Its effect on a run's record is that it broadcasts `network_request` messages without a `testId` (worker.js:9-12); `TestRunner.UntaggedMessagesIgnored` covers those. It also answers every fetch itself, sets `Content-Type: application/vnd.apple.mpegurl` on successful `.m3u8` responses and rethrows fetch failures as network errors (worker.js:16-54). These change what the player loads, and they reach a run only through the player events of the trace.
- `components/GridRenderer.js` and `generate_video.py` are not part of this model: the first is presentation and the second is offline asset generation.
- `CodecGrid.RenderMseGrid` and `CodecGrid.RenderVideoGrid` assume a grid widget that records each `setCell` call. The `GridRenderer` element defines no `setCell`. With it as written, the first call throws, the MSE grid stops after one query, and `main` never renders the `<video>` grid.
- Base.Join: its contract gives only the empty and one-part results, the first part and the total length, not where each later part and separator sit.
- The dashboard page that schedules runs and aggregates their results (concurrency limit, reruns, statistics) is not part of this model.
- The free-text descriptions are copied into the entries; no property is stated about them.
