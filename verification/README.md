# Checador time-clock core in Dafny

A Dafny model of the decision logic of Checador, a fingerprint time clock. The model covers four parts:

- **Identification and quality** (`fingerprint.dfy`). The quality of an extracted `.xyt` minutiae file is its number of minutia lines. `identify` is the 1:N scan over the gallery. It skips failed matches, keeps the strictly better score, and so breaks ties in favour of the earliest template in gallery order. The best score is then compared with `match_threshold` using `>=`. The NBIS programs mindtct and bozorth3 are oracles: the model receives their outcome (exit code, produced file, parsed score).
- **Sync worker** (`sync.dfy`). `sync_now` is a transition of the punch outbox, a map from punch id to sync status. It takes the configuration, the fetched batch, a user-lookup function and the outcome of the POST. The `_sync_loop` iteration is a step function on `retry_count` that returns the next count and the sleep delay. The file also models `start`/`stop`/`get_status`.
- **Admin endpoints** (`admin.dfy`). This covers the session token set (`login`, `logout`, `verify_token`), the duplicate-code check of `start_enrollment`, and the guarded chain of `capture_sample`: user, capture, extraction, quality gate, store. It also covers `list_users` with its template counts and `deactivate_user`.
- **Camera ROI** (`camera.dfy`). This covers the bounds test and the 2-D crop in `capture_roi` with its full-frame fallback, the outcome of `capture_fingerprint`, and the staged flags of `test_camera`.

Supporting modules:
- `options.dfy`: Option and Result.
- `text.dfy`: Python's `str.strip()` and decimal rendering, with a parse round trip.
- `config.dfy`: the defaults of `checador/config.py`.
- `store.dfy`: the user, template and punch rows.

Behaviour of the code that the model keeps as it is:
- **Tie-break.** Ties on the best score go to the first template in gallery order.
- **Unresolved users on HTTP 200.** When the server answers 200, every fetched punch is marked synced. This includes punches left out of the payload because their user was not found.
- **No enrollment completion.** `enrollment_samples` is never read, so the model has no completion predicate.
- **Best score starts at 0.** Scores of 0 or less never become the best. With a threshold of 0 or less and no positive score, `identify` returns `(None, 0)`: a "match" without a template id.

## Model

| member | source | states |
|---|---|---|
| Text.StripEmptyIffBlank | checador/fingerprint.py:92 | `line.strip()` is empty exactly when the line is whitespace only |
| Text.IntToStringRoundTrip | checador/sync.py:139 | the decimal rendering of integers in messages is injective: parsing it gives the integer back |
| Fingerprint.CalculateQuality | checador/fingerprint.py:85-96 | quality is 0 for an unreadable file, never exceeds the number of lines, and equals it when every line is a minutia |
| Fingerprint.MinutiaLinesBound | checador/fingerprint.py:92-93 | the kept list is no longer than the file, and every kept (stripped) line is non-empty |
| Fingerprint.QualityAdditive | checador/fingerprint.py:92-93 | quality is additive over concatenated files |
| Fingerprint.QualityOfOneLine | checador/fingerprint.py:92-93 | a one-line file scores 1 exactly when its line is a minutia, which with additivity fixes every file's quality |
| Fingerprint.QualityOfLineKinds | checador/fingerprint.py:92 | a `#` line and a blank line do not count; any other line counts, including an indented `  #` line |
| Fingerprint.ExtractFeatures | checador/fingerprint.py:31-83 | success exactly when mindtct exits 0 and the `.xyt` file exists; every failure yields `(False, None, 0)`; on success quality is the line count |
| Fingerprint.MatchFingerprints | checador/fingerprint.py:98-143 | a score only when bozorth3 exits 0 and its output parses as an integer |
| Fingerprint.MaxScoreIsBest | checador/fingerprint.py:156-166 | the reference best score is non-negative, bounds every successful score and is 0 or attained |
| Fingerprint.ScanFindsFirstBest | checador/fingerprint.py:156-166 | the scan ends on the best score; it holds no id exactly when that score is 0, otherwise the id of the first template reaching it |
| Fingerprint.Identify | checador/fingerprint.py:145-174 | a match is returned iff the best score is >= threshold, with that score and the first template attaining it; with threshold > 0 the id is always a real template and all-below-threshold gives None; an id-less match has score 0 |
| Fingerprint.ScanSkipsFailures | checador/fingerprint.py:159-166 | the scan over the successful matches alone ends in the same state as over the whole gallery |
| Fingerprint.IdentifyIgnoresFailedMatches | checador/fingerprint.py:159-174 | the identification result depends only on the successful matches |
| Fingerprint.IdentifyPermutationInvariant | checador/fingerprint.py:159-171 | reordering the gallery changes neither whether a match is found nor its score, and changes the returned id only when several templates tie on the best score |
| Fingerprint.GalleryOf | checador/fingerprint.py:159-160 | the scanned gallery pairs each template id with the outcome of `match_fingerprints` on it, in order |
| Fingerprint.IdentifyUsesOnlyParsedRuns | checador/fingerprint.py:125-136 | only bozorth3 runs that exited 0 and printed an integer affect the result; with a positive threshold and no such run there is no match |
| Fingerprint.TieGoesToEarliest | checador/fingerprint.py:164-166 | two templates tied at 42 over the default threshold 40: the earlier one is returned |
| Sync.ToRecord | checador/sync.py:104-112 | a payload record takes id and code from the user and copies every other field from the punch |
| Sync.BuildRecordsShape | checador/sync.py:98-112 | the payload has at most one record per punch, and when every user resolves it is exactly the punches' records in fetch order |
| Sync.BuildRecordsConcat | checador/sync.py:98-112 | payload building preserves fetch order: it distributes over concatenation |
| Sync.BuildRecordsOfOne | checador/sync.py:99-112 | a punch with an unknown user contributes no record, and a resolved one contributes exactly its record |
| Sync.SyncNow | checador/sync.py:72-150 | disabled sync or empty URL: success, database not read, nothing changes; the fetch raising: failure, nothing changes; empty batch: success, nothing changes; 200: success and every fetched punch synced; other status: failure and every fetched punch gets the same `Server returned {code}: {text}` error; an exception after the fetch: failure, nothing changes; punches outside the batch never change |
| Sync.DefaultsNeverSync | checador/sync.py:79-81 | with the default configuration (sync disabled) a cycle succeeds without reading or marking anything |
| Sync.FetchErrorBacksOff | checador/sync.py:87-89 | a fetch that raises gives failure, marks nothing, and makes the loop raise its retry counter |
| Sync.EmptyBatchIdempotent | checador/sync.py:89-93 | two cycles with nothing fetched both succeed and leave the outbox unchanged |
| Sync.UnresolvedPunchMarkedSynced | checador/sync.py:98-137 | a punch whose user is not found is absent from the payload yet marked synced on HTTP 200 |
| Sync.ErrorThenSuccess | checador/sync.py:132-146 | a punch marked with an error after a rejected batch becomes synced in a later accepted batch |
| Sync.SyncedStaysSynced | checador/sync.py:132-146 | if the batch holds no synced punch, a synced punch stays synced |
| Sync.NextStep | checador/sync.py:46-70 | success resets the counter and sleeps the interval; failure sets it to `min(count+1, max)` and sleeps base to that power; an unexpected exception keeps it and sleeps 60; the counter stays within `[0, max]` |
| Sync.FailuresSaturate | checador/sync.py:55-61 | from 0, n consecutive failures leave the counter at `min(n, max)` |
| Sync.NthFailureDelay | checador/sync.py:59-64 | the sleep after the n-th consecutive failure from 0 is base to the power `min(n, max)` |
| Sync.DefaultBackoffSchedule | checador/sync.py:55-64 | with base 2 and cap 5, failures sleep 2, 4, 8, 16, 32, 32; a success in between sleeps 300 and restarts at 2 |
| Sync.Start | checador/sync.py:25-37 | the worker runs after `start` iff it already ran or sync is enabled |
| Sync.Stop | checador/sync.py:39-44 | after `stop` the worker does not run |
| Sync.GetStatus | checador/sync.py:152-161 | the URL is reported iff sync is enabled; the count is the number of fetched unsynced punches |
| Sync.StatusAcrossLifecycle | checador/sync.py:25-44 | `get_status` never reports running after `stop`; with sync disabled `start` leaves it stopped and no URL is shown; with sync enabled it runs after `start` and shows the URL |
| Sync.LifecycleLaws | checador/sync.py:25-44 | start then stop leaves it stopped, starting twice equals starting once, and disabled sync never starts |
| Admin.Login | checador/api/admin.py:69-87 | a correct password adds the new token and returns it; a wrong one raises 401 and stores nothing |
| Admin.Logout | checador/api/admin.py:90-95 | the token no longer verifies, others are untouched, an absent token is a no-op, and the answer is always success |
| Admin.LoginLogoutRoundTrip | checador/api/admin.py:61-95 | a token from login verifies, and logging it out restores the previous token set |
| Admin.TemplateCountAppend | checador/api/admin.py:225-233 | appending a template raises only its owner's template count, by one |
| Admin.StartEnrollment | checador/api/admin.py:98-128 | unknown token: 401, nothing changes; taken code: failure, nothing changes; success exactly when the token is valid, the code is new and the database does not raise, appending one active user; codes stay unique |
| Admin.CaptureSample | checador/api/admin.py:131-210 | a template is appended iff token, user, capture, extraction and `quality >= min_quality_score` all pass and storing does not raise; failures store nothing; only low quality reports a nonzero quality; the sample number is always echoed |
| Admin.CaptureCountsOneTemplate | checador/api/admin.py:178-192 | an accepted capture raises the captured user's template count by one; otherwise no count changes |
| Admin.NoFrameStoresNothing | checador/api/admin.py:158-166 | when the camera yields no frame, the capture answers with `capture_fingerprint`'s message and quality 0 and stores nothing |
| Admin.QualityBoundaryAccepted | checador/api/admin.py:178-192 | a quality equal to the minimum is stored, one below the minimum is not |
| Admin.ListUsers | checador/api/admin.py:213-236 | unknown token: 401; otherwise one summary per user in order, with the number of templates that user owns |
| Admin.DeactivateUser | checador/api/admin.py:239-251 | unknown token: 401 and no change; otherwise the matching users become inactive, templates are kept, codes stay unique |
| Admin.EnrollThenCaptureKeepsCodesUnique | checador/api/admin.py:98-192 | an enrollment start followed by a capture keeps employee codes unique |
| Camera.Crop | checador/camera.py:97 | the crop has h rows of w columns, and cell (i, j) is the frame's cell (y+i, x+j) |
| Camera.CaptureRoi | checador/camera.py:79-98 | no frame gives None; an out-of-bounds ROI gives the full frame unchanged; otherwise the ROI-sized crop |
| Camera.DefaultRoiIsWholeFrame | checador/camera.py:85-98 | the default ROI (0, 0, 640, 480) on a 640x480 frame crops the whole frame |
| Camera.CaptureFingerprint | checador/camera.py:100-130 | success exactly when a frame was captured and the image was written; every failure carries a message |
| Camera.TestCamera | checador/camera.py:159-211 | the flags are monotone (roi_valid implies frame_captured implies opened implies accessible); roi_valid is the negation of the `capture_roi` rejection test; an error is reported iff the ROI is not valid |
| Camera.TestCameraAgreesWithCaptureRoi | checador/camera.py:91-98 | when the ROI is not the full frame, `test_camera` calls it valid exactly when `capture_roi` crops it |

## Left out

- Running mindtct and bozorth3: subprocess handling, timeouts and the `int()` parse of bozorth3's output are oracle results (`MindtctRun`, `BozorthRun`). How `.xyt` paths are derived from image paths is also left out.
- Reading the `.xyt` file: the model takes the lines Python's file iteration yields. Newline translation in text mode is left out.
- Decoding the `.xyt` file: a decoding error is treated like any read error, which gives quality 0.
- The HTTP client: headers, JSON encoding, the 30 s timeout and the `/punches` URL are left out. Only the outcome of the POST is modelled.
- Sync.SyncNow: an exception after the fetch leaves the outbox unchanged. The model does not cover a database error raised halfway through marking the batch, which would leave it partly marked.
- The database layer (checador/database.py) is not part of this model. The fetched batch is an input, so its size limit, its ordering and whether error rows are fetched again are not asserted. New user ids are an input to `StartEnrollment`.
- asyncio task creation, cancellation and sleeping: the loop is modelled only as the per-iteration step `NextStep` and its iteration `Delays`.
- Camera.CaptureRoi: requires a non-negative ROI width and height. With negative sizes, numpy's negative-index slicing would apply, and that is not modelled. Frames are required to be rectangular, as numpy arrays are.
- OpenCV device handling, grayscale conversion, PNG/JPEG encoding, the ROI rectangle drawn for the stream, and `get_frame_jpeg`. The model takes whether the device opened and which frame was read.
- Admin.CaptureSample: inside the `try`, an exception is modelled only where storing the template raises. Exceptions raised before the `try` are not modelled. One example is `FingerprintMatcher(config)` raising `FileNotFoundError` when an NBIS tool is missing, which ends the request with an HTTP 500 and no capture response.
- Camera.TestCamera: the catch-all that records an unexpected exception's text as the error is not modelled.
- Admin.Login: the password check (AuthManager, not part of this model) and `secrets` token generation are inputs. The token's timestamp is dropped, because nothing reads it.
- Configuration loading and saving, and the calibration endpoint that stores an unchecked ROI (this is why the full-frame fallback matters). Packaging and logging are also left out.
- Enrollment completion (`enrollment_samples`): the code never uses it.
