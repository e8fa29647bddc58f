/** The background sync worker of checador/sync.py: one `sync_now` cycle as a
    transition of the punch outbox, the retry/backoff step of `_sync_loop`,
    and the `running` flag behind `start`/`stop`/`get_status`. The database,
    the HTTP client and the clock are oracles passed in as values. */
module Sync {
  import opened Options
  import opened Text
  import opened Store
  import opened Config

  /** Sync status of every stored punch, by punch id. */
  type Outbox = map<PunchId, SyncStatus>

  /** `db.get_user`: `None` when the user cannot be found. */
  type UserLookup = UserId -> Option<User>

  /** One element of the payload's `punches` list. */
  datatype PunchRecord = PunchRecord(
    userId: UserId,
    employeeCode: string,
    timestampUtc: string,
    timestampLocal: string,
    punchType: string,
    matchScore: int,
    deviceId: string)

  /** The request body `{device_id, punches}`. */
  datatype Payload = Payload(deviceId: string, punches: seq<PunchRecord>)

  /** What happened after the batch was fetched: the server answered with a
      status and body, or an exception was raised inside the `try` before
      any answer (a user lookup, the transport, a timeout). */
  datatype HttpOutcome = Response(statusCode: int, text: string) | Raised

  /** Result of one `sync_now`: its boolean, the outbox afterwards, and the
      payload the server answered to (`None` when no answer came back). */
  datatype SyncResult = SyncResult(success: bool, outbox: Outbox, sent: Option<Payload>)

  /** The record of a punch whose user was resolved: user fields from the
      user row, every other field copied from the punch. */
  function ToRecord(p: Punch, u: User): (r: PunchRecord)
    ensures r.userId == u.id && r.employeeCode == u.employeeCode
    ensures r.timestampUtc == p.timestampUtc && r.timestampLocal == p.timestampLocal
    ensures r.punchType == p.punchType && r.matchScore == p.matchScore && r.deviceId == p.deviceId
  {
    PunchRecord(u.id, u.employeeCode, p.timestampUtc, p.timestampLocal, p.punchType, p.matchScore, p.deviceId)
  }

  /** The records one punch contributes: none when its user is not found. */
  function RecordsOf(p: Punch, lookup: UserLookup): seq<PunchRecord> {
    match lookup(p.userId)
    case None => []
    case Some(u) => [ToRecord(p, u)]
  }

  /** Builds `punch_data`: punches whose user lookup fails are skipped. */
  function BuildRecords(batch: seq<Punch>, lookup: UserLookup): seq<PunchRecord>
    decreases |batch|
  {
    if |batch| == 0 then [] else RecordsOf(batch[0], lookup) + BuildRecords(batch[1..], lookup)
  }

  /** The payload has at most one record per fetched punch, and when every
      user is found it is exactly the punches' records in fetch order. */
  lemma {:induction false} BuildRecordsShape(batch: seq<Punch>, lookup: UserLookup)
    ensures |BuildRecords(batch, lookup)| <= |batch|
    ensures (forall i :: 0 <= i < |batch| ==> lookup(batch[i].userId).Some?) ==>
      |BuildRecords(batch, lookup)| == |batch| &&
      forall i :: 0 <= i < |batch| ==>
        BuildRecords(batch, lookup)[i] == ToRecord(batch[i], lookup(batch[i].userId).value)
    decreases |batch|
  {
    if |batch| > 0 {
      BuildRecordsShape(batch[1..], lookup);
      if forall i :: 0 <= i < |batch| ==> lookup(batch[i].userId).Some? {
        var rest := BuildRecords(batch[1..], lookup);
        assert forall i :: 0 <= i < |batch| - 1 ==> lookup(batch[1..][i].userId).Some?;
        assert RecordsOf(batch[0], lookup) == [ToRecord(batch[0], lookup(batch[0].userId).value)];
        forall i | 0 <= i < |batch|
          ensures BuildRecords(batch, lookup)[i] == ToRecord(batch[i], lookup(batch[i].userId).value)
        {
          if i > 0 {
            assert BuildRecords(batch, lookup)[i] == rest[i - 1];
            assert batch[1..][i - 1] == batch[i];
          }
        }
      }
    }
  }

  /** The payload keeps fetch order: the records of a batch split in two are
      the records of each half, one after the other. */
  lemma {:induction false} BuildRecordsConcat(a: seq<Punch>, b: seq<Punch>, lookup: UserLookup)
    ensures BuildRecords(a + b, lookup) == BuildRecords(a, lookup) + BuildRecords(b, lookup)
    decreases |a|
  {
    if |a| == 0 {
      assert a + b == b;
    } else {
      var h := RecordsOf(a[0], lookup);
      assert (a + b)[0] == a[0];
      assert (a + b)[1..] == a[1..] + b;
      assert BuildRecords(a + b, lookup) == h + BuildRecords(a[1..] + b, lookup);
      BuildRecordsConcat(a[1..], b, lookup);
      assert BuildRecords(a, lookup) == h + BuildRecords(a[1..], lookup);
    }
  }

  /** A punch whose user is not found contributes no record; one whose user
      is found contributes exactly its record. With `BuildRecordsConcat`
      this fixes the payload of every batch. */
  lemma BuildRecordsOfOne(p: Punch, lookup: UserLookup)
    ensures lookup(p.userId).None? ==> BuildRecords([p], lookup) == []
    ensures lookup(p.userId).Some? ==> BuildRecords([p], lookup) == [ToRecord(p, lookup(p.userId).value)]
  {
    assert [p][1..] == [];
  }

  /** The ids of the fetched punches. */
  function BatchIds(batch: seq<Punch>): set<PunchId> {
    set p | p in batch :: p.id
  }

  /** Sets the status of every id in `ids` (adding rows the outbox did not
      know), leaving every other punch as it was. */
  function MarkAll(outbox: Outbox, ids: set<PunchId>, s: SyncStatus): (r: Outbox)
    ensures r.Keys == outbox.Keys + ids
    ensures forall k :: k in ids ==> r[k] == s
    ensures forall k :: k in outbox && k !in ids ==> r[k] == outbox[k]
  {
    map k | k in outbox.Keys + ids :: if k in ids then s else outbox[k]
  }

  /** `f"Server returned {status_code}: {text}"`. */
  function ErrorMessage(statusCode: int, text: string): string {
    "Server returned " + IntToString(statusCode) + ": " + text
  }

  /** `sync_now`, given the configuration, the device id, the outbox, what
      `get_unsynced_punches` returned (`None`: it raised), the user lookup
      and the outcome after the fetch.
      - Disabled sync or an empty URL: success, the database is not read,
        nothing changes.
      - The fetch raises: failure, nothing changes.
      - An empty batch: success, nothing changes.
      - HTTP 200: success, and EVERY fetched punch becomes synced, including
        those left out of the payload because their user was not found.
      - Any other status: failure, every fetched punch gets the same error
        message and none becomes synced.
      - An exception after the fetch: failure, nothing changes. */
  function SyncNow(cfg: ServerConfig, deviceId: string, outbox: Outbox, fetched: Option<seq<Punch>>,
                   lookup: UserLookup, outcome: HttpOutcome): (r: SyncResult)
    ensures !cfg.enabled || cfg.url == "" ==> r == SyncResult(true, outbox, None)
    ensures cfg.enabled && cfg.url != "" && fetched.None? ==> r == SyncResult(false, outbox, None)
    ensures fetched == Some([]) ==> r == SyncResult(true, outbox, None)
    ensures r.sent.Some? <==>
      cfg.enabled && cfg.url != "" && fetched.Some? && |fetched.value| > 0 && outcome.Response?
    ensures r.sent.Some? ==> r.sent.value == Payload(deviceId, BuildRecords(fetched.value, lookup))
    ensures r.success <==>
      !cfg.enabled || cfg.url == "" || fetched == Some([]) ||
      (fetched.Some? && outcome.Response? && outcome.statusCode == 200)
    ensures r.outbox.Keys == outbox.Keys + (if r.sent.Some? then BatchIds(fetched.value) else {})
    ensures forall k :: k in outbox && k !in BatchIds(fetched.GetOr([])) ==> r.outbox[k] == outbox[k]
    ensures r.sent.Some? && r.success ==> forall p :: p in fetched.value ==> r.outbox[p.id] == Synced
    ensures r.sent.Some? && !r.success ==>
      forall p :: p in fetched.value ==> r.outbox[p.id] == SyncError(ErrorMessage(outcome.statusCode, outcome.text))
    ensures r.sent.None? ==> r.outbox == outbox
  {
    if !cfg.enabled then SyncResult(true, outbox, None)
    else if cfg.url == "" then SyncResult(true, outbox, None)
    else match fetched
      case None => SyncResult(false, outbox, None)
      case Some(batch) =>
        if |batch| == 0 then SyncResult(true, outbox, None)
        else
          var payload := Payload(deviceId, BuildRecords(batch, lookup));
          match outcome
          case Raised => SyncResult(false, outbox, None)
          case Response(code, text) =>
            if code == 200 then SyncResult(true, MarkAll(outbox, BatchIds(batch), Synced), Some(payload))
            else SyncResult(false, MarkAll(outbox, BatchIds(batch), SyncError(ErrorMessage(code, text))), Some(payload))
  }

  /** With nothing fetched, `sync_now` succeeds and leaves the outbox alone,
      so running it again changes nothing either. */
  lemma EmptyBatchIdempotent(cfg: ServerConfig, deviceId: string, outbox: Outbox,
                             lookup: UserLookup, o1: HttpOutcome, o2: HttpOutcome)
    ensures var r1 := SyncNow(cfg, deviceId, outbox, Some([]), lookup, o1);
      var r2 := SyncNow(cfg, deviceId, r1.outbox, Some([]), lookup, o2);
      r1.success && r2.success && r1.outbox == outbox && r2.outbox == outbox
  {
  }

  /** With the shipped defaults sync is disabled: `sync_now` reports success
      without reading the database or marking any punch, whatever the
      fetch or the network would have done. */
  lemma DefaultsNeverSync(outbox: Outbox, fetched: Option<seq<Punch>>, lookup: UserLookup, outcome: HttpOutcome)
    ensures SyncNow(DefaultServer, DefaultDeviceId, outbox, fetched, lookup, outcome) == SyncResult(true, outbox, None)
  {
  }

  /** A database outage during the fetch is a failure that the loop backs
      off from, and it marks nothing. */
  lemma FetchErrorBacksOff(cfg: ServerConfig, deviceId: string, outbox: Outbox, lookup: UserLookup,
                           outcome: HttpOutcome, retryCount: int)
    requires cfg.enabled && cfg.url != ""
    requires 0 <= retryCount && cfg.retryMaxAttempts > retryCount
    ensures var r := SyncNow(cfg, deviceId, outbox, None, lookup, outcome);
      !r.success && r.outbox == outbox &&
      NextStep(cfg, retryCount, Returned(r.success)).retryCount == retryCount + 1
  {
  }

  /** A punch whose user cannot be found is absent from the payload and yet
      marked synced when the server answers 200. */
  lemma UnresolvedPunchMarkedSynced(cfg: ServerConfig, deviceId: string, outbox: Outbox,
                                    p: Punch, lookup: UserLookup, text: string)
    requires cfg.enabled && cfg.url != ""
    requires lookup(p.userId).None?
    ensures var r := SyncNow(cfg, deviceId, outbox, Some([p]), lookup, Response(200, text));
      r.success && r.sent == Some(Payload(deviceId, [])) && r.outbox[p.id] == Synced
  {
    BuildRecordsOfOne(p, lookup);
    assert p in [p];
  }

  /** A punch marked with an error after a rejected batch is synced by a
      later accepted batch that contains it: an error is not a dead end. */
  lemma ErrorThenSuccess(cfg: ServerConfig, deviceId: string, outbox: Outbox, batch: seq<Punch>,
                         lookup: UserLookup, code: int, text: string, text2: string, p: Punch)
    requires cfg.enabled && cfg.url != "" && code != 200
    requires p in batch
    ensures var r1 := SyncNow(cfg, deviceId, outbox, Some(batch), lookup, Response(code, text));
      var r2 := SyncNow(cfg, deviceId, r1.outbox, Some(batch), lookup, Response(200, text2));
      !r1.success && r1.outbox[p.id] == SyncError(ErrorMessage(code, text))
      && r2.success && r2.outbox[p.id] == Synced
  {
  }

  /** When the batch holds no synced punch (as a fetch of unsynced punches
      does), a cycle never turns a synced punch back: status only moves
      forward. */
  lemma SyncedStaysSynced(cfg: ServerConfig, deviceId: string, outbox: Outbox, batch: seq<Punch>,
                          lookup: UserLookup, outcome: HttpOutcome, k: PunchId)
    requires forall p :: p in batch && p.id in outbox ==> outbox[p.id] != Synced
    requires k in outbox && outbox[k] == Synced
    ensures SyncNow(cfg, deviceId, outbox, Some(batch), lookup, outcome).outbox[k] == Synced
  {
  }

  // ---------------------------------------------------------------------
  // Retry and backoff

  /** What one loop iteration saw: `sync_now` returned a boolean, or an
      unexpected exception escaped it. */
  datatype CycleOutcome = Returned(success: bool) | Unexpected

  /** The loop's `retry_count` after an iteration and the sleep it chose.
      The delay is a real number because Python's `**` with a negative
      exponent yields a float. */
  datatype LoopStep = LoopStep(retryCount: int, delay: real)

  const UnexpectedErrorDelay: real := 60.0

  function Pow(base: int, n: nat): (r: int)
    ensures base != 0 ==> r != 0
    ensures base > 0 ==> r > 0
    decreases n
  {
    if n == 0 then 1 else base * Pow(base, n - 1)
  }

  function Min(a: int, b: int): int {
    if a <= b then a else b
  }

  /** One iteration of `_sync_loop`:
      - success resets the counter and sleeps `sync_interval_seconds`;
      - failure sets the counter to `min(count + 1, retry_max_attempts)` and
        sleeps `retry_backoff_base ** count` (a zero base with a negative
        exponent raises, which the loop catches: 60 s);
      - an unexpected exception keeps the counter and sleeps 60 s. */
  function NextStep(cfg: ServerConfig, retryCount: int, outcome: CycleOutcome): (s: LoopStep)
    ensures outcome == Returned(true) ==> s == LoopStep(0, cfg.syncIntervalSeconds as real)
    ensures outcome.Unexpected? ==> s == LoopStep(retryCount, UnexpectedErrorDelay)
    ensures outcome == Returned(false) ==>
      s.retryCount == Min(retryCount + 1, cfg.retryMaxAttempts) &&
      s.retryCount <= retryCount + 1 && s.retryCount <= cfg.retryMaxAttempts &&
      (s.retryCount >= 0 ==> s.delay == Pow(cfg.retryBackoffBase, s.retryCount) as real)
    ensures 0 <= retryCount <= cfg.retryMaxAttempts ==> 0 <= s.retryCount <= cfg.retryMaxAttempts
  {
    match outcome
    case Unexpected => LoopStep(retryCount, UnexpectedErrorDelay)
    case Returned(ok) =>
      if ok then LoopStep(0, cfg.syncIntervalSeconds as real)
      else
        var n := Min(retryCount + 1, cfg.retryMaxAttempts);
        if n >= 0 then LoopStep(n, Pow(cfg.retryBackoffBase, n) as real)
        else if cfg.retryBackoffBase != 0 then LoopStep(n, 1.0 / (Pow(cfg.retryBackoffBase, -n) as real))
        else LoopStep(n, UnexpectedErrorDelay)
  }

  /** Runs the loop over a sequence of iteration outcomes, starting from
      `retryCount`, and lists the sleeps it chose. */
  function Delays(cfg: ServerConfig, retryCount: int, outcomes: seq<CycleOutcome>): seq<real>
    decreases |outcomes|
  {
    if |outcomes| == 0 then []
    else
      var s := NextStep(cfg, retryCount, outcomes[0]);
      [s.delay] + Delays(cfg, s.retryCount, outcomes[1..])
  }

  /** The counter after `n` consecutive failures. */
  function CountAfterFailures(cfg: ServerConfig, retryCount: int, n: nat): int
    decreases n
  {
    if n == 0 then retryCount
    else NextStep(cfg, CountAfterFailures(cfg, retryCount, n - 1), Returned(false)).retryCount
  }

  /** From a reset counter, `n` consecutive failures leave it at
      `min(n, retry_max_attempts)`: growth stops at the cap. */
  lemma {:induction false} FailuresSaturate(cfg: ServerConfig, n: nat)
    requires cfg.retryMaxAttempts >= 0
    ensures CountAfterFailures(cfg, 0, n) == Min(n, cfg.retryMaxAttempts)
    decreases n
  {
    if n > 0 {
      FailuresSaturate(cfg, n - 1);
    }
  }

  /** The sleep after the n-th consecutive failure from a reset counter is
      the base raised to `min(n, retry_max_attempts)`. */
  lemma NthFailureDelay(cfg: ServerConfig, n: nat)
    requires cfg.retryMaxAttempts >= 0 && n > 0
    ensures NextStep(cfg, CountAfterFailures(cfg, 0, n - 1), Returned(false)).delay
              == Pow(cfg.retryBackoffBase, Min(n, cfg.retryMaxAttempts)) as real
  {
    FailuresSaturate(cfg, n - 1);
  }

  /** With the default base 2 and cap 5, consecutive failures sleep
      2, 4, 8, 16, 32, 32 seconds, and a success in between starts over. */
  lemma DefaultBackoffSchedule()
    ensures Delays(DefaultServer, 0, [Returned(false), Returned(false), Returned(false),
                                      Returned(false), Returned(false), Returned(false)])
            == [2.0, 4.0, 8.0, 16.0, 32.0, 32.0]
    ensures Delays(DefaultServer, 0, [Returned(false), Returned(false), Returned(true), Returned(false)])
            == [2.0, 4.0, 300.0, 2.0]
  {
    var d := DefaultServer;
    var f := Returned(false);
    assert NextStep(d, 0, f) == LoopStep(1, 2.0);
    assert NextStep(d, 1, f) == LoopStep(2, 4.0);
    assert NextStep(d, 2, f) == LoopStep(3, 8.0);
    assert NextStep(d, 3, f) == LoopStep(4, 16.0);
    assert Pow(2, 5) == 32;
    assert NextStep(d, 4, f) == LoopStep(5, 32.0);
    assert NextStep(d, 5, f) == LoopStep(5, 32.0);
    assert Delays(d, 5, [f]) == [32.0];
    assert [f, f][1..] == [f];
    assert Delays(d, 4, [f, f]) == [32.0, 32.0];
    assert [f, f, f][1..] == [f, f];
    assert Delays(d, 3, [f, f, f]) == [16.0, 32.0, 32.0];
    assert [f, f, f, f][1..] == [f, f, f];
    assert Delays(d, 2, [f, f, f, f]) == [8.0, 16.0, 32.0, 32.0];
    assert [f, f, f, f, f][1..] == [f, f, f, f];
    assert Delays(d, 1, [f, f, f, f, f]) == [4.0, 8.0, 16.0, 32.0, 32.0];
    assert [f, f, f, f, f, f][1..] == [f, f, f, f, f];
    var t := Returned(true);
    assert Delays(d, 0, [f]) == [2.0];
    assert [t, f][1..] == [f];
    assert Delays(d, 2, [t, f]) == [300.0, 2.0];
    assert [f, t, f][1..] == [t, f];
    assert [f, f, t, f][1..] == [f, t, f];
  }

  // ---------------------------------------------------------------------
  // Worker lifecycle

  /** `start`: only starts when sync is enabled and not already running. */
  function Start(cfg: ServerConfig, running: bool): (r: bool)
    ensures r <==> running || cfg.enabled
    ensures running ==> r
  {
    if !cfg.enabled then running
    else if running then running
    else true
  }

  /** `stop`: the loop no longer runs, whatever the state. */
  function Stop(running: bool): (r: bool)
    ensures !r
  {
    false
  }

  /** The dictionary `get_status` returns. */
  datatype Status = Status(enabled: bool, running: bool, serverUrl: Option<string>, unsyncedCount: nat)

  /** `get_status`, given the punches `get_unsynced_punches(limit=1000)`
      fetched: the URL is reported only while sync is enabled. */
  function GetStatus(cfg: ServerConfig, running: bool, unsynced: seq<Punch>): (r: Status)
    ensures r.enabled == cfg.enabled && r.running == running
    ensures r.serverUrl.Some? <==> cfg.enabled
    ensures r.serverUrl.Some? ==> r.serverUrl.value == cfg.url
    ensures r.unsyncedCount == |unsynced|
  {
    Status(cfg.enabled, running, if cfg.enabled then Some(cfg.url) else None, |unsynced|)
  }

  /** What `get_status` reports across the lifecycle: never running after
      `stop`; with sync disabled, `start` leaves it stopped and no URL is
      shown; with sync enabled, it runs after `start` and shows the URL. */
  lemma StatusAcrossLifecycle(cfg: ServerConfig, running: bool, unsynced: seq<Punch>)
    ensures !GetStatus(cfg, Stop(running), unsynced).running
    ensures !cfg.enabled ==>
      !GetStatus(cfg, Start(cfg, false), unsynced).running &&
      GetStatus(cfg, Start(cfg, false), unsynced).serverUrl == None
    ensures cfg.enabled ==>
      GetStatus(cfg, Start(cfg, running), unsynced).running &&
      GetStatus(cfg, Start(cfg, running), unsynced).serverUrl == Some(cfg.url)
  {
  }

  /** Start then stop leaves the worker stopped; starting twice is the same
      as starting once; with sync disabled a stopped worker never starts. */
  lemma LifecycleLaws(cfg: ServerConfig, running: bool)
    ensures !Stop(Start(cfg, running))
    ensures Start(cfg, Start(cfg, running)) == Start(cfg, running)
    ensures !cfg.enabled ==> Start(cfg, false) == false
  {
  }
}
