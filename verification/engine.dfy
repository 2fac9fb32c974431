/**
 * crates/agent/src/engine/mod.rs: the sync manager. A scan walks the Inbox and
 * Sent Items folders in that order, fetches the mails of the last `days` days
 * from each and hands every mail to the pipeline. A failed fetch skips only
 * that folder and a failed mail only that mail; a scan always succeeds. The
 * background sync runs one 90-day scan, then a 1-day scan on every tick of a
 * 120-second interval whose first tick fires at once.
 *
 * The mail client and the pipeline's collaborators are parameters: `fetch`
 * answers one folder request, `env` answers the calls of the k-th
 * `process_email`. The endless tick loop is cut at `ticks` delta scans.
 */
module Engine {
  import opened Errors
  import opened JsonValue
  import Types
  import Pipeline

  datatype Folder = Folder(id: int, name: string)

  /** Outlook's folder numbers: 6 is the Inbox, 5 the Sent Items. */
  const Inbox := Folder(6, "Inbox")
  const SentItems := Folder(5, "Sent Items")
  const Folders: seq<Folder> := [Inbox, SentItems]

  const InitialScanDays := 90
  const DeltaScanDays := 1
  const DeltaIntervalSeconds := 120

  /** A folder request, as `get_emails_last_n_days(days, folder_id, folder_name)` receives it. */
  datatype FetchRequest = FetchRequest(days: int, folder: Folder)

  type Fetch = FetchRequest -> Result<seq<Types.Email>>

  /** What the pipeline's collaborators answer for the k-th processed mail. */
  datatype PipelineEnv = PipelineEnv(
    replies: nat -> Pipeline.Replies,
    parse: string -> Parsed,
    promptIds: nat -> string,
    clock: nat -> int)

  /** A failed fetch contributes no mails. */
  function FetchedOrEmpty(r: Result<seq<Types.Email>>): (mails: seq<Types.Email>)
    ensures r.Ok? ==> mails == r.value
    ensures r.Err? ==> mails == []
  {
    if r.Ok? then r.value else []
  }

  /** The mails a scan over `folders` hands to the pipeline, folder by folder. */
  function ScanCalls(days: int, folders: seq<Folder>, fetch: Fetch): seq<Types.Email> {
    if folders == [] then []
    else ScanCalls(days, folders[..|folders| - 1], fetch)
         + FetchedOrEmpty(fetch(FetchRequest(days, folders[|folders| - 1])))
  }

  /** Whatever the Inbox fetch does, the Sent Items mails are still processed, after the Inbox's. */
  lemma {:induction false} ScanCallsOfFolders(days: int, fetch: Fetch)
    ensures ScanCalls(days, Folders, fetch)
      == FetchedOrEmpty(fetch(FetchRequest(days, Inbox))) + FetchedOrEmpty(fetch(FetchRequest(days, SentItems)))
  {
    assert Folders[..1] == [Inbox];
    assert [Inbox][..0] == [];
    assert ScanCalls(days, [Inbox], fetch) == [] + FetchedOrEmpty(fetch(FetchRequest(days, Inbox)));
  }

  /**
   * One scan (`run_initial_scan` with 90 days, `run_delta_scan` with 1). The
   * k-th mail processed here is the `first + k`-th of the whole run.
   */
  method Scan(days: int, fetch: Fetch, env: PipelineEnv, first: nat)
    returns (r: Result<()>, requests: seq<FetchRequest>, processed: seq<Types.Email>, outcomes: seq<Result<()>>)
    ensures r == Ok(())
    ensures requests == [FetchRequest(days, Inbox), FetchRequest(days, SentItems)]
    ensures processed == ScanCalls(days, Folders, fetch)
    ensures |outcomes| == |processed|
  {
    requests := [];
    processed := [];
    outcomes := [];
    var i := 0;
    while i < |Folders|
      invariant 0 <= i <= |Folders|
      invariant requests == seq(i, k requires 0 <= k < i => FetchRequest(days, Folders[k]))
      invariant processed == ScanCalls(days, Folders[..i], fetch)
      invariant |outcomes| == |processed|
    {
      var folder := Folders[i];
      var request := FetchRequest(days, folder);
      requests := requests + [request];
      var fetched := fetch(request);
      assert Folders[..i + 1][..i] == Folders[..i];
      if fetched.Err? {
        // the folder is skipped; the next one is still scanned
        i := i + 1;
        continue;
      }
      var mails := fetched.value;
      var j := 0;
      while j < |mails|
        invariant 0 <= j <= |mails|
        invariant processed == ScanCalls(days, Folders[..i], fetch) + mails[..j]
        invariant |outcomes| == |processed|
      {
        var n := first + |outcomes|;
        var outcome, _, _ := Pipeline.ProcessEmail(mails[j], env.replies(n), env.parse,
                                                   env.promptIds(n), env.clock(2 * n), env.clock(2 * n + 1));
        // a failure is only logged; the next mail is processed
        processed := processed + [mails[j]];
        outcomes := outcomes + [outcome];
        assert mails[..j + 1] == mails[..j] + [mails[j]];
        j := j + 1;
      }
      assert mails[..j] == mails;
      i := i + 1;
    }
    assert Folders[..i] == Folders;
    r := Ok(());
  }

  method RunInitialScan(fetch: Fetch, env: PipelineEnv, first: nat)
    returns (r: Result<()>, requests: seq<FetchRequest>, processed: seq<Types.Email>, outcomes: seq<Result<()>>)
    ensures r == Ok(())
    ensures requests == [FetchRequest(90, Inbox), FetchRequest(90, SentItems)]
    ensures processed == ScanCalls(90, Folders, fetch)
    ensures |outcomes| == |processed|
  {
    r, requests, processed, outcomes := Scan(InitialScanDays, fetch, env, first);
  }

  method RunDeltaScan(fetch: Fetch, env: PipelineEnv, first: nat)
    returns (r: Result<()>, requests: seq<FetchRequest>, processed: seq<Types.Email>, outcomes: seq<Result<()>>)
    ensures r == Ok(())
    ensures requests == [FetchRequest(1, Inbox), FetchRequest(1, SentItems)]
    ensures processed == ScanCalls(1, Folders, fetch)
    ensures |outcomes| == |processed|
  {
    r, requests, processed, outcomes := Scan(DeltaScanDays, fetch, env, first);
  }

  /** The mails of the initial scan followed by those of delta scans 0 .. n-1. */
  function SyncCalls(mailbox: nat -> Fetch, n: nat): seq<Types.Email> {
    if n == 0 then ScanCalls(InitialScanDays, Folders, mailbox(0))
    else SyncCalls(mailbox, n - 1) + ScanCalls(DeltaScanDays, Folders, mailbox(n))
  }

  /**
   * `start_background_sync`, cut after `ticks` delta scans. `mailbox(0)` answers
   * the initial scan and `mailbox(k + 1)` the k-th delta scan; `deadlines[k]`
   * is the second, counted from the interval's creation, at which the k-th
   * tick fires.
   */
  method StartBackgroundSync(ticks: nat, mailbox: nat -> Fetch, env: PipelineEnv)
    returns (deadlines: seq<int>, requests: seq<FetchRequest>, processed: seq<Types.Email>)
    ensures |deadlines| == ticks
    ensures forall k :: 0 <= k < ticks ==> deadlines[k] == 120 * k
    ensures |requests| == 2 * (ticks + 1)
    ensures forall k :: 0 <= k <= ticks ==>
      requests[2 * k] == FetchRequest(if k == 0 then 90 else 1, Inbox)
      && requests[2 * k + 1] == FetchRequest(if k == 0 then 90 else 1, SentItems)
    ensures processed == SyncCalls(mailbox, ticks)
  {
    // an initial-scan failure would only be logged; the scan cannot fail
    var _, req0, done0, outcomes0 := RunInitialScan(mailbox(0), env, 0);
    requests := req0;
    processed := done0;
    var calls: nat := |outcomes0|;
    deadlines := [];
    var k := 0;
    while k < ticks
      invariant 0 <= k <= ticks
      invariant |deadlines| == k
      invariant forall m :: 0 <= m < k ==> deadlines[m] == DeltaIntervalSeconds * m
      invariant |requests| == 2 * (k + 1)
      invariant forall m :: 0 <= m <= k ==>
        requests[2 * m] == FetchRequest(if m == 0 then 90 else 1, Inbox)
        && requests[2 * m + 1] == FetchRequest(if m == 0 then 90 else 1, SentItems)
      invariant processed == SyncCalls(mailbox, k)
    {
      deadlines := deadlines + [DeltaIntervalSeconds * k];
      var _, reqs, done, outcomes := RunDeltaScan(mailbox(k + 1), env, calls);
      requests := requests + reqs;
      processed := processed + done;
      calls := calls + |outcomes|;
      k := k + 1;
    }
  }
}
