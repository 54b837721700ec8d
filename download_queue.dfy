/** The kline download queue (src/main.rs): the /dl handler sends a job on a
    channel, a receiver loop appends it to a FIFO pool, and a background loop
    drains the pool under an advisory "is downloading" flag. Every step is
    one atomic operation here; the threads that interleave them are not
    modelled. */
module DownloadQueue {
  import opened Wrappers

  /** Which klines to download: a symbol and an interval. */
  datatype KLineDatasId = KLineDatasId(interval: string, symbol: string)

  datatype GenericResponse = GenericResponse(status: string, message: string)

  const DOWNLOADING_PREFIX: string := "Downloading kline datas : "
  const QUEUING_PREFIX: string := "Already downloading datas. Queuing : "

  /** The answer of the /dl handler: always a success; only the message
      depends on whether a download is in flight. */
  function DownloadResponse(symbol: string, interval: string, isDownloadingData: bool): (r: GenericResponse)
    ensures r.status == "success"
    ensures var prefix := if isDownloadingData then QUEUING_PREFIX else DOWNLOADING_PREFIX;
            |r.message| == |prefix| + |symbol| + 1 + |interval| &&
            r.message[..|prefix|] == prefix &&
            r.message[|prefix|..] == symbol + "-" + interval
  {
    var pair := symbol + "-" + interval;
    GenericResponse("success", (if isDownloadingData then QUEUING_PREFIX else DOWNLOADING_PREFIX) + pair)
  }

  /** Whatever the flag says the request succeeds and the message names the
      requested pair; the flag only selects between two distinct texts. */
  lemma BusyOnlySelectsMessage(symbol: string, interval: string, busy: bool)
    ensures DownloadResponse(symbol, interval, busy).status == "success"
    ensures var m := DownloadResponse(symbol, interval, busy).message;
            |m| >= |symbol + "-" + interval| && m[|m| - |symbol + "-" + interval|..] == symbol + "-" + interval
    ensures DownloadResponse(symbol, interval, true).message != DownloadResponse(symbol, interval, false).message
  {
    var pair := symbol + "-" + interval;
    var m := DownloadResponse(symbol, interval, busy).message;
    assert m == (if busy then QUEUING_PREFIX else DOWNLOADING_PREFIX) + pair;
    assert m[|m| - |pair|..] == pair;
    assert DownloadResponse(symbol, interval, true).message[0] == 'A';
    assert DownloadResponse(symbol, interval, false).message[0] == 'D';
  }

  class DownloadManager {
    /** Jobs sent on the channel and not yet received. */
    var channel: seq<KLineDatasId>
    /** dl_pool: received jobs waiting for the drain loop, head first. */
    var pool: seq<KLineDatasId>
    /** is_downloading_data */
    var isDownloadingData: bool
    /** Jobs handed to the download action, in the order it got them. */
    var downloaded: seq<KLineDatasId>

    constructor ()
      ensures channel == [] && pool == [] && !isDownloadingData && downloaded == []
    {
      channel := [];
      pool := [];
      isDownloadingData := false;
      downloaded := [];
    }

    /** kline_data_dl_handler: reads the flag to pick the message, then sends
        the job in every case. */
    method HandleDownloadRequest(symbol: string, interval: string) returns (response: GenericResponse)
      modifies this`channel
      ensures channel == old(channel) + [KLineDatasId(interval, symbol)]
      ensures response == DownloadResponse(symbol, interval, isDownloadingData)
    {
      response := DownloadResponse(symbol, interval, isDownloadingData);
      channel := channel + [KLineDatasId(interval, symbol)];
    }

    /** One turn of the receiver loop: the next job sent is added at the tail
        of the pool. With nothing sent the receive blocks, which changes
        nothing here. */
    method ReceiveJob() returns (received: bool)
      modifies this`channel, this`pool
      ensures received == (old(channel) != [])
      ensures received ==> channel == old(channel)[1..] && pool == old(pool) + [old(channel)[0]]
      ensures !received ==> channel == old(channel) && pool == old(pool)
    {
      received := channel != [];
      if received {
        pool := pool + [channel[0]];
        channel := channel[1..];
      }
    }

    /** The check at the top of a drain pass: the flag is raised only when
        the pool holds a job. */
    method RaiseFlagIfPending()
      modifies this`isDownloadingData
      ensures isDownloadingData == (old(pool) != [] || old(isDownloadingData))
    {
      if |pool| > 0 {
        isDownloadingData := true;
      }
    }

    /** Removing from the pool (src/main.rs:275): the head of the pool, or
        nothing when it is empty. */
    method TakeJob() returns (job: Option<KLineDatasId>)
      modifies this`pool
      ensures old(pool) == [] ==> job == None && pool == []
      ensures old(pool) != [] ==> job == Some(old(pool)[0]) && pool == old(pool)[1..]
    {
      if pool == [] {
        job := None;
      } else {
        job := Some(pool[0]);
        pool := pool[1..];
      }
    }

    /** Looking up the server time and retrieving the klines for one job,
        reduced to recording that the job was processed. */
    method Download(id: KLineDatasId)
      modifies this`downloaded
      ensures downloaded == old(downloaded) + [id]
    {
      downloaded := downloaded + [id];
    }

    /** The flag is lowered at the end of every pass. */
    method LowerFlag()
      modifies this`isDownloadingData
      ensures !isDownloadingData
    {
      isDownloadingData := false;
    }

    /** One pass of the background loop: raise the flag if jobs are pending,
        process jobs head first until the pool is empty, lower the flag. */
    method DrainPass()
      modifies this`pool, this`isDownloadingData, this`downloaded
      ensures pool == [] && !isDownloadingData
      ensures downloaded == old(downloaded) + old(pool)
    {
      RaiseFlagIfPending();
      var job := TakeJob();
      while job.Some?
        invariant old(downloaded) + old(pool) == downloaded + (if job.Some? then [job.value] else []) + pool
        invariant job.None? ==> pool == []
        invariant isDownloadingData == (old(pool) != [] || old(isDownloadingData))
        decreases |pool| + (if job.Some? then 1 else 0)
      {
        Download(job.value);
        job := TakeJob();
      }
      LowerFlag();
    }
  }

  /** Jobs requested in some order, received, and drained in one pass are
      downloaded in exactly that order; every request is answered with
      success. */
  method ServeInOrder(jobs: seq<KLineDatasId>) returns (processed: seq<KLineDatasId>, responses: seq<GenericResponse>)
    ensures processed == jobs
    ensures |responses| == |jobs|
    ensures forall k :: 0 <= k < |jobs| ==>
              responses[k] == DownloadResponse(jobs[k].symbol, jobs[k].interval, false)
  {
    var m := new DownloadManager();
    responses := [];
    for k := 0 to |jobs|
      invariant m.channel == jobs[..k] && m.pool == [] && !m.isDownloadingData && m.downloaded == []
      invariant |responses| == k
      invariant forall j :: 0 <= j < k ==> responses[j] == DownloadResponse(jobs[j].symbol, jobs[j].interval, false)
    {
      var response := m.HandleDownloadRequest(jobs[k].symbol, jobs[k].interval);
      responses := responses + [response];
      assert jobs[..k + 1] == jobs[..k] + [jobs[k]];
    }
    for k := 0 to |jobs|
      invariant m.channel == jobs[k..] && m.pool == jobs[..k] && m.downloaded == []
    {
      var received := m.ReceiveJob();
      assert jobs[..k + 1] == jobs[..k] + [jobs[k]];
    }
    assert jobs[..|jobs|] == jobs;
    m.DrainPass();
    processed := m.downloaded;
  }

  /** One job submitted to an idle manager: the flag reads false, then true
      while the job is processed, then false again. A second request arriving
      meanwhile is told a download is running, is queued all the same, and is
      processed in the same pass after the first. */
  method BusyFlagLifecycle(first: KLineDatasId, second: KLineDatasId)
    returns (flags: seq<bool>, responses: seq<GenericResponse>, processed: seq<KLineDatasId>)
    ensures flags == [false, true, false]
    ensures responses == [DownloadResponse(first.symbol, first.interval, false),
                          DownloadResponse(second.symbol, second.interval, true)]
    ensures processed == [first, second]
  {
    var m := new DownloadManager();
    var r1 := m.HandleDownloadRequest(first.symbol, first.interval);
    var got := m.ReceiveJob();
    flags := [m.isDownloadingData];
    m.RaiseFlagIfPending();
    flags := flags + [m.isDownloadingData];
    var job := m.TakeJob();
    var r2 := m.HandleDownloadRequest(second.symbol, second.interval);
    m.Download(job.value);
    got := m.ReceiveJob();
    job := m.TakeJob();
    m.Download(job.value);
    job := m.TakeJob();
    assert job.None?;
    m.LowerFlag();
    flags := flags + [m.isDownloadingData];
    responses := [r1, r2];
    processed := m.downloaded;
  }
}
