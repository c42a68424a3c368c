/**
 * The consume loop of the MongoDB event writer: one object owns the map of
 * collection handles, the map of pending document lists, the data-record
 * counter and the benchmark timer, and updates them in place for every record
 * it pulls. `Step` is one iteration of the loop; `Run` feeds it a finite
 * stream. Clock readings arrive as parameters, and every `insertMany` call is
 * recorded in the ghost log `written`.
 */
module Writer {
  import opened Batching

  /** One iteration's input: the pulled record and the clock readings taken around it. */
  datatype Pull = Pull(event: EventDocument, armedAt: int, checkedAt: int, reportAt: int)

  /** The data records among the pulled records, in arrival order. */
  function DataRecords(pulls: seq<Pull>, heartbeats: iset<string>): (r: seq<EventDocument>)
  {
    if pulls == [] then []
    else
      var last := pulls[|pulls| - 1].event;
      DataRecords(pulls[..|pulls| - 1], heartbeats) + (if last.collectionId in heartbeats then [] else [last])
  }

  lemma DataRecordsSnoc(pulls: seq<Pull>, i: nat, heartbeats: iset<string>)
    requires i < |pulls|
    ensures DataRecords(pulls[..i + 1], heartbeats) ==
      DataRecords(pulls[..i], heartbeats) + (if pulls[i].event.collectionId in heartbeats then [] else [pulls[i].event])
  {
    assert pulls[..i + 1][..i] == pulls[..i];
  }

  class EventWriterMongoSync {
    /** Count-trigger period. */
    const bulkSize: int
    /** Idle-gap threshold in milliseconds. */
    const maxWait: int
    /** The collection ids that match the heartbeat pattern. */
    const heartbeats: iset<string>

    /** The keys of the collection-handle map. */
    var handles: set<string>
    /** The pending document list of each collection. */
    var buffers: Buffers
    /** Data records consumed so far. */
    var cnt: nat
    /** Time of the last benchmark report (or of the start). */
    var timer1: int

    /** The data records consumed so far, in arrival order. */
    ghost var routed: seq<EventDocument>
    /** Every `insertMany` call issued so far, in call order. */
    ghost var written: seq<BulkInsert>
    /** Every benchmark report emitted so far. */
    ghost var reports: seq<Report>

    ghost predicate Valid()
      reads this
    {
      && bulkSize != 0
      && handles == buffers.Keys
      && cnt == |routed|
      && (forall k | k in handles :: k !in heartbeats)
      && Accounted(written, buffers, routed)
      && ReportsOrdered(reports, cnt)
    }

    /** The writer's configuration and the state `run()` sets up before its loop. */
    constructor (bulkSize: int, maxWait: int, heartbeats: iset<string>, startTime: int)
      requires bulkSize != 0
      ensures Valid()
      ensures this.bulkSize == bulkSize && this.maxWait == maxWait && this.heartbeats == heartbeats
      ensures handles == {} && buffers == map[] && cnt == 0 && timer1 == startTime
      ensures routed == [] && written == [] && reports == []
    {
      this.bulkSize := bulkSize;
      this.maxWait := maxWait;
      this.heartbeats := heartbeats;
      handles := {};
      buffers := map[];
      cnt := 0;
      timer1 := startTime;
      routed := [];
      written := [];
      reports := [];
    }

    /**
     * The body of the drain loop for one collection: a non-empty buffer is
     * bulk-inserted and then cleared; an empty one is left alone.
     */
    method DrainOne(key: string) returns (ghost insert: seq<BulkInsert>)
      requires Valid() && key in buffers
      modifies this`buffers, this`written
      ensures Valid()
      ensures insert == DrainOf(old(buffers), key)
      ensures written == old(written) + insert
      ensures buffers == old(buffers)[key := []]
    {
      insert := [];
      if buffers[key] != [] {
        insert := [BulkInsert(key, buffers[key])];
        AccountedClear(written, buffers, routed, key);
        written := written + insert;  // insertMany
        buffers := buffers[key := []];  // clear
      }
    }

    /**
     * Drains every non-empty buffer with one bulk insert and clears it; empty
     * buffers are skipped. Keys are visited in no fixed order.
     */
    method Flush() returns (ghost batch: seq<BulkInsert>)
      requires Valid()
      modifies this`buffers, this`written
      ensures Valid()
      ensures buffers == Emptied(old(buffers))
      ensures written == old(written) + batch
      ensures IsDrainOf(batch, old(buffers))
      ensures AllEmpty(old(buffers)) ==> batch == []
    {
      ghost var b0, w0 := buffers, written;
      ghost var visited: set<string> := {};
      batch := [];
      var pending := handles;
      while pending != {}
        invariant Valid()
        invariant pending <= handles && visited == handles - pending
        invariant buffers == Cleared(b0, visited)
        invariant written == w0 + batch
        invariant IsPartialDrain(batch, b0, visited)
        invariant AllEmpty(b0) ==> batch == []
        decreases pending
      {
        var key :| key in pending;
        DrainVisit(batch, b0, visited, key);
        ClearedVisit(b0, visited, key);
        assert buffers[key] == b0[key];
        ghost var insert := DrainOne(key);
        assert (w0 + batch) + insert == w0 + (batch + insert);
        batch := batch + insert;
        pending := pending - {key};
        visited := visited + {key};
      }
      assert Cleared(b0, visited) == Emptied(b0);
    }

    /**
     * Consumes a data record: counts it, registers its collection (handle and
     * empty list) on first sighting, and appends its document to that list.
     */
    method Add(e: EventDocument)
      requires Valid() && e.collectionId !in heartbeats
      modifies this`cnt, this`handles, this`buffers, this`routed
      ensures Valid()
      ensures cnt == old(cnt) + 1
      ensures handles == old(handles) + {e.collectionId}
      ensures buffers == Route(old(buffers), e)
      ensures routed == old(routed) + [e]
    {
      cnt := cnt + 1;
      var collectionId := e.collectionId;
      if collectionId !in handles {
        handles := handles + {collectionId};
        buffers := buffers[collectionId := []];
      }
      buffers := buffers[collectionId := buffers[collectionId] + [e.document]];
      AccountedRoute(written, old(buffers), routed, e);
      routed := routed + [e];
    }

    /**
     * The benchmark counter: after a data record whose count is a multiple of
     * `LogSize`, reports the average rate since the last report, unless no time
     * has elapsed, and restarts the interval.
     */
    method Benchmark(skipLog: bool, reportAt: int) returns (report: Option<Report>)
      requires Valid()
      requires !skipLog ==> cnt > 0 && (reports == [] || reports[|reports| - 1].count < cnt)
      modifies this`timer1, this`reports
      ensures Valid()
      ensures
        if !skipLog && cnt % LogSize == 0 && reportAt != old(timer1) then
          && report == Some(Report(cnt, Quot(LogSize * 1000, reportAt - old(timer1))))
          && timer1 == reportAt
          && reports == old(reports) + [report.value]
        else
          report == None && timer1 == old(timer1) && reports == old(reports)
    {
      report := None;
      if !skipLog && cnt % LogSize == 0 {
        var timer2 := reportAt;
        var difference := timer2 - timer1;
        if difference != 0 {
          var average := Quot(LogSize * 1000, timer2 - timer1);
          report := Some(Report(cnt, average));
          timer1 := timer2;
          reports := reports + [report.value];
        }
      }
    }

    /**
     * One iteration of the consume loop. `armedAt` is the clock when the wait
     * deadline is armed before the pull, `checkedAt` the clock when the deadline
     * is compared, `reportAt` the clock when a benchmark report falls due.
     */
    method Step(e: EventDocument, armedAt: int, checkedAt: int, reportAt: int)
      returns (report: Option<Report>, ghost batch: seq<BulkInsert>)
      requires Valid()
      modifies this
      ensures Valid()
      ensures e.collectionId in heartbeats ==>
        cnt == old(cnt) && handles == old(handles) && routed == old(routed)
      ensures e.collectionId !in heartbeats ==>
        cnt == old(cnt) + 1 && handles == old(handles) + {e.collectionId} && routed == old(routed) + [e]
      ensures written == old(written) + batch
      ensures
        var routedBuffers := if e.collectionId in heartbeats then old(buffers) else Route(old(buffers), e);
        if e.collectionId in heartbeats || cnt % bulkSize == 0 || checkedAt >= armedAt + maxWait then
          buffers == Emptied(routedBuffers) && IsDrainOf(batch, routedBuffers)
        else
          buffers == routedBuffers && batch == []
      ensures
        if e.collectionId !in heartbeats && cnt % LogSize == 0 && reportAt != old(timer1) then
          && report == Some(Report(cnt, Quot(LogSize * 1000, reportAt - old(timer1))))
          && timer1 == reportAt
          && reports == old(reports) + [report.value]
        else
          report == None && timer1 == old(timer1) && reports == old(reports)
    {
      var skipLog := e.collectionId in heartbeats;
      batch := [];
      if !skipLog {
        Add(e);
      } else {
        // a heartbeat drains everything at once
        batch := Flush();
        assert AllEmpty(buffers);
      }

      // drain when the bulk size is reached or the pull waited at least maxWait
      if cnt % bulkSize == 0 || checkedAt >= armedAt + maxWait {
        ghost var more := Flush();
        if skipLog {
          // the heartbeat left every buffer empty: nothing more is written
          assert more == [] && written == old(written) + batch;
        } else {
          batch := more;
        }
      }

      report := Benchmark(skipLog, reportAt);
    }

    /**
     * The consume loop over a finite stream of pulls. It returns the benchmark
     * reports in order; when the stream ends with a heartbeat, every routed
     * payload has been bulk-inserted exactly once and nothing is pending.
     */
    method Run(pulls: seq<Pull>) returns (out: seq<Report>)
      requires Valid()
      modifies this
      ensures Valid()
      ensures routed == old(routed) + DataRecords(pulls, heartbeats)
      ensures cnt == old(cnt) + |DataRecords(pulls, heartbeats)|
      ensures old(handles) <= handles
      ensures reports == old(reports) + out
      ensures |pulls| > 0 && pulls[|pulls| - 1].event.collectionId in heartbeats ==>
        && AllEmpty(buffers)
        && forall k :: Inserted(written, k) == Payloads(routed, k)
    {
      out := [];
      var i := 0;
      while i < |pulls|
        invariant 0 <= i <= |pulls|
        invariant Valid()
        invariant routed == old(routed) + DataRecords(pulls[..i], heartbeats)
        invariant old(handles) <= handles
        invariant reports == old(reports) + out
        invariant i > 0 && pulls[i - 1].event.collectionId in heartbeats ==> AllEmpty(buffers)
      {
        var p := pulls[i];
        DataRecordsSnoc(pulls, i, heartbeats);
        var report;
        ghost var batch;
        report, batch := Step(p.event, p.armedAt, p.checkedAt, p.reportAt);
        if report.Some? {
          out := out + [report.value];
        }
        i := i + 1;
      }
      assert pulls[..i] == pulls;
      if |pulls| > 0 && pulls[|pulls| - 1].event.collectionId in heartbeats {
        forall k ensures Inserted(written, k) == Payloads(routed, k) {
          DeliveredWhenEmpty(written, buffers, routed, k);
        }
      }
    }
  }

  /**
   * bulkSize 2 and an idle-gap threshold that is never reached: after the
   * records A:x1 and B:y1 the count reaches 2, and the drain it triggers
   * delivers [x1] to A as well as [y1] to B and leaves both buffers empty.
   */
  method BulkOfTwoScenario() returns (ghost insertedA: seq<Document>, ghost insertedB: seq<Document>, count: nat, pending: Buffers)
    ensures insertedA == [Document("x1")] && insertedB == [Document("y1")]
    ensures count == 2 && pending == map["A" := [], "B" := []]
  {
    var x1, y1 := Document("x1"), Document("y1");
    ghost var full := map["A" := [x1], "B" := [y1]];
    var w := new EventWriterMongoSync(2, 100000, iset{"heartbeat"}, 0);
    var r;
    ghost var batch;
    r, batch := w.Step(EventDocument("A", x1), 0, 1, 1);
    assert w.buffers == map["A" := [x1]];
    r, batch := w.Step(EventDocument("B", y1), 1, 2, 2);
    assert Route(map["A" := [x1]], EventDocument("B", y1)) == full;
    DrainDelivers(batch, full, "A");
    DrainDelivers(batch, full, "B");
    insertedA, insertedB := Inserted(batch, "A"), Inserted(batch, "B");
    count, pending := w.cnt, w.buffers;
  }

  /**
   * A heartbeat after two data records for collection C drains C's two
   * documents at once and leaves the data-record count at two.
   */
  method HeartbeatScenario() returns (ghost insertedC: seq<Document>, count: nat, pending: Buffers)
    ensures insertedC == [Document("c1"), Document("c2")]
    ensures count == 2 && pending == map["C" := []]
  {
    var c1, c2 := Document("c1"), Document("c2");
    var w := new EventWriterMongoSync(100, 100000, iset{"heartbeat"}, 0);
    var r;
    ghost var batch;
    r, batch := w.Step(EventDocument("C", c1), 0, 1, 1);
    assert w.buffers.Keys == {"C"} && w.buffers["C"] == [c1];
    r, batch := w.Step(EventDocument("C", c2), 1, 2, 2);
    assert w.buffers.Keys == {"C"} && w.buffers["C"] == [c1] + [c2] == [c1, c2];
    ghost var full := w.buffers;
    r, batch := w.Step(EventDocument("heartbeat", Document("")), 2, 3, 3);
    assert w.buffers.Keys == {"C"} && w.buffers["C"] == [];
    DrainDelivers(batch, full, "C");
    insertedC, count, pending := Inserted(batch, "C"), w.cnt, w.buffers;
  }
}
