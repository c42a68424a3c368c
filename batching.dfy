/**
 * Value-level vocabulary of the batching writer: the records it consumes, the
 * bulk inserts it issues, and the specification functions and lemmas that say
 * what a drain of the per-collection buffers delivers.
 */
module Batching {

  datatype Option<T> = None | Some(value: T)

  /** A stored document; the writer passes it through unchanged. */
  datatype Document = Document(body: string)

  /** One element of the upstream queue: the destination collection and its document. */
  datatype EventDocument = EventDocument(collectionId: string, document: Document)

  /** One `insertMany` call: the collection it targets and the documents it carries, in order. */
  datatype BulkInsert = BulkInsert(collection: string, documents: seq<Document>)

  /** One benchmark report: the data-record count and the average records per second. */
  datatype Report = Report(count: int, average: int)

  type Buffers = map<string, seq<Document>>

  /** The benchmark period; a field with a fixed initial value and no setter. */
  const LogSize: int := 10000

  function Abs(x: int): nat { if x < 0 then -x else x }

  /**
   * Java's `long` division, which truncates toward zero: the remainder is smaller
   * than the divisor in magnitude and has the sign of the dividend.
   */
  function Quot(n: int, d: int): (q: int)
    requires d != 0
    ensures Abs(n - q * d) < Abs(d)
    ensures n - q * d == 0 || (n - q * d < 0 <==> n < 0)
  {
    var a, b := Abs(n), Abs(d);
    assert a == (a / b) * b + a % b;
    if (n < 0) == (d < 0) then
      assert n - (a / b) * d == if n < 0 then -(a % b) else a % b;
      a / b
    else
      assert n - (-(a / b)) * d == if n < 0 then -(a % b) else a % b;
      -(a / b)
  }

  /** The documents of the data records in `records` addressed to collection `k`, in arrival order. */
  function Payloads(records: seq<EventDocument>, k: string): seq<Document>
  {
    if records == [] then []
    else
      var last := records[|records| - 1];
      Payloads(records[..|records| - 1], k) + (if last.collectionId == k then [last.document] else [])
  }

  /** Everything the bulk inserts in `writes` delivered to collection `k`, in call order. */
  function Inserted(writes: seq<BulkInsert>, k: string): seq<Document>
  {
    if writes == [] then []
    else
      var last := writes[|writes| - 1];
      Inserted(writes[..|writes| - 1], k) + (if last.collection == k then last.documents else [])
  }

  /** The collections targeted by some call in `writes`. */
  function Targets(writes: seq<BulkInsert>): set<string>
  {
    set i | 0 <= i < |writes| :: writes[i].collection
  }

  /**
   * Routing one data record: its collection's buffer is created empty on first
   * sighting, the document goes at its end, and no other buffer changes.
   */
  function Route(buffers: Buffers, e: EventDocument): (r: Buffers)
    ensures r.Keys == buffers.Keys + {e.collectionId}
    ensures e.collectionId in buffers ==> r[e.collectionId] == buffers[e.collectionId] + [e.document]
    ensures e.collectionId !in buffers ==> r[e.collectionId] == [e.document]
    ensures forall k | k in buffers && k != e.collectionId :: r[k] == buffers[k]
  {
    var pending := if e.collectionId in buffers then buffers[e.collectionId] else [];
    buffers[e.collectionId := pending + [e.document]]
  }

  /** Routing a sequence of data records, one after the other, with no drain in between. */
  function RouteAll(buffers: Buffers, records: seq<EventDocument>): Buffers
  {
    if records == [] then buffers
    else Route(RouteAll(buffers, records[..|records| - 1]), records[|records| - 1])
  }

  /** The same collections, each with an empty buffer. */
  function Emptied(buffers: Buffers): Buffers
  {
    map k | k in buffers :: []
  }

  /** Nothing is pending in any collection. */
  ghost predicate AllEmpty(buffers: Buffers)
  {
    forall k | k in buffers :: buffers[k] == []
  }

  /** The buffers after those of the collections in `keys` have been cleared. */
  function Cleared(buffers: Buffers, keys: set<string>): (r: Buffers)
    ensures r.Keys == buffers.Keys
  {
    map k | k in buffers :: if k in keys then [] else buffers[k]
  }

  lemma ClearedVisit(buffers: Buffers, keys: set<string>, key: string)
    requires key in buffers
    ensures Cleared(buffers, keys + {key}) == Cleared(buffers, keys)[key := []]
    ensures buffers[key] == [] ==> Cleared(buffers, keys + {key}) == Cleared(buffers, keys)
  {
  }

  /** The pending documents of collection `k`; none when it has no buffer yet. */
  function Pending(buffers: Buffers, k: string): seq<Document>
  {
    if k in buffers then buffers[k] else []
  }

  /**
   * `writes` is a drain of the buffers of the collections in `keys`: one bulk
   * insert per non-empty buffer among them, carrying exactly that buffer's
   * documents, none for an empty buffer, and no collection twice. The order
   * across collections is left open.
   */
  ghost predicate IsPartialDrain(writes: seq<BulkInsert>, buffers: Buffers, keys: set<string>)
  {
    && (forall i | 0 <= i < |writes| ::
          writes[i].collection in keys
          && writes[i].collection in buffers
          && writes[i].documents == buffers[writes[i].collection]
          && writes[i].documents != [])
    && (forall i, j | 0 <= i < j < |writes| :: writes[i].collection != writes[j].collection)
    && (forall k | k in keys && k in buffers && buffers[k] != [] :: k in Targets(writes))
  }

  /** `writes` drains every buffer of `buffers`. */
  ghost predicate IsDrainOf(writes: seq<BulkInsert>, buffers: Buffers)
  {
    IsPartialDrain(writes, buffers, buffers.Keys)
  }

  /**
   * No loss and no duplication: for every collection, the documents already
   * bulk-inserted followed by those still pending are exactly the payloads
   * routed to it, in arrival order.
   */
  ghost predicate Accounted(writes: seq<BulkInsert>, buffers: Buffers, records: seq<EventDocument>)
  {
    forall k {:trigger Payloads(records, k)} :: Inserted(writes, k) + Pending(buffers, k) == Payloads(records, k)
  }

  /** Reports carry increasing counts, each a positive multiple of `LogSize` and at most `cnt`. */
  ghost predicate ReportsOrdered(reports: seq<Report>, cnt: int)
  {
    reports != [] ==>
      var last := reports[|reports| - 1];
      && 0 < last.count <= cnt
      && last.count % LogSize == 0
      && ReportsOrdered(reports[..|reports| - 1], last.count - 1)
  }

  /** What two runs of bulk inserts deliver to one collection is what each delivers, in order. */
  lemma {:induction false} InsertedAppend(w1: seq<BulkInsert>, w2: seq<BulkInsert>, k: string)
    ensures Inserted(w1 + w2, k) == Inserted(w1, k) + Inserted(w2, k)
  {
    if w2 != [] {
      var w := w1 + w2;
      assert w[..|w| - 1] == w1 + w2[..|w2| - 1];
      InsertedAppend(w1, w2[..|w2| - 1], k);
    } else {
      assert w1 + w2 == w1;
    }
  }

  /** With every call targeting a different collection, a collection receives at most one batch. */
  lemma {:induction false} InsertedDistinct(writes: seq<BulkInsert>, k: string)
    requires forall i, j | 0 <= i < j < |writes| :: writes[i].collection != writes[j].collection
    ensures k !in Targets(writes) ==> Inserted(writes, k) == []
    ensures forall i | 0 <= i < |writes| && writes[i].collection == k :: Inserted(writes, k) == writes[i].documents
  {
    if writes != [] {
      var init := writes[..|writes| - 1];
      assert Targets(writes) == Targets(init) + {writes[|writes| - 1].collection};
      InsertedDistinct(init, k);
      if writes[|writes| - 1].collection == k {
        assert k !in Targets(init);
      }
    }
  }

  /** A drain delivers each collection's whole buffer, and nothing to a collection whose buffer was empty or absent. */
  lemma DrainDelivers(writes: seq<BulkInsert>, buffers: Buffers, k: string)
    requires IsDrainOf(writes, buffers)
    ensures Inserted(writes, k) == if k in buffers then buffers[k] else []
  {
    InsertedDistinct(writes, k);
    if k in Targets(writes) {
      var i :| 0 <= i < |writes| && writes[i].collection == k;
    }
  }

  /**
   * After a drain, each collection has received, on top of what it had before,
   * exactly its buffer's documents in arrival order.
   */
  lemma DrainAppends(before: seq<BulkInsert>, batch: seq<BulkInsert>, buffers: Buffers, k: string)
    requires IsDrainOf(batch, buffers)
    ensures Inserted(before + batch, k) == Inserted(before, k) + Pending(buffers, k)
  {
    InsertedAppend(before, batch, k);
    DrainDelivers(batch, buffers, k);
  }

  /** The bulk insert that drains one collection's buffer: none when it is empty. */
  function DrainOf(buffers: Buffers, key: string): (r: seq<BulkInsert>)
    requires key in buffers
    ensures r == [] <==> buffers[key] == []
  {
    if buffers[key] == [] then [] else [BulkInsert(key, buffers[key])]
  }

  /** Visiting one more collection during a drain: a write for it when its buffer is non-empty, none otherwise. */
  lemma DrainVisit(writes: seq<BulkInsert>, buffers: Buffers, keys: set<string>, key: string)
    requires IsPartialDrain(writes, buffers, keys)
    requires key in buffers && key !in keys
    ensures IsPartialDrain(writes + DrainOf(buffers, key), buffers, keys + {key})
  {
    if buffers[key] == [] {
      assert writes + DrainOf(buffers, key) == writes;
      return;
    }
    var w := writes + [BulkInsert(key, buffers[key])];
    assert Targets(w) == Targets(writes) + {key} by {
      forall t | t in Targets(w) ensures t in Targets(writes) + {key} {
        var i :| 0 <= i < |w| && w[i].collection == t;
        if i < |writes| { assert writes[i] == w[i]; }
      }
      forall t | t in Targets(writes) ensures t in Targets(w) {
        var i :| 0 <= i < |writes| && writes[i].collection == t;
        assert w[i] == writes[i];
      }
      assert w[|writes|].collection == key;
    }
  }

  /**
   * No loss, no duplication at a quiet point: once nothing is pending, every
   * collection has received exactly the payloads routed to it, each once.
   */
  lemma DeliveredWhenEmpty(writes: seq<BulkInsert>, buffers: Buffers, records: seq<EventDocument>, k: string)
    requires Accounted(writes, buffers, records) && AllEmpty(buffers)
    ensures Inserted(writes, k) == Payloads(records, k)
  {
    assert Inserted(writes, k) + Pending(buffers, k) == Payloads(records, k);
    assert Pending(buffers, k) == [];
  }

  /** Routing a data record keeps every collection accounted for. */
  lemma AccountedRoute(writes: seq<BulkInsert>, buffers: Buffers, records: seq<EventDocument>, e: EventDocument)
    requires Accounted(writes, buffers, records)
    ensures Accounted(writes, Route(buffers, e), records + [e])
  {
    var r := records + [e];
    assert r[..|r| - 1] == records;
    forall k ensures Inserted(writes, k) + Pending(Route(buffers, e), k) == Payloads(r, k) {
      assert Inserted(writes, k) + Pending(buffers, k) == Payloads(records, k);
    }
  }

  /** Bulk-inserting a buffer and clearing it keeps every collection accounted for. */
  lemma AccountedClear(writes: seq<BulkInsert>, buffers: Buffers, records: seq<EventDocument>, key: string)
    requires Accounted(writes, buffers, records)
    requires key in buffers
    ensures Accounted(writes + [BulkInsert(key, buffers[key])], buffers[key := []], records)
  {
    var w := writes + [BulkInsert(key, buffers[key])];
    assert w[..|w| - 1] == writes;
    forall k ensures Inserted(w, k) + Pending(buffers[key := []], k) == Payloads(records, k) {
      assert Inserted(writes, k) + Pending(buffers, k) == Payloads(records, k);
      if k == key {
        assert Inserted(w, k) == Inserted(writes, k) + buffers[key];
      }
    }
  }

  /**
   * Grouping: routing a run of data records with no drain leaves in each
   * collection's buffer its earlier contents followed by exactly the payloads
   * addressed to it, in arrival order; only those collections gain a buffer.
   */
  lemma {:induction false} RouteAllGroups(buffers: Buffers, records: seq<EventDocument>, k: string)
    ensures k in RouteAll(buffers, records) <==> k in buffers || exists e | e in records :: e.collectionId == k
    ensures k in RouteAll(buffers, records) ==>
      RouteAll(buffers, records)[k] == (if k in buffers then buffers[k] else []) + Payloads(records, k)
    ensures k !in RouteAll(buffers, records) ==> Payloads(records, k) == []
  {
    if records != [] {
      var init, last := records[..|records| - 1], records[|records| - 1];
      RouteAllGroups(buffers, init, k);
      assert records == init + [last];
      assert forall e :: e in records <==> e in init || e == last;
    }
  }
}
