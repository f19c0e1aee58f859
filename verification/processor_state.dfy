/** The registry of per-client processors, created lazily on a client's first record.
    Mirrors src/transaction_engine/processor_state.rs. */
module ProcessorStates {
  import opened Transactions
  import Processors

  datatype EngineState = EngineState(processors: map<ClientId, Processors.Processor>)

  /** Every processor sits under its own client, and holds only that client's records. */
  predicate Routed(e: EngineState) {
    forall k | k in e.processors ::
      && e.processors[k].client == k
      && forall i | 0 <= i < |e.processors[k].transactions| :: e.processors[k].transactions[i].client == k
  }

  /** The records of `records` addressed to client `c`, in their original order. */
  function OfClient(records: seq<TransactionInput>, c: ClientId): seq<TransactionInput>
  {
    if |records| == 0 then []
    else OfClient(records[..|records| - 1], c)
         + (if records[|records| - 1].client == c then [records[|records| - 1]] else [])
  }

  /** The clients that `records` mention. */
  function ClientsOf(records: seq<TransactionInput>): set<ClientId>
  {
    set i | 0 <= i < |records| :: records[i].client
  }

  function New(): (e: EngineState)
    ensures |e.processors| == 0
    ensures Routed(e)
  {
    EngineState(map[])
  }

  /** Routes `t` to the processor of its client, creating it if needed. */
  function AddTransaction(e: EngineState, t: TransactionInput): (r: EngineState)
    ensures r.processors.Keys == e.processors.Keys + {t.client}
    ensures t.client in e.processors ==>
              r.processors[t.client] == e.processors[t.client].(transactions := e.processors[t.client].transactions + [t])
    ensures t.client !in e.processors ==>
              r.processors[t.client] == Processors.Processor(t.client, [t])
    ensures forall k | k in e.processors && k != t.client :: r.processors[k] == e.processors[k]
    ensures Routed(e) ==> Routed(r)
  {
    var withClient :=
      if t.client !in e.processors then
        var account := Processors.New(t.client);
        RoutedUpdate(e, account.client, account);
        e.(processors := e.processors[account.client := account])
      else e;
    var processor := withClient.processors[t.client];
    var updated := Processors.AddTransaction(processor, t);
    RoutedUpdate(withClient, t.client, updated);
    withClient.(processors := withClient.processors[t.client := updated])
  }

  /** Storing under `k` a processor of client `k` that holds only `k`'s records
      keeps a routed registry routed. */
  lemma RoutedUpdate(e: EngineState, k: ClientId, q: Processors.Processor)
    requires Routed(e) ==> q.client == k && forall i | 0 <= i < |q.transactions| :: q.transactions[i].client == k
    ensures Routed(e) ==> Routed(e.(processors := e.processors[k := q]))
  {
  }

  /** The registry's map, read-only. */
  function GetState(e: EngineState): (m: map<ClientId, Processors.Processor>)
    ensures m.Keys == e.processors.Keys
    ensures Routed(e) ==> forall k | k in m :: m[k].client == k
  {
    e.processors
  }

  /** Routes every record of `records`, in order, into a fresh registry. */
  function Ingest(records: seq<TransactionInput>): (e: EngineState)
    ensures Routed(e)
  {
    if |records| == 0 then New()
    else AddTransaction(Ingest(records[..|records| - 1]), records[|records| - 1])
  }

  /** After ingestion each client mentioned has exactly one processor, holding
      exactly that client's records in input order, and nobody else has one. */
  lemma {:induction false} IngestPartitions(records: seq<TransactionInput>)
    ensures Ingest(records).processors.Keys == ClientsOf(records)
    ensures forall c | c in Ingest(records).processors ::
              Ingest(records).processors[c] == Processors.Processor(c, OfClient(records, c))
  {
    if |records| > 0 {
      IngestPartitions(records[..|records| - 1]);
      AddKeepsPartition(Ingest(records[..|records| - 1]), records);
    }
  }

  /** Routing the last record of `records` into a registry that partitions the
      records before it yields one that partitions all of `records`. */
  lemma AddKeepsPartition(e: EngineState, records: seq<TransactionInput>)
    requires |records| > 0
    requires e.processors.Keys == ClientsOf(records[..|records| - 1])
    requires forall c | c in e.processors ::
               e.processors[c] == Processors.Processor(c, OfClient(records[..|records| - 1], c))
    ensures AddTransaction(e, records[|records| - 1]).processors.Keys == ClientsOf(records)
    ensures forall c | c in AddTransaction(e, records[|records| - 1]).processors ::
              AddTransaction(e, records[|records| - 1]).processors[c] == Processors.Processor(c, OfClient(records, c))
  {
    ClientsOfSnoc(records);
    forall c | c in AddTransaction(e, records[|records| - 1]).processors
      ensures AddTransaction(e, records[|records| - 1]).processors[c] == Processors.Processor(c, OfClient(records, c))
    {
      AddKeepsClient(e, records, c);
    }
  }

  /** The per-client case of `AddKeepsPartition`. */
  lemma AddKeepsClient(e: EngineState, records: seq<TransactionInput>, c: ClientId)
    requires |records| > 0
    requires e.processors.Keys == ClientsOf(records[..|records| - 1])
    requires c in e.processors ==>
               e.processors[c] == Processors.Processor(c, OfClient(records[..|records| - 1], c))
    requires c in AddTransaction(e, records[|records| - 1]).processors
    ensures AddTransaction(e, records[|records| - 1]).processors[c] == Processors.Processor(c, OfClient(records, c))
  {
    var init := records[..|records| - 1];
    var t := records[|records| - 1];
    var after := AddTransaction(e, t).processors;
    assert OfClient(records, c) == OfClient(init, c) + (if t.client == c then [t] else []);
    if c != t.client {
      assert OfClient(init, c) + [] == OfClient(init, c);
    } else if c !in e.processors {
      NoRecordsOfAbsentClient(init, c);
      assert [] + [t] == [t];
    }
  }

  /** The clients of a non-empty sequence are those of its prefix plus the last one's. */
  lemma ClientsOfSnoc(records: seq<TransactionInput>)
    requires |records| > 0
    ensures ClientsOf(records) == ClientsOf(records[..|records| - 1]) + {records[|records| - 1].client}
  {
    var init := records[..|records| - 1];
    forall c | c in ClientsOf(records) ensures c in ClientsOf(init) + {records[|records| - 1].client} {
      var i :| 0 <= i < |records| && records[i].client == c;
      if i < |init| {
        assert init[i] == records[i];
      }
    }
    forall c | c in ClientsOf(init) ensures c in ClientsOf(records) {
      var i :| 0 <= i < |init| && init[i].client == c;
      assert records[i] == init[i];
    }
  }

  /** Filtering distributes over appending one record. */
  lemma OfClientSnoc(records: seq<TransactionInput>, t: TransactionInput, c: ClientId)
    ensures OfClient(records + [t], c) == OfClient(records, c) + (if t.client == c then [t] else [])
  {
    assert (records + [t])[..|records|] == records;
  }

  /** A client that `records` never mentions has no records in them. */
  lemma {:induction false} NoRecordsOfAbsentClient(records: seq<TransactionInput>, c: ClientId)
    requires c !in ClientsOf(records)
    ensures OfClient(records, c) == []
  {
    if |records| > 0 {
      ClientsOfSnoc(records);
      NoRecordsOfAbsentClient(records[..|records| - 1], c);
    }
  }
}
