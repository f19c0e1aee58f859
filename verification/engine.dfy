/** The two-phase driver: ingest every record, then replay every client.
    Mirrors the core of `process_transaction_file` in src/lib.rs; reading and
    writing CSV stay outside the model. */
module Engine {
  import opened Transactions
  import RS = RunningStates
  import Processors
  import ProcessorStates

  /** One final state per client, or an abort when some replay hit a missing amount. */
  datatype Report = Summaries(states: map<ClientId, RS.RunningState>) | Aborted

  /** Client `c`'s records, taken out of the whole input and replayed on their own. */
  function ClientReplay(records: seq<TransactionInput>, c: ClientId): (r: Processors.Outcome)
    ensures r.Ok? ==> r.state.client == c && RS.Balanced(r.state)
  {
    Processors.ProcessTransactions(Processors.Processor(c, ProcessorStates.OfClient(records, c)))
  }

  /** The first phase and the per-client replays: what every ingested processor
      yields, keyed by client. */
  function Outcomes(records: seq<TransactionInput>): (m: map<ClientId, Processors.Outcome>)
    ensures m.Keys == ProcessorStates.ClientsOf(records)
    ensures forall c | c in m :: m[c] == ClientReplay(records, c)
  {
    var processors := ProcessorStates.GetState(ProcessorStates.Ingest(records));
    IngestedReplays(records, processors);
    ReplayEach(processors)
  }

  /** Every processor's replay, keyed as the processors are. */
  function ReplayEach(processors: map<ClientId, Processors.Processor>): (m: map<ClientId, Processors.Outcome>)
    ensures m.Keys == processors.Keys
    ensures forall c | c in m :: m[c] == Processors.ProcessTransactions(processors[c])
  {
    map c | c in processors :: Processors.ProcessTransactions(processors[c])
  }

  /** Ingests all of `records`, then replays each client's history. The final
      state of a client depends on that client's records only, whatever the
      interleaving with other clients. */
  function Run(records: seq<TransactionInput>): (r: Report)
    ensures r.Aborted? <==>
              exists c | c in ProcessorStates.ClientsOf(records) :: ClientReplay(records, c).MissingAmount?
    ensures r.Summaries? ==> r.states.Keys == ProcessorStates.ClientsOf(records)
    ensures r.Summaries? ==>
              forall c | c in r.states :: ClientReplay(records, c) == Processors.Ok(r.states[c])
    ensures r.Summaries? ==>
              forall c | c in r.states :: r.states[c].client == c && RS.Balanced(r.states[c])
  {
    var outcomes := Outcomes(records);
    AbortsAsReplays(records, outcomes);
    if exists c | c in outcomes :: outcomes[c].MissingAmount? then Aborted
    else Summaries(Unwrapped(outcomes))
  }

  /** Some outcome aborts exactly when some client's own replay does. */
  lemma AbortsAsReplays(records: seq<TransactionInput>, outcomes: map<ClientId, Processors.Outcome>)
    requires outcomes.Keys == ProcessorStates.ClientsOf(records)
    requires forall c | c in outcomes :: outcomes[c] == ClientReplay(records, c)
    ensures (exists c | c in outcomes :: outcomes[c].MissingAmount?) <==>
              exists c | c in ProcessorStates.ClientsOf(records) :: ClientReplay(records, c).MissingAmount?
  {
  }

  /** The states inside outcomes that all succeeded. */
  function Unwrapped(outcomes: map<ClientId, Processors.Outcome>): (m: map<ClientId, RS.RunningState>)
    requires forall c | c in outcomes :: outcomes[c].Ok?
    ensures m.Keys == outcomes.Keys
    ensures forall c | c in m :: outcomes[c] == Processors.Ok(m[c])
  {
    map c | c in outcomes :: outcomes[c].state
  }

  /** Appending a record for another client leaves client `c`'s replay as it was. */
  lemma OtherClientsDoNotInterfere(records: seq<TransactionInput>, t: TransactionInput, c: ClientId)
    requires t.client != c
    ensures ClientReplay(records + [t], c) == ClientReplay(records, c)
  {
    var extended := records + [t];
    assert extended[..|extended| - 1] == records;
    assert ProcessorStates.OfClient(extended, c) == ProcessorStates.OfClient(records, c);
  }

  /** Replaying the processor that ingestion built for `c` is replaying `c`'s own records. */
  lemma IngestedReplays(records: seq<TransactionInput>, processors: map<ClientId, Processors.Processor>)
    requires processors == ProcessorStates.Ingest(records).processors
    ensures processors.Keys == ProcessorStates.ClientsOf(records)
    ensures forall c | c in processors :: Processors.ProcessTransactions(processors[c]) == ClientReplay(records, c)
  {
    ProcessorStates.IngestPartitions(records);
  }
}
