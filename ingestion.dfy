/**
 * The ingestion state machine shared by `ingest_file_external` and `ingest_file`: a
 * triggering file is either absorbed as a duplicate (its ledger document records the
 * attempt) or loaded, after which exactly one ledger `set` and one publish record the
 * outcome. The two entry points differ only in the load call, given here as a strategy.
 */
module Ingestion {
  import opened Base
  import opened Ledger
  import Paths

  /** `ingest_file_external` creates an external table; `ingest_file` submits a load job. */
  datatype Strategy = ExternalTable | LoadJob

  /** Whether the load call returned or raised (with the formatted traceback). */
  datatype LoadOutcome = Completed | Raised(trace: string)

  /** The configuration read at start-up. */
  datatype Config = Config(projectId: string, dataset: string, errorTopicName: string, successTopicName: string)
  {
    function ErrorTopic(): string { Paths.Topic(projectId, errorTopicName) }
    function SuccessTopic(): string { Paths.Topic(projectId, successTopicName) }
  }

  /** The storage event payload: `data['bucket']`, `data['name']`. */
  datatype Trigger = Trigger(bucket: string, name: string)

  /** One invocation: its trigger, the timestamps the clock would give, and the load result. */
  datatype Delivery = Delivery(strategy: Strategy, trigger: Trigger, suffix: string, now: string, load: LoadOutcome)

  /** A call into an external service; the log keeps them in the order main.py makes them. */
  datatype Effect =
    | Load(strategy: Strategy, sourceUri: string, dataset: string, tableId: string)
    | Set(key: string, doc: Document)
    | Update(key: string, fields: Document)
    | Publish(topic: string, message: string, fileName: string)

  datatype Outcome = Duplicate | Ingested | Failed | Crashed(fault: Fault)

  /** The ledger after one delivery, the calls it made, and how it ended. */
  datatype Step = Step(store: Store, effects: seq<Effect>, outcome: Outcome)

  /** The success notification names the file between quotes. */
  function SuccessMessage(key: string): (m: string)
    ensures |m| == |key| + 30 && m[..6] == "File '" && m[6..6 + |key|] == key
    ensures m[6 + |key|..] == "' streamed into BigQuery"
  {
    "File '" + key + "' streamed into BigQuery"
  }

  /** The error text names the file and ends with the captured traceback. */
  function ErrorText(key: string, trace: string): (m: string)
    ensures |m| == |key| + |trace| + 34
    ensures m[..24] == "Error ingest_file file '" && m[24..24 + |key|] == key
    ensures m[24 + |key|..34 + |key|] == "'. Cause: "
    ensures m[|m| - |trace|..] == trace
  {
    "Error ingest_file file '" + key + "'. Cause: " + trace
  }

  /** `BQ.create_table(table)` or `BQ.load_table_from_uri(file_path, ...)`. */
  function LoadCall(cfg: Config, d: Delivery): (e: Effect)
    ensures e.Load? && e.strategy == d.strategy && e.dataset == cfg.dataset
    ensures |e.sourceUri| > |Paths.Scheme| + |d.trigger.name|
    ensures e.sourceUri[..|Paths.Scheme|] == Paths.Scheme
    ensures |e.sourceUri| == |Paths.Scheme| + |d.trigger.bucket| + 1 + |d.trigger.name|
    ensures e.sourceUri[|Paths.Scheme|..|Paths.Scheme| + |d.trigger.bucket|] == d.trigger.bucket
    ensures e.sourceUri[|Paths.Scheme| + |d.trigger.bucket|] == '/'
    ensures e.sourceUri[|e.sourceUri| - |d.trigger.name|..] == d.trigger.name
    ensures |e.tableId| == |d.suffix| + 3 && e.tableId[..3] == "dc_" && e.tableId[3..] == d.suffix
  {
    Load(d.strategy, Paths.FilePath(d.trigger.bucket, d.trigger.name), cfg.dataset, Paths.TableId(d.suffix))
  }

  /**
   * One delivery of a triggering file, as main.py processes it. A crash changes nothing;
   * a duplicate makes no load, `set` or publish; a load is followed by exactly one `set` and
   * one publish, both for the delivered file.
   */
  function Deliver(cfg: Config, store: Store, d: Delivery): (s: Step)
    ensures s.outcome.Crashed? ==> s.store == store && s.effects == []
    ensures s.outcome == Duplicate ==>
      |s.effects| == 1 && s.effects[0].Update? && s.effects[0].key == d.trigger.name
    ensures (s.outcome == Ingested || s.outcome == Failed) ==>
      && |s.effects| == 3 && s.effects[0].Load?
      && s.effects[1].Set? && s.effects[1].key == d.trigger.name
      && s.effects[2].Publish? && s.effects[2].fileName == d.trigger.name
    ensures s.outcome == Ingested <==> !s.outcome.Crashed? && s.effects != [] && s.effects[0].Load? && d.load.Completed?
  {
    var key := d.trigger.name;
    var status := Lookup(store, key);
    match WasAlreadyIngested(status)
    case Err(f) => Step(store, [], Crashed(f))
    case Ok(already) =>
      if already then
        match DuplicationFields(status, d.now)
        case Err(f) => Step(store, [], Crashed(f))
        case Ok(fields) => Step(store[key := Merge(store[key], fields)], [Update(key, fields)], Duplicate)
      else
        match d.load
        case Completed =>
          var doc := SuccessRecord(d.now);
          Step(store[key := doc],
               [LoadCall(cfg, d), Set(key, doc), Publish(cfg.SuccessTopic(), SuccessMessage(key), key)],
               Ingested)
        case Raised(trace) =>
          var message := ErrorText(key, trace);
          var doc := FailureRecord(message, d.now);
          Step(store[key := doc],
               [LoadCall(cfg, d), Set(key, doc), Publish(cfg.ErrorTopic(), message, key)],
               Failed)
  }

  /** A delivery touches only the document of its own file. */
  lemma DeliverFrame(cfg: Config, store: Store, d: Delivery, k: string)
    requires k != d.trigger.name
    ensures var s := Deliver(cfg, store, d);
      (k in s.store <==> k in store) && (k in store ==> s.store[k] == store[k])
  {
  }

  /**
   * The ledger invariant: every stored document has a boolean `success` (and a list, if
   * any, as history). It holds initially and after every delivery, so the `['success']`
   * lookup never raises and no delivery crashes.
   */
  lemma DeliverKeepsValid(cfg: Config, store: Store, d: Delivery)
    requires ValidStore(store)
    ensures ValidStore(Deliver(cfg, store, d).store)
    ensures !Deliver(cfg, store, d).outcome.Crashed?
  {
    var key := d.trigger.name;
    var status := Lookup(store, key);
    AlreadyIngestedIffSucceeded(status);
    if key in store && store[key][SuccessKey] == Bool(true) {
      DuplicateAttemptPrepends(store[key], d.now);
    }
  }

  /**
   * A redelivered file already recorded as a success: no load, no `set`, no publish; the
   * one write is a partial `update` of that document's history, which gains `now` in front.
   */
  lemma DuplicateDelivery(cfg: Config, store: Store, d: Delivery)
    requires ValidStore(store)
    requires d.trigger.name in store && store[d.trigger.name][SuccessKey] == Bool(true)
    ensures var key := d.trigger.name; var s := Deliver(cfg, store, d);
      && s.outcome == Duplicate
      && |s.effects| == 1 && s.effects[0].Update? && s.effects[0].key == key
      && s.effects[0].fields.Keys == {AttemptsKey}
      && (forall e :: e in s.effects ==> !e.Load? && !e.Set? && !e.Publish?)
      && s.store.Keys == store.Keys
      && (forall k :: k in store && k != key ==> s.store[k] == store[k])
      && SameOutcome(store[key], s.store[key])
      && Attempts(s.store[key]) == [d.now] + Attempts(store[key])
      && |Attempts(s.store[key])| == |Attempts(store[key])| + 1
  {
    var key := d.trigger.name;
    AlreadyIngestedIffSucceeded(Lookup(store, key));
    DuplicateAttemptPrepends(store[key], d.now);
  }

  /**
   * A file with no document, or whose document records a failure, is loaded: exactly one
   * load call, then one full-overwrite `set` of its document, then one publish tagged with
   * the file name, to the success topic when the load returned and the error topic when it
   * raised.
   */
  lemma LoadedDelivery(cfg: Config, store: Store, d: Delivery)
    requires ValidStore(store)
    requires d.trigger.name !in store || store[d.trigger.name][SuccessKey] == Bool(false)
    ensures var key := d.trigger.name; var s := Deliver(cfg, store, d);
      && |s.effects| == 3
      && s.effects[0] == LoadCall(cfg, d)
      && s.effects[0].sourceUri == Paths.FilePath(d.trigger.bucket, key)
      && s.effects[0].tableId == Paths.TableId(d.suffix)
      && s.effects[1].Set? && s.effects[1].key == key
      && s.effects[2].Publish? && s.effects[2].fileName == key
      && s.store == store[key := s.effects[1].doc]
      && (d.load.Completed? ==>
            && s.outcome == Ingested
            && s.effects[1].doc == SuccessRecord(d.now)
            && s.effects[2].topic == cfg.SuccessTopic()
            && s.effects[2].message == SuccessMessage(key))
      && (d.load.Raised? ==>
            && s.outcome == Failed
            && s.effects[1].doc == FailureRecord(ErrorText(key, d.load.trace), d.now)
            && s.effects[2].topic == cfg.ErrorTopic()
            && s.effects[2].message == ErrorText(key, d.load.trace))
  {
    AlreadyIngestedIffSucceeded(Lookup(store, d.trigger.name));
  }

  /**
   * With distinct configured topics, a loaded file's notification goes to the success
   * topic iff the load call did not raise, and to the error topic otherwise.
   */
  lemma PublishTopicMatchesOutcome(cfg: Config, store: Store, d: Delivery)
    requires ValidStore(store)
    requires d.trigger.name !in store || store[d.trigger.name][SuccessKey] == Bool(false)
    requires cfg.errorTopicName != cfg.successTopicName
    ensures var p := Deliver(cfg, store, d).effects[2];
      && (p.topic == cfg.SuccessTopic() <==> d.load.Completed?)
      && (p.topic == cfg.ErrorTopic() <==> d.load.Raised?)
  {
    LoadedDelivery(cfg, store, d);
    if cfg.SuccessTopic() == cfg.ErrorTopic() {
      Paths.TopicInjective(cfg.projectId, cfg.successTopicName, cfg.errorTopicName);
    }
  }

  /** A sequence of deliveries handled one after another: the step after each. */
  function Run(cfg: Config, store: Store, ds: seq<Delivery>): (r: seq<Step>)
    decreases |ds|
    ensures |r| == |ds|
    ensures |ds| > 0 ==> r[0] == Deliver(cfg, store, ds[0])
    ensures forall i :: 0 <= i < |ds| - 1 ==> r[i + 1] == Deliver(cfg, r[i].store, ds[i + 1])
  {
    if ds == [] then []
    else
      var s := Deliver(cfg, store, ds[0]);
      [s] + Run(cfg, s.store, ds[1..])
  }

  /**
   * What a single step may do to a file whose recorded outcome is `doc0`, a success: keep
   * that outcome, absorb a delivery of the file as a duplicate, and never `set` or publish
   * for it.
   */
  predicate KeepsSuccess(doc0: Document, key: string, d: Delivery, s: Step)
  {
    && key in s.store && SameOutcome(doc0, s.store[key])
    && (d.trigger.name == key ==> s.outcome == Duplicate && |s.effects| == 1 && s.effects[0].Update?)
    && (forall e :: e in s.effects ==> !(e.Set? && e.key == key) && !(e.Publish? && e.fileName == key))
  }

  lemma SameOutcomeTransitive(d1: Document, d2: Document, d3: Document)
    requires SameOutcome(d1, d2) && SameOutcome(d2, d3)
    ensures SameOutcome(d1, d3)
  {
  }

  /** One delivery, of any file, keeps a recorded success. */
  lemma DeliverKeepsSuccess(cfg: Config, store: Store, d: Delivery, key: string, doc0: Document)
    requires ValidStore(store)
    requires key in store && SameOutcome(doc0, store[key]) && SuccessKey in doc0 && doc0[SuccessKey] == Bool(true)
    ensures KeepsSuccess(doc0, key, d, Deliver(cfg, store, d))
  {
    var s := Deliver(cfg, store, d);
    if d.trigger.name == key {
      DuplicateDelivery(cfg, store, d);
      SameOutcomeTransitive(doc0, store[key], s.store[key]);
    } else {
      DeliverFrame(cfg, store, d, key);
      if d.trigger.name in store && store[d.trigger.name][SuccessKey] == Bool(true) {
        DuplicateDelivery(cfg, store, d);
      } else {
        LoadedDelivery(cfg, store, d);
      }
    }
  }

  /**
   * At most once: after a file is recorded as a success, every later delivery of it, in
   * any interleaving with other files, is absorbed as a duplicate with only an `update`,
   * and its `success`, `when` and `error_message` fields never change again.
   */
  lemma {:induction false} AtMostOnce(cfg: Config, store: Store, ds: seq<Delivery>, key: string, doc0: Document)
    requires ValidStore(store)
    requires key in store && SameOutcome(doc0, store[key]) && SuccessKey in doc0 && doc0[SuccessKey] == Bool(true)
    decreases |ds|
    ensures var r := Run(cfg, store, ds);
      forall i :: 0 <= i < |ds| ==> KeepsSuccess(doc0, key, ds[i], r[i])
  {
    if ds != [] {
      var s := Deliver(cfg, store, ds[0]);
      var r := Run(cfg, store, ds);
      var tail := Run(cfg, s.store, ds[1..]);
      assert r == [s] + tail;
      DeliverKeepsValid(cfg, store, ds[0]);
      DeliverKeepsSuccess(cfg, store, ds[0], key, doc0);
      AtMostOnce(cfg, s.store, ds[1..], key, doc0);
      forall i | 1 <= i < |ds|
        ensures KeepsSuccess(doc0, key, ds[i], r[i])
      {
        assert r[i] == tail[i - 1] && ds[i] == ds[1..][i - 1];
      }
    }
  }

  /**
   * A successful load closes the file: in any run that follows, every delivery of the same
   * file is a duplicate, and its document keeps `{success: true, when: now}` apart from
   * the growing history.
   */
  lemma IngestedThenDuplicates(cfg: Config, store: Store, d: Delivery, ds: seq<Delivery>)
    requires ValidStore(store)
    requires d.trigger.name !in store || store[d.trigger.name][SuccessKey] == Bool(false)
    requires d.load.Completed?
    ensures var s := Deliver(cfg, store, d); var r := Run(cfg, s.store, ds);
      forall i :: 0 <= i < |ds| ==> KeepsSuccess(SuccessRecord(d.now), d.trigger.name, ds[i], r[i])
  {
    LoadedDelivery(cfg, store, d);
    DeliverKeepsValid(cfg, store, d);
    AtMostOnce(cfg, Deliver(cfg, store, d).store, ds, d.trigger.name, SuccessRecord(d.now));
  }

  /** The state of the deployment: the ledger and the log of calls to external services. */
  class Pipeline {
    const cfg: Config
    var store: Store
    var log: seq<Effect>

    predicate Valid()
      reads this
    {
      ValidStore(store)
    }

    /**
     * Any initial collection is accepted, as the deployed function meets whatever
     * Firestore holds; `Valid()` is then a fact about that collection, which `Ingest`
     * preserves.
     */
    constructor (cfg: Config, store: Store)
      ensures Valid() <==> ValidStore(store)
      ensures this.cfg == cfg && this.store == store && log == []
    {
      this.cfg := cfg;
      this.store := store;
      log := [];
    }

    /** `_handle_duplication`: prepend `now` to the history and `update` that field only. */
    method HandleDuplication(key: string, now: string) returns (fault: Option<Fault>)
      modifies this
      ensures var r := DuplicationFields(Lookup(old(store), key), now);
        && (r.Err? ==> fault == Some(r.error) && store == old(store) && log == old(log))
        && (r.Ok? ==> && fault == None
                      && store == old(store)[key := Merge(old(store)[key], r.value)]
                      && log == old(log) + [Update(key, r.value)])
      ensures old(Valid()) ==> Valid()
    {
      var dups := [now];
      var status := Lookup(store, key);
      if status.None? {
        return Some(NoDocument);
      }
      var data := status.value;
      if AttemptsKey in data {
        match Iterated(data[AttemptsKey]) {
          case Err(f) =>
            return Some(f);
          case Ok(previous) =>
            dups := dups + previous;
        }
      }
      var fields := map[AttemptsKey := List(dups)];
      store := store[key := Merge(data, fields)];
      log := log + [Update(key, fields)];
      fault := None;
    }

    /** `_handle_success`: overwrite the document, then publish to the success topic. */
    method HandleSuccess(key: string, now: string)
      modifies this
      ensures store == old(store)[key := SuccessRecord(now)]
      ensures log == old(log) + [Set(key, SuccessRecord(now)), Publish(cfg.SuccessTopic(), SuccessMessage(key), key)]
      ensures old(Valid()) ==> Valid()
    {
      var message := SuccessMessage(key);
      var doc := SuccessRecord(now);
      store := store[key := doc];
      log := log + [Set(key, doc)];
      log := log + [Publish(cfg.SuccessTopic(), message, key)];
    }

    /** `_handle_error`: overwrite the document with the failure, then publish it. */
    method HandleError(key: string, trace: string, now: string)
      modifies this
      ensures var message := ErrorText(key, trace);
        && store == old(store)[key := FailureRecord(message, now)]
        && log == old(log) + [Set(key, FailureRecord(message, now)), Publish(cfg.ErrorTopic(), message, key)]
      ensures old(Valid()) ==> Valid()
    {
      var message := ErrorText(key, trace);
      var doc := FailureRecord(message, now);
      store := store[key := doc];
      log := log + [Set(key, doc)];
      log := log + [Publish(cfg.ErrorTopic(), message, key)];
    }

    /** `ingest_file_external` / `ingest_file`, selected by `d.strategy`. */
    method Ingest(d: Delivery) returns (outcome: Outcome)
      modifies this
      ensures var s := Deliver(cfg, old(store), d);
        store == s.store && log == old(log) + s.effects && outcome == s.outcome
      ensures old(Valid()) ==> Valid() && !outcome.Crashed?
    {
      if Valid() {
        DeliverKeepsValid(cfg, store, d);
      }
      var key := d.trigger.name;
      var call := LoadCall(cfg, d);
      var already := WasAlreadyIngested(Lookup(store, key));
      if already.Err? {
        return Crashed(already.error);
      }
      if already.value {
        var fault := HandleDuplication(key, d.now);
        outcome := if fault.Some? then Crashed(fault.value) else Duplicate;
      } else {
        log := log + [call];
        match d.load {
          case Completed =>
            HandleSuccess(key, d.now);
            outcome := Ingested;
          case Raised(trace) =>
            HandleError(key, trace, d.now);
            outcome := Failed;
        }
      }
    }
  }
}
