# Idempotent file ingestion: a Dafny model

This project models the core of `functions/ingest_file/main.py`, a cloud function that reacts to
new CSV files in a storage bucket. Each file is loaded into an analytical table at most once.
A status ledger (the Firestore collection `streaming_files`) records the outcome per file name, and a
success or error notification is published to one of two Pub/Sub topics. Two smaller pieces sit
alongside it: the blob mover `move_file` (copy, then delete, between two buckets) and the
payload of `BigQueryError`.

Modules:

- `Base`: `Option`, `Result` and one prefix lemma.
- `Paths`: the object URL, the table id `dc_<suffix>`, the topic paths, and the bucket name that
  `move_file` takes from an environment value with `split('gs://')[1]`.
- `Ledger`: ledger documents as maps from field name to value.
  - `set` is a full overwrite. `update` (`Merge`) changes only the fields it names.
  - `WasAlreadyIngested` is the duplicate check.
  - `DuplicationFields` builds the history update.
  - The invariant `WellFormed` says every document has a boolean `success`.
- `Ingestion`: the state machine shared by the two entry points.
  - `Deliver` is the specification of one delivery. It gives the new ledger, the ordered external
    calls (`Load`, `Set`, `Update`, `Publish`) and the outcome.
  - `Run` chains deliveries.
  - The class `Pipeline` holds the ledger and the call log. Its methods `HandleDuplication`,
    `HandleSuccess`, `HandleError` and `Ingest` are proved against `Deliver`.
  - `ingest_file_external` and `ingest_file` differ only in their load call. This becomes the
    `Strategy` tag carried by a `Delivery`.
- `Mover`: buckets as a map from bucket name to the set of blob names. `Move` is the specification;
  `ObjectStore.MoveFile` is the step-by-step method proved against it.
- `BigQueryErrors`: `Format`, the loop of `_format`, proved equal to the reference `Flatten`.

Parameters replace everything main.py reads from outside:

- the clock: `now` and the table `suffix`;
- the result of the load call: `Completed`, or `Raised(trace)` with the `traceback.format_exc()` text;
- the configuration: `Config`;
- the environment variables `SOURCE_BUCKET` and `DESTINATION_BUCKET`: `Option<string>`, `None` when unset;
- failures of the storage service: `ServiceFaults`.

Two behaviours of the duplicate check at main.py:179-181 are kept as written:

- A document without a `success` field makes `to_dict()['success']` raise `KeyError`. The model's
  outcome is then `Crashed(MissingField)`. `DeliverKeepsValid` proves this cannot happen for
  documents the pipeline itself writes.
- The check uses Python truthiness of the stored value, not `== True`. For the documents the
  pipeline writes, the two agree (`AlreadyIngestedIffSucceeded`).

## Model

| member | source | states |
|---|---|---|
| `Ledger.Truthy` | functions/ingest_file/main.py:181-181 | the falsy stored values are exactly `False`, `''` and `[]` |
| `Ledger.Lookup` | functions/ingest_file/main.py:180-180 | `get` finds a document iff one is stored under the key, and returns that document |
| `Ledger.WasAlreadyIngested` | functions/ingest_file/main.py:179-181 | the check fails (KeyError) iff the document exists without `success`; it is true iff the document exists and its `success` value is truthy |
| `Ledger.AlreadyIngestedIffSucceeded` | functions/ingest_file/main.py:179-181 | for well-formed documents: already ingested iff the document exists and `success == true`; absent or failed means not ingested |
| `Ledger.Iterated` | functions/ingest_file/main.py:187-188 | `list.extend` takes a list's items unchanged and a text's characters one by one, each as a one-character string; it raises only for a boolean value |
| `Ledger.DuplicationFields` | functions/ingest_file/main.py:184-192 | the update names only `duplication_attempts`, as a non-empty list headed by the new timestamp; it fails when there is no document |
| `Ledger.Merge` | functions/ingest_file/main.py:190-192 | partial update: the named fields are replaced and every other field is kept |
| `Ledger.DuplicateAttemptPrepends` | functions/ingest_file/main.py:184-192 | a duplicate attempt makes the history `[now] + old` (`[now]` when absent), one longer; `success`, `when`, `error_message` are unchanged; the document stays well-formed |
| `Ledger.SuccessRecord` | functions/ingest_file/main.py:211-214 | the success document satisfies the ledger invariant |
| `Ledger.FailureRecord` | functions/ingest_file/main.py:222-226 | the failure document satisfies the ledger invariant |
| `Ledger.RecordsAreOverwrites` | functions/ingest_file/main.py:209-229 | success writes exactly `{success: true, when: now}`, so no error message and no history survive; failure writes exactly `{success: false, error_message: message, when: now}` |
| `Ingestion.SuccessMessage` | functions/ingest_file/main.py:210-210 | the success message is exactly `File '`, the file name, `' streamed into BigQuery` |
| `Ingestion.ErrorText` | functions/ingest_file/main.py:221-221 | the error text is exactly `Error ingest_file file '`, the file name, `'. Cause: `, the captured traceback |
| `Ingestion.LoadCall` | functions/ingest_file/main.py:107-123 | the load call carries the strategy and dataset, reads `gs://<bucket>/<name>`, and targets `dc_<suffix>` |
| `Ingestion.Deliver` | functions/ingest_file/main.py:82-176 | one delivery: a crash changes nothing; a duplicate is one `update` of the file's document; a load is followed by exactly one `set` and one publish for the file; the outcome is `Ingested` iff a load happened and returned |
| `Ingestion.DeliverFrame` | functions/ingest_file/main.py:89-89 | a delivery leaves every other file's document as it was |
| `Ingestion.DeliverKeepsValid` | functions/ingest_file/main.py:179-229 | invariant: if every document has a boolean `success` before a delivery, it still does after, and the delivery never crashes |
| `Ingestion.DuplicateDelivery` | functions/ingest_file/main.py:119-120 | for a file recorded as a success: outcome `Duplicate`; one `update` naming only the history; no load, no `set`, no publish; history `[now] + old`; other fields and files unchanged |
| `Ingestion.LoadedDelivery` | functions/ingest_file/main.py:119-128 | for an absent or failed file: exactly one load of `gs://bucket/name` into `dc_<suffix>`, then one overwrite `set`, then one publish tagged with the ledger key; success document and topic iff the load returned; failure document with the error text and error topic iff it raised |
| `Ingestion.PublishTopicMatchesOutcome` | functions/ingest_file/main.py:216-228 | with distinct topic names, the publish goes to the success topic iff the load returned, and to the error topic iff it raised |
| `Ingestion.Run` | functions/ingest_file/main.py:167-176 | one step per delivery: the first runs on the initial ledger, and each later one runs on the ledger the previous step left |
| `Ingestion.DeliverKeepsSuccess` | functions/ingest_file/main.py:179-192 | one delivery of any file keeps a recorded success; a delivery of that file is a duplicate; no `set` or publish touches it |
| `Ingestion.AtMostOnce` | functions/ingest_file/main.py:119-120 | after a success, in every following run each delivery of the file is a single-`update` duplicate, and its outcome fields never change |
| `Ingestion.IngestedThenDuplicates` | functions/ingest_file/main.py:122-124 | a load that returns closes the file: in any later run it keeps `{success: true, when}` and every redelivery is a duplicate |
| `Ingestion.Pipeline.HandleDuplication` | functions/ingest_file/main.py:184-194 | the ledger gains the merged history update and the log gains exactly that `Update`; on a fault, nothing changes |
| `Ingestion.Pipeline.HandleSuccess` | functions/ingest_file/main.py:209-217 | the document is overwritten with the success record, then the log gains `Set` followed by `Publish` to the success topic |
| `Ingestion.Pipeline.HandleError` | functions/ingest_file/main.py:220-229 | the document is overwritten with the failure record, then the log gains `Set` followed by `Publish` of the error text to the error topic |
| `Ingestion.Pipeline.Ingest` | functions/ingest_file/main.py:82-176 | the new ledger, the appended calls and the outcome are those of `Deliver`; the ledger invariant is preserved and a valid ledger never crashes |
| `Paths.FilePath` | functions/ingest_file/main.py:86-86 | the object URL is exactly `gs://`, the bucket, `/`, the file name |
| `Paths.Topic` | functions/ingest_file/main.py:46-47 | the topic path is exactly `projects/`, the project, `/topics/`, the topic name |
| `Paths.TableId` | functions/ingest_file/main.py:107-108 | the table id is `dc_` followed by the suffix |
| `Paths.TableIdInjective` | functions/ingest_file/main.py:156-157 | distinct suffixes give distinct table ids |
| `Paths.TopicInjective` | functions/ingest_file/main.py:46-47 | within one project, the topic path determines the topic name |
| `Paths.IndexOf` | functions/ingest_file/main.py:60-60 | finds the leftmost occurrence of the separator at or after `from`; `None` iff there is no occurrence |
| `Paths.BucketName` | functions/ingest_file/main.py:60-64 | `split('gs://')[1]` fails iff the value has no `gs://`; otherwise the result starts right after the first occurrence, runs to the next occurrence or the end, and contains no `gs://` |
| `Paths.BucketNameOfUrl` | functions/ingest_file/main.py:59-64 | `gs://<bucket>` yields exactly `<bucket>` |
| `Mover.ResolveBucket` | functions/ingest_file/main.py:59-64 | a bucket is resolved iff the variable is set, contains `gs://` and names an existing bucket |
| `Mover.Move` | functions/ingest_file/main.py:53-80 | no bucket appears or disappears and no blob but the named file is touched; without a `file_name` attribute nothing changes |
| `Mover.CopyBeforeDelete` | functions/ingest_file/main.py:73-74 | a failure up to and including the copy leaves every bucket unchanged; a failed delete leaves the blob in both buckets |
| `Mover.MoveSucceeds` | functions/ingest_file/main.py:53-80 | for `gs://src`, `gs://dst` and a present blob: success iff neither copy nor delete fails; then, for distinct buckets, the blob is in the destination and not the source, and other buckets are unchanged |
| `Mover.SameBucketLosesBlob` | functions/ingest_file/main.py:73-74 | if source and destination are the same bucket, a move that raises nothing deletes the blob |
| `Mover.ObjectStore.CopyBlob` | functions/ingest_file/main.py:73-73 | the copy succeeds iff the blob is in the source and the service does not fail; only then does the destination gain it |
| `Mover.ObjectStore.DeleteBlob` | functions/ingest_file/main.py:74-74 | the delete succeeds iff the blob is in the source and the service does not fail, and then removes it |
| `Mover.ObjectStore.MoveFile` | functions/ingest_file/main.py:53-80 | the new buckets and the fault are those of `Move` |
| `BigQueryErrors.Format` | functions/ingest_file/main.py:245-249 | the loop's output is the concatenation `Flatten` of every row's `errors` list |
| `BigQueryErrors.FlattenAppend` | functions/ingest_file/main.py:247-248 | flattening distributes over concatenation of the error list |
| `BigQueryErrors.FlattenLength` | functions/ingest_file/main.py:246-248 | the payload holds exactly as many details as all rows together |
| `BigQueryErrors.FlattenMembership` | functions/ingest_file/main.py:246-248 | a detail is in the payload iff some row reports it |
| `BigQueryErrors.FlattenAt` | functions/ingest_file/main.py:246-249 | in order: row `i`'s `k`-th detail sits right after all details of the rows before it |

## Left out

- The clock (`_now`, `_table_suffix`, lines 232-236): timestamps and table suffixes are parameters, and their `strftime` format is not modelled.
- The cloud clients (lines 48-51), and their retries and asynchronous jobs: they are replaced by the ledger map, the call log and the bucket map.
  - The load job of `load_table_from_uri` is never awaited, so a call that does not raise counts as success.
  - Failures of Firestore or Pub/Sub themselves are not modelled. In main.py, such a failure inside `_handle_success` would be caught by the same `except` and recorded through `_handle_error`.
- The table definitions: the 13-field schema lists (lines 92-106, 141-155), the CSV and skip-one-header options, and the dataset reference. They carry no behaviour; a `Load` call records only the strategy, source URL, dataset and table id.
- Logging, the base64 decode of the move message (line 55, only logged; a malformed payload would raise before anything moves), and `json.dumps` in `_format`.
- `_insert_into_bigquery` (lines 197-206): it is never called.
- `functions/ingest_file/utility.py` and `functions/test.py`: configuration file reading; the configuration is the `Config` parameter.
- Concurrency: deliveries are sequential calls. The read-then-write race between two concurrent deliveries of one file is outside the model.
- Document paths: the ledger is keyed by the file name, and the path `'streaming_files/%s' % file_name` (line 89) is not modelled. With a name containing `/`, the Firestore client either rejects the path (an odd number of segments, e.g. `dir/a.csv`, raises `ValueError` before any read) or reads a nested document whose id is only the last segment. Such names are not modelled.
- Firestore value types other than booleans, text and lists of text: the pipeline never writes them.
- Blob contents: buckets hold blob names only, and a copy onto an existing name is a set union.
- `BigQueryError.__init__` keeping `self.errors`, and entries without an `errors` key (a `KeyError`): each `RowError` carries its list.
