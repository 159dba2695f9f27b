/**
 * The status ledger: the Firestore collection `streaming_files`, one document per file
 * name. A document is a map from field name to value, so that `set` (full overwrite) and
 * `update` (merge of the given fields) can be told apart, and a document without a
 * `success` field can be represented at all.
 */
module Ledger {
  import opened Base

  /** The field values the pipeline stores: booleans, text and lists of text. */
  datatype Value = Bool(b: bool) | Text(s: string) | List(items: seq<string>)

  type Document = map<string, Value>

  /** The collection `streaming_files`, keyed by file name. */
  type Store = map<string, Document>

  const SuccessKey: string := "success"
  const WhenKey: string := "when"
  const ErrorMessageKey: string := "error_message"
  const AttemptsKey: string := "duplication_attempts"

  /** The Python exceptions the ledger helpers can raise. */
  datatype Fault =
    | NoDocument              // `to_dict()` of a missing document is None: `in None` is a TypeError
    | MissingField(key: string) // `to_dict()[key]` on a document without that field: KeyError
    | NotIterable(key: string)  // `list.extend` of a value that is not iterable: TypeError

  /** Python truthiness, as `if` applies it to the value of `success`. */
  function Truthy(v: Value): (r: bool)
    ensures !r <==> v == Bool(false) || v == Text("") || v == List([])
  {
    match v
    case Bool(b) => b
    case Text(s) => s != ""
    case List(items) => items != []
  }

  /** The shape every document written by the pipeline has. */
  predicate WellFormed(d: Document)
  {
    && SuccessKey in d && d[SuccessKey].Bool?
    && (AttemptsKey in d ==> d[AttemptsKey].List?)
  }

  predicate ValidStore(store: Store)
  {
    forall k :: k in store ==> WellFormed(store[k])
  }

  /** The duplicate-attempt history of a document; empty when the field is absent. */
  function Attempts(d: Document): seq<string>
  {
    if AttemptsKey in d && d[AttemptsKey].List? then d[AttemptsKey].items else []
  }

  /** Two documents agree on everything but the duplicate-attempt history. */
  predicate SameOutcome(d1: Document, d2: Document)
  {
    && d1.Keys - {AttemptsKey} == d2.Keys - {AttemptsKey}
    && forall f :: f in d1 && f != AttemptsKey ==> f in d2 && d1[f] == d2[f]
  }

  /** `db_ref.get()`: the stored document, if any. */
  function Lookup(store: Store, key: string): (r: Option<Document>)
    ensures r.Some? <==> key in store
    ensures r.Some? ==> r.value == store[key]
  {
    if key in store then Some(store[key]) else None
  }

  /**
   * `status.exists and status.to_dict()['success']`, taken as a condition: false for a
   * missing document, KeyError for a document without `success`, otherwise the truth
   * value of the stored field.
   */
  function WasAlreadyIngested(status: Option<Document>): (r: Result<bool, Fault>)
    ensures r.Err? <==> status.Some? && SuccessKey !in status.value
    ensures r == Ok(true) <==> status.Some? && SuccessKey in status.value && Truthy(status.value[SuccessKey])
  {
    match status
    case None => Ok(false)
    case Some(d) =>
      if SuccessKey in d then Ok(Truthy(d[SuccessKey])) else Err(MissingField(SuccessKey))
  }

  /**
   * For the documents the pipeline writes, a file is already ingested iff its document
   * exists and records `success = true`; a missing document and a recorded failure are
   * both "not yet ingested", so a failed file is loaded again.
   */
  lemma AlreadyIngestedIffSucceeded(status: Option<Document>)
    requires status.Some? ==> WellFormed(status.value)
    ensures WasAlreadyIngested(status) == Ok(status.Some? && status.value[SuccessKey] == Bool(true))
  {
    if status.Some? {
      var v := status.value[SuccessKey];
      assert v == Bool(v.b);
    }
  }

  /** What `list.extend(v)` appends: a list's items, a text's characters, or TypeError. */
  function Iterated(v: Value): (r: Result<seq<string>, Fault>)
    ensures v.List? ==> r == Ok(v.items)
    ensures v.Text? ==> r.Ok? && |r.value| == |v.s| && forall i :: 0 <= i < |v.s| ==> r.value[i] == [v.s[i]]
    ensures r.Err? <==> v.Bool?
  {
    match v
    case List(items) => Ok(items)
    case Text(s) => Ok(seq(|s|, i requires 0 <= i < |s| => [s[i]]))
    case Bool(_) => Err(NotIterable(AttemptsKey))
  }

  /**
   * The fields `_handle_duplication` passes to `update`: `duplication_attempts` set to
   * the new timestamp followed by the previous history (none when the field is absent).
   */
  function DuplicationFields(status: Option<Document>, now: string): (r: Result<Document, Fault>)
    ensures r.Ok? ==> status.Some?
    ensures r.Ok? ==> r.value.Keys == {AttemptsKey} && r.value[AttemptsKey].List?
    ensures r.Ok? ==> |r.value[AttemptsKey].items| > 0 && r.value[AttemptsKey].items[0] == now
  {
    match status
    case None => Err(NoDocument)
    case Some(d) =>
      if AttemptsKey in d then
        match Iterated(d[AttemptsKey])
        case Err(f) => Err(f)
        case Ok(previous) => Ok(map[AttemptsKey := List([now] + previous)])
      else
        Ok(map[AttemptsKey := List([now])])
  }

  /** `update(fields)`: a partial write; the given fields replace, all others stay. */
  function Merge(d: Document, fields: Document): (r: Document)
    ensures r.Keys == d.Keys + fields.Keys
    ensures forall f :: f in fields ==> r[f] == fields[f]
    ensures forall f :: f in d && f !in fields ==> r[f] == d[f]
  {
    d + fields
  }

  /**
   * A duplicate attempt on a well-formed document prepends the timestamp: the history
   * becomes `[now] + old` (so grows by exactly one), and `success`, `when` and
   * `error_message` are untouched because the write is partial.
   */
  lemma DuplicateAttemptPrepends(d: Document, now: string)
    requires WellFormed(d)
    ensures DuplicationFields(Some(d), now).Ok?
    ensures var d' := Merge(d, DuplicationFields(Some(d), now).value);
      && WellFormed(d')
      && Attempts(d') == [now] + Attempts(d)
      && |Attempts(d')| == |Attempts(d)| + 1
      && SameOutcome(d, d')
  {
    var fields := DuplicationFields(Some(d), now).value;
    var d' := Merge(d, fields);
    if AttemptsKey in d {
      assert Iterated(d[AttemptsKey]) == Ok(Attempts(d));
      assert fields == map[AttemptsKey := List([now] + Attempts(d))];
    } else {
      assert [now] + Attempts(d) == [now];
    }
    assert d'[AttemptsKey] == List([now] + Attempts(d));
  }

  /** `_handle_success`: the document written with `set`, replacing any earlier one. */
  function SuccessRecord(now: string): (d: Document)
    ensures WellFormed(d)
  {
    map[SuccessKey := Bool(true), WhenKey := Text(now)]
  }

  /** `_handle_error`: the document written with `set`, replacing any earlier one. */
  function FailureRecord(message: string, now: string): (d: Document)
    ensures WellFormed(d)
  {
    map[SuccessKey := Bool(false), ErrorMessageKey := Text(message), WhenKey := Text(now)]
  }

  /**
   * Both overwrites leave exactly the fields they name: a fresh success carries no error
   * message and no duplicate-attempt history, whatever the document held before.
   */
  lemma RecordsAreOverwrites(message: string, now: string)
    ensures SuccessRecord(now).Keys == {SuccessKey, WhenKey}
    ensures SuccessRecord(now)[SuccessKey] == Bool(true) && SuccessRecord(now)[WhenKey] == Text(now)
    ensures ErrorMessageKey !in SuccessRecord(now) && Attempts(SuccessRecord(now)) == []
    ensures FailureRecord(message, now).Keys == {SuccessKey, ErrorMessageKey, WhenKey}
    ensures FailureRecord(message, now)[SuccessKey] == Bool(false)
    ensures FailureRecord(message, now)[ErrorMessageKey] == Text(message)
    ensures FailureRecord(message, now)[WhenKey] == Text(now)
    ensures Attempts(FailureRecord(message, now)) == []
  {
  }
}
