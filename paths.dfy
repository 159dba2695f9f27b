/**
 * The plain string formatting of functions/ingest_file/main.py: the object URL of the
 * triggering file, the per-run table id, the Pub/Sub topic paths, and the bucket name
 * that `move_file` takes out of an environment value with `split('gs://')[1]`.
 */
module Paths {
  import opened Base

  const Scheme: string := "gs://"
  /** BQ_TABLE, the prefix of every table id. */
  const TablePrefix: string := "dc"

  /** 'gs://{}/{}'.format(bucket_name, file_name) */
  function FilePath(bucket: string, name: string): (p: string)
    ensures |p| == |Scheme| + |bucket| + 1 + |name|
    ensures p[..|Scheme|] == Scheme && p[|Scheme|..|Scheme| + |bucket|] == bucket
    ensures p[|Scheme| + |bucket|] == '/'
    ensures p[|p| - |name|..] == name
  {
    Scheme + bucket + "/" + name
  }

  /** '{}_{}'.format(BQ_TABLE, table_suffix) */
  function TableId(suffix: string): (id: string)
    ensures |id| == |suffix| + 3 && id[..3] == "dc_" && id[3..] == suffix
  {
    TablePrefix + "_" + suffix
  }

  /** Distinct suffixes give distinct table ids (runs in the same second share a suffix, and so a table id). */
  lemma TableIdInjective(s1: string, s2: string)
    requires TableId(s1) == TableId(s2)
    ensures s1 == s2
  {
    PrefixCancel(TablePrefix + "_", s1, s2);
  }

  /** 'projects/%s/topics/%s' % (PROJECT_ID, topic) */
  function Topic(project: string, topic: string): (p: string)
    ensures |p| == |project| + |topic| + 17
    ensures p[..9] == "projects/" && p[9..9 + |project|] == project
    ensures p[9 + |project|..17 + |project|] == "/topics/"
    ensures p[|p| - |topic|..] == topic
  {
    "projects/" + project + "/topics/" + topic
  }

  /** Within one project, the topic path determines the configured topic name. */
  lemma TopicInjective(project: string, t1: string, t2: string)
    requires Topic(project, t1) == Topic(project, t2)
    ensures t1 == t2
  {
    var pre := "projects/" + project + "/topics/";
    assert Topic(project, t1) == pre + t1;
    assert Topic(project, t2) == pre + t2;
    PrefixCancel(pre, t1, t2);
  }

  predicate OccursAt(s: string, sep: string, i: nat)
  {
    i + |sep| <= |s| && s[i..i + |sep|] == sep
  }

  /** The leftmost occurrence of `sep` in `s` at or after `from`, as `str.split` finds it. */
  function IndexOf(s: string, sep: string, from: nat): (r: Option<nat>)
    decreases |s| - from
    ensures r.Some? ==> from <= r.value && OccursAt(s, sep, r.value)
    ensures r.Some? ==> forall k: nat :: from <= k < r.value ==> !OccursAt(s, sep, k)
    ensures r.None? ==> forall k: nat :: from <= k ==> !OccursAt(s, sep, k)
  {
    if from + |sep| > |s| then None
    else if s[from..from + |sep|] == sep then Some(from)
    else IndexOf(s, sep, from + 1)
  }

  /**
   * `value.split('gs://')[1]`: the text between the first and the second occurrence of
   * the scheme (or the end); None where Python raises IndexError (no occurrence at all).
   */
  function BucketName(value: string): (r: Option<string>)
    ensures r.None? <==> forall k: nat :: !OccursAt(value, Scheme, k)
    ensures r.Some? ==> forall k: nat :: !OccursAt(r.value, Scheme, k)
    ensures r.Some? ==>
      exists i: nat ::
        && OccursAt(value, Scheme, i)
        && (forall k: nat :: k < i ==> !OccursAt(value, Scheme, k))
        && i + |Scheme| + |r.value| <= |value|
        && value[i + |Scheme|..i + |Scheme| + |r.value|] == r.value
        && (i + |Scheme| + |r.value| == |value| || OccursAt(value, Scheme, i + |Scheme| + |r.value|))
  {
    match IndexOf(value, Scheme, 0)
    case None => None
    case Some(i) =>
      var rest := value[i + |Scheme|..];
      match IndexOf(rest, Scheme, 0)
      case None =>
        assert i + |Scheme| + |rest| == |value| && value[i + |Scheme|..i + |Scheme| + |rest|] == rest;
        Some(rest)
      case Some(j) =>
        NoOccurrenceInPrefix(rest, j);
        OccurrenceShifts(value, i + |Scheme|, j);
        Some(rest[..j])
  }

  /** No occurrence of the scheme in `s` before `j` means none in `s[..j]`. */
  lemma NoOccurrenceInPrefix(s: string, j: nat)
    requires j <= |s|
    requires forall k: nat :: k < j ==> !OccursAt(s, Scheme, k)
    ensures forall k: nat :: !OccursAt(s[..j], Scheme, k)
  {
    forall k: nat ensures !OccursAt(s[..j], Scheme, k) {
      if OccursAt(s[..j], Scheme, k) {
        assert s[..j][k..k + |Scheme|] == s[k..k + |Scheme|];
        assert OccursAt(s, Scheme, k);
      }
    }
  }

  /** An occurrence in a suffix of `s` is an occurrence in `s`, shifted by where the suffix starts. */
  lemma OccurrenceShifts(s: string, start: nat, j: nat)
    requires start <= |s| && OccursAt(s[start..], Scheme, j)
    ensures OccursAt(s, Scheme, start + j)
  {
    assert s[start..][j..j + |Scheme|] == s[start + j..start + j + |Scheme|];
  }

  /** The usual environment value `gs://<bucket>` yields exactly `<bucket>`. */
  lemma BucketNameOfUrl(bucket: string)
    requires forall k: nat :: !OccursAt(bucket, Scheme, k)
    ensures BucketName(Scheme + bucket) == Some(bucket)
  {
    var v := Scheme + bucket;
    assert OccursAt(v, Scheme, 0);
    assert v[|Scheme|..] == bucket;
  }
}
