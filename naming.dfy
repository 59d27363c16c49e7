/** Derivation of the service schema, the queue schema and qualified table names from a service name and
    two configured strings. A Java `null` is `None`; dereferencing it gives `Err(NullPointer)`. */
module Naming {
  import opened Wrappers
  import opened Faults
  import opened Text

  /** What a null name normalises to. */
  const UnknownService := "unknown_service"
  /** The queue suffix used when the configured one is null. */
  const FallbackQueueSuffix := "queue"

  /** Replaces every character outside `[a-z0-9_]` by an underscore. */
  function ReplaceNonIdent(s: string): (r: string)
    ensures |r| == |s|
    ensures forall i :: 0 <= i < |s| ==> r[i] == if IsIdentChar(s[i]) then s[i] else '_'
    ensures AllIdent(r)
  {
    seq(|s|, i requires 0 <= i < |s| => if IsIdentChar(s[i]) then s[i] else '_')
  }

  /** Lower-cases a name and replaces every character outside `[a-z0-9_]` by an underscore; null gives
      `unknown_service`. */
  function NormalizeName(raw: Option<string>): (r: string)
    ensures raw.None? ==> r == UnknownService
    ensures raw.Some? ==> |r| == |raw.value|
    ensures raw.Some? ==> forall i :: 0 <= i < |r| ==>
      var l := LowerChar(raw.value[i]); r[i] == if IsIdentChar(l) then l else '_'
    ensures AllIdent(r)
  {
    match raw
    case None => UnknownService
    case Some(s) => ReplaceNonIdent(Lower(s))
  }

  /** A name made of `[a-z0-9_]` only is left as it is. */
  lemma NormalizeFixesIdent(s: string)
    requires AllIdent(s)
    ensures NormalizeName(Some(s)) == s
  {
  }

  /** Normalising twice is normalising once. */
  lemma NormalizeIdempotent(raw: Option<string>)
    ensures NormalizeName(Some(NormalizeName(raw))) == NormalizeName(raw)
  {
  }

  /** The normalised suffix of the queue schema: the fallback `queue` when the configured one is null. */
  function QueueSuffix(suffix: Option<string>): (r: string)
    ensures suffix.None? ==> r == FallbackQueueSuffix
    ensures suffix.Some? ==> r == NormalizeName(suffix)
    ensures AllIdent(r)
  {
    if suffix.None? then FallbackQueueSuffix else NormalizeName(suffix)
  }

  /** The queue schema: the normalised service name, an underscore, the normalised suffix. */
  function QueueSchemaName(service: Option<string>, suffix: Option<string>): (r: string)
    ensures AllIdent(r)
    ensures NormalizeName(Some(r)) == r
    ensures |r| == |NormalizeName(service)| + 1 + |QueueSuffix(suffix)|
    ensures StartsWith(r, NormalizeName(service) + "_")
    ensures EndsWith(r, "_" + QueueSuffix(suffix))
  {
    var n, q := NormalizeName(service), QueueSuffix(suffix);
    AllIdentConcat(n, "_");
    AllIdentConcat(n + "_", q);
    NormalizeFixesIdent(n + "_" + q);
    assert (n + "_" + q)[..|n| + 1] == n + "_";
    assert (n + "_" + q)[|n|..] == "_" + q;
    n + "_" + q
  }

  /** For a fixed suffix, two services share a queue schema exactly when their names normalise alike,
      so no collision is detected between, say, `Order-Service` and `order_service`. */
  lemma QueueSchemaNameCollision(a: Option<string>, b: Option<string>, suffix: Option<string>)
    ensures QueueSchemaName(a, suffix) == QueueSchemaName(b, suffix) <==> NormalizeName(a) == NormalizeName(b)
  {
    var ra, rb := QueueSchemaName(a, suffix), QueueSchemaName(b, suffix);
    var na, nb := NormalizeName(a), NormalizeName(b);
    if ra == rb {
      assert |na| == |nb|;
      assert na == (na + "_")[..|na|] == ra[..|na|] == rb[..|nb|] == (nb + "_")[..|nb|] == nb;
    }
  }

  /** The service schema: the service name lower-cased, after the prefix and an underscore unless the prefix
      is empty. The prefix is used verbatim and the service name is not normalised. */
  function SchemaName(prefix: Option<string>, service: Option<string>): (r: Result<string, Fault>)
    ensures r.Err? <==> prefix.None? || service.None?
    ensures r.Err? ==> r.error == NullPointer
    ensures r.Ok? ==> StartsWith(r.value, prefix.value) && EndsWith(r.value, Lower(service.value))
    ensures r.Ok? ==> |r.value| == |prefix.value| + |service.value| + if prefix.value == "" then 0 else 1
    ensures r.Ok? && prefix.value != "" ==> r.value[|prefix.value|] == '_'
  {
    match (prefix, service)
    case (Some(p), Some(s)) => Ok((if p == "" then "" else p + "_") + Lower(s))
    case _ => Err(NullPointer)
  }

  /** A table name qualified by the service schema: schema, a dot, the table name lower-cased. */
  function TableName(prefix: Option<string>, service: Option<string>, table: Option<string>): (r: Result<string, Fault>)
    ensures r.Err? <==> SchemaName(prefix, service).Err? || table.None?
    ensures r.Err? ==> r.error == NullPointer
    ensures r.Ok? ==> r.value == SchemaName(prefix, service).value + "." + Lower(table.value)
  {
    match SchemaName(prefix, service)
    case Err(e) => Err(e)
    case Ok(schema) =>
      if table.None? then Err(NullPointer) else Ok(schema + "." + Lower(table.value))
  }

  /** The index of the first `.` in `s`, or `|s|` when there is none. */
  function FirstDot(s: string): (k: nat)
    ensures k <= |s|
    ensures forall i :: 0 <= i < k ==> s[i] != '.'
    ensures k < |s| ==> s[k] == '.'
  {
    if s == [] || s[0] == '.' then 0 else 1 + FirstDot(s[1..])
  }

  /** When neither the prefix nor the service name holds a dot, cutting a qualified table name at its first
      dot gives back the service schema and the lower-cased table name. */
  lemma TableNameSplits(prefix: string, service: string, table: string)
    requires forall i :: 0 <= i < |prefix| ==> prefix[i] != '.'
    requires forall i :: 0 <= i < |service| ==> service[i] != '.'
    ensures var q := TableName(Some(prefix), Some(service), Some(table)).value;
            var k := FirstDot(q);
            k < |q| && Ok(q[..k]) == SchemaName(Some(prefix), Some(service)) && q[k + 1..] == Lower(table)
  {
    var schema := SchemaName(Some(prefix), Some(service)).value;
    var q := schema + "." + Lower(table);
    var l := Lower(service);
    assert forall i :: 0 <= i < |l| ==> l[i] != '.';
    assert forall i :: 0 <= i < |schema| ==> schema[i] != '.';
    FirstDotAt(q, |schema|);
    assert q[..|schema|] == schema;
    assert q[|schema| + 1..] == Lower(table);
  }

  lemma FirstDotAt(s: string, k: nat)
    requires k < |s| && s[k] == '.'
    requires forall i :: 0 <= i < k ==> s[i] != '.'
    ensures FirstDot(s) == k
  {
  }
}
