/**
 * Security-aware structured logging: the keyword arguments of a log call are
 * filtered (credentials redacted, long strings truncated) and merged into a
 * record after the request context and before the message.
 */
module StructuredLog {
  import opened Values
  import opened Text

  const SensitiveKeys: seq<string> := ["api_key", "password", "token", "secret", "credential"]
  const Redacted: string := "[REDACTED]"
  const TruncatedMark: string := "...[TRUNCATED]"
  const MaxValueLength: nat := 100

  /** `any(sensitive in key.lower() for sensitive in sensitive_keys)` */
  predicate IsSensitive(key: string)
  {
    ContainsAny(Lower(key), SensitiveKeys)
  }

  /** The filtered value of one entry. */
  function FilterValue(key: string, v: Value): Value
  {
    if IsSensitive(key) then Str(Redacted)
    else if v.Str? && |v.s| > MaxValueLength then Str(v.s[..MaxValueLength] + TruncatedMark)
    else v
  }

  /** `_filter_sensitive_data` */
  function FilterSensitive(data: map<string, Value>): (r: map<string, Value>)
    ensures r.Keys == data.Keys
    ensures forall k :: k in data && IsSensitive(k) ==> r[k] == Str(Redacted)
    ensures forall k :: k in data && !IsSensitive(k) && data[k].Str? && |data[k].s| > MaxValueLength ==>
              r[k] == Str(data[k].s[..MaxValueLength] + TruncatedMark)
    ensures forall k :: k in data && !IsSensitive(k) && !(data[k].Str? && |data[k].s| > MaxValueLength) ==>
              r[k] == data[k]
  {
    map k | k in data :: FilterValue(k, data[k])
  }

  /** After filtering no string value is longer than 100 characters plus the truncation mark. */
  lemma FilteredStringsShort(data: map<string, Value>)
    ensures forall k :: k in FilterSensitive(data) && FilterSensitive(data)[k].Str? ==>
              |FilterSensitive(data)[k].s| <= MaxValueLength + |TruncatedMark|
  {
  }

  /** Filtering twice is filtering once: a truncated string keeps its first 100 characters. */
  lemma FilterIdempotent(data: map<string, Value>)
    ensures FilterSensitive(FilterSensitive(data)) == FilterSensitive(data)
  {
    var f := FilterSensitive(data);
    forall k | k in f ensures FilterValue(k, f[k]) == f[k] {
      var v := data[k];
      if !IsSensitive(k) && v.Str? && |v.s| > MaxValueLength {
        assert (v.s[..MaxValueLength] + TruncatedMark)[..MaxValueLength] == v.s[..MaxValueLength];
      }
    }
  }

  /** The request context: correlation id, user, clock reading and logger name. */
  function Context(correlationId: string, user: string, timestamp: real, component: string): map<string, Value>
  {
    map["correlation_id" := Str(correlationId), "user" := Str(user), "timestamp" := Num(timestamp), "component" := Str(component)]
  }

  /** `{**context, **filtered_kwargs, 'message': message}`: later entries win. */
  function LogRecord(context: map<string, Value>, kwargs: map<string, Value>, message: string): (rec: map<string, Value>)
    ensures rec.Keys == context.Keys + kwargs.Keys + {"message"}
    ensures rec["message"] == Str(message)
    ensures forall k :: k in kwargs && k != "message" ==> rec[k] == FilterSensitive(kwargs)[k]
    ensures forall k :: k in context && k !in kwargs && k != "message" ==> rec[k] == context[k]
  {
    context + FilterSensitive(kwargs) + map["message" := Str(message)]
  }

  /** A credential passed as a keyword argument never reaches the record in clear, even under a context key's name. */
  lemma CredentialsNeverLogged(context: map<string, Value>, kwargs: map<string, Value>, message: string, k: string)
    requires k in kwargs && IsSensitive(k) && k != "message"
    ensures LogRecord(context, kwargs, message)[k] == Str(Redacted)
  {
  }
}
