/**
 * `getQueryParams`: copies the query-string map into a fresh object with lower-cased
 * keys and trimmed, percent-decoded values, then rejects the request when a required
 * parameter (compared lower-cased) is absent. `decodeURIComponent` is the parameter
 * `decode`; it answers `None` where it would throw a URIError.
 */
module QueryParams {
  import opened Wrappers
  import opened Strings
  import opened Dict

  datatype QueryError =
    | BadRequest  // some required parameter is missing
    | UriError    // a value is not valid percent-encoding

  /** The lower-cased input keys. */
  function LoweredKeys(entries: Dict<string>): set<string> {
    set i | 0 <= i < |entries| :: ToLower(entries[i].0)
  }

  /** The first `n` values all decode. */
  predicate Decodes(entries: Dict<string>, decode: string -> Option<string>, n: int) {
    forall j :: 0 <= j < n && j < |entries| ==> decode(Trim(entries[j].1)).Some?
  }

  /** The first `n` assignments the loop makes, in order: lower-cased key, decoded trimmed value. */
  function Writes(entries: Dict<string>, decode: string -> Option<string>, n: nat): (r: Dict<string>)
    requires n <= |entries| && Decodes(entries, decode, n)
    ensures |r| == n
  {
    seq(n, j requires 0 <= j < n => (ToLower(entries[j].0), decode(Trim(entries[j].1)).value))
  }

  lemma WritesSnoc(entries: Dict<string>, decode: string -> Option<string>, i: nat)
    requires i < |entries| && Decodes(entries, decode, i + 1)
    ensures Writes(entries, decode, i + 1)
         == Writes(entries, decode, i) + [(ToLower(entries[i].0), decode(Trim(entries[i].1)).value)]
  {
    var a := Writes(entries, decode, i + 1);
    var b := Writes(entries, decode, i) + [(ToLower(entries[i].0), decode(Trim(entries[i].1)).value)];
    assert |a| == |b|;
    forall j | 0 <= j < |a|
      ensures a[j] == b[j]
    {
    }
  }

  /** The lower-cased required parameters that are not among `keys`, in order. */
  function Missing(required: seq<string>, keys: set<string>): (r: seq<string>)
    ensures forall p :: p in r <==> p in required && ToLower(p) !in keys
  {
    if required == [] then []
    else if ToLower(required[0]) in keys then Missing(required[1..], keys)
    else [required[0]] + Missing(required[1..], keys)
  }

  /** What `getQueryParams` returns or throws; `None` stands for a null or undefined map. */
  function QueryParamsResult(query: Option<Dict<string>>, required: seq<string>, optional: seq<string>,
                             decode: string -> Option<string>): Result<Dict<string>, QueryError>
  {
    var entries := query.GetOr([]);
    if !Decodes(entries, decode, |entries|) then Err(UriError)
    else
      var decoded := Build(Writes(entries, decode, |entries|));
      if |Missing(required, Keys(decoded))| > 0 then Err(BadRequest) else Ok(decoded)
  }

  method GetQueryParams(query: Option<Dict<string>>, required: seq<string>, optional: seq<string>,
                        decode: string -> Option<string>) returns (r: Result<Dict<string>, QueryError>)
    ensures r == QueryParamsResult(query, required, optional, decode)
  {
    var entries := query.GetOr([]);
    var decoded: Dict<string> := [];
    var i := 0;
    while i < |entries|
      invariant 0 <= i <= |entries|
      invariant Decodes(entries, decode, i)
      invariant decoded == Build(Writes(entries, decode, i))
    {
      var value := decode(Trim(entries[i].1));
      if value.None? {
        assert !Decodes(entries, decode, |entries|);
        return Err(UriError);
      }
      WritesSnoc(entries, decode, i);
      BuildSnoc(Writes(entries, decode, i), ToLower(entries[i].0), value.value);
      decoded := Put(decoded, ToLower(entries[i].0), value.value);
      i := i + 1;
    }
    var missing := Missing(required, Keys(decoded));
    if |missing| > 0 {
      return Err(BadRequest);
    }
    return Ok(decoded);
  }

  /** On success the keys are exactly the lower-cased input keys, none of them twice. */
  lemma ResultKeySet(query: Option<Dict<string>>, required: seq<string>, optional: seq<string>,
                     decode: string -> Option<string>)
    requires QueryParamsResult(query, required, optional, decode).Ok?
    ensures var d := QueryParamsResult(query, required, optional, decode).value;
            Keys(d) == LoweredKeys(query.GetOr([])) && DistinctKeys(d)
  {
    ResultKeys(query.GetOr([]), decode);
  }

  /**
   * On success each key holds the decoded, trimmed value of the last input entry whose
   * key lower-cases to it: of two keys that collide, the later wins.
   */
  lemma ResultValue(query: Option<Dict<string>>, required: seq<string>, optional: seq<string>,
                    decode: string -> Option<string>, i: int)
    requires QueryParamsResult(query, required, optional, decode).Ok?
    requires 0 <= i < |query.GetOr([])|
    requires forall j :: i < j < |query.GetOr([])| ==> ToLower(query.GetOr([])[j].0) != ToLower(query.GetOr([])[i].0)
    ensures var d := QueryParamsResult(query, required, optional, decode).value;
            var entries := query.GetOr([]);
            Get(d, ToLower(entries[i].0)) == decode(Trim(entries[i].1))
  {
    var entries := query.GetOr([]);
    var writes := Writes(entries, decode, |entries|);
    LastWithAt(writes, ToLower(entries[i].0), i);
  }

  /** The value for a key is that of the last entry with the key. */
  lemma {:induction false} LastWithAt<V>(e: Dict<V>, k: string, i: int)
    requires 0 <= i < |e| && e[i].0 == k && forall j :: i < j < |e| ==> e[j].0 != k
    ensures LastWith(e, k) == Some(e[i].1)
    decreases |e|
  {
    var n := |e| - 1;
    if i < n {
      assert e[..n][i] == e[i];
      LastWithAt(e[..n], k, i);
    }
  }

  /**
   * The request is rejected as bad exactly when every value decodes but some required
   * parameter, lower-cased, is not among the lower-cased input keys; on success every
   * lower-cased required parameter is a key of the result.
   */
  lemma RequiredCheck(query: Option<Dict<string>>, required: seq<string>, optional: seq<string>,
                      decode: string -> Option<string>)
    ensures var r := QueryParamsResult(query, required, optional, decode);
            var entries := query.GetOr([]);
            && (r == Err(UriError) <==> exists i :: 0 <= i < |entries| && decode(Trim(entries[i].1)).None?)
            && (r == Err(BadRequest) <==>
                  Decodes(entries, decode, |entries|) && exists p :: p in required && ToLower(p) !in LoweredKeys(entries))
            && (r.Ok? ==> forall p :: p in required ==> ToLower(p) in Keys(r.value))
  {
    var entries := query.GetOr([]);
    if Decodes(entries, decode, |entries|) {
      var d := Build(Writes(entries, decode, |entries|));
      ResultKeys(entries, decode);
      var m := Missing(required, Keys(d));
      if |m| > 0 { assert m[0] in m; }
    }
  }

  /** The keys the loop assigns are the lower-cased input keys. */
  lemma ResultKeys(entries: Dict<string>, decode: string -> Option<string>)
    requires Decodes(entries, decode, |entries|)
    ensures Keys(Build(Writes(entries, decode, |entries|))) == LoweredKeys(entries)
  {
    var writes := Writes(entries, decode, |entries|);
    forall x | x in Keys(writes) ensures x in LoweredKeys(entries) {
      var i :| 0 <= i < |writes| && writes[i].0 == x;
    }
    forall x | x in LoweredKeys(entries) ensures x in Keys(writes) {
      var i :| 0 <= i < |entries| && ToLower(entries[i].0) == x;
      assert writes[i].0 == x;
    }
  }

  /** The optional parameters never change what `getQueryParams` returns or throws. */
  lemma OptionalIgnored(query: Option<Dict<string>>, required: seq<string>, optional1: seq<string>, optional2: seq<string>,
                        decode: string -> Option<string>)
    ensures QueryParamsResult(query, required, optional1, decode) == QueryParamsResult(query, required, optional2, decode)
  {
  }

  /** A null or undefined map fails exactly when something is required. */
  lemma AbsentQuery(required: seq<string>, optional: seq<string>, decode: string -> Option<string>)
    ensures QueryParamsResult(None, required, optional, decode) == if required == [] then Ok([]) else Err(BadRequest)
  {
    if required != [] {
      assert required[0] in Missing(required, {});
    }
  }
}
