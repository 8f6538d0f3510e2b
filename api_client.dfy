/** The client's request helpers: the query string built from a params object, asset URLs, and the
    outcome of a response (data, or the message of the error thrown). */
module ApiClient {
  import opened Wrappers
  import opened Json
  import Seqs
  import Strings

  /** One `[key, value]` entry of a params object, in the object's own order. */
  datatype Param = Param(key: string, value: Value)

  /** `buildQuery` keeps an entry whose value is not undefined, null or ''. */
  predicate IsKept(p: Param) {
    Present(p.value)
  }

  function KeptParams(params: seq<Param>): seq<Param> {
    Seqs.Filter(params, IsKept)
  }

  /** `key=value` as `URLSearchParams` writes an entry; percent-encoding is the opaque `encode`. */
  function PairText(p: Param, encode: string -> string): (r: string)
    ensures |r| > 0 && '=' in r
  {
    var r := encode(p.key) + "=" + encode(ToText(p.value));
    assert r[|encode(p.key)|] == '=';
    r
  }

  function PairsOf(ps: seq<Param>, encode: string -> string): (r: seq<string>)
    ensures |r| == |ps|
    ensures forall i :: 0 <= i < |ps| ==> r[i] == PairText(ps[i], encode)
  {
    seq(|ps|, i requires 0 <= i < |ps| => PairText(ps[i], encode))
  }

  /** The joined entries of the accumulator, as `searchParams.toString()` returns them. */
  function SearchText(ps: seq<Param>, encode: string -> string): string {
    Strings.Join(PairsOf(ps, encode), "&")
  }

  /** The result of `buildQuery`: empty when nothing is kept, else `?` and the kept entries. */
  function QueryText(params: seq<Param>, encode: string -> string): (r: string)
    ensures r == "" <==> forall p :: p in params ==> !Present(p.value)
    ensures r != "" ==> r[0] == '?' && r[1..] == SearchText(KeptParams(params), encode)
  {
    var kept := KeptParams(params);
    var query := SearchText(kept, encode);
    JoinEmpty(PairsOf(kept, encode), "&");
    assert kept != [] ==> kept[0] in kept;
    if query != "" then "?" + query else ""
  }

  /** Joining strings that are all non-empty gives the empty string only for no strings. */
  lemma {:induction false} JoinEmpty(parts: seq<string>, sep: string)
    requires forall i :: 0 <= i < |parts| ==> |parts[i]| > 0
    ensures Strings.Join(parts, sep) == "" <==> parts == []
  {
    if |parts| > 1 {
      assert |Strings.Join(parts, sep)| >= |parts[0]|;
    }
  }

  /** Kept entries keep the order of the params object, and every kept entry has a value. */
  lemma QueryOrder(params: seq<Param>, encode: string -> string)
    ensures Seqs.IsSublist(KeptParams(params), params)
    ensures forall p :: p in KeptParams(params) ==> p in params && Present(p.value)
  {
    Seqs.FilterSublist(params, IsKept);
  }

  /** One more entry appends its pair exactly when it is kept. */
  lemma PairsStep(params: seq<Param>, i: nat, encode: string -> string)
    requires i < |params|
    ensures PairsOf(KeptParams(params[..i + 1]), encode)
         == PairsOf(KeptParams(params[..i]), encode) + (if IsKept(params[i]) then [PairText(params[i], encode)] else [])
  {
    Seqs.FilterPrefixStep(params, i, IsKept);
    var extra := if IsKept(params[i]) then [params[i]] else [];
    assert KeptParams(params[..i+1]) == KeptParams(params[..i]) + extra;
    assert PairsOf(KeptParams(params[..i]) + extra, encode) == PairsOf(KeptParams(params[..i]), encode) + PairsOf(extra, encode);
  }

  /** `buildQuery`: entries are appended to the accumulator one by one. */
  method BuildQuery(params: seq<Param>, encode: string -> string) returns (query: string)
    ensures query == QueryText(params, encode)
  {
    var pairs: seq<string> := [];
    var i := 0;
    while i < |params|
      invariant 0 <= i <= |params|
      invariant pairs == PairsOf(KeptParams(params[..i]), encode)
    {
      var entry := params[i];
      PairsStep(params, i, encode);
      if entry.value != Undefined && entry.value != Null && entry.value != Str("") {
        pairs := pairs + [PairText(entry, encode)];
      }
      i := i + 1;
    }
    assert params[..|params|] == params;
    var text := Strings.Join(pairs, "&");
    query := if text != "" then "?" + text else "";
  }

  /** A path with its query string, as every list call builds it. */
  function RequestPath(resource: string, params: seq<Param>, encode: string -> string): (r: string)
    ensures (forall p :: p in params ==> !Present(p.value)) ==> r == resource
  {
    resource + QueryText(params, encode)
  }

  predicate IsAbsolute(path: string) {
    Strings.StartsWith(path, "http://") || Strings.StartsWith(path, "https://")
  }

  /** `buildAssetUrl`: empty and absolute paths are returned as they are, others get the base URL. */
  function BuildAssetUrl(base: string, path: string): (r: string)
    ensures path == "" ==> r == ""
    ensures IsAbsolute(path) ==> r == path
    ensures path != "" && !IsAbsolute(path) ==> r == base + path
  {
    if path == "" then path
    else if IsAbsolute(path) then path
    else base + path
  }

  lemma PrefixExtends(s: string, t: string, prefix: string)
    requires Strings.StartsWith(s, prefix)
    ensures Strings.StartsWith(s + t, prefix)
  {
    assert (s + t)[..|prefix|] == s[..|prefix|];
  }

  /** With an absolute base URL, resolving an asset URL a second time changes nothing. */
  lemma AssetUrlIdempotent(base: string, path: string)
    requires IsAbsolute(base)
    ensures BuildAssetUrl(base, BuildAssetUrl(base, path)) == BuildAssetUrl(base, path)
  {
    if path != "" && !IsAbsolute(path) {
      if Strings.StartsWith(base, "http://") {
        PrefixExtends(base, path, "http://");
      } else {
        PrefixExtends(base, path, "https://");
      }
    }
  }

  /** The body sent by `api.login`: the address travels as `identifier`, not as `email`. */
  function LoginBody(identifier: string, password: string): (r: Value)
    ensures Get(r, "identifier") == Str(identifier) && Get(r, "password") == Str(password)
    ensures Get(r, "email") == Undefined
  {
    Obj(map["identifier" := Str(identifier), "password" := Str(password)])
  }

  /** What `apiRequest` ends with: the data, the `Error` it throws for a failed response, or the
      `SyntaxError` that `JSON.parse` throws for a body that is not JSON (the status is then never
      looked at). */
  datatype Outcome = Success(data: Value) | Failure(message: string) | SyntaxError

  const FailurePrefix := "Request failed with status "

  /** `text ? JSON.parse(text) : null`; parsing itself is the opaque `parse`, `None` for a body it
      rejects. */
  function ResponseData(text: string, parse: string -> Option<Value>): (r: Option<Value>)
    ensures text == "" ==> r == Some(Null)
    ensures text != "" ==> r == parse(text)
  {
    if text != "" then parse(text) else Some(Null)
  }

  /** `data?.message || 'Request failed with status <code>'`, as the text of the error thrown. */
  function ErrorMessage(data: Value, status: nat): (m: string)
    ensures Truthy(Get(data, "message")) ==> m == ToText(Get(data, "message"))
    ensures !Truthy(Get(data, "message")) ==> m == FailurePrefix + Strings.NatToString(status)
  {
    var message := Get(data, "message");
    if Truthy(message) then ToText(message) else FailurePrefix + Strings.NatToString(status)
  }

  /** Without a server message, the status code can be read back from the fallback message. */
  lemma FallbackNamesStatus(data: Value, status: nat)
    requires !Truthy(Get(data, "message"))
    ensures var m := ErrorMessage(data, status);
      Strings.StartsWith(m, FailurePrefix) && Strings.ParseNat(m[|FailurePrefix|..]) == Some(status)
  {
    var m := ErrorMessage(data, status);
    assert m[|FailurePrefix|..] == Strings.NatToString(status);
    Strings.ParseNatRoundTrip(status);
  }

  /** `apiRequest` after the response arrives: the body is parsed first, so a body that is not JSON
      throws whatever the status; then its data when ok, the thrown message otherwise. */
  function RequestOutcome(ok: bool, status: nat, text: string, parse: string -> Option<Value>): (r: Outcome)
    ensures r.SyntaxError? <==> text != "" && parse(text).None?
    ensures r.Success? <==> ok && (text == "" || parse(text).Some?)
    ensures r.Failure? <==> !ok && (text == "" || parse(text).Some?)
    ensures r.Success? ==> (text == "" ==> r.data == Null) && (text != "" ==> Some(r.data) == parse(text))
    ensures r.Failure? && text != "" ==> r.message == ErrorMessage(parse(text).value, status)
    ensures r.Failure? && text == "" ==> r.message == FailurePrefix + Strings.NatToString(status)
  {
    match ResponseData(text, parse)
    case None => SyntaxError
    case Some(data) => if ok then Success(data) else Failure(ErrorMessage(data, status))
  }

  /** An error page that is not JSON (Express's default "Cannot GET" page) surfaces as the parse
      error, never as the status message. */
  lemma NonJsonErrorPageIsSyntaxError(status: nat, text: string, parse: string -> Option<Value>)
    requires text != "" && parse(text).None?
    ensures RequestOutcome(false, status, text, parse) == SyntaxError
    ensures RequestOutcome(true, status, text, parse) == SyntaxError
  {
  }
}
