/** The request helper of `src/lib/htpp.ts`: base-URL default, URL join,
    header and body choice, the mapping of a thrown error to a 500 reply,
    the query string of `http.get` and the URL of `http.delete`. The
    network call itself, JSON encoding and URL escaping are parameters. */
module Http {
  import opened Wrappers
  import opened JsStrings

  const DefaultBaseUrl: string := "http://localhost:3000/api/v1"
  const UnknownErrorMessage: string := "An unknow error"

  /** `process.env.NEXT_PUBLIC_API_URL || default`: an unset or empty
      variable falls back to the local server. */
  function BaseUrl(env: Option<string>): (base: string)
    ensures env.Some? && env.value != "" ==> base == env.value
    ensures env.None? || env.value == "" ==> base == DefaultBaseUrl
  {
    if env.Some? && env.value != "" then env.value else DefaultBaseUrl
  }

  /** The URL joined to the base: no slash is added when the path already
      starts with one. */
  function FullUrl(base: string, url: string): (full: string)
    ensures |full| > |base| && full[..|base|] == base && full[|base|] == '/'
    ensures full[|base| + 1..] == if StartsWith(url, "/") then url[1..] else url
  {
    if StartsWith(url, "/") then base + url else base + "/" + url
  }

  /** Exactly one slash separates the base from the path, whether or not
      the path was written with a leading slash. */
  lemma FullUrlJoinsWithOneSlash(base: string, path: string)
    requires !StartsWith(path, "/")
    ensures FullUrl(base, "/" + path) == base + "/" + path
    ensures FullUrl(base, path) == base + "/" + path
  {
    assert ("/" + path)[..1] == "/";
  }

  datatype Method = GET | POST | PUT | PATCH | DELETE

  /** The body handed to `request`: nothing, a plain record (to be sent as
      JSON) or a `FormData`. */
  datatype Body<R, F> = NoBody | RecordBody(fields: R) | FormBody(form: F)

  /** What goes on the wire: no body, JSON text or the form itself. */
  datatype WireBody<F> = NoPayload | JsonText(text: string) | FormPayload(form: F)

  datatype Header = Header(name: string, value: string)

  /** The headers: none for a `FormData` body (the browser sets the
      multipart boundary), the JSON content type otherwise. */
  function Headers<R, F>(body: Body<R, F>): (hs: seq<Header>)
    ensures body.FormBody? <==> hs == []
    ensures !body.FormBody? ==> hs == [Header("Content-Type", "application/json")]
  {
    if body.FormBody? then [] else [Header("Content-Type", "application/json")]
  }

  /** The `body` option of `fetch`: the form as is, or `JSON.stringify` of
      the record; `JSON.stringify(undefined)` is `undefined`, so no body. */
  function WireFor<R, F>(body: Body<R, F>, stringify: R -> string): (w: WireBody<F>)
    ensures body.FormBody? <==> w.FormPayload?
    ensures body.RecordBody? <==> w.JsonText?
    ensures body.FormBody? ==> w.form == body.form
    ensures body.NoBody? <==> w.NoPayload?
    ensures body.RecordBody? ==> w.text == stringify(body.fields)
  {
    match body
    case NoBody => NoPayload
    case RecordBody(fields) => JsonText(stringify(fields))
    case FormBody(form) => FormPayload(form)
  }

  /** The JSON content type is announced exactly when the body is not a
      form, and then the body, if any, is JSON text. */
  lemma JsonHeaderIffJsonBody<R, F>(body: Body<R, F>, stringify: R -> string)
    ensures (Header("Content-Type", "application/json") in Headers(body)) <==> !WireFor(body, stringify).FormPayload?
  {
  }

  /** A prepared `fetch` call. */
  datatype Prepared<F> = Prepared(verb: Method, url: string, headers: seq<Header>, body: WireBody<F>)

  /** Everything `request` computes before calling `fetch`. */
  function Prepare<R, F>(env: Option<string>, url: string, verb: Method, body: Body<R, F>, stringify: R -> string): (p: Prepared<F>)
    ensures p.verb == verb
    ensures StartsWith(p.url, BaseUrl(env) + "/")
    ensures p.headers == [] <==> p.body.FormPayload?
  {
    Prepared(verb, FullUrl(BaseUrl(env), url), Headers(body), WireFor(body, stringify))
  }

  /** How the `fetch` and `res.json()` pair ended: a parsed reply, or an
      exception (network failure, invalid JSON). */
  datatype FetchOutcome<P> = Replied(status: int, payload: P) | Threw

  datatype ReplyPayload<P> = Parsed(body: P) | Failure(message: string)

  datatype Reply<P> = Reply(status: int, payload: ReplyPayload<P>)

  /** The `try`/`catch` of `request`: every exception becomes status 500
      with the message "An unknow error"; a reply passes through. */
  function Settle<P>(outcome: FetchOutcome<P>): (r: Reply<P>)
    ensures outcome.Threw? ==> r == Reply(500, Failure(UnknownErrorMessage))
    ensures outcome.Replied? ==> r == Reply(outcome.status, Parsed(outcome.payload))
  {
    match outcome
    case Replied(status, payload) => Reply(status, Parsed(payload))
    case Threw => Reply(500, Failure(UnknownErrorMessage))
  }

  // ---------------------------------------------------------------------
  // http.get: query string
  // ---------------------------------------------------------------------

  /** A parameter value, already converted with `toString`: one value, an
      array of values, or `undefined` or `null` (on which `toString`
      throws). */
  datatype ParamValue = Scalar(text: string) | Many(items: seq<string>) | Nullish

  datatype Param = Param(key: string, value: ParamValue)

  datatype QueryPair = QueryPair(key: string, value: string)

  function PairsOf(key: string, items: seq<string>): (ps: seq<QueryPair>)
    ensures |ps| == |items|
    ensures forall i :: 0 <= i < |items| ==> ps[i] == QueryPair(key, items[i])
  {
    if items == [] then [] else [QueryPair(key, items[0])] + PairsOf(key, items[1..])
  }

  /** How many pairs the parameters stand for: one per scalar, one per
      array element. */
  function PairCount(params: seq<Param>): nat {
    if params == [] then 0
    else (match params[0].value case Scalar(_) => 1 case Many(items) => |items| case Nullish => 0) + PairCount(params[1..])
  }

  /** The pairs appended to the `URLSearchParams`, in entry order, or
      `None` when a value is `undefined` or `null` and the call throws. */
  function QueryPairs(params: seq<Param>): (r: Option<seq<QueryPair>>)
    ensures r.Some? ==> |r.value| == PairCount(params)
  {
    if params == [] then Some([])
    else
      var rest := QueryPairs(params[1..]);
      match params[0].value
      case Nullish => None
      case Scalar(text) => if rest.None? then None else Some([QueryPair(params[0].key, text)] + rest.value)
      case Many(items) => if rest.None? then None else Some(PairsOf(params[0].key, items) + rest.value)
  }

  /** The pairs of one parameter. */
  function PairsOfParam(p: Param): seq<QueryPair> {
    match p.value
    case Scalar(text) => [QueryPair(p.key, text)]
    case Many(items) => PairsOf(p.key, items)
    case Nullish => []
  }

  /** `pairs` in front of a result that may have failed. */
  function Prefixed(pairs: seq<QueryPair>, rest: Option<seq<QueryPair>>): Option<seq<QueryPair>> {
    if rest.None? then None else Some(pairs + rest.value)
  }

  /** One parameter's step of the query. */
  lemma QueryPairsCons(params: seq<Param>)
    requires params != []
    ensures QueryPairs(params) ==
      if params[0].value.Nullish? then None else Prefixed(PairsOfParam(params[0]), QueryPairs(params[1..]))
  {
  }

  /** `Object.entries(params || {}).forEach(...)`. */
  method BuildQuery(params: seq<Param>) returns (pairs: Option<seq<QueryPair>>)
    ensures pairs == QueryPairs(params)
  {
    var acc: seq<QueryPair> := [];
    var i := 0;
    assert params[0..] == params;
    if QueryPairs(params).Some? {
      assert [] + QueryPairs(params).value == QueryPairs(params).value;
    }
    while i < |params|
      invariant 0 <= i <= |params|
      invariant QueryPairs(params) == Prefixed(acc, QueryPairs(params[i..]))
    {
      var p := params[i];
      QueryPairsCons(params[i..]);
      assert params[i..][0] == p && params[i..][1..] == params[i + 1..];
      if p.value.Nullish? {
        return None;
      }
      ghost var before := acc;
      if p.value.Scalar? {
        acc := acc + [QueryPair(p.key, p.value.text)];
      } else {
        acc := AppendEach(acc, p.key, p.value.items);
      }
      assert acc == before + PairsOfParam(p);
      PrefixedTwice(before, PairsOfParam(p), QueryPairs(params[i + 1..]));
      i := i + 1;
    }
    assert params[i..] == [];
    assert acc + [] == acc;
    pairs := Some(acc);
  }

  /** `value.forEach(v => queryString.append(key, v.toString()))`. */
  method AppendEach(acc: seq<QueryPair>, key: string, items: seq<string>) returns (r: seq<QueryPair>)
    ensures r == acc + PairsOf(key, items)
  {
    r := acc;
    var k := 0;
    while k < |items|
      invariant 0 <= k <= |items|
      invariant r == acc + PairsOf(key, items[..k])
    {
      assert PairsOf(key, items[..k + 1]) == PairsOf(key, items[..k]) + [QueryPair(key, items[k])];
      r := r + [QueryPair(key, items[k])];
      k := k + 1;
    }
    assert items[..k] == items;
  }

  lemma PrefixedTwice(a: seq<QueryPair>, b: seq<QueryPair>, rest: Option<seq<QueryPair>>)
    ensures Prefixed(a, Prefixed(b, rest)) == Prefixed(a + b, rest)
  {
    if rest.Some? {
      assert a + (b + rest.value) == (a + b) + rest.value;
    }
  }

  /** The query fails exactly when some value is `undefined` or `null`. */
  lemma {:induction false} QueryFailsIffNullish(params: seq<Param>)
    ensures QueryPairs(params).None? <==> exists i :: 0 <= i < |params| && params[i].value.Nullish?
    decreases |params|
  {
    if params != [] {
      QueryFailsIffNullish(params[1..]);
      if params[0].value.Nullish? {
        assert params[0].value.Nullish?;
      } else {
        forall i | 1 <= i < |params| ensures params[i] == params[1..][i - 1] {
        }
      }
    }
  }

  /** Parameters contribute their pairs in entry order: a scalar one pair,
      an array one pair per element in element order. */
  lemma {:induction false} QueryPairsAppend(a: seq<Param>, b: seq<Param>)
    requires QueryPairs(a).Some? && QueryPairs(b).Some?
    ensures QueryPairs(a + b) == Some(QueryPairs(a).value + QueryPairs(b).value)
    decreases |a|
  {
    if a == [] {
      assert a + b == b;
      assert [] + QueryPairs(b).value == QueryPairs(b).value;
    } else {
      QueryPairsCons(a);
      QueryPairsCons(a + b);
      assert (a + b)[0] == a[0] && (a + b)[1..] == a[1..] + b;
      QueryPairsAppend(a[1..], b);
      PrefixedTwice(PairsOfParam(a[0]), QueryPairs(a[1..]).value, QueryPairs(b));
    }
  }

  lemma QueryPairsOfOne(p: Param)
    requires !p.value.Nullish?
    ensures QueryPairs([p]) == Some(PairsOfParam(p))
  {
    assert [p][1..] == [];
    assert PairsOfParam(p) + [] == PairsOfParam(p);
  }

  /** `http.get`'s URL: the path, a `?` (always, even with no parameters)
      and the encoded pairs; `None` when building the query throws. */
  function GetUrl(url: string, params: Option<seq<Param>>, encode: seq<QueryPair> -> string): (r: Option<string>)
    ensures params.None? ==> r == Some(url + "?" + encode([]))
    ensures r.Some? ==> |r.value| > |url| && r.value[..|url| + 1] == url + "?"
    ensures r.None? <==> params.Some? && exists i :: 0 <= i < |params.value| && params.value[i].value.Nullish?
    ensures params.Some? && r.Some? ==> QueryPairs(params.value).Some? && r.value == url + "?" + encode(QueryPairs(params.value).value)
  {
    var entries := if params.Some? then params.value else [];
    QueryFailsIffNullish(entries);
    match QueryPairs(entries)
    case None => None
    case Some(pairs) => Some(url + "?" + encode(pairs))
  }

  /** `http.delete`'s URL: the path and the id with no separator. */
  function DeleteUrl(url: string, id: int): (r: string)
    ensures |r| >= |url| && r[..|url|] == url && r[|url|..] == IntToString(id)
  {
    url + IntToString(id)
  }

  /** A `DELETE` of a non-negative id writes the id's digits right after
      the path, so the path must end with its own slash. */
  lemma DeleteUrlAppendsDigits(url: string, id: nat)
    ensures var r := DeleteUrl(url, id);
      AllDigits(r[|url|..]) && DigitsValue(r[|url|..]) == id
  {
    NatToStringRoundTrip(id);
  }
}
