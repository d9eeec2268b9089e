/**
 * Account-asset product line: every call goes through the private path prefix
 * `asset/v1/private/`, and the generic helpers turn the transport's error into
 * a success flag.
 */
module Account {
  import opened Wrappers
  import opened Transport

  /** Fixed product and version prefix of every account-asset path. */
  const Prefix: string := "asset/v1/"

  /** What the transport leaves behind after one call: the envelope's decoded
      `result` payload and the error it reports (None for nil). */
  datatype Filled<T> = Filled(result: T, err: Option<Fault>)

  /** The transport's Get or Post as an oracle: given the handle, the request
      and the payload the envelope held before the call (decoding fills it in
      place), it yields the payload after the call and the error. */
  type Fill<!P, !T> = (Conn, Request<P>, T) -> Filled<T>

  /** The response envelope the transport decodes into; only its `result`
      field is read by this package. */
  class Response<T> {
    var Result: T

    /** An envelope holding the zero value of its payload type. */
    constructor (zero: T)
      ensures Result == zero
    {
      Result := zero;
    }
  }

  /** The account-asset client: a handle on the shared transport, set once. */
  datatype Client = Client(c: Conn) {

    /** `asset/v1/<access>/<path>`: the prefix, the access segment, one slash
        and the endpoint suffix, in that order and nothing else. */
    function Url(access: string, path: string): (r: string)
      ensures |r| == |Prefix| + |access| + 1 + |path|
      ensures r[..|Prefix|] == Prefix
      ensures r[|Prefix|..|Prefix| + |access|] == access
      ensures r[|Prefix| + |access|] == '/'
      ensures r[|Prefix| + |access| + 1..] == path
    {
      Prefix + access + "/" + path
    }

    /** The path of a public endpoint: reads back as access `public` and suffix `path`. */
    function UrlPublic(path: string): (r: string)
      ensures SplitUrl(r) == Some(("public", path))
    {
      SplitUrlInvertsUrl(this, "public", path);
      Url("public", path)
    }

    /** The path of a private endpoint: reads back as access `private` and suffix `path`. */
    function UrlPrivate(path: string): (r: string)
      ensures SplitUrl(r) == Some(("private", path))
    {
      SplitUrlInvertsUrl(this, "private", path);
      Url("private", path)
    }

    /** Sends a GET for the private endpoint `path` and lets the transport
        fill `ret` in place; returns the transport's error. */
    method Get<P, T>(path: string, param: P, ret: Response<T>, send: Fill<P, T>) returns (err: Option<Fault>)
      modifies ret
      ensures var filled := send(c, Request(GET, UrlPrivate(path), param), old(ret.Result));
              ret.Result == filled.result && err == filled.err
    {
      var filled := send(c, Request(GET, UrlPrivate(path), param), ret.Result);
      ret.Result := filled.result;
      err := filled.err;
    }

    /** Sends a POST for the private endpoint `path` and lets the transport
        fill `ret` in place; returns the transport's error. */
    method Post<P, T>(path: string, param: P, ret: Response<T>, send: Fill<P, T>) returns (err: Option<Fault>)
      modifies ret
      ensures var filled := send(c, Request(POST, UrlPrivate(path), param), old(ret.Result));
              ret.Result == filled.result && err == filled.err
    {
      var filled := send(c, Request(POST, UrlPrivate(path), param), ret.Result);
      ret.Result := filled.result;
      err := filled.err;
    }
  }

  /** Generic GET: decodes into a fresh zero-valued envelope and reports
      success exactly when the transport returned no error. `zero` is the zero
      value of the payload type. */
  method Get<P, T>(c: Client, path: string, param: P, zero: T, send: Fill<P, T>) returns (result: T, ok: bool)
    ensures var filled := send(c.c, Request(GET, c.UrlPrivate(path), param), zero);
            result == filled.result && (ok <==> filled.err == None)
  {
    var resp := new Response<T>(zero);
    var err := c.Get(path, param, resp, send);
    result, ok := resp.Result, err == None;
  }

  /** Generic POST: decodes into a fresh zero-valued envelope and reports
      success exactly when the transport returned no error. */
  method Post<P, T>(c: Client, path: string, param: P, zero: T, send: Fill<P, T>) returns (result: T, ok: bool)
    ensures var filled := send(c.c, Request(POST, c.UrlPrivate(path), param), zero);
            result == filled.result && (ok <==> filled.err == None)
  {
    var resp := new Response<T>(zero);
    var err := c.Post(path, param, resp, send);
    result, ok := resp.Result, err == None;
  }

  // Reading a path back into its parts: the inverse of Client.Url.

  /** Position of the first `ch` in `s`, or `|s|` when there is none. */
  function IndexOf(s: string, ch: char): (i: nat)
    ensures i <= |s|
    ensures i < |s| ==> s[i] == ch
    ensures ch !in s[..i]
  {
    if s == [] then 0
    else if s[0] == ch then 0
    else
      var k := IndexOf(s[1..], ch);
      assert s[..k + 1] == [s[0]] + s[1..][..k];
      k + 1
  }

  /** Splits `asset/v1/<access>/<path>` at the first slash after the prefix;
      None for a path outside the account-asset prefix or without an access
      segment. */
  function SplitUrl(s: string): (r: Option<(string, string)>)
    ensures r.Some? ==> '/' !in r.value.0
  {
    if |s| < |Prefix| || s[..|Prefix|] != Prefix then None
    else
      var rest := s[|Prefix|..];
      var k := IndexOf(rest, '/');
      if k == |rest| then None else Some((rest[..k], rest[k + 1..]))
  }

  /** The first slash of `access + "/" + path` is the one after `access`. */
  lemma {:induction false} IndexOfAfterAccess(access: string, path: string)
    requires '/' !in access
    ensures IndexOf(access + "/" + path, '/') == |access|
  {
    if access != [] {
      assert (access + "/" + path)[1..] == access[1..] + "/" + path;
      IndexOfAfterAccess(access[1..], path);
    }
  }

  /** Splitting a composed path recovers its access segment and its suffix. */
  lemma SplitUrlInvertsUrl(c: Client, access: string, path: string)
    requires '/' !in access
    ensures SplitUrl(c.Url(access, path)) == Some((access, path))
  {
    var s := c.Url(access, path);
    var rest := s[|Prefix|..];
    assert rest == access + "/" + path;
    IndexOfAfterAccess(access, path);
    assert rest[..|access|] == access;
    assert rest[|access| + 1..] == path;
  }

  /** Every path that splits is the composition of its parts. */
  lemma UrlInvertsSplitUrl(c: Client, s: string)
    requires SplitUrl(s).Some?
    ensures c.Url(SplitUrl(s).value.0, SplitUrl(s).value.1) == s
  {
    var rest := s[|Prefix|..];
    var k := IndexOf(rest, '/');
    assert s == Prefix + rest;
    assert rest == rest[..k] + "/" + rest[k + 1..];
  }

  /** Distinct pairs of slash-free access segment and suffix give distinct
      paths. */
  lemma UrlInjective(c: Client, access1: string, path1: string, access2: string, path2: string)
    requires '/' !in access1 && '/' !in access2
    requires c.Url(access1, path1) == c.Url(access2, path2)
    ensures access1 == access2 && path1 == path2
  {
    SplitUrlInvertsUrl(c, access1, path1);
    SplitUrlInvertsUrl(c, access2, path2);
  }

  /** For one access segment, whatever it holds, distinct suffixes give
      distinct paths. */
  lemma UrlSuffixInjective(c: Client, access: string, path1: string, path2: string)
    requires c.Url(access, path1) == c.Url(access, path2)
    ensures path1 == path2
  {
    var n := |Prefix| + |access| + 1;
    assert path1 == c.Url(access, path1)[n..];
    assert path2 == c.Url(access, path2)[n..];
  }

  /** For the same suffix the public and the private paths differ. */
  lemma PublicPrivateDiffer(c: Client, path: string)
    ensures c.UrlPublic(path) != c.UrlPrivate(path)
  {
    var pub, priv := c.UrlPublic(path), c.UrlPrivate(path);
    assert pub[|Prefix| + 1] == 'u' && priv[|Prefix| + 1] == 'r';
  }

  /** No private path, whatever its suffix, is a public path: every transport
      call made by Client.Get and Client.Post is outside the public namespace. */
  lemma PrivateNeverPublic(c: Client, path: string, other: string)
    ensures c.UrlPrivate(path) != c.UrlPublic(other)
  {
    if c.UrlPrivate(path) == c.UrlPublic(other) {
      UrlInjective(c, "private", path, "public", other);
    }
  }
}
