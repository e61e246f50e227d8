/**
 * The parts of Go's net/http request that the service builds and edits:
 * the method, the URL (scheme, host, path and decoded query values), the
 * header map, the Host field and the server-side RequestURI.
 */
module Http {
  import opened Wrappers

  /** url.Values and http.Header: each key maps to its list of values. */
  type Values = map<string, seq<string>>

  datatype Url = Url(scheme: string, host: string, path: string, query: Values)

  datatype HttpRequest = HttpRequest(verb: string, url: Url, headers: Values, host: string, requestURI: string)

  /** http.NewRequest for the URL scheme://host+path with no query: Host is the URL's host, no headers. */
  function NewRequest(verb: string, scheme: string, host: string, path: string): (r: HttpRequest)
    ensures r.url == Url(scheme, host, path, map[]) && r.headers == map[] && r.host == host && r.requestURI == ""
  {
    HttpRequest(verb, Url(scheme, host, path, map[]), map[], host, "")
  }

  /** Values.Set and Header.Set: the key then holds exactly this value. */
  function Set(vs: Values, k: string, v: string): (r: Values)
    ensures k in r && r[k] == [v]
    ensures forall j :: j != k ==> (j in r <==> j in vs) && (j in vs ==> r[j] == vs[j])
  {
    vs[k := [v]]
  }

  /** Values.Add and Header.Add: the value is appended to the key's list. */
  function Add(vs: Values, k: string, v: string): (r: Values)
    ensures k in r && r[k] == (if k in vs then vs[k] else []) + [v]
    ensures forall j :: j != k ==> (j in r <==> j in vs) && (j in vs ==> r[j] == vs[j])
  {
    vs[k := (if k in vs then vs[k] else []) + [v]]
  }

  /** The key holds exactly the one value `v`, as after Values.Set or Header.Set. */
  predicate IsSet(vs: Values, k: string, v: string)
  {
    k in vs && vs[k] == [v]
  }

  /** The first value of a key, "" when it has none (Values.Get, Header.Get). */
  function Get(vs: Values, k: string): (v: string)
    ensures k in vs && |vs[k]| > 0 ==> v == vs[k][0]
    ensures !(k in vs && |vs[k]| > 0) ==> v == ""
  {
    if k in vs && |vs[k]| > 0 then vs[k][0] else ""
  }

  function SetHeader(r: HttpRequest, k: string, v: string): HttpRequest
  {
    r.(headers := Set(r.headers, k, v))
  }

  function AddHeader(r: HttpRequest, k: string, v: string): HttpRequest
  {
    r.(headers := Add(r.headers, k, v))
  }

  function SetQuery(r: HttpRequest, k: string, v: string): HttpRequest
  {
    r.(url := r.url.(query := Set(r.url.query, k, v)))
  }

  function AddQuery(r: HttpRequest, k: string, v: string): HttpRequest
  {
    r.(url := r.url.(query := Add(r.url.query, k, v)))
  }

  /**
   * Request.SetBasicAuth (section 2 of RFC 7617): Authorization becomes
   * "Basic " and the base64 encoding of user:password; `base64` is the encoder.
   */
  function SetBasicAuth(r: HttpRequest, user: string, password: string, base64: string -> string): (s: HttpRequest)
    ensures s.headers == Set(r.headers, "Authorization", "Basic " + base64(user + ":" + password))
    ensures s.url == r.url && s.verb == r.verb && s.host == r.host
  {
    SetHeader(r, "Authorization", "Basic " + base64(user + ":" + password))
  }

  /** A completed HTTP exchange: status code and body. */
  datatype Reply = Reply(status: int, body: string)
}
