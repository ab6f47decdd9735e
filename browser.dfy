/**
 * What the frontend's state code needs of the browser: JavaScript truthiness
 * of possibly-missing strings and numbers, `localStorage`, a decoded JSON
 * object with the properties the auth code reads, HTTP responses and thrown
 * errors. `JSON.parse` is a parameter of the code that calls it.
 */
module Browser {
  import opened Wrappers
  import PM = ProfileMapper

  /** A string property is truthy when present and not empty. */
  predicate Truthy(s: Option<string>)
  {
    s.Some? && s.value != ""
  }

  /** A number property is truthy when present and not zero. */
  predicate TruthyNum(n: Option<int>)
  {
    n.Some? && n.value != 0
  }

  /** `a || b` on string properties: `a` when truthy, `b` otherwise. */
  function Or(a: Option<string>, b: Option<string>): (r: Option<string>)
    ensures Truthy(a) ==> r == a
    ensures !Truthy(a) ==> r == b
    ensures Truthy(r) <==> Truthy(a) || Truthy(b)
  {
    if Truthy(a) then a else b
  }

  /** `a || d` with a string default `d`. */
  function OrElse(a: Option<string>, d: string): (r: string)
    ensures Truthy(a) ==> r == a.value
    ensures !Truthy(a) ==> r == d
  {
    if Truthy(a) then a.value else d
  }

  /** `n || d` with a number default `d`. */
  function OrElseNum(n: Option<int>, d: int): (r: int)
    ensures TruthyNum(n) ==> r == n.value
    ensures !TruthyNum(n) ==> r == d
  {
    if TruthyNum(n) then n.value else d
  }

  /** A decoded JSON object; a property the object lacks is `None`. */
  datatype Payload = Payload(
    token: Option<string>, accessToken: Option<string>, refreshToken: Option<string>,
    expiresAt: Option<int>, profile: Option<PM.ProfileSummary>,
    message: Option<string>, error: Option<string>)

  const NoProperties := Payload(None, None, None, None, None, None, None)

  /** A fetched response: `ok`, status, status text and body text. */
  datatype HttpResponse = HttpResponse(ok: bool, status: nat, statusText: string, text: string)

  /** A thrown `Error`, with the `status` and `payload` some throw sites attach. */
  datatype JsError = JsError(message: string, status: Option<nat>, payload: Option<Payload>)

  /** Request options: method, headers (as an object of names to values) and body. */
  datatype RequestInit = RequestInit(verb: Option<string>, headers: map<string, string>, body: Option<string>)

  datatype FetchRequest = FetchRequest(url: string, init: RequestInit)

  /** The page's `localStorage`. */
  class LocalStorage {
    var items: map<string, string>

    constructor (initial: map<string, string>)
      ensures items == initial
    {
      items := initial;
    }

    function GetItem(key: string): (r: Option<string>)
      reads this
      ensures r.Some? <==> key in items
      ensures r.Some? ==> r.value == items[key]
    {
      if key in items then Some(items[key]) else None
    }

    method SetItem(key: string, value: string)
      modifies this
      ensures items == old(items)[key := value]
    {
      items := items[key := value];
    }

    method RemoveItem(key: string)
      modifies this
      ensures items == old(items) - {key}
    {
      items := items - {key};
    }
  }
}
