/** The cookie-backed sessions the storefront reads and writes (gorilla/sessions
    behind echo-contrib/session), reduced to what its code observes: an untyped
    key-to-value map, the flash queue, the cookie options, whether loading and
    saving succeeded, and what the browser sends back on the next request.
    Cookie encoding, signing and encryption are not part of this model. */
module Sessions {
  import opened Wrappers
  import opened Contexts

  /** The dynamic type of a value found in sess.Values (interface{} in Go).
      Go strings and []byte are both byte strings, kept here as `string`;
      float64 values are finite reals. */
  datatype SessionValue =
    | IntValue(i: int)
    | Int64Value(i: int)
    | Float64Value(f: real)
    | StringValue(s: string)
    | BytesValue(bytes: string)
    | BoolValue(b: bool)
    | FlashValue(flash: FlashMessage)
    | OtherValue

  type Values = map<string, SessionValue>

  /** `v, _ := sess.Values[key].(bool)`: true only for a stored boolean true;
      a missing key or a value of another type reads as false. */
  function BoolAt(values: Values, key: string): (b: bool)
    ensures b <==> key in values && values[key] == BoolValue(true)
  {
    key in values && values[key].BoolValue? && values[key].b
  }

  /** `v, _ := sess.Values[key].(string)`: the string, or "" for a missing key or
      any other type (a []byte included). */
  function StringAt(values: Values, key: string): (s: string)
    ensures key in values && values[key].StringValue? ==> s == values[key].s
    ensures key !in values || !values[key].StringValue? ==> s == ""
  {
    if key in values && values[key].StringValue? then values[key].s else ""
  }

  /** The outcome of session.Get: the error text, or the loaded values. */
  datatype SessionLoad = LoadFailed(reason: string) | Loaded(values: Values)

  /** sessions.Options, the fields the storefront sets. */
  datatype Options = Options(path: string, maxAge: int, httpOnly: bool, secure: bool)

  /** What a successful Save writes into the response's Set-Cookie: the session's
      contents and the cookie attributes (Path, Max-Age, HttpOnly, Secure). */
  datatype Cookie = Cookie(values: Values, flashes: seq<SessionValue>, options: Options)

  /** One loaded *sessions.Session. The flash queue lives in the library under a
      reserved key of Values; it is a field of its own here. */
  class Session {
    var values: Values
    var flashes: seq<SessionValue>
    var options: Options
    /** The cookie the last successful Save wrote during this request, if any. */
    var saved: Option<Cookie>

    constructor (values: Values, flashes: seq<SessionValue>, options: Options)
      ensures this.values == values && this.flashes == flashes && this.options == options
      ensures saved == None
    {
      this.values := values;
      this.flashes := flashes;
      this.options := options;
      saved := None;
    }

    /** sess.Save(req, resp), whose outcome (nil or an error) is given: on success the
        current values, queue and options become the cookie; on failure nothing is written. */
    method Save(outcome: Option<string>) returns (err: Option<string>)
      modifies this`saved
      ensures err == outcome
      ensures saved == if outcome.None? then Some(Cookie(values, flashes, options)) else old(saved)
    {
      err := outcome;
      if outcome.None? {
        saved := Some(Cookie(values, flashes, options));
      }
    }

    /** sess.Flashes(key): hands back the queued entries in order and empties the queue. */
    method Flashes() returns (queued: seq<SessionValue>)
      modifies this`flashes
      ensures queued == old(flashes) && flashes == []
    {
      queued := flashes;
      flashes := [];
    }
  }

  /** What session.Get sees on the browser's next request once a cookie was written.
      A negative Max-Age makes the browser drop the cookie (section 5.2.2 of RFC 6265),
      and a Secure cookie is not sent on a request that is not over TLS (section 5.4
      of RFC 6265); in both cases the store starts a new, empty session. Otherwise
      the values come back. `overTls` says whether the next request is sent over TLS. */
  function NextRequestLoad(cookie: Cookie, overTls: bool): (load: SessionLoad)
    ensures load.Loaded?
    ensures cookie.options.maxAge < 0 ==> load.values == map[]
    ensures cookie.options.secure && !overTls ==> load.values == map[]
    ensures cookie.options.maxAge >= 0 && (overTls || !cookie.options.secure) ==> load.values == cookie.values
  {
    if cookie.options.maxAge < 0 then Loaded(map[])
    else if cookie.options.secure && !overTls then Loaded(map[])
    else Loaded(cookie.values)
  }
}
