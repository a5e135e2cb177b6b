/** The few JavaScript runtime notions both handlers rely on: error values,
    reading a request header, and truthiness of a header value. */
module Runtime {
  import opened Wrappers

  /** A thrown or rejected JavaScript error, reduced to its `name` and `message`. */
  datatype Error = Error(name: string, message: string)

  /** `headers[name]`: the header value, or `undefined` when the key is absent. */
  function Header(headers: map<string, string>, name: string): (v: Option<string>)
    ensures v.Some? <==> name in headers
    ensures v.Some? ==> headers[name] == v.value
  {
    if name in headers then Some(headers[name]) else None
  }

  /** JavaScript truthiness of a header value: `undefined` and `""` are falsy. */
  predicate Truthy(v: Option<string>)
  {
    v.Some? && v.value != ""
  }
}
