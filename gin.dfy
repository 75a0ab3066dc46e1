/** The slice of gin's request context that the two authentication middlewares use:
    the request headers, the per-request key/value store written by `c.Set`, the
    response written by `c.AbortWithStatusJSON`, and whether `c.Next` handed the
    request on to the protected handler. */
module Gin {
  import opened Base

  const StatusOK := 200
  const StatusUnauthorized := 401

  class Context {
    /** Request header values, keyed by canonical header name. */
    const headers: map<string, string>
    /** Values stored with `c.Set` (every value the middlewares store is a string). */
    var keys: map<string, string>
    /** Response status; gin's writer starts at 200. */
    var status: int
    /** The `"error"` member of the JSON body written by `AbortWithStatusJSON`, if any. */
    var errorBody: Option<string>
    var aborted: bool
    var nextCalled: bool
    /** The keys the protected handler sees when `c.Next` runs it, if it has run. */
    var handlerKeys: Option<map<string, string>>

    constructor (headers: map<string, string>)
      ensures this.headers == headers && keys == map[] && status == StatusOK
      ensures errorBody == None && !aborted && !nextCalled && handlerKeys == None
    {
      this.headers := headers;
      keys := map[];
      status := StatusOK;
      errorBody := None;
      aborted := false;
      nextCalled := false;
      handlerKeys := None;
    }

    /** `c.GetHeader(name)`: the header's value, or "" when the request has none. */
    function GetHeader(name: string): (v: string)
      ensures name in headers ==> v == headers[name]
      ensures name !in headers ==> v == ""
    {
      if name in headers then headers[name] else ""
    }

    /** `c.Set(key, value)`. */
    method Set(key: string, value: string)
      modifies this`keys
      ensures keys == old(keys)[key := value]
    {
      keys := keys[key := value];
    }

    /** `c.AbortWithStatusJSON(code, gin.H{"error": message})`: writes the response and
        stops the handler chain. */
    method AbortWithStatusJSON(code: int, message: string)
      modifies this`status, this`errorBody, this`aborted
      ensures status == code && errorBody == Some(message) && aborted
    {
      status := code;
      errorBody := Some(message);
      aborted := true;
    }

    /** `c.Next()`: runs the rest of the chain, handing the protected handler the keys stored
        so far; what the handler then does is not modelled. */
    method Next()
      modifies this`nextCalled, this`handlerKeys
      ensures nextCalled && handlerKeys == Some(keys)
    {
      nextCalled := true;
      handlerKeys := Some(keys);
    }
  }
}
