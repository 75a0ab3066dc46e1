/** Small value types shared by the backend and frontend models. */
module Base {

  /** A value that may be absent (TypeScript `T | null`, Go's empty-string convention aside). */
  datatype Option<+T> = None | Some(value: T) {
    predicate IsFailure() { None? }

    function PropagateFailure<U>(): Option<U>
      requires None?
    {
      None
    }

    function Extract(): T
      requires Some?
    {
      value
    }
  }

  /** The settled state of a promise or a Go call that returns an error. */
  datatype Result<+T, +E> = Ok(value: T) | Err(error: E)

  /** Completion of a call that yields nothing on success. */
  datatype Outcome<+E> = Pass | Fail(error: E)

  /** A thrown JavaScript value as the frontend inspects it: `e?.code` and `e?.message`.
      A non-string `code`, or a thrown `null`/`undefined`, reads as `None`. */
  datatype JsError = JsError(code: Option<string>, message: Option<string>)

  /** Look up a key the way `localStorage.getItem` and `os.Getenv` do: absent keys give nothing. */
  function Get<K, V>(m: map<K, V>, k: K): (r: Option<V>)
    ensures r.Some? <==> k in m
    ensures r.Some? ==> r.value == m[k]
  {
    if k in m then Some(m[k]) else None
  }
}
