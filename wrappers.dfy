/** Optional values (`None` stands for a JavaScript `undefined` or `null`)
  * and the outcome of an operation that can throw. */
module Wrappers {
  datatype Option<T> = None | Some(value: T)
  {
    function GetOr(default: T): T
    {
      if Some? then value else default
    }
  }

  datatype Result<T> = Ok(value: T) | Thrown(error: string)
}
