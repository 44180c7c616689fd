/** The JSON responses of the API routes and the chain of request guards
  * that every route runs before touching the database. */
module Http {
  import opened Wrappers
  import Text

  /** `{success: true}`, `{error: message}`, `{error: {}}` (a caught Error
    * object sent whole: its `message` is not enumerable, so
    * `JSON.stringify` drops it), a data payload, or an exception the
    * handler did not catch (Next.js answers those with 500). */
  datatype Body<T> = Success | Error(message: string) | ErrorObject | Data(value: T) | Unhandled(message: string)

  datatype Response<T> = Response(status: int, body: Body<T>)

  /** The answer to a request without a session token. */
  function Unauthorized<T>(): (r: Response<T>)
    ensures r.status == 401
  {
    Response(401, Error("Please login to access this service"))
  }

  /** The answer to a GET on a POST-only route, or a POST on a GET-only one. */
  function NotSupported<T>(verb: string): (r: Response<T>)
    ensures r.status == 405
  {
    Response(405, Error(verb + " Method not supported"))
  }

  /** A thrown SyntaxError from `JSON.parse('undefined')`. */
  function ParseCrash<T>(): (r: Response<T>)
    ensures r.status == 500 && r.body.Unhandled?
  {
    Response(500, Unhandled("\"undefined\" is not valid JSON"))
  }

  /** One `if (!condition) return 400` guard of a route. */
  datatype Check = Check(passes: bool, message: string)

  /** The message of the first guard that fails, in the order written. */
  function FirstFailure(checks: seq<Check>): (r: Option<string>)
    ensures r.None? <==> forall i :: 0 <= i < |checks| ==> checks[i].passes
    ensures r.Some? ==> exists i :: 0 <= i < |checks| && !checks[i].passes && checks[i].message == r.value
                                    && forall j :: 0 <= j < i ==> checks[j].passes
  {
    if |checks| == 0 then None
    else if !checks[0].passes then Some(checks[0].message)
    else
      var rest := FirstFailure(checks[1..]);
      assert forall i :: 1 <= i < |checks| ==> checks[i] == checks[1..][i - 1];
      rest
  }

  /** Guards that all pass in front of a chain leave its first failure as it was. */
  lemma {:induction false} FirstFailureOrder(front: seq<Check>, back: seq<Check>)
    requires forall i :: 0 <= i < |front| ==> front[i].passes
    ensures FirstFailure(front + back) == FirstFailure(back)
  {
    if |front| > 0 {
      assert (front + back)[1..] == front[1..] + back;
      FirstFailureOrder(front[1..], back);
    } else {
      assert front + back == back;
    }
  }

  /** The 400 answer of a guard chain, if any guard fails. */
  function Guard<T>(checks: seq<Check>): (r: Option<Response<T>>)
    ensures r.None? <==> forall i :: 0 <= i < |checks| ==> checks[i].passes
    ensures r.Some? ==> r.value.status == 400 && r.value.body == Error(FirstFailure(checks).value)
  {
    match FirstFailure(checks)
    case None => None
    case Some(m) => Some(Response(400, Error(m)))
  }

  /** A file sent in a multipart form: its name and MIME type (the bytes are not modelled). */
  datatype Upload = Upload(name: string, mimeType: string)

  /** A form entry left after the named fields are deleted. */
  datatype Entry = TextEntry(value: string) | FileEntry(file: Upload)

  /** The loop that keeps the entries whose MIME type includes "image". */
  function ImageFiles(entries: seq<Entry>): (files: seq<Upload>)
    ensures |files| <= |entries|
    ensures forall i :: 0 <= i < |files| ==> FileEntry(files[i]) in entries && Text.Contains(files[i].mimeType, "image")
    ensures forall i :: 0 <= i < |entries| && entries[i].FileEntry? && Text.Contains(entries[i].file.mimeType, "image")
              ==> entries[i].file in files
  {
    if |entries| == 0 then []
    else
      var rest := ImageFiles(entries[1..]);
      assert forall i :: 1 <= i < |entries| ==> entries[i] == entries[1..][i - 1];
      if entries[0].FileEntry? && Text.Contains(entries[0].file.mimeType, "image") then [entries[0].file] + rest
      else rest
  }

  /** A `catch` block that answers 409 for the one message a route throws
    * itself (its "already exists") and 503 for every other error. */
  function Caught<T>(message: string, duplicate: string): (r: Response<T>)
    ensures r.body == Error(message)
    ensures r.status == (if message == duplicate then 409 else 503)
  {
    if message == duplicate then Response(409, Error(message)) else Response(503, Error(message))
  }

  /** A form field that the route reads with `JSON.parse`: the page sends the
    * text 'undefined' when the value it stringifies is undefined. */
  datatype Json<T> = UndefinedText | Json(value: T)

  /** JavaScript truthiness of an optional string: present and non-empty. */
  predicate Truthy(s: Option<string>)
  {
    s.Some? && s.value != ""
  }

  /** JavaScript truthiness of an optional number: present and non-zero. */
  predicate TruthyNumber(n: Option<int>)
  {
    n.Some? && n.value != 0
  }
}
