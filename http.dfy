/** What a page receives back from one request: the JSON envelope
    `{ success, message?, ...payload }`, or an exception (a network failure,
    or a TypeError raised before the request could be sent). */
module Http {
  import opened Js

  datatype Response<T> = Response(success: bool, message: Option<string>, payload: T)

  datatype Reply<T> = Threw | Replied(response: Response<T>)

  predicate Succeeded<T>(r: Reply<T>) {
    r.Replied? && r.response.success
  }
}
