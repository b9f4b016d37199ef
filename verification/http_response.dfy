/**
 * The admin server's response envelope `AdminServerResponse<T>`: a `{code, data}`
 * record where code 0 means success and code 100 means failure. Every reply,
 * success or failure, travels with HTTP status 200.
 */
module HttpResponse {

  /** Rust's `u64`, the type of the envelope's code. */
  newtype u64 = x: int | 0 <= x < 0x1_0000_0000_0000_0000

  const SuccessCode: u64 := 0
  const ErrorCode: u64 := 100
  /** The HTTP status `into_response` always uses (`StatusCode::OK`). */
  const HttpOk: nat := 200

  datatype AdminServerResponse<T> = AdminServerResponse(code: u64, data: T)
  {
    /** `code()`: the stored code; with the stored data it rebuilds the envelope. */
    function Code(): (c: u64)
      ensures AdminServerResponse(c, data) == this
    {
      code
    }

    /** `data()`: the stored payload; with the stored code it rebuilds the envelope. */
    function Data(): (d: T)
      ensures AdminServerResponse(code, d) == this
    {
      data
    }

    /** `is_ok()`: success is exactly code 0. */
    predicate IsOk()
      ensures IsOk() <==> Code() == 0
    {
      code == SuccessCode
    }
  }

  /** `new(code, data)`. */
  function New<T>(code: u64, data: T): (r: AdminServerResponse<T>)
    ensures r.Code() == code && r.Data() == data
  {
    AdminServerResponse(code, data)
  }

  /** `ok(data)`: a success envelope around `data`. */
  function Ok<T>(data: T): (r: AdminServerResponse<T>)
    ensures r.IsOk() && r.Code() == SuccessCode && r.Data() == data
  {
    New(SuccessCode, data)
  }

  /** `err(data)`: a failure envelope around `data`. */
  function Err<T>(data: T): (r: AdminServerResponse<T>)
    ensures !r.IsOk() && r.Code() == ErrorCode && r.Data() == data
  {
    New(ErrorCode, data)
  }

  /** `success()`: the payload-less success reply of the mutation endpoints. */
  function Success(): (r: AdminServerResponse<string>)
    ensures r.IsOk() && r.Code() == SuccessCode && r.Data() == "success"
  {
    New(SuccessCode, "success")
  }

  /** What `into_response` hands to the HTTP layer: a status and the JSON body. */
  datatype HttpReply<T> = HttpReply(status: nat, body: AdminServerResponse<T>)

  /** `into_response`: the status never depends on the envelope's code. */
  function IntoResponse<T>(resp: AdminServerResponse<T>): (r: HttpReply<T>)
    ensures r.status == HttpOk && r.body == resp
  {
    HttpReply(HttpOk, resp)
  }

  /** `code()` and `data()` give back exactly what `new` stored. */
  lemma NewRoundTrip<T>(code: u64, data: T, resp: AdminServerResponse<T>)
    ensures New(resp.Code(), resp.Data()) == resp
    ensures New(code, data).Code() == code && New(code, data).Data() == data
  {
  }

  /**
   * `ok`, `err` and `success` only produce codes 0 and 100, and the two success
   * constructors are told apart from `err` by `is_ok` alone.
   */
  lemma ConstructorCodes<T>(d: T)
    ensures Ok(d).Code() in {SuccessCode, ErrorCode} && Err(d).Code() in {SuccessCode, ErrorCode}
    ensures Success().Code() in {SuccessCode, ErrorCode}
    ensures Ok(d).IsOk() && Success().IsOk() && !Err(d).IsOk()
    ensures Ok(d) != Err(d)
  {
  }
}
