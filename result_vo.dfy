/**
 * The response envelope every endpoint returns: a status code, a message,
 * an optional payload and a success flag, built by four static factories.
 */
module ResultVo {
  import opened Wrappers

  datatype ApiResult<T> = ApiResult(code: int, message: string, data: Option<T>, success: bool)

  const SUCCESS_CODE: int := 200
  const SERVER_ERROR_CODE: int := 500
  const SUCCESS_MESSAGE: string := "操作成功"

  /** A well-formed envelope: a success carries code 200, a failure carries
      no payload. */
  predicate WellFormed<T>(r: ApiResult<T>) {
    (r.success ==> r.code == SUCCESS_CODE) && (!r.success ==> r.data.None?)
  }

  /** Result.success(data). */
  function Success<T>(data: Option<T>): (r: ApiResult<T>)
    ensures WellFormed(r) && r.success
    ensures r.message == SUCCESS_MESSAGE && r.data == data
  {
    ApiResult(SUCCESS_CODE, SUCCESS_MESSAGE, data, true)
  }

  /** Result.success(message, data). */
  function SuccessWith<T>(message: string, data: Option<T>): (r: ApiResult<T>)
    ensures WellFormed(r) && r.success
    ensures r.message == message && r.data == data
  {
    ApiResult(SUCCESS_CODE, message, data, true)
  }

  /** Result.error(code, message). */
  function Error<T>(code: int, message: string): (r: ApiResult<T>)
    ensures WellFormed(r) && !r.success
    ensures r.code == code && r.message == message
  {
    ApiResult(code, message, None, false)
  }

  /** Result.error(message). */
  function ErrorMessage<T>(message: string): (r: ApiResult<T>)
    ensures WellFormed(r) && !r.success
    ensures r.code == SERVER_ERROR_CODE && r.message == message
  {
    Error(SERVER_ERROR_CODE, message)
  }

  /** success is decided by the factory, not by the code: error(200, m)
      is a failure although it carries the success code. */
  lemma SuccessFlagNotCode<T>(m: string)
    ensures Error<T>(SUCCESS_CODE, m).code == Success<T>(None).code
    ensures Error<T>(SUCCESS_CODE, m) != Success<T>(None)
  {
  }
}
