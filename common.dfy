/** Values shared by every part of the judge: optional values, the Python
    exceptions the judge raises, and the validation that its setters share. */
module Common {

  datatype Option<+T> = None | Some(value: T)

  /** A Python exception, with the message the source gives it. */
  datatype Error =
    | ValueError(message: string)
    | TypeError(message: string)
    | IndexError(message: string)
    | FileNotFoundError(path: string)
    | DecodeError(detail: string)
    | GuardError(message: string)   // a bare `raise Exception(...)`

  /** A call that either returns a value or raises an exception. */
  datatype Outcome<+T> = Ok(value: T) | Raised(error: Error)

  /** The check every judge makes before storing a time or memory limit:
      None is refused first, then a value that is not above zero. */
  function CheckLimit(name: string, v: Option<real>): (err: Option<Error>)
    ensures err == None <==> (v.Some? && v.value > 0.0)
    ensures v == None ==> err == Some(ValueError(name + " cannot be None"))
    ensures v.Some? && v.value <= 0.0 ==> err == Some(ValueError(name + " must be over 0"))
  {
    if v.None? then Some(ValueError(name + " cannot be None"))
    else if v.value <= 0.0 then Some(ValueError(name + " must be over 0"))
    else None
  }

  /** The check `load_code`, `load_checker` and the generator's path setter
      make: only None is refused. */
  function CheckPresent<T>(name: string, v: Option<T>): (err: Option<Error>)
    ensures err == None <==> v.Some?
    ensures v == None ==> err == Some(ValueError(name + " cannot be None"))
  {
    if v.None? then Some(ValueError(name + " cannot be None")) else None
  }

  function Min(a: int, b: int): (m: int)
    ensures m <= a && m <= b && (m == a || m == b)
  {
    if a <= b then a else b
  }
}
