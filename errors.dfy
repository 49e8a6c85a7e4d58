/**
 * Go error values as the core produces and inspects them, with the
 * classification of Go's `os` package (os.IsExist, os.IsNotExist) and the
 * unwrapping of its three error wrappers.
 */
module Errors {
  import opened Wrappers
  import opened Strings

  /** The kernel error numbers the model tells apart (syscall.Errno). */
  datatype Errno = EEXIST | ENOTEMPTY | ENOENT | ESRCH | EPERM | OtherErrno(code: nat)

  datatype Error =
    | Sys(errno: Errno)                                        // a bare syscall.Errno, as netlink returns it
    | PathError(op: string, path: string, err: Error)          // *os.PathError
    | LinkError(op: string, oldName: string, newName: string, err: Error)  // *os.LinkError
    | SyscallError(syscall: string, err: Error)                // *os.SyscallError
    | ExitError(status: int)                                   // *exec.ExitError, with WaitStatus.ExitStatus()
    | NotFoundStatus(message: string)                          // a Kubernetes API error whose reason is NotFound
    | Wrapped(context: string, cause: Error)                   // fmt.Errorf("<context>: %v", cause)
    | Other(message: string)                                   // any other error value

  function ErrnoText(e: Errno): string
  {
    match e
    case EEXIST => "file exists"
    case ENOTEMPTY => "directory not empty"
    case ENOENT => "no such file or directory"
    case ESRCH => "no such process"
    case EPERM => "operation not permitted"
    case OtherErrno(code) => "errno " + NatToString(code)
  }

  /** err.Error(): the message of an error value. */
  function Text(e: Error): string
  {
    match e
    case Sys(errno) => ErrnoText(errno)
    case PathError(op, path, err) => op + " " + path + ": " + Text(err)
    case LinkError(op, oldName, newName, err) => op + " " + oldName + " " + newName + ": " + Text(err)
    case SyscallError(syscall, err) => syscall + ": " + Text(err)
    case ExitError(status) => "exit status " + IntToString(status)
    case NotFoundStatus(message) => message
    case Wrapped(context, cause) => context + ": " + Text(cause)
    case Other(message) => message
  }

  /**
   * underlyingError: the error inside an os.PathError, os.LinkError or
   * os.SyscallError, and any other error itself. Only one layer is removed.
   */
  function UnderlyingError(e: Error): (r: Error)
    ensures e.PathError? || e.LinkError? || e.SyscallError? ==> r == e.err
    ensures !(e.PathError? || e.LinkError? || e.SyscallError?) ==> r == e
  {
    match e
    case PathError(_, _, err) => err
    case LinkError(_, _, _, err) => err
    case SyscallError(_, err) => err
    case _ => e
  }

  /** os.IsExist: EEXIST or ENOTEMPTY, directly or inside one os wrapper. */
  predicate IsExist(e: Error)
  {
    var u := UnderlyingError(e);
    u == Sys(EEXIST) || u == Sys(ENOTEMPTY)
  }

  /** os.IsNotExist: ENOENT, directly or inside one os wrapper. */
  predicate IsNotExist(e: Error)
  {
    UnderlyingError(e) == Sys(ENOENT)
  }

  /** fmt.Errorf hides the errno from os.IsExist / os.IsNotExist: a wrapped error is neither. */
  lemma WrappedIsOpaque(context: string, cause: Error)
    ensures !IsExist(Wrapped(context, cause)) && !IsNotExist(Wrapped(context, cause))
  {
  }

  /** What a Go call that returns only an `error` ends with: nil, an error, or a run-time panic. */
  datatype Status = Ok | Fail(error: Error) | Panic(reason: string)

  /** The error a Go `error` result carries, as an Option. */
  function StatusOf(err: Option<Error>): (s: Status)
    ensures s.Ok? <==> err.None?
    ensures s.Fail? ==> err == Some(s.error)
  {
    match err
    case None => Ok
    case Some(e) => Fail(e)
  }
}
