/**
 * The retry wrapper around system calls (`syscall` in src/shell.rs).
 *
 * The wrapped call is modelled by the sequence of results its successive
 * invocations return: `calls[i]` is what the (i+1)-th invocation yields.
 */
module Syscall {
  import opened Wrappers

  /** The errno values the model distinguishes: EINTR and everything else. */
  datatype Errno = EINTR | Other(code: nat)

  predicate Interrupted<T>(r: Result<T, Errno>) {
    r.Err? && r.error.EINTR?
  }

  /**
   * What the retry loop returns after the given invocations: the first result
   * that is not EINTR, or None when every given invocation was interrupted
   * (the source would then still be retrying).
   */
  function Retry<T>(calls: seq<Result<T, Errno>>): (r: Option<Result<T, Errno>>)
    ensures r.Some? ==> !Interrupted(r.value)
    ensures r.None? <==> forall i :: 0 <= i < |calls| ==> Interrupted(calls[i])
  {
    if calls == [] then None
    else if Interrupted(calls[0]) then Retry(calls[1..])
    else Some(calls[0])
  }

  /** Interrupted invocations before the real one make no difference to the outcome. */
  lemma {:induction false} RetryTransparent<T>(interrupted: seq<Result<T, Errno>>, calls: seq<Result<T, Errno>>)
    requires forall i :: 0 <= i < |interrupted| ==> Interrupted(interrupted[i])
    ensures Retry(interrupted + calls) == Retry(calls)
  {
    if interrupted == [] {
      assert interrupted + calls == calls;
    } else {
      assert (interrupted + calls)[0] == interrupted[0];
      assert (interrupted + calls)[1..] == interrupted[1..] + calls;
      RetryTransparent(interrupted[1..], calls);
    }
  }

  /**
   * The loop of `syscall`: invoke the call until it returns something other
   * than EINTR. `attempts` is the number of invocations made.
   */
  method Call<T>(calls: seq<Result<T, Errno>>) returns (r: Option<Result<T, Errno>>, attempts: nat)
    ensures r == Retry(calls)
    ensures attempts <= |calls|
    ensures forall i :: 0 <= i < attempts && (r.None? || i < attempts - 1) ==> Interrupted(calls[i])
    ensures r.Some? ==> 0 < attempts && r.value == calls[attempts - 1]
    ensures r.None? ==> attempts == |calls|
  {
    var i := 0;
    while i < |calls| && Interrupted(calls[i])
      invariant i <= |calls|
      invariant forall j :: 0 <= j < i ==> Interrupted(calls[j])
      invariant Retry(calls[i..]) == Retry(calls)
    {
      assert calls[i..][1..] == calls[i + 1..];
      i := i + 1;
    }
    if i < |calls| {
      r, attempts := Some(calls[i]), i + 1;
    } else {
      r, attempts := None, i;
    }
  }
}
