/** The clerk's retry loops. The network is a parameter: the sequence of results that the
    successive calls of one operation get. A loop that uses up the sequence is still
    retrying, which is the result `None`. */
module KvClerk {
  import opened Common
  import opened KvServer

  datatype CallResult<R> = NoReply | Reply(reply: R)

  /** What Put returns when attempt number `attempt`, counted from 0, is the first one to
      be answered, and is answered with `err`. */
  function PutResult(attempt: nat, err: Err): Err {
    if err == ErrVersion && attempt > 0 then ErrMaybe else err
  }

  /** Attempt `i` is the first that is answered. */
  predicate FirstAnswer<R>(results: seq<CallResult<R>>, i: nat) {
    && i < |results| && results[i].Reply?
    && forall j :: 0 <= j < i ==> results[j].NoReply?
  }

  method Get(results: seq<CallResult<GetReply>>) returns (r: Option<GetReply>)
    ensures forall i: nat :: FirstAnswer(results, i) ==> r == Some(results[i].reply)
    ensures r.None? <==> forall j :: 0 <= j < |results| ==> results[j].NoReply?
  {
    var i := 0;
    while i < |results|
      invariant 0 <= i <= |results|
      invariant forall j :: 0 <= j < i ==> results[j].NoReply?
    {
      if results[i].Reply? {
        return Some(results[i].reply);
      }
      i := i + 1;
    }
    return None;
  }

  method Put(results: seq<CallResult<Err>>) returns (r: Option<Err>)
    ensures forall i: nat :: FirstAnswer(results, i) ==>
      r == Some(if results[i].reply == ErrVersion && i > 0 then ErrMaybe else results[i].reply)
    ensures forall i: nat :: FirstAnswer(results, i) ==> r == Some(PutResult(i, results[i].reply))
    ensures r.None? <==> forall j :: 0 <= j < |results| ==> results[j].NoReply?
  {
    var isFirstAttempt := true;
    var i := 0;
    while i < |results|
      invariant 0 <= i <= |results|
      invariant isFirstAttempt <==> i == 0
      invariant forall j :: 0 <= j < i ==> results[j].NoReply?
    {
      if results[i].Reply? {
        if results[i].reply == ErrVersion {
          if isFirstAttempt {
            return Some(ErrVersion);
          } else {
            return Some(ErrMaybe);
          }
        } else {
          return Some(results[i].reply);
        }
      } else {
        isFirstAttempt := false;
      }
      i := i + 1;
    }
    return None;
  }
}
