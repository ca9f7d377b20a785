/** The form pages validate with a chain of `if (...) { setError(msg); return; }`: the first failing check wins. */
module Validation {

  import opened Common

  /** One link of a validation chain: whether the check passes, and the message shown when it does not. */
  datatype Check = Check(passes: bool, message: string)

  /** The position of the first failing check, or the length of the chain when every check passes. */
  function FirstFailingIndex(checks: seq<Check>): (k: nat)
    ensures k <= |checks|
    ensures forall i :: 0 <= i < k ==> checks[i].passes
    ensures k < |checks| ==> !checks[k].passes
  {
    if checks == [] || !checks[0].passes then 0 else 1 + FirstFailingIndex(checks[1..])
  }

  /** The message the chain shows: none when every check passes, else that of the first failing check. */
  function FirstFailure(checks: seq<Check>): (r: Option<string>)
    ensures r == None <==> forall i :: 0 <= i < |checks| ==> checks[i].passes
    ensures r.Some? ==> exists k :: 0 <= k < |checks| && !checks[k].passes && checks[k].message == r.value
                                      && forall i :: 0 <= i < k ==> checks[i].passes
  {
    var k := FirstFailingIndex(checks);
    if k < |checks| then Some(checks[k].message) else None
  }

  /** The chain reads from the front: a failing head decides, a passing head defers to the rest. */
  lemma FirstFailureStep(checks: seq<Check>)
    requires checks != []
    ensures FirstFailure(checks) == if checks[0].passes then FirstFailure(checks[1..]) else Some(checks[0].message)
  {
  }
}
