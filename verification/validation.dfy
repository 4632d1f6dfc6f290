/** The request validation each mutating profile route declares:
    `check(field, message).not().isEmpty()` for every required field,
    then `validationResult(req)`, whose error list answers 400 when it is
    not empty. */
module Validation {
  import opened Optional

  /** One declared check: the submitted value and the message reported when
      it is missing. */
  datatype Check = Check(value: Option<string>, message: string)

  /** `not().isEmpty()` on a string field: `undefined` reads as the empty
      string, so the check passes exactly for JavaScript-truthy strings. */
  predicate Passes(c: Check) {
    Truthy(c.value)
  }

  /** The messages of the failing checks, in declaration order
      (`errors.array()`). */
  function Failures(checks: seq<Check>): (errors: seq<string>)
    ensures |errors| <= |checks|
    ensures |errors| == 0 <==> forall i :: 0 <= i < |checks| ==> Passes(checks[i])
    ensures forall i :: 0 <= i < |checks| && !Passes(checks[i]) ==> checks[i].message in errors
    ensures forall m :: m in errors ==> exists i :: 0 <= i < |checks| && !Passes(checks[i]) && checks[i].message == m
  {
    if |checks| == 0 then []
    else
      var rest := Failures(checks[1..]);
      assert forall i :: 1 <= i < |checks| ==> checks[i] == checks[1..][i - 1];
      if Passes(checks[0]) then rest else [checks[0].message] + rest
  }

  /** The report for one declared check: its message when the field is
      missing, nothing when it is present. */
  function Missing(value: Option<string>, message: string): seq<string> {
    if Truthy(value) then [] else [message]
  }

  /** A message that no other check uses appears in a report exactly when
      its own field is missing. */
  lemma MissingNamesField(value: Option<string>, message: string, before: seq<string>, after: seq<string>)
    requires message !in before && message !in after
    ensures message in before + Missing(value, message) + after <==> !Truthy(value)
  {
  }

  /** A single check reports its message once when it fails and nothing
      otherwise. */
  lemma FailuresOne(c: Check)
    ensures Failures([c]) == Missing(c.value, c.message)
  {
    assert [c][1..] == [];
  }

  /** The error list of two check lists declared one after the other is the
      first list's errors followed by the second's: together with
      `FailuresOne` this fixes both the order of `errors.array()` and that
      each failing check is reported exactly once. */
  lemma {:induction false} FailuresAppend(a: seq<Check>, b: seq<Check>)
    ensures Failures(a + b) == Failures(a) + Failures(b)
    decreases |a|
  {
    if |a| == 0 {
      assert a + b == b;
    } else {
      assert (a + b)[0] == a[0];
      assert (a + b)[1..] == a[1..] + b;
      FailuresAppend(a[1..], b);
    }
  }
}
