/** Chains of checks that fail with the code of the first check that fails. */
module Checks {
  import opened Common

  /** One check: the code it fails with and whether it fails. */
  datatype Check<E> = Check(code: E, fails: bool)

  /** The code of the first check that fails. */
  function FirstCode<E>(checks: seq<Check<E>>): Option<E> {
    if checks == [] then None
    else if checks[0].fails then Some(checks[0].code)
    else FirstCode(checks[1..])
  }

  ghost predicate FirstFails<E>(checks: seq<Check<E>>, i: nat) {
    i < |checks| && checks[i].fails && forall j :: 0 <= j < i ==> !checks[j].fails
  }

  ghost predicate SomeFails<E>(checks: seq<Check<E>>) {
    exists i :: 0 <= i < |checks| && checks[i].fails
  }

  lemma {:induction false} FirstCodeIsFirst<E>(checks: seq<Check<E>>)
    ensures FirstCode(checks).Some? <==> SomeFails(checks)
    ensures forall i: nat :: FirstFails(checks, i) ==> FirstCode(checks) == Some(checks[i].code)
  {
    if checks != [] && !checks[0].fails {
      var rest := checks[1..];
      FirstCodeIsFirst(rest);
      assert forall k :: 0 < k < |checks| ==> checks[k] == rest[k - 1];
      forall i: nat | FirstFails(checks, i) ensures FirstCode(checks) == Some(checks[i].code) {
        assert FirstFails(rest, i - 1);
      }
    }
  }

  lemma {:induction false} FirstCodeJoins<E>(p: seq<Check<E>>, q: seq<Check<E>>)
    ensures FirstCode(p + q) == if FirstCode(p).Some? then FirstCode(p) else FirstCode(q)
  {
    if p == [] {
      assert p + q == q;
    } else {
      FirstCodeJoins(p[1..], q);
      assert (p + q)[1..] == p[1..] + q;
    }
  }

  lemma {:induction false} FirstOfTwo<E>(checks: seq<Check<E>>)
    requires |checks| == 2
    ensures FirstCode(checks)
      == if checks[0].fails then Some(checks[0].code) else if checks[1].fails then Some(checks[1].code) else None
  {
    assert FirstCode(checks[1..]) == if checks[1].fails then Some(checks[1].code) else FirstCode(checks[1..][1..]);
  }

  lemma {:induction false} FirstOfFour<E>(checks: seq<Check<E>>)
    requires |checks| == 4
    ensures FirstCode(checks)
      == if checks[0].fails then Some(checks[0].code) else if checks[1].fails then Some(checks[1].code)
         else if checks[2].fails then Some(checks[2].code) else if checks[3].fails then Some(checks[3].code) else None
  {
    FirstOfTwo(checks[..2]);
    FirstOfTwo(checks[2..]);
    FirstCodeJoins(checks[..2], checks[2..]);
    assert checks == checks[..2] + checks[2..];
  }

  lemma {:induction false} FirstOfFive<E>(checks: seq<Check<E>>)
    requires |checks| == 5
    ensures FirstCode(checks)
      == if checks[0].fails then Some(checks[0].code) else if checks[1].fails then Some(checks[1].code)
         else if checks[2].fails then Some(checks[2].code) else if checks[3].fails then Some(checks[3].code)
         else if checks[4].fails then Some(checks[4].code) else None
  {
    FirstOfFour(checks[1..]);
  }

  lemma {:induction false} FirstOfSeven<E>(checks: seq<Check<E>>)
    requires |checks| == 7
    ensures FirstCode(checks)
      == if checks[0].fails then Some(checks[0].code) else if checks[1].fails then Some(checks[1].code)
         else if checks[2].fails then Some(checks[2].code) else if checks[3].fails then Some(checks[3].code)
         else if checks[4].fails then Some(checks[4].code) else if checks[5].fails then Some(checks[5].code)
         else if checks[6].fails then Some(checks[6].code) else None
  {
    FirstOfFive(checks[2..]);
    FirstOfTwo(checks[..2]);
    FirstCodeJoins(checks[..2], checks[2..]);
    assert checks == checks[..2] + checks[2..];
  }

  lemma {:induction false} FirstOfEight<E>(checks: seq<Check<E>>)
    requires |checks| == 8
    ensures FirstCode(checks)
      == if checks[0].fails then Some(checks[0].code) else if checks[1].fails then Some(checks[1].code)
         else if checks[2].fails then Some(checks[2].code) else if checks[3].fails then Some(checks[3].code)
         else if checks[4].fails then Some(checks[4].code) else if checks[5].fails then Some(checks[5].code)
         else if checks[6].fails then Some(checks[6].code) else if checks[7].fails then Some(checks[7].code) else None
  {
    FirstOfSeven(checks[1..]);
  }

  lemma {:induction false} FirstOfEleven<E>(checks: seq<Check<E>>)
    requires |checks| == 11
    ensures FirstCode(checks)
      == if checks[0].fails then Some(checks[0].code) else if checks[1].fails then Some(checks[1].code)
         else if checks[2].fails then Some(checks[2].code) else if checks[3].fails then Some(checks[3].code)
         else if checks[4].fails then Some(checks[4].code) else if checks[5].fails then Some(checks[5].code)
         else if checks[6].fails then Some(checks[6].code) else if checks[7].fails then Some(checks[7].code)
         else if checks[8].fails then Some(checks[8].code) else if checks[9].fails then Some(checks[9].code)
         else if checks[10].fails then Some(checks[10].code) else None
  {
    FirstOfSeven(checks[..7]);
    FirstOfFour(checks[7..]);
    FirstCodeJoins(checks[..7], checks[7..]);
    assert checks == checks[..7] + checks[7..];
  }
}
