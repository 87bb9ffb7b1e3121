/**
 * The naming policy for device objects that belong to a Kubernetes service: the application
 * object `k8s<name>` and the security policy `K8SPOLICY_ALLOW_<NAME>`.
 */
module Naming {

  const AppPrefix := "k8s"
  const PolicyPrefix := "K8SPOLICY_ALLOW_"

  predicate IsLowerLetter(c: char) { 'a' <= c <= 'z' }
  predicate IsUpperLetter(c: char) { 'A' <= c <= 'Z' }

  /** Python's `str.upper` on one character, for ASCII letters. */
  function UpperChar(c: char): (u: char)
    ensures !IsLowerLetter(u)
    ensures IsLowerLetter(c) ==> IsUpperLetter(u) && u as int == c as int - 32
    ensures !IsLowerLetter(c) ==> u == c
  {
    if IsLowerLetter(c) then (c as int - 32) as char else c
  }

  function Upper(s: string): (r: string)
    ensures |r| == |s|
    ensures forall i :: 0 <= i < |s| ==> r[i] == UpperChar(s[i])
  {
    seq(|s|, i requires 0 <= i < |s| => UpperChar(s[i]))
  }

  /** The application object that carries a service's port. */
  function AppObjectName(serviceName: string): (r: string)
    ensures |r| == |serviceName| + 3 && r[..3] == AppPrefix && r[3..] == serviceName
  {
    AppPrefix + serviceName
  }

  /** The security policy that admits traffic to a service. */
  function PolicyName(serviceName: string): (r: string)
    ensures |r| == |serviceName| + |PolicyPrefix|
    ensures r[..|PolicyPrefix|] == PolicyPrefix && r[|PolicyPrefix|..] == Upper(serviceName)
    ensures forall i :: |PolicyPrefix| <= i < |r| ==> !IsLowerLetter(r[i])
  {
    PolicyPrefix + Upper(serviceName)
  }

  /** Distinct services always get distinct application objects. */
  lemma AppObjectNameInjective(a: string, b: string)
    ensures AppObjectName(a) == AppObjectName(b) ==> a == b
  {
  }

  predicate NoUpperLetters(s: string) { forall i :: 0 <= i < |s| ==> !IsUpperLetter(s[i]) }

  /**
   * Upper-casing loses no information on names without capital letters (Kubernetes service
   * names are lower-case), so distinct such services get distinct policy names.
   */
  lemma PolicyNameInjective(a: string, b: string)
    requires NoUpperLetters(a) && NoUpperLetters(b)
    ensures PolicyName(a) == PolicyName(b) ==> a == b
  {
    if PolicyName(a) == PolicyName(b) {
      assert Upper(a) == PolicyName(a)[|PolicyPrefix|..] == Upper(b);
      forall i | 0 <= i < |a|
        ensures a[i] == b[i]
      {
        assert UpperChar(a[i]) == UpperChar(b[i]);
      }
    }
  }

  /** Names that differ only in case share one policy name. */
  lemma PolicyNameFoldsCase(a: string, b: string)
    requires |a| == |b|
    requires forall i :: 0 <= i < |a| ==> UpperChar(a[i]) == UpperChar(b[i])
    ensures PolicyName(a) == PolicyName(b)
  {
    assert Upper(a) == Upper(b);
  }
}
