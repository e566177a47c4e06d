/** Package-level names of the platform: the annotation key for routes and
    the two builders of internal service names. */
module Eirini {

  /** The annotation key under which a workload record keeps its routes. */
  const RegisteredRoutes := "routes"

  const ServicePrefix := "cf-"
  const HeadlessSuffix := "-headless"

  predicate IsDigit(c: char) {
    '0' <= c <= '9'
  }

  /** The internal service name: the app name behind a "cf-" prefix, so that
      it never starts with a digit. */
  function GetInternalServiceName(appName: string): (name: string)
    ensures |name| == |appName| + 3
    ensures name[..3] == ServicePrefix && name[3..] == appName
  {
    ServicePrefix + appName
  }

  /** The internal headless service name. */
  function GetInternalHeadlessServiceName(appName: string): (name: string)
    ensures |name| == |appName| + 12
    ensures name[..3] == ServicePrefix && name[|name| - 9..] == HeadlessSuffix
    ensures name[3..|name| - 9] == appName
  {
    ServicePrefix + appName + HeadlessSuffix
  }

  /** Neither name starts with a digit, whatever the app name is. */
  lemma NamesNeverStartWithDigit(appName: string)
    ensures !IsDigit(GetInternalServiceName(appName)[0])
    ensures !IsDigit(GetInternalHeadlessServiceName(appName)[0])
  {
    assert GetInternalServiceName(appName)[0] == GetInternalServiceName(appName)[..3][0];
    assert GetInternalHeadlessServiceName(appName)[0] == GetInternalHeadlessServiceName(appName)[..3][0];
  }

  /** The headless name is the service name followed by "-headless". */
  lemma HeadlessExtendsServiceName(appName: string)
    ensures GetInternalHeadlessServiceName(appName) == GetInternalServiceName(appName) + HeadlessSuffix
  {
  }

  /** Different apps get different service names. */
  lemma ServiceNameInjective(a: string, b: string)
    ensures GetInternalServiceName(a) == GetInternalServiceName(b) <==> a == b
  {
    if GetInternalServiceName(a) == GetInternalServiceName(b) {
      assert a == GetInternalServiceName(a)[3..];
    }
  }

  /** A service name equals a headless name exactly when the first app's name
      is the second's followed by "-headless". */
  lemma ServiceMeetsHeadlessIff(a: string, b: string)
    ensures GetInternalServiceName(a) == GetInternalHeadlessServiceName(b) <==> a == b + HeadlessSuffix
  {
    var s, h := GetInternalServiceName(a), GetInternalHeadlessServiceName(b);
    if s == h {
      calc {
        a;
        s[3..];
        h[3..];
        { assert h == ServicePrefix + (b + HeadlessSuffix); }
        b + HeadlessSuffix;
      }
    }
    if a == b + HeadlessSuffix {
      assert s == ServicePrefix + (b + HeadlessSuffix);
    }
  }
}
