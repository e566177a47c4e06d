/** The name of a workload record: the app name reduced to [a-z0-9], the
    lower-cased space name and the token of the injected hasher; when nothing
    of the app name survives, the LRP's GUID and the token. */
module Naming {

  /** ASCII lower-casing; every other character is left as it is. */
  function ToLowerChar(c: char): char {
    if 'A' <= c <= 'Z' then (c as int + 32) as char else c
  }

  function ToLower(s: string): string {
    seq(|s|, i requires 0 <= i < |s| => ToLowerChar(s[i]))
  }

  /** The characters a record name may be built from. */
  predicate IsNameChar(c: char) {
    'a' <= c <= 'z' || '0' <= c <= '9'
  }

  /** Does a character survive sanitizing? */
  predicate Survives(c: char) {
    IsNameChar(ToLowerChar(c))
  }

  /** Case-fold, then keep only [a-z0-9]. */
  function Sanitize(s: string): (r: string)
    ensures |r| <= |s|
    ensures forall i :: 0 <= i < |r| ==> IsNameChar(r[i])
  {
    if s == [] then []
    else (if Survives(s[0]) then [ToLowerChar(s[0])] else []) + Sanitize(s[1..])
  }

  /** The record name for an app, its space, its GUID and a hash token. */
  function StatefulSetName(appName: string, spaceName: string, guid: string, hash: string): (name: string)
    ensures |name| > |hash| && name[|name| - |hash| - 1..] == "-" + hash
  {
    var prefix := Sanitize(appName);
    if prefix == [] then guid + "-" + hash
    else prefix + "-" + ToLower(spaceName) + "-" + hash
  }

  /** Sanitizing leaves nothing exactly when no character of the input is an
      ASCII letter or digit. */
  lemma {:induction false} SanitizeEmptyIff(s: string)
    ensures Sanitize(s) == [] <==> forall i :: 0 <= i < |s| ==> !Survives(s[i])
  {
    if s != [] {
      SanitizeEmptyIff(s[1..]);
      if Sanitize(s) == [] {
        forall i | 0 <= i < |s| ensures !Survives(s[i]) {
          if i > 0 { assert s[i] == s[1..][i - 1]; }
        }
      }
      if forall i :: 0 <= i < |s| ==> !Survives(s[i]) {
        assert forall i :: 0 <= i < |s[1..]| ==> !Survives(s[1..][i]) by {
          forall i | 0 <= i < |s[1..]| ensures !Survives(s[1..][i]) {
            assert s[1..][i] == s[i + 1];
          }
        }
      }
    }
  }

  /** Sanitizing twice is sanitizing once. */
  lemma {:induction false} SanitizeIdempotent(s: string)
    ensures Sanitize(Sanitize(s)) == Sanitize(s)
  {
    if s != [] {
      SanitizeIdempotent(s[1..]);
      var head := if Survives(s[0]) then [ToLowerChar(s[0])] else [];
      SanitizeConcat(head, Sanitize(s[1..]));
      if Survives(s[0]) {
        var c := ToLowerChar(s[0]);
        assert Sanitize(head) == head by {
          assert head[1..] == [];
          assert ToLowerChar(c) == c;
        }
      }
    }
  }

  lemma {:induction false} SanitizeConcat(a: string, b: string)
    ensures Sanitize(a + b) == Sanitize(a) + Sanitize(b)
  {
    if a != [] {
      SanitizeConcat(a[1..], b);
      assert (a + b)[1..] == a[1..] + b;
    } else {
      assert a + b == b;
    }
  }

  /** For one app, space and GUID, two hash tokens give the same name only
      when they are the same token: the token is what tells apart the records
      of different identifiers of one app. */
  lemma TokenSeparatesNames(appName: string, spaceName: string, guid: string, h1: string, h2: string)
    ensures StatefulSetName(appName, spaceName, guid, h1) == StatefulSetName(appName, spaceName, guid, h2) <==> h1 == h2
  {
    var prefix := Sanitize(appName);
    var stem := if prefix == [] then guid + "-" else prefix + "-" + ToLower(spaceName) + "-";
    assert StatefulSetName(appName, spaceName, guid, h1) == stem + h1;
    assert StatefulSetName(appName, spaceName, guid, h2) == stem + h2;
    assert (stem + h1)[|stem|..] == h1 && (stem + h2)[|stem|..] == h2;
  }

  /** A name whose app name starts with an ASCII letter or digit starts
      with that character, lower-cased. */
  lemma NameStartsWithApp(appName: string, spaceName: string, guid: string, hash: string)
    requires appName != [] && Survives(appName[0])
    ensures StatefulSetName(appName, spaceName, guid, hash)[0] == ToLowerChar(appName[0])
  {
    assert Sanitize(appName)[0] == ToLowerChar(appName[0]);
  }

  /** The GUID fallback is taken exactly when the app name has no ASCII
      letter or digit. */
  lemma FallbackIff(appName: string, spaceName: string, guid: string, hash: string)
    ensures (forall i :: 0 <= i < |appName| ==> !Survives(appName[i])) ==>
      StatefulSetName(appName, spaceName, guid, hash) == guid + "-" + hash
    ensures (exists i :: 0 <= i < |appName| && Survives(appName[i])) ==>
      StatefulSetName(appName, spaceName, guid, hash) ==
        Sanitize(appName) + "-" + ToLower(spaceName) + "-" + hash
  {
    SanitizeEmptyIff(appName);
  }

  /** "Baldur" in "space-foo" with token "random". */
  lemma BaldurName()
    ensures StatefulSetName("Baldur", "space-foo", "guid_1234", "random") == "baldur-space-foo-random"
  {
    calc {
      StatefulSetName("Baldur", "space-foo", "guid_1234", "random");
      { NameOfPlainApp("Baldur", "space-foo", "guid_1234", "random"); }
      ToLower("Baldur") + "-" + ToLower("space-foo") + "-" + "random";
      { LowerBaldur(); ToLowerFixes("space-foo"); }
      "baldur" + "-" + "space-foo" + "-" + "random";
      "baldur-space-foo-random";
    }
  }

  lemma LowerBaldur()
    ensures ToLower("Baldur") == "baldur"
  {
    var s := ToLower("Baldur");
    assert s[0] == 'b';
    forall i | 1 <= i < 6 ensures s[i] == "baldur"[i] {
      assert !('A' <= "Baldur"[i] <= 'Z');
    }
  }

  /** An app name made only of ASCII letters and digits is kept, lower-cased. */
  lemma NameOfPlainApp(appName: string, spaceName: string, guid: string, hash: string)
    requires appName != []
    requires forall i :: 0 <= i < |appName| ==> Survives(appName[i])
    ensures StatefulSetName(appName, spaceName, guid, hash) ==
      ToLower(appName) + "-" + ToLower(spaceName) + "-" + hash
  {
    SanitizeAllSurvive(appName);
  }

  /** Lower-casing leaves a string without upper-case letters as it is. */
  lemma ToLowerFixes(s: string)
    requires forall i :: 0 <= i < |s| ==> !('A' <= s[i] <= 'Z')
    ensures ToLower(s) == s
  {
  }

  /** When every character survives, sanitizing is lower-casing. */
  lemma {:induction false} SanitizeAllSurvive(s: string)
    requires forall i :: 0 <= i < |s| ==> Survives(s[i])
    ensures Sanitize(s) == ToLower(s)
  {
    if s != [] {
      assert forall i :: 0 <= i < |s[1..]| ==> s[1..][i] == s[i + 1];
      SanitizeAllSurvive(s[1..]);
    }
  }

  /** A Cyrillic app name keeps nothing and falls back to the GUID. */
  lemma CyrillicName()
    ensures StatefulSetName("Балдър", "space-foo", "guid_1234", "random") == "guid_1234-random"
  {
    assert Sanitize("Балдър") == [];
  }
}
