/** WWTpump's `pump_type`: the given name is lower-cased, 'cstr' and 'af'
    are restored to upper case, and only the eight valid types are taken. */
module PumpTypes {
  import opened Wrappers

  /** `_valid_pump_types`. */
  const ValidPumpTypes: seq<string> := [
    "permeate_cross-flow",
    "retentate_CSTR",
    "retentate_AF",
    "recirculation_CSTR",
    "recirculation_AF",
    "lift",
    "sludge",
    "chemical"
  ]

  /** Lower-casing of one character (ASCII letters only). */
  function LowerChar(c: char): char
  {
    if 'A' <= c <= 'Z' then (c as int + 32) as char else c
  }

  /** `str.lower()`. */
  function Lower(s: string): (r: string)
    ensures |r| == |s|
    ensures forall i :: 0 <= i < |s| ==> r[i] == LowerChar(s[i])
  {
    seq(|s|, i requires 0 <= i < |s| => LowerChar(s[i]))
  }

  /** No upper-case ASCII letter occurs in `s`. */
  predicate NoUpper(s: string)
  {
    forall c :: c in s ==> !('A' <= c <= 'Z')
  }

  /** `s.replace(pat, rep)`: scanning from the left, each occurrence of
      `pat` is replaced by `rep` and the scan resumes after it. */
  function ReplaceAll(s: string, pat: string, rep: string): string
    requires |pat| > 0
    decreases |s|
  {
    if |s| == 0 then []
    else if |pat| <= |s| && s[..|pat|] == pat then rep + ReplaceAll(s[|pat|..], pat, rep)
    else [s[0]] + ReplaceAll(s[1..], pat, rep)
  }

  /** The normalisation the `pump_type` setter applies before validating.
      It only changes letter case. */
  function Normalize(i: string): (r: string)
    ensures Lower(r) == Lower(i)
  {
    assert Lower("CSTR") == Lower("cstr");
    assert Lower("AF") == Lower("af");
    LowerReplaceAll(Lower(i), "cstr", "CSTR");
    LowerReplaceAll(ReplaceAll(Lower(i), "cstr", "CSTR"), "af", "AF");
    ReplaceAll(ReplaceAll(Lower(i), "cstr", "CSTR"), "af", "AF")
  }

  /** No occurrence of `pat` can begin in the last `|pat| - 1` characters of `a`. */
  predicate NoStartNearEnd(a: string, pat: string)
    requires |pat| > 0
  {
    forall j :: 0 <= j < |a| && |a| - j < |pat| ==> a[j] != pat[0]
  }

  /** Lower-casing distributes over concatenation. */
  lemma {:induction false} LowerConcat(a: string, b: string)
    ensures Lower(a + b) == Lower(a) + Lower(b)
  {
  }

  /** A text without upper-case letters is its own lower case. */
  lemma {:induction false} LowerOfLowerCase(s: string)
    requires NoUpper(s)
    ensures Lower(s) == s
  {
    forall i | 0 <= i < |s|
      ensures Lower(s)[i] == s[i]
    {
      assert s[i] in s;
    }
  }

  /** The pattern itself is replaced by the replacement. */
  lemma {:induction false} ReplaceAllOfPattern(pat: string, rep: string)
    requires |pat| > 0
    ensures ReplaceAll(pat, pat, rep) == rep
  {
    assert pat[..|pat|] == pat;
    assert ReplaceAll(pat[|pat|..], pat, rep) == [];
  }

  /** A text lacking one of the pattern's characters is left unchanged. */
  lemma {:induction false} ReplaceAllWithoutChar(s: string, pat: string, rep: string, k: nat)
    requires k < |pat| && pat[k] !in s
    ensures ReplaceAll(s, pat, rep) == s
    decreases |s|
  {
    if s != [] {
      if |pat| <= |s| {
        assert s[..|pat|][k] == s[k];
      }
      ReplaceAllWithoutChar(s[1..], pat, rep, k);
      assert s == [s[0]] + s[1..];
    }
  }

  /** A prefix `a` in which no occurrence of `pat` can begin, neither wholly
      inside it (it lacks `pat[k]`) nor across its end, is copied as it is. */
  lemma {:induction false} ReplaceAllSkips(a: string, b: string, pat: string, rep: string, k: nat)
    requires k < |pat| && pat[k] !in a && NoStartNearEnd(a, pat)
    ensures ReplaceAll(a + b, pat, rep) == a + ReplaceAll(b, pat, rep)
    decreases |a|
  {
    if a != [] {
      var s := a + b;
      if |a| >= |pat| {
        assert s[..|pat|][k] == a[k];
      } else if |pat| <= |s| {
        assert s[..|pat|][0] == a[0];
      }
      assert s[1..] == a[1..] + b;
      ReplaceAllSkips(a[1..], b, pat, rep, k);
    } else {
      assert a + b == b;
    }
  }

  /** Replacing `pat` by a text that lower-cases to the same text changes
      nothing once both sides are lower-cased. */
  lemma {:induction false} LowerReplaceAll(s: string, pat: string, rep: string)
    requires |pat| > 0 && Lower(rep) == Lower(pat)
    ensures Lower(ReplaceAll(s, pat, rep)) == Lower(s)
    decreases |s|
  {
    if s != [] {
      if |pat| <= |s| && s[..|pat|] == pat {
        LowerReplaceAll(s[|pat|..], pat, rep);
        LowerConcat(rep, ReplaceAll(s[|pat|..], pat, rep));
        assert s == s[..|pat|] + s[|pat|..];
        LowerConcat(s[..|pat|], s[|pat|..]);
      } else {
        LowerReplaceAll(s[1..], pat, rep);
        LowerConcat([s[0]], ReplaceAll(s[1..], pat, rep));
        assert s == [s[0]] + s[1..];
        LowerConcat([s[0]], s[1..]);
      }
    }
  }

  /** A lower-case stem followed by "CSTR" or "AF" is left as it is, when no
      's' or 'f' occurs in the stem and it does not end in 'a' or 'c'. */
  lemma {:induction false} SuffixedTypeFixed(v: string, x: string, u: string)
    requires v == x + u && (u == "CSTR" || u == "AF")
    requires NoUpper(x) && 's' !in x && 'f' !in x
    requires NoStartNearEnd(x, "cstr") && NoStartNearEnd(x, "af")
    ensures Normalize(v) == v
  {
    LowerConcat(x, u);
    LowerOfLowerCase(x);
    if u == "CSTR" {
      assert Lower(u) == "cstr";
      ReplaceAllSkips(x, "cstr", "cstr", "CSTR", 1);
      ReplaceAllOfPattern("cstr", "CSTR");
      ReplaceAllSkips(x, "CSTR", "af", "AF", 1);
      ReplaceAllWithoutChar("CSTR", "af", "AF", 0);
    } else {
      assert Lower(u) == "af";
      ReplaceAllSkips(x, "af", "cstr", "CSTR", 1);
      ReplaceAllWithoutChar("af", "cstr", "CSTR", 1);
      ReplaceAllSkips(x, "af", "af", "AF", 1);
      ReplaceAllOfPattern("af", "AF");
    }
  }

  /** A lower-case name lacking the `kc`-th character of "cstr" and the
      `ka`-th of "af" is left as it is. */
  lemma {:induction false} PlainTypeFixed(x: string, kc: nat, ka: nat)
    requires kc < 4 && ka < 2
    requires NoUpper(x) && "cstr"[kc] !in x && "af"[ka] !in x
    ensures Normalize(x) == x
  {
    LowerOfLowerCase(x);
    ReplaceAllWithoutChar(x, "cstr", "CSTR", kc);
    ReplaceAllWithoutChar(x, "af", "AF", ka);
  }

  /** A text that lower-casing and both replacements leave alone is a
      fixed point of the normalisation. */
  lemma {:induction false} NormalizeFixedByParts(x: string)
    requires Lower(x) == x
    requires ReplaceAll(x, "cstr", "CSTR") == x && ReplaceAll(x, "af", "AF") == x
    ensures Normalize(x) == x
  {
  }

  /** The 'c' of "cross-flow" is not followed by "str". */
  lemma {:induction false} CrossDashFlowHasNoCstr()
    ensures ReplaceAll("cross-flow", "cstr", "CSTR") == "cross-flow"
  {
    assert "cross-flow" == "cross" + "-flow";
    ReplaceAllSkips("cross", "-flow", "cstr", "CSTR", 2);
    ReplaceAllWithoutChar("-flow", "cstr", "CSTR", 0);
  }

  /** The one 'c' of "permeate_cross-flow" is not followed by "str". */
  lemma {:induction false} CrossFlowHasNoCstr()
    ensures ReplaceAll("permeate_cross-flow", "cstr", "CSTR") == "permeate_cross-flow"
  {
    assert "permeate_cross-flow" == "permeate_" + "cross-flow";
    ReplaceAllSkips("permeate_", "cross-flow", "cstr", "CSTR", 0);
    CrossDashFlowHasNoCstr();
  }

  /** The 'f' of "cross-flow" is not preceded by 'a'. */
  lemma {:induction false} CrossDashFlowHasNoAf()
    ensures ReplaceAll("cross-flow", "af", "AF") == "cross-flow"
  {
    assert "cross-flow" == "cross-" + "flow";
    ReplaceAllSkips("cross-", "flow", "af", "AF", 1);
    ReplaceAllWithoutChar("flow", "af", "AF", 0);
  }

  /** The one 'f' of "permeate_cross-flow" is not preceded by 'a'. */
  lemma {:induction false} CrossFlowHasNoAf()
    ensures ReplaceAll("permeate_cross-flow", "af", "AF") == "permeate_cross-flow"
  {
    assert "permeate_cross-flow" == "permeate_" + "cross-flow";
    ReplaceAllSkips("permeate_", "cross-flow", "af", "AF", 1);
    CrossDashFlowHasNoAf();
  }

  /** "permeate_cross-flow" is left as it is. */
  lemma {:induction false} CrossFlowFixed()
    ensures Normalize("permeate_cross-flow") == "permeate_cross-flow"
  {
    LowerOfLowerCase("permeate_cross-flow");
    CrossFlowHasNoCstr();
    CrossFlowHasNoAf();
    NormalizeFixedByParts("permeate_cross-flow");
  }

  /** The two "retentate_" types are left as they are. */
  lemma {:induction false} RetentateTypesFixed()
    ensures Normalize("retentate_CSTR") == "retentate_CSTR"
    ensures Normalize("retentate_AF") == "retentate_AF"
  {
    SuffixedTypeFixed("retentate_CSTR", "retentate_", "CSTR");
    SuffixedTypeFixed("retentate_AF", "retentate_", "AF");
  }

  /** The two "recirculation_" types are left as they are. */
  lemma {:induction false} RecirculationTypesFixed()
    ensures Normalize("recirculation_CSTR") == "recirculation_CSTR"
    ensures Normalize("recirculation_AF") == "recirculation_AF"
  {
    SuffixedTypeFixed("recirculation_CSTR", "recirculation_", "CSTR");
    SuffixedTypeFixed("recirculation_AF", "recirculation_", "AF");
  }

  /** Two texts without upper-case letters concatenate to one. */
  lemma {:induction false} NoUpperConcat(a: string, b: string)
    requires NoUpper(a) && NoUpper(b)
    ensures NoUpper(a + b)
  {
  }

  /** "lift" and "sludge" are left as they are. */
  lemma {:induction false} LiftAndSludgeFixed()
    ensures Normalize("lift") == "lift"
    ensures Normalize("sludge") == "sludge"
  {
    PlainTypeFixed("lift", 0, 0);
    PlainTypeFixed("sludge", 0, 0);
  }

  /** "chemical" is left as it is. */
  lemma {:induction false} ChemicalFixed()
    ensures Normalize("chemical") == "chemical"
  {
    assert "chemical" == "chem" + "ical";
    NoUpperConcat("chem", "ical");
    PlainTypeFixed("chemical", 1, 1);
  }

  /** Each valid type is left as it is by the normalisation. */
  lemma {:induction false} ValidTypesAreFixedPoints()
    ensures forall v :: v in ValidPumpTypes ==> Normalize(v) == v
  {
    CrossFlowFixed();
    RetentateTypesFixed();
    RecirculationTypesFixed();
    LiftAndSludgeFixed();
    ChemicalFixed();
  }

  /** The setter's check: the normalised name when it is a valid type, else
      the `ValueError`. A name is accepted exactly when it matches a valid
      type up to letter case, and it is then stored as that type. */
  function CheckPumpType(i: string): (r: Result<string>)
    ensures r.Success? <==> exists v :: v in ValidPumpTypes && Lower(v) == Lower(i)
    ensures r.Success? ==> r.value in ValidPumpTypes && Lower(r.value) == Lower(i)
    ensures r.Failure? ==> r.error == InvalidPumpType(i)
  {
    ValidTypesAreFixedPoints();
    var n := Normalize(i);
    if n in ValidPumpTypes then Success(n) else Failure(InvalidPumpType(i))
  }

  /** The part of a WWTpump this model keeps: its pump type. */
  class WWTpump {
    var pumpType: string

    /** The `pump_type` setter: stores the normalised type, or raises and
        keeps the old one. */
    method SetPumpType(i: string) returns (r: Outcome)
      modifies this`pumpType
      ensures r.Pass? <==> CheckPumpType(i).Success?
      ensures r.Pass? ==> pumpType == CheckPumpType(i).value
      ensures r.Fail? ==> pumpType == old(pumpType) && r.error == InvalidPumpType(i)
    {
      match CheckPumpType(i)
      case Success(t) =>
        pumpType := t;
        r := Pass;
      case Failure(e) =>
        r := Fail(e);
    }
  }
}
