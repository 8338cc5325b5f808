/** The one text helper of the formatters the console models: `capitalize`. */
module Formatters {
  import opened Text

  /**
   * `capitalize`: the first character upper-cased, every other one
   * lower-cased (`str.charAt(0).toUpperCase() + str.slice(1).toLowerCase()`).
   */
  function Capitalize(s: string): (r: string)
    ensures |r| == |s|
    ensures s != [] ==> r[0] == UpperChar(s[0])
    ensures forall k :: 1 <= k < |s| ==> r[k] == LowerChar(s[k])
  {
    if s == [] then "" else Upper(s[..1]) + Lower(s[1..])
  }

  lemma CapitalizeEmpty()
    ensures Capitalize("") == ""
  {
  }

  /** Upper- and lower-casing a character forget which case it had. */
  lemma CaseMapsAbsorb(c: char)
    ensures UpperChar(UpperChar(c)) == UpperChar(c) && LowerChar(LowerChar(c)) == LowerChar(c)
    ensures UpperChar(LowerChar(c)) == UpperChar(c) && LowerChar(UpperChar(c)) == LowerChar(c)
  {
  }

  /** Capitalizing twice is capitalizing once. */
  lemma CapitalizeIdempotent(s: string)
    ensures Capitalize(Capitalize(s)) == Capitalize(s)
  {
    var once := Capitalize(s);
    var twice := Capitalize(once);
    forall k | 0 <= k < |s| ensures twice[k] == once[k] {
      CaseMapsAbsorb(s[k]);
    }
  }

  /** The input's case does not matter: lower-casing it first changes nothing. */
  lemma CapitalizeIgnoresLowerCase(s: string)
    ensures Capitalize(Lower(s)) == Capitalize(s)
  {
    var lowered, direct := Capitalize(Lower(s)), Capitalize(s);
    forall k | 0 <= k < |s| ensures lowered[k] == direct[k] {
      CaseMapsAbsorb(s[k]);
    }
  }

  /** Nor does upper-casing it first. */
  lemma CapitalizeIgnoresUpperCase(s: string)
    ensures Capitalize(Upper(s)) == Capitalize(s)
  {
    var raised, direct := Capitalize(Upper(s)), Capitalize(s);
    forall k | 0 <= k < |s| ensures raised[k] == direct[k] {
      CaseMapsAbsorb(s[k]);
    }
  }
}
