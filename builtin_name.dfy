/** The compiler's builtin functions (src/compiler/builtin.rs): their display
    names and the case-insensitive lookup by name. */
module Builtin {
  import opened Wrappers
  import opened Text
  import Nom

  datatype Builtin = Write | Map | Filter | Fold

  /** The order in which `try_from` tries the builtins. */
  const All: seq<Builtin> := [Write, Map, Filter, Fold]

  /** `Display`, which prints the variant name. */
  function Name(b: Builtin): (s: string)
    ensures |s| > 0 && IsUpper(s[0])
  {
    match b
    case Write => "Write"
    case Map => "Map"
    case Filter => "Filter"
    case Fold => "Fold"
  }

  /** The loop over the candidates: the first one whose lower-cased name equals
      the lower-cased input. */
  function FirstNamed(s: string, candidates: seq<Builtin>): (r: Option<Builtin>)
    ensures r.Some? <==> exists i :: 0 <= i < |candidates| && ToLower(s) == ToLower(Name(candidates[i]))
    ensures r.Some? ==> r.value in candidates && ToLower(s) == ToLower(Name(r.value))
  {
    if candidates == [] then None
    else if ToLower(s) == ToLower(Name(candidates[0])) then Some(candidates[0])
    else FirstNamed(s, candidates[1..])
  }

  /** `Builtin::try_from(&str)` (and so `try_into`, which the standard library
      defines through it). */
  function TryFrom(s: string): (r: Result<Builtin, Nom.Error>)
    ensures r.Ok? <==> exists b: Builtin :: ToLower(s) == ToLower(Name(b))
    ensures r.Ok? ==> ToLower(s) == ToLower(Name(r.value))
    ensures r.Err? ==> r.error == Nom.Error(s, Nom.IsNot)
  {
    match FirstNamed(s, All)
    case Some(b) => Ok(b)
    case None =>
      forall b: Builtin ensures ToLower(s) != ToLower(Name(b)) {
        var i := match b case Write => 0 case Map => 1 case Filter => 2 case Fold => 3;
        assert All[i] == b;
      }
      Err(Nom.Error(s, Nom.IsNot))
  }

  /** Looking up a builtin's display name gives the builtin back. */
  lemma TryFromName(b: Builtin)
    ensures TryFrom(Name(b)) == Ok(b)
  {
  }

  /** Lookup ignores case: any spelling that lower-cases the same is accepted
      as the same builtin. */
  lemma {:induction false} TryFromIgnoresCase(s: string, t: string)
    requires ToLower(s) == ToLower(t)
    ensures TryFrom(s).Ok? <==> TryFrom(t).Ok?
    ensures TryFrom(s).Ok? ==> TryFrom(s).value == TryFrom(t).value
  {
  }
}
