/** The compiler's value types (src/compiler/type.rs): their display names and
    the case-insensitive lookup by name. */
module TypeName {
  import opened Wrappers
  import opened Text
  import Nom

  datatype Type = Real | Integer | Coll

  /** The order in which `try_from` tries the types. */
  const All: seq<Type> := [Real, Integer, Coll]

  /** `Display`, which prints the variant name. */
  function Name(t: Type): (s: string)
    ensures |s| > 0 && IsUpper(s[0])
  {
    match t
    case Real => "Real"
    case Integer => "Integer"
    case Coll => "Coll"
  }

  /** The loop over the candidates: the first one whose lower-cased name equals
      the lower-cased input. */
  function FirstNamed(s: string, candidates: seq<Type>): (r: Option<Type>)
    ensures r.Some? <==> exists i :: 0 <= i < |candidates| && ToLower(s) == ToLower(Name(candidates[i]))
    ensures r.Some? ==> r.value in candidates && ToLower(s) == ToLower(Name(r.value))
  {
    if candidates == [] then None
    else if ToLower(s) == ToLower(Name(candidates[0])) then Some(candidates[0])
    else FirstNamed(s, candidates[1..])
  }

  /** `Type::try_from(&str)`. */
  function TryFrom(s: string): (r: Result<Type, Nom.Error>)
    ensures r.Ok? <==> exists t: Type :: ToLower(s) == ToLower(Name(t))
    ensures r.Ok? ==> ToLower(s) == ToLower(Name(r.value))
    ensures r.Err? ==> r.error == Nom.Error(s, Nom.IsNot)
  {
    match FirstNamed(s, All)
    case Some(t) => Ok(t)
    case None =>
      forall t: Type ensures ToLower(s) != ToLower(Name(t)) {
        var i := match t case Real => 0 case Integer => 1 case Coll => 2;
        assert All[i] == t;
      }
      Err(Nom.Error(s, Nom.IsNot))
  }

  /** Looking up a type's display name gives the type back. */
  lemma TryFromName(t: Type)
    ensures TryFrom(Name(t)) == Ok(t)
  {
  }
}
