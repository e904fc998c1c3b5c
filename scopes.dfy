/** The lexical-scope stack that lowering uses (src/ast.cc): a stack of
    frames, each a map from variable names to stack slots. Lookup searches
    from the outermost frame inwards, so an outer binding hides an inner one
    of the same name. */
module Scopes {
  import opened Wrappers
  import opened Ast

  /** What a new slot is typed as, chosen from the right-hand side. */
  datatype SlotType =
    | CollectionStruct           // the collection struct type
    | TypeOfValue                // the type of the value the right-hand side lowers to
    | Double
    | ReturnTypeOf(callee: string)

  /** A stack slot made for a variable: its name and its type. */
  datatype Slot = Slot(name: string, slotType: SlotType)

  /** The first frame, from the outermost, that binds `name`, and its slot. */
  function Lookup(frames: seq<map<string, Slot>>, name: string): Option<Slot>
  {
    if frames == [] then None
    else if name in frames[0] then Some(frames[0][name])
    else Lookup(frames[1..], name)
  }

  /** Some frame binds `name` exactly when the lookup finds it. */
  lemma {:induction false} LookupFindsBound(frames: seq<map<string, Slot>>, name: string)
    ensures Lookup(frames, name).Some? <==> exists i :: 0 <= i < |frames| && name in frames[i]
  {
    if frames != [] && name !in frames[0] {
      LookupFindsBound(frames[1..], name);
      if exists i :: 0 <= i < |frames| && name in frames[i] {
        var i :| 0 <= i < |frames| && name in frames[i];
        assert name in frames[1..][i - 1];
      }
      forall i | 0 <= i < |frames| - 1 && name in frames[1..][i]
        ensures name in frames[i + 1]
      {
      }
    }
  }

  /** The lookup returns the binding of the outermost frame that has one. */
  lemma {:induction false} LookupIsOutermost(frames: seq<map<string, Slot>>, name: string, i: nat)
    requires i < |frames| && name in frames[i]
    requires forall j :: 0 <= j < i ==> name !in frames[j]
    ensures Lookup(frames, name) == Some(frames[i][name])
  {
    if i > 0 {
      assert name !in frames[0];
      forall j | 0 <= j < i - 1 ensures name !in frames[1..][j] {
        assert frames[1..][j] == frames[j + 1];
      }
      LookupIsOutermost(frames[1..], name, i - 1);
    }
  }

  /** Frames pushed after a binding cannot change what a lookup finds; a name
      no outer frame binds is looked up in the inner frames alone. */
  lemma {:induction false} InnerFramesAfterOuter(outer: seq<map<string, Slot>>, inner: seq<map<string, Slot>>, name: string)
    ensures Lookup(outer + inner, name) == if Lookup(outer, name).Some? then Lookup(outer, name) else Lookup(inner, name)
  {
    if outer != [] {
      assert (outer + inner)[0] == outer[0];
      assert (outer + inner)[1..] == outer[1..] + inner;
      InnerFramesAfterOuter(outer[1..], inner, name);
    } else {
      assert outer + inner == inner;
    }
  }

  /** `SetNamedValue`: `std::map::insert` into the innermost frame, which
      leaves a binding the frame already has in place. */
  function Bind(frames: seq<map<string, Slot>>, name: string, slot: Slot): (r: seq<map<string, Slot>>)
    requires frames != []
    ensures |r| == |frames| && r[..|r| - 1] == frames[..|frames| - 1]
    ensures name in r[|r| - 1] && r[|r| - 1][name] == (if name in frames[|frames| - 1] then frames[|frames| - 1][name] else slot)
    ensures r[|r| - 1] - {name} == frames[|frames| - 1] - {name}
  {
    var last := frames[|frames| - 1];
    frames[..|frames| - 1] + [if name in last then last else last[name := slot]]
  }

  /** After a binding, the name is found: the new slot if no frame had the
      name, and the earlier binding otherwise. */
  lemma BindThenLookup(frames: seq<map<string, Slot>>, name: string, slot: Slot)
    requires frames != []
    ensures Lookup(Bind(frames, name, slot), name) == if Lookup(frames, name).Some? then Lookup(frames, name) else Some(slot)
  {
    var outer := frames[..|frames| - 1];
    var r := Bind(frames, name, slot);
    assert frames == outer + [frames[|frames| - 1]];
    assert r == outer + [r[|r| - 1]];
    InnerFramesAfterOuter(outer, [frames[|frames| - 1]], name);
    InnerFramesAfterOuter(outer, [r[|r| - 1]], name);
  }

  /** A binding leaves the lookup of every other name as it was. */
  lemma BindKeepsOtherNames(frames: seq<map<string, Slot>>, name: string, slot: Slot, other: string)
    requires frames != [] && other != name
    ensures Lookup(Bind(frames, name, slot), other) == Lookup(frames, other)
  {
    var outer := frames[..|frames| - 1];
    var r := Bind(frames, name, slot);
    assert frames == outer + [frames[|frames| - 1]];
    assert r == outer + [r[|r| - 1]];
    InnerFramesAfterOuter(outer, [frames[|frames| - 1]], other);
    InnerFramesAfterOuter(outer, [r[|r| - 1]], other);
  }

  /** A name bound in an outer scope cannot be shadowed: binding it again in
      a new inner scope leaves the lookup on the outer slot. */
  lemma NoShadowing(frames: seq<map<string, Slot>>, name: string, slot: Slot)
    requires Lookup(frames, name).Some?
    ensures Lookup(Bind(frames + [map[]], name, slot), name) == Lookup(frames, name)
  {
    InnerFramesAfterOuter(frames, [map[]], name);
    BindThenLookup(frames + [map[]], name, slot);
  }

  /** Opening a scope, binding in it and closing it again restores the frames. */
  lemma ScopeDiscardsItsBindings(frames: seq<map<string, Slot>>, name: string, slot: Slot)
    ensures var inner := Bind(frames + [map[]], name, slot); inner[..|inner| - 1] == frames
  {
  }

  /** The type of the slot made for a variable, by the kind of its right-hand
      side; a call takes the return type of the callee if the module defines it. */
  function SlotTypeFor(rhs: Expr, defined: set<string>): (r: Result<SlotType, string>)
    ensures r.Ok? && r.value == Double <==> rhs.Real? || rhs.BinaryOp?
    ensures r.Ok? && r.value == TypeOfValue <==> rhs.Variable? || rhs.Func?
    ensures r.Ok? && r.value == CollectionStruct <==> rhs.Collection?
    ensures r.Ok? && r.value.ReturnTypeOf? <==> rhs.Call? && rhs.name in defined
    ensures r.Ok? && r.value.ReturnTypeOf? ==> r.value.callee == rhs.name
    ensures r.Err? <==> rhs.UnaryOp? || rhs.If? || rhs.While? || (rhs.Call? && rhs.name !in defined)
  {
    match rhs
    case Collection(_, _, _) => Ok(CollectionStruct)
    case Variable(_) => Ok(TypeOfValue)
    case Func(_, _, _) => Ok(TypeOfValue)
    case Real(_) => Ok(Double)
    case BinaryOp(_, _, _) => Ok(Double)
    case Call(callee, _) => if callee in defined then Ok(ReturnTypeOf(callee)) else Err("Unknown function: " + callee)
    case _ => Err("Unknown rhs type: ")
  }

  /** The scope stack of src/ast.cc. */
  class NamedValues {
    var frames: seq<map<string, Slot>>

    constructor()
      ensures frames == []
    {
      frames := [];
    }

    /** `PushNamedValueScope`: a new, empty innermost frame. */
    method Push()
      modifies this
      ensures frames == old(frames) + [map[]]
    {
      frames := frames + [map[]];
    }

    /** `PopNamedValueScope`: drop the innermost frame; the stack must not be empty. */
    method Pop()
      requires frames != []
      modifies this
      ensures frames == old(frames)[..|old(frames)| - 1]
    {
      frames := frames[..|frames| - 1];
    }

    /** `SetNamedValue`; the stack must not be empty. */
    method Set(name: string, slot: Slot)
      requires frames != []
      modifies this
      ensures frames == Bind(old(frames), name, slot)
    {
      var last := frames[|frames| - 1];
      if name !in last {
        last := last[name := slot];
      }
      frames := frames[..|frames| - 1] + [last];
    }

    /** `GetNamedValue`: the frames from the outermost inwards; the first that
        binds the name answers, and no frame gives null. */
    method Get(name: string) returns (r: Option<Slot>)
      ensures r == Lookup(frames, name)
    {
      var i := 0;
      while i < |frames|
        invariant 0 <= i <= |frames|
        invariant Lookup(frames[i..], name) == Lookup(frames, name)
      {
        assert frames[i..][0] == frames[i] && frames[i..][1..] == frames[i + 1..];
        if name in frames[i] {
          return Some(frames[i][name]);
        }
        i := i + 1;
      }
      return None;
    }

    /** `CreateNamedVariable`: choose the slot type from the right-hand side
        and bind a new slot in the innermost frame; an unknown callee or an
        unsupported right-hand side is an error and binds nothing. */
    method CreateNamedVariable(name: string, rhs: Expr, defined: set<string>) returns (r: Result<Slot, string>)
      requires frames != []
      modifies this
      ensures r.Ok? <==> SlotTypeFor(rhs, defined).Ok?
      ensures r.Ok? ==> r.value == Slot(name, SlotTypeFor(rhs, defined).value) && frames == Bind(old(frames), name, r.value)
      ensures r.Err? ==> r.error == SlotTypeFor(rhs, defined).error && frames == old(frames)
    {
      match SlotTypeFor(rhs, defined)
      case Err(message) =>
        r := Err(message);
      case Ok(t) =>
        var slot := Slot(name, t);
        Set(name, slot);
        r := Ok(slot);
    }
  }
}
