/** Label declarations (`name:`) and label references (`@name`) of the
    assembly language (src/asm/label_parsers.rs). */
module LabelParsers {
  import opened Wrappers
  import opened Text
  import opened Nom
  import opened AsmToken

  /** `label_decl`: `ws!(alphanumeric >> tag!(":") >> opt!(multispace))`. */
  function LabelDeclaration(s: string): (r: Parse<Token>)
    ensures r.Parsed? ==> r.value.LabelDecl? && r.value.name != []
    ensures r.Parsed? ==> forall i :: 0 <= i < |r.value.name| ==> In(r.value.name[i], Alnum)
    ensures !r.Panicked?
  {
    match Run(Sp(s), Alnum)
    case Parsed(name, afterName) => Colon(name, afterName)
    case _ => Rejected
  }

  /** The rest of `label_decl` once the name has been read: the colon and the
      blanks that follow it. */
  function Colon(name: string, t: string): (r: Parse<Token>)
    ensures r.Parsed? ==> r.value == LabelDecl(name)
    ensures !r.Panicked?
  {
    match Tag(Sp(t), ":")
    case Some(afterColon) => Parsed(LabelDecl(name), Sp(afterColon))
    case None => Rejected
  }

  /** `label_ref`: `ws!(tag!("@") >> alphanumeric >> opt!(multispace))`. */
  function LabelReference(s: string): (r: Parse<Token>)
    ensures r.Parsed? ==> r.value.LabelRef? && r.value.name != []
    ensures r.Parsed? ==> forall i :: 0 <= i < |r.value.name| ==> In(r.value.name[i], Alnum)
    ensures !r.Panicked?
  {
    match Tag(Sp(s), "@")
    case Some(afterAt) =>
      (match Run(Sp(afterAt), Alnum)
       case Parsed(name, afterName) => Parsed(LabelRef(name), Sp(afterName))
       case _ => Rejected)
    case None => Rejected
  }

  /** A name followed by a colon declares that label, the whole input being consumed. */
  lemma LabelDeclarationAccepts(name: string)
    requires name != [] && forall i :: 0 <= i < |name| ==> In(name[i], Alnum)
    ensures LabelDeclaration(name + ":") == Parsed(LabelDecl(name), "")
  {
    NameBeforeColon(name);
    ColonAlone(name);
  }

  /** The name is the run of letters and digits before the colon. */
  lemma NameBeforeColon(name: string)
    requires name != [] && forall i :: 0 <= i < |name| ==> In(name[i], Alnum)
    ensures Run(Sp(name + ":"), Alnum) == Parsed(name, ":")
  {
    var s := name + ":";
    assert s[0] == name[0];
    assert In(name[0], Alnum);
    assert Sp(s) == s by { SpNoBlank(s); }
    assert Run(s, Alnum) == Parsed(name, ":") by { RunOf(name, ":", Alnum); }
  }

  /** A lone colon ends a declaration with nothing left. */
  lemma ColonAlone(name: string)
    ensures Colon(name, ":") == Parsed(LabelDecl(name), [])
  {
    assert Sp(":") == ":" by { SpNoBlank(":"); }
    assert Tag(":", ":") == Some([]) by { TagOf(":", []); }
    assert Sp([]) == [] by { SpNoBlank([]); }
  }

  /** Without its colon a name is not a label declaration. */
  lemma LabelDeclarationNeedsColon(name: string)
    requires name != [] && forall i :: 0 <= i < |name| ==> In(name[i], Alnum)
    ensures LabelDeclaration(name) == Rejected
  {
    assert !IsBlank(name[0]);
    SpNoBlank(name);
    RunOf(name, "", Alnum);
    assert name + "" == name;
    SpNoBlank("");
  }

  /** `@` followed by a name refers to that label, the whole input being consumed. */
  lemma LabelReferenceAccepts(name: string)
    requires name != [] && forall i :: 0 <= i < |name| ==> In(name[i], Alnum)
    ensures LabelReference("@" + name) == Parsed(LabelRef(name), "")
  {
    var s := "@" + name;
    SpNoBlank(s);
    assert s[..1] == "@" && s[1..] == name;
    assert Tag(Sp(s), "@") == Some(name);
    assert !IsBlank(name[0]);
    SpNoBlank(name);
    RunOf(name, "", Alnum);
    assert name + "" == name;
    assert Run(Sp(name), Alnum) == Parsed(name, "");
    SpNoBlank("");
  }

  /** Without its `@` a name is not a label reference. */
  lemma LabelReferenceNeedsAt(name: string)
    requires name != [] && forall i :: 0 <= i < |name| ==> In(name[i], Alnum)
    ensures LabelReference(name) == Rejected
  {
    assert !IsBlank(name[0]);
    SpNoBlank(name);
  }

  /** No input is both a label declaration and a label reference: one starts
      with a letter or digit, the other with `@`. */
  lemma DeclarationOrReference(s: string)
    ensures !(LabelDeclaration(s).Parsed? && LabelReference(s).Parsed?)
  {
    var t := Sp(s);
    match Tag(t, "@")
    case None =>
      assert LabelReference(s) == Rejected;
    case Some(_) =>
      assert t[0] == '@';
      assert Run(t, Alnum).Rejected?;
      assert LabelDeclaration(s) == Rejected;
  }
}
