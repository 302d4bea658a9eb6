/** The examples of the method contract, as concrete facts about the model. */
module DocExamples {
  import opened Wrappers
  import opened Decimal
  import opened Signature
  import opened Methods

  /** A store that holds one declaration, for one handle. */
  function Only(h: MethodHandle, d: Declaration): (lookup: Lookup)
    ensures lookup(h) == Some(d)
    ensures forall other :: other != h ==> lookup(other) == None
  {
    other => if other == h then Some(d) else None
  }

  /** `public void foo(String text, int length)` in a source type. */
  const Foo: MethodHandle := MethodHandle("Sample", "foo", ["QString;", "I"])
  const FooDeclaration: Declaration := Declaration(Method, false, true, "V", [], Declared(["text", "length"]))

  lemma FooQueries()
    ensures ParameterTypes(Foo) == ["QString;", "I"]
    ensures NumberOfParameters(Foo) == 2
    ensures ParameterNames(Only(Foo, FooDeclaration), Foo) == Success(["text", "length"])
    ensures GetSignature(Only(Foo, FooDeclaration), Foo) == Success("(QString;I)V")
    ensures ExceptionTypes(Only(Foo, FooDeclaration), Foo) == Success([])
    ensures IsMainMethod(Only(Foo, FooDeclaration), Foo) == Success(false)
  {
    var lookup := Only(Foo, FooDeclaration);
    assert ReturnType(lookup, Foo) == Success("V");
    ConcatPair("QString;", "I");
    assert MethodSignature(Foo.parameterTypes, "V") == "(QString;I)V";
  }

  /** Under a store that holds only `foo`, any other handle (here `foo`
      with a `long` parameter instead) names an element that does not exist:
      every resolving query fails, the handle-only queries still answer. */
  lemma OtherHandleDoesNotExist()
    ensures
      var h := MethodHandle("Sample", "foo", ["QString;", "J"]);
      var lookup := Only(Foo, FooDeclaration);
      && ElementName(h) == "foo" && NumberOfParameters(h) == 2
      && ExceptionTypes(lookup, h) == Failure(ElementDoesNotExist(h))
      && ParameterNames(lookup, h) == Failure(ElementDoesNotExist(h))
      && ReturnType(lookup, h) == Failure(ElementDoesNotExist(h))
      && GetSignature(lookup, h) == Failure(ElementDoesNotExist(h))
      && IsConstructor(lookup, h) == Failure(ElementDoesNotExist(h))
      && IsMainMethod(lookup, h) == Failure(ElementDoesNotExist(h))
  {
    var h := MethodHandle("Sample", "foo", ["QString;", "J"]);
    assert h.parameterTypes[1] != Foo.parameterTypes[1];
    assert Only(Foo, FooDeclaration)(h) == None;
  }

  lemma ConcatPair(a: string, b: string)
    ensures Concat([a, b]) == a + b
  {
    assert [a, b][1..] == [b];
    assert [b][1..] == [];
    assert Concat([b]) == b + Concat([]);
  }

  /** `public String getName()` returns `QString;`. */
  lemma GetNameReturnType()
    ensures
      var h := MethodHandle("Sample", "getName", []);
      var d := Declaration(Method, false, true, "QString;", [], Declared([]));
      ReturnType(Only(h, d), h) == Success("QString;")
      && GetSignature(Only(h, d), h) == Success("()QString;")
  {
    var h := MethodHandle("Sample", "getName", []);
    var d := Declaration(Method, false, true, "QString;", [], Declared([]));
    assert ReturnType(Only(h, d), h) == Success("QString;");
    assert MethodSignature([], "QString;") == "()QString;";
  }

  /** A method declaring `throws IOException`. */
  lemma ThrowsIOException()
    ensures
      var h := MethodHandle("Sample", "read", []);
      var d := Declaration(Method, false, true, "V", ["QIOException;"], Declared([]));
      ExceptionTypes(Only(h, d), h) == Success(["QIOException;"])
  {
  }

  /** A three-parameter method of a binary type gets invented parameter names. */
  lemma BinaryParameterNames()
    ensures
      var h := MethodHandle("Sample", "m", ["I", "I", "I"]);
      var d := Declaration(Method, false, true, "V", [], Binary);
      ParameterNames(Only(h, d), h) == Success(["arg1", "arg2", "arg3"])
  {
    assert NatToString(1) == "1";
    assert NatToString(2) == "2";
    assert NatToString(3) == "3";
    assert "arg" + "1" == "arg1" && "arg" + "2" == "arg2" && "arg" + "3" == "arg3";
    assert SyntheticNames(0) == [];
    assert SyntheticNames(1) == ["arg1"];
    assert SyntheticNames(2) == ["arg1", "arg2"];
    assert SyntheticNames(3) == ["arg1", "arg2", "arg3"];
  }

  /** A constructor of a binary type is named after its type and returns void. */
  lemma BinaryConstructor()
    ensures
      var h := BinaryHandle("Sample", "<init>", ["I"]);
      var d := Declaration(Constructor, false, true, "", [], Binary);
      ElementName(h) == "Sample"
      && IsConstructor(Only(h, d), h) == Success(true)
      && GetSignature(Only(h, d), h) == Success("(I)V")
  {
    var h := BinaryHandle("Sample", "<init>", ["I"]);
    var d := Declaration(Constructor, false, true, "", [], Binary);
    assert ReturnType(Only(h, d), h) == Success("V");
    assert ["I"][1..] == [];
    assert Concat(["I"]) == "I";
    assert MethodSignature(["I"], "V") == "(I)V";
  }

  /** `String` in source form, `java.lang.String` in source and binary form. */
  const SourceString: string := ReferenceSignature('Q', "", "String")
  const QualifiedSourceString: string := ReferenceSignature('Q', "java/lang/", "String")
  const BinaryString: string := ReferenceSignature('L', "java/lang/", "String")

  lemma StringSignatures()
    ensures SourceString == "QString;"
    ensures QualifiedSourceString == "Qjava/lang/String;"
    ensures BinaryString == "Ljava/lang/String;"
  {
  }

  lemma SimpleNamesOfString()
    ensures SimpleName(SourceString) == "String"
    ensures SimpleName(QualifiedSourceString) == "String"
    ensures SimpleName(BinaryString) == "String"
  {
    SimpleNameOfReference('Q', "", "String");
    SimpleNameOfReference('Q', "java/lang/", "String");
    SimpleNameOfReference('L', "java/lang/", "String");
  }

  lemma SimpleNamesOfStringArrays()
    ensures SimpleName("[" + SourceString) == "String[]"
    ensures SimpleName("[" + BinaryString) == "String[]"
  {
    SimpleNamesOfString();
    SimpleNameOfArray(SourceString);
    SimpleNameOfArray(BinaryString);
    assert "String" + "[]" == "String[]";
  }

  lemma SimpleNamesOfInt()
    ensures SimpleName("I") == "int"
    ensures SimpleName("[[I") == "int[][]"
  {
    var s := "I";
    assert ArrayDepth(s) == 0;
    assert s[0..] == s;
    SimpleNameOfArray("I");
    assert "[" + "I" == "[I";
    SimpleNameOfArray("[I");
    assert "[" + "[I" == "[[I";
  }

  /** `public static void main(String[] args)`, in source form and in
      binary form. */
  lemma MainMethods()
    ensures
      var h := MethodHandle("Sample", "main", ["[" + SourceString]);
      var d := Declaration(Method, true, true, "V", [], Declared(["args"]));
      IsMainMethod(Only(h, d), h) == Success(true)
      && IsMainMethod(Only(h, d.(isStatic := false)), h) == Success(false)
    ensures
      var h := MethodHandle("Sample", "main", ["[" + BinaryString]);
      var d := Declaration(Method, true, true, "V", [], Binary);
      IsMainMethod(Only(h, d), h) == Success(true)
  {
    SimpleNamesOfStringArrays();
  }

  /** `foo(String)` and `foo(java.lang.String)` are similar; a different
      name or an extra parameter is not. */
  lemma SimilarAcrossQualifiers()
    ensures IsSimilar(MethodHandle("A", "foo", [SourceString]), MethodHandle("B", "foo", [QualifiedSourceString]))
    ensures !IsSimilar(MethodHandle("A", "foo", [SourceString]), MethodHandle("A", "bar", [SourceString]))
    ensures !IsSimilar(MethodHandle("A", "foo", [SourceString]), MethodHandle("A", "foo", [SourceString, "I"]))
  {
    SimpleNamesOfString();
  }
}
