/** Properties of the method model that relate several queries. */
module MethodProperties {
  import opened Wrappers
  import opened Decimal
  import opened Signature
  import opened Methods

  /** A handle whose declaration is gone still answers every handle-only
      query with its own data, while every resolving query fails with the
      same error. */
  lemma StaleHandle(lookup: Lookup, h: MethodHandle)
    requires lookup(h).None?
    ensures ElementName(h) == h.name
    ensures ParameterTypes(h) == h.parameterTypes
    ensures NumberOfParameters(h) == |h.parameterTypes|
    ensures ExceptionTypes(lookup, h) == Failure(ElementDoesNotExist(h))
    ensures ParameterNames(lookup, h) == Failure(ElementDoesNotExist(h))
    ensures ReturnType(lookup, h) == Failure(ElementDoesNotExist(h))
    ensures GetSignature(lookup, h) == Failure(ElementDoesNotExist(h))
    ensures IsConstructor(lookup, h) == Failure(ElementDoesNotExist(h))
    ensures IsMainMethod(lookup, h) == Failure(ElementDoesNotExist(h))
  {
  }

  /** The signature splits back into the parameter signatures and the
      return type it was built from. */
  lemma SignatureSplits(lookup: Lookup, h: MethodHandle)
    requires lookup(h).Some?
    requires forall i :: 0 <= i < |h.parameterTypes| ==> ')' !in h.parameterTypes[i]
    ensures GetSignature(lookup, h).Success?
    ensures SplitMethodSignature(GetSignature(lookup, h).value)
              == Some((Concat(ParameterTypes(h)), ReturnType(lookup, h).value))
  {
    SplitMethodSignatureInverts(h.parameterTypes, ReturnType(lookup, h).value);
  }

  /** The signature does not depend on the element name or on the
      exception types: handles with the same parameter types whose
      declarations report the same return type have the same signature. */
  lemma SignatureIgnoresNameAndExceptions(lookup: Lookup, h1: MethodHandle, h2: MethodHandle)
    requires lookup(h1).Some? && lookup(h2).Some?
    requires h1.parameterTypes == h2.parameterTypes
    requires ReturnType(lookup, h1) == ReturnType(lookup, h2)
    ensures GetSignature(lookup, h1) == GetSignature(lookup, h2)
  {
  }

  /** A constructor returns void, so its signature ends in `)V`, and it is
      named after its declaring type rather than `<init>`. */
  lemma ConstructorShape(lookup: Lookup, h: MethodHandle)
    requires ConsistentAt(lookup, h)
    requires IsConstructor(lookup, h) == Success(true)
    ensures ReturnType(lookup, h) == Success(VoidSig)
    ensures GetSignature(lookup, h) == Success("(" + Concat(ParameterTypes(h)) + ")V")
    ensures ElementName(h) == h.declaringTypeName
    ensures ElementName(h) != ConstructorBinaryName
  {
    assert "(" + Concat(h.parameterTypes) + ")" + VoidSig == "(" + Concat(h.parameterTypes) + ")V";
  }

  /** There is one parameter name per parameter, so no names exactly when
      there are no parameters. */
  lemma ParameterNamesPerParameter(lookup: Lookup, h: MethodHandle)
    requires ConsistentAt(lookup, h)
    requires lookup(h).Some?
    ensures ParameterNames(lookup, h).Success?
    ensures |ParameterNames(lookup, h).value| == NumberOfParameters(h)
    ensures ParameterNames(lookup, h).value == [] <==> ParameterTypes(h) == []
  {
  }

  lemma ArgNameInjective(i: nat, j: nat)
    requires "arg" + NatToString(i) == "arg" + NatToString(j)
    ensures i == j
  {
    assert ("arg" + NatToString(i))[3..] == NatToString(i);
    assert ("arg" + NatToString(j))[3..] == NatToString(j);
    NatToStringInjective(i, j);
  }

  /** The invented names are pairwise distinct. */
  lemma SyntheticNamesDistinct(n: nat)
    ensures forall i, j :: 0 <= i < j < n ==> SyntheticNames(n)[i] != SyntheticNames(n)[j]
  {
    var names := SyntheticNames(n);
    forall i, j | 0 <= i < j < n
      ensures names[i] != names[j]
    {
      if names[i] == names[j] {
        ArgNameInjective(i + 1, j + 1);
      }
    }
  }

  /** Each position is named the same way whatever the arity: the names
      for `n` parameters start with the names for fewer. */
  lemma SyntheticNamesPrefix(m: nat, n: nat)
    requires m <= n
    ensures SyntheticNames(n)[..m] == SyntheticNames(m)
  {
  }

  // ---------------------------------------------------------------------
  // Similarity
  // ---------------------------------------------------------------------

  lemma SimilarReflexive(a: MethodHandle)
    ensures IsSimilar(a, a)
  {
  }

  lemma SimilarSymmetric(a: MethodHandle, b: MethodHandle)
    ensures IsSimilar(a, b) <==> IsSimilar(b, a)
  {
  }

  lemma SimilarTransitive(a: MethodHandle, b: MethodHandle, c: MethodHandle)
    requires IsSimilar(a, b) && IsSimilar(b, c)
    ensures IsSimilar(a, c)
  {
  }

  /** Methods with different names or parameter counts are never similar. */
  lemma NotSimilarWhenNameOrCountDiffers(a: MethodHandle, b: MethodHandle)
    requires ElementName(a) != ElementName(b) || NumberOfParameters(a) != NumberOfParameters(b)
    ensures !IsSimilar(a, b)
  {
  }

  /** Requalifying a reference parameter type (say `QString;` as
      `Qjava/lang/String;`, or switching between source and binary form)
      keeps a method similar to the original. */
  lemma SimilarIgnoresQualifier(h: MethodHandle, i: nat, marker: char, prefix: string, marker': char, prefix': string, name: string)
    requires i < |h.parameterTypes|
    requires marker in "QL" && marker' in "QL"
    requires IsQualifierPrefix(prefix) && IsQualifierPrefix(prefix')
    requires IsPlainName(name)
    requires h.parameterTypes[i] == ReferenceSignature(marker, prefix, name)
    ensures IsSimilar(h, h.(parameterTypes := h.parameterTypes[i := ReferenceSignature(marker', prefix', name)]))
  {
    var h' := h.(parameterTypes := h.parameterTypes[i := ReferenceSignature(marker', prefix', name)]);
    SimpleNameOfReference(marker, prefix, name);
    SimpleNameOfReference(marker', prefix', name);
    assert SimpleName(h.parameterTypes[i]) == SimpleName(h'.parameterTypes[i]);
    assert AgreeUnder(SimpleName, h.parameterTypes, h'.parameterTypes);
  }

  // ---------------------------------------------------------------------
  // Main methods
  // ---------------------------------------------------------------------

  /** Falsifying any one of the four conditions makes a method not a main method. */
  lemma MainMethodNeedsEachCondition(lookup: Lookup, h: MethodHandle)
    requires lookup(h).Some?
    ensures ElementName(h) != "main" ==> IsMainMethod(lookup, h) == Success(false)
    ensures !IsVoid(ReturnType(lookup, h).value) ==> IsMainMethod(lookup, h) == Success(false)
    ensures !(lookup(h).value.isStatic && lookup(h).value.isPublic) ==> IsMainMethod(lookup, h) == Success(false)
    ensures NumberOfParameters(h) != 1 ==> IsMainMethod(lookup, h) == Success(false)
    ensures NumberOfParameters(h) == 1 && SimpleName(ParameterTypes(h)[0]) != MainParameterSimpleName ==>
              IsMainMethod(lookup, h) == Success(false)
  {
  }

  /** A main method's signature is that of `void main(String[])`, up to
      how the parameter type is qualified. */
  lemma MainMethodSignature(lookup: Lookup, h: MethodHandle)
    requires IsMainMethod(lookup, h) == Success(true)
    ensures GetSignature(lookup, h) == Success("(" + ParameterTypes(h)[0] + ")V")
    ensures SimpleName(ParameterTypes(h)[0]) == "String[]"
  {
    assert h.parameterTypes[1..] == [];
    assert Concat(h.parameterTypes) == h.parameterTypes[0];
    assert "(" + h.parameterTypes[0] + ")" + VoidSig == "(" + h.parameterTypes[0] + ")V";
  }
}
