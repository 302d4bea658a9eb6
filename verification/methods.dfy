/** A method (or constructor) declared in a type, seen through a handle.

    A handle is an immutable identifier: the simple name of the declaring
    type, the element name and the parameter-type signatures. Handle-only
    queries answer from those fields and never fail. Resolving queries ask
    the backing store for the live declaration the handle identifies and
    fail with `ElementDoesNotExist` when the store has none; the store is
    the `Lookup` parameter, so each resolving query sees whatever the store
    answers at the time of the call. */
module Methods {
  import opened Wrappers
  import opened Decimal
  import opened Signature

  /** Identity of a declared method: enough to find it again, nothing resolved. */
  datatype MethodHandle = MethodHandle(
    declaringTypeName: string,
    name: string,
    parameterTypes: seq<string>)

  datatype MemberKind = Method | Constructor | Initializer

  /** Where parameter names come from: the names declared in source, or none
      at all because the member comes from a binary type. */
  datatype ParameterNameSource = Declared(names: seq<string>) | Binary

  /** The live declaration the store holds for a handle. */
  datatype Declaration = Declaration(
    kind: MemberKind,
    isStatic: bool,
    isPublic: bool,
    returnType: string,
    exceptionTypes: seq<string>,
    parameterNames: ParameterNameSource)

  /** The failure of every resolving query: the element does not exist (or
      its resource could not be read; the store does not tell them apart). */
  datatype ModelError = ElementDoesNotExist(handle: MethodHandle)

  /** The backing store: the live declaration a handle identifies, if any. */
  type Lookup = MethodHandle -> Option<Declaration>

  // ---------------------------------------------------------------------
  // Handle construction and naming
  // ---------------------------------------------------------------------

  /** Class files name constructors `<init>` and class initializers `<clinit>`. */
  const ConstructorBinaryName: string := "<init>"
  const InitializerBinaryName: string := "<clinit>"

  /** The kind of a member read from a class file, told by its binary name. */
  function BinaryKind(binaryName: string): MemberKind {
    if binaryName == ConstructorBinaryName then Constructor
    else if binaryName == InitializerBinaryName then Initializer
    else Method
  }

  /** The handle for a member found in a class file: a constructor is named
      after its declaring type, never `<init>`; every other member keeps its
      binary name, so a class initializer is named `<clinit>`. */
  function BinaryHandle(declaringTypeName: string, binaryName: string, parameterTypes: seq<string>): (h: MethodHandle)
    ensures h.declaringTypeName == declaringTypeName && h.parameterTypes == parameterTypes
    ensures BinaryKind(binaryName) == Constructor ==> h.name == declaringTypeName
    ensures BinaryKind(binaryName) != Constructor ==> h.name == binaryName
  {
    var name := if binaryName == ConstructorBinaryName then declaringTypeName else binaryName;
    MethodHandle(declaringTypeName, name, parameterTypes)
  }

  /** The naming rules a handle obeys with respect to the declaration it
      identifies, and the agreement of declared names with the parameters. */
  predicate Matches(h: MethodHandle, d: Declaration) {
    && h.name != ConstructorBinaryName
    && (d.kind == Constructor ==> h.name == h.declaringTypeName)
    && (d.kind == Initializer ==> h.name == InitializerBinaryName)
    && (d.parameterNames.Declared? ==> |d.parameterNames.names| == |h.parameterTypes|)
  }

  /** The store answers, for `h`, only a declaration that `h` matches. */
  predicate ConsistentAt(lookup: Lookup, h: MethodHandle) {
    lookup(h).Some? ==> Matches(h, lookup(h).value)
  }

  /** A handle built from a class-file member obeys the naming rules for the
      declaration of that member, whatever its name, as long as the declaring
      type's name is an ordinary one. */
  lemma BinaryHandleMatches(declaringTypeName: string, binaryName: string, parameterTypes: seq<string>, d: Declaration)
    requires declaringTypeName != ConstructorBinaryName
    requires d.kind == BinaryKind(binaryName) && d.parameterNames == Binary
    ensures Matches(BinaryHandle(declaringTypeName, binaryName, parameterTypes), d)
  {
  }

  // ---------------------------------------------------------------------
  // Handle-only queries
  // ---------------------------------------------------------------------

  function ElementName(h: MethodHandle): (r: string)
    ensures r == h.name
  {
    h.name
  }

  function ParameterTypes(h: MethodHandle): (r: seq<string>)
    ensures r == h.parameterTypes
  {
    h.parameterTypes
  }

  function NumberOfParameters(h: MethodHandle): (r: nat)
    ensures r == |ParameterTypes(h)|
    ensures r == 0 <==> ParameterTypes(h) == []
  {
    |h.parameterTypes|
  }

  /** The two lists have the same length and `key` maps them to equal
      values position by position. */
  function AgreeUnder(key: string -> string, ps: seq<string>, qs: seq<string>): (r: bool)
    ensures r <==> |ps| == |qs| && forall i :: 0 <= i < |ps| ==> key(ps[i]) == key(qs[i])
  {
    if |ps| != |qs| then false
    else if ps == [] then true
    else
      var rest := AgreeUnder(key, ps[1..], qs[1..]);
      assert forall i :: 1 <= i < |ps| ==> ps[1..][i - 1] == ps[i] && qs[1..][i - 1] == qs[i];
      key(ps[0]) == key(qs[0]) && rest
  }

  /** Two methods are similar when their element names are equal, they have
      the same number of parameters and the parameter types have the same
      simple names; qualifiers, return and exception types do not matter. */
  function IsSimilar(a: MethodHandle, b: MethodHandle): (r: bool)
    ensures r <==>
      && ElementName(a) == ElementName(b)
      && NumberOfParameters(a) == NumberOfParameters(b)
      && forall i :: 0 <= i < NumberOfParameters(a) ==>
           SimpleName(ParameterTypes(a)[i]) == SimpleName(ParameterTypes(b)[i])
  {
    a.name == b.name && AgreeUnder(SimpleName, a.parameterTypes, b.parameterTypes)
  }

  // ---------------------------------------------------------------------
  // Resolving queries
  // ---------------------------------------------------------------------

  /** The live declaration behind `h`, or the failure every resolving query reports. */
  function Resolve(lookup: Lookup, h: MethodHandle): (r: Result<Declaration, ModelError>)
    ensures r.Failure? <==> lookup(h).None?
    ensures r.Success? ==> lookup(h) == Some(r.value)
    ensures r.Failure? ==> r.error == ElementDoesNotExist(h)
  {
    match lookup(h)
    case Some(d) => Success(d)
    case None => Failure(ElementDoesNotExist(h))
  }

  function ExceptionTypes(lookup: Lookup, h: MethodHandle): (r: Result<seq<string>, ModelError>)
    ensures r.Failure? <==> lookup(h).None?
    ensures r.Success? ==> r.value == lookup(h).value.exceptionTypes
  {
    var d :- Resolve(lookup, h);
    Success(d.exceptionTypes)
  }

  /** `arg1`, ..., `argN`: the names invented for the parameters of a binary method. */
  function SyntheticNames(n: nat): (r: seq<string>)
    ensures |r| == n
    ensures forall i :: 0 <= i < n ==> r[i] == "arg" + NatToString(i + 1)
  {
    if n == 0 then [] else SyntheticNames(n - 1) + ["arg" + NatToString(n)]
  }

  function ParameterNames(lookup: Lookup, h: MethodHandle): (r: Result<seq<string>, ModelError>)
    ensures r.Failure? <==> lookup(h).None?
    ensures r.Success? && lookup(h).value.parameterNames.Declared? ==>
              r.value == lookup(h).value.parameterNames.names
    ensures r.Success? && lookup(h).value.parameterNames.Binary? ==>
              r.value == SyntheticNames(NumberOfParameters(h))
  {
    var d :- Resolve(lookup, h);
    match d.parameterNames
    case Declared(names) => Success(names)
    case Binary => Success(SyntheticNames(|h.parameterTypes|))
  }

  /** The return type a declaration reports: void for a constructor. */
  function ResolvedReturnType(d: Declaration): string {
    if d.kind == Constructor then VoidSig else d.returnType
  }

  function ReturnType(lookup: Lookup, h: MethodHandle): (r: Result<string, ModelError>)
    ensures r.Failure? <==> lookup(h).None?
    ensures r.Success? && lookup(h).value.kind == Constructor ==> IsVoid(r.value)
    ensures r.Success? && lookup(h).value.kind != Constructor ==> r.value == lookup(h).value.returnType
  {
    var d :- Resolve(lookup, h);
    Success(ResolvedReturnType(d))
  }

  /** The parameter and return signatures in method-signature form; neither
      the name nor the exception types take part. */
  function GetSignature(lookup: Lookup, h: MethodHandle): (r: Result<string, ModelError>)
    ensures r.Failure? <==> ReturnType(lookup, h).Failure?
    ensures r.Success? ==> r.value == MethodSignature(ParameterTypes(h), ReturnType(lookup, h).value)
  {
    var ret :- ReturnType(lookup, h);
    Success(MethodSignature(h.parameterTypes, ret))
  }

  function IsConstructor(lookup: Lookup, h: MethodHandle): (r: Result<bool, ModelError>)
    ensures r.Failure? <==> lookup(h).None?
    ensures r.Success? ==> (r.value <==> lookup(h).value.kind == Constructor)
  {
    var d :- Resolve(lookup, h);
    Success(d.kind == Constructor)
  }

  /** The simple name the single parameter of a main method must have. */
  const MainParameterSimpleName: string := "String[]"

  /** A main method is named `main`, returns void, is static and public, and
      has one parameter whose type's simple name is `String[]`. */
  function IsMainMethod(lookup: Lookup, h: MethodHandle): (r: Result<bool, ModelError>)
    ensures r.Failure? <==> lookup(h).None?
    ensures r.Success? ==>
      (r.value <==>
        && ElementName(h) == "main"
        && ReturnType(lookup, h) == Success(VoidSig)
        && lookup(h).value.isStatic && lookup(h).value.isPublic
        && NumberOfParameters(h) == 1
        && SimpleName(ParameterTypes(h)[0]) == MainParameterSimpleName)
  {
    var d :- Resolve(lookup, h);
    Success(
      && h.name == "main"
      && IsVoid(ResolvedReturnType(d))
      && d.isStatic && d.isPublic
      && |h.parameterTypes| == 1
      && SimpleName(h.parameterTypes[0]) == MainParameterSimpleName)
  }
}
