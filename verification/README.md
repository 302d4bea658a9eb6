# Method handles of the Java model, in Dafny

This project models the contract of `IMethod` from the Eclipse JDT Java model. `IMethod` represents
a method or constructor declared in a type.

The method is seen through a **handle**. A handle is an immutable identifier holding three things:

- the declaring type's simple name,
- the element name,
- the parameter-type signatures (strings such as `"QString;"` and `"I"`).

There are two kinds of query on a handle:

- **Handle-only queries** are `ElementName`, `ParameterTypes`, `NumberOfParameters` and `IsSimilar`.
  They are total and read only the handle.
- **Resolving queries** are `ExceptionTypes`, `ParameterNames`, `ReturnType`, `GetSignature`,
  `IsConstructor` and `IsMainMethod`. Each one asks the backing store for the live `Declaration`.
  It returns `Failure(ElementDoesNotExist(h))` when the store has none.

The store is a plain function parameter, `Lookup = MethodHandle -> Option<Declaration>`.

A `Declaration` holds the following:

- the member kind (method, constructor or class initializer),
- whether it is static and whether it is public,
- its return-type signature,
- its exception-type signatures in declared order,
- its parameter names, either as declared in source (`Declared`) or unavailable because the type
  is binary (`Binary`).

Modules:

- `Wrappers` holds `Option` and `Result`.
- `Decimal` renders a natural number in decimal, as Java's `"arg" + i` does. It also parses the
  result back.
- `Signature` builds method signatures as `(` + parameter signatures + `)` + return signature, which
  is the layout of the method descriptors in section 4.3.3 of the Java Virtual Machine
  Specification. It can also split a method signature back into those two parts. It also defines
  `SimpleName`, a deliberately small **assumed** stand-in for `Signature.getSimpleName`, which is
  not part of this model. `SimpleName` works as follows:
  - each leading `[` becomes one trailing `[]`;
  - `Q…;` and `L…;` lose the marker, the `;` and the qualifier up to the last `/` or `.`;
  - a single primitive letter becomes its keyword;
  - any other signature passes through unchanged.

  This is an assumption covering the documented examples. It is not a transcription of the
  signature utility.
- `Methods` holds the handle, the declaration, the store and all ten queries. It also holds the
  naming rules for handles built from class-file members.
- `MethodProperties` holds lemmas relating the queries to each other.
- `DocExamples` restates the examples from the documentation comments as concrete facts.

Two choices follow the interface's documentation to the letter:

- Parameter names are invented as `arg1` … `argN` for members of **binary** types, even when the
  binary type has source attached. Being a binary member is what decides it, not whether names
  could be recovered.
- A main method's single parameter must have the **simple name** `String[]`. The model does not
  decode the type and then look for a one-dimensional array of `String`.

## Model

| member | source | states |
|---|---|---|
| Methods.BinaryHandle | org.eclipse.jdt.core/model/org/eclipse/jdt/core/IMethod.java:15-24 | a class-file constructor (`<init>`) gets the declaring type's simple name as element name; every other member keeps its binary name, so a class initializer is named `<clinit>`; the parameter types are kept as given |
| Methods.BinaryHandleMatches | org.eclipse.jdt.core/model/org/eclipse/jdt/core/IMethod.java:15-24 | a handle built from a class-file member obeys the naming rules (never `<init>`, constructors named after the type, initializers `<clinit>`) for that member's declaration |
| Methods.ElementName | org.eclipse.jdt.core/model/org/eclipse/jdt/core/IMethod.java:15-24 | handle-only: the name stored in the handle, with no store consulted and no failure |
| Methods.ParameterTypes | org.eclipse.jdt.core/model/org/eclipse/jdt/core/IMethod.java:57-67 | handle-only: the stored parameter-type signatures, in order and unchanged |
| Methods.NumberOfParameters | org.eclipse.jdt.core/model/org/eclipse/jdt/core/IMethod.java:39-43 | handle-only: the number of parameter-type signatures, zero exactly when the parameter types are empty |
| Methods.AgreeUnder | org.eclipse.jdt.core/model/org/eclipse/jdt/core/IMethod.java:116-129 | two parameter lists agree under a key (the simple name, for similarity) when they have the same length and the keys are equal position by position |
| Methods.IsSimilar | org.eclipse.jdt.core/model/org/eclipse/jdt/core/IMethod.java:116-129 | similar exactly when the element names are equal, the parameter counts are equal and every parameter type has the same simple name |
| Methods.Resolve | org.eclipse.jdt.core/model/org/eclipse/jdt/core/IMethod.java:33-34 | succeeds with the store's declaration when there is one, and otherwise fails with `ElementDoesNotExist` for this handle |
| Methods.ExceptionTypes | org.eclipse.jdt.core/model/org/eclipse/jdt/core/IMethod.java:25-38 | fails exactly when the element does not exist; otherwise it returns the declared exception signatures in declared order, empty when none are thrown |
| Methods.SyntheticNames | org.eclipse.jdt.core/model/org/eclipse/jdt/core/IMethod.java:46-47 | `n` invented names, the one at position `i` being `arg` followed by `i + 1` in decimal |
| Methods.ParameterNames | org.eclipse.jdt.core/model/org/eclipse/jdt/core/IMethod.java:44-56 | fails exactly when the element does not exist; returns the declared names for a source member, and `arg1` … `argN` for a binary member, with N the parameter count |
| Methods.ReturnType | org.eclipse.jdt.core/model/org/eclipse/jdt/core/IMethod.java:68-80 | fails exactly when the element does not exist; void for a constructor, otherwise the declared return signature |
| Methods.GetSignature | org.eclipse.jdt.core/model/org/eclipse/jdt/core/IMethod.java:81-93 | fails exactly when the return type cannot be resolved; otherwise it is the method signature of the handle's parameter types and the resolved return type |
| Methods.IsConstructor | org.eclipse.jdt.core/model/org/eclipse/jdt/core/IMethod.java:94-100 | fails exactly when the element does not exist; true exactly when the live declaration is a constructor |
| Methods.IsMainMethod | org.eclipse.jdt.core/model/org/eclipse/jdt/core/IMethod.java:101-115 | fails exactly when the element does not exist; otherwise true exactly when all of these hold: the name is `main`, the return-type query gives void, the method is static and public, and there is one parameter whose simple name is `String[]` |
| Signature.MethodSignature | org.eclipse.jdt.core/model/org/eclipse/jdt/core/IMethod.java:81-86 | the signature opens with `(`, holds the parameter signatures in order, then `)`, then the return signature, and nothing else |
| Signature.SplitMethodSignature | org.eclipse.jdt.core/model/org/eclipse/jdt/core/IMethod.java:81-86 | a signature splits exactly when it opens with `(` and has a `)`; the parts rebuild the signature and the parameter part holds no `)` |
| Signature.SplitMethodSignatureInverts | org.eclipse.jdt.core/model/org/eclipse/jdt/core/IMethod.java:81-86 | splitting a built method signature recovers the parameter signatures and the return signature it was built from |
| Signature.UnqualifiedIsLongestPlainSuffix | org.eclipse.jdt.core/model/org/eclipse/jdt/core/IMethod.java:126 | (assumed simple-name rule) the unqualified part of a name is its longest suffix without `/` or `.`: a suffix of the name, free of separators, and preceded by a separator whenever it is shorter than the name |
| Signature.UnqualifiedDropsPrefix | org.eclipse.jdt.core/model/org/eclipse/jdt/core/IMethod.java:126 | (assumed simple-name rule) a qualifier prefix such as `java/lang/` in front of a plain name is dropped |
| Signature.ArrayDepthCountsMarkers | org.eclipse.jdt.core/model/org/eclipse/jdt/core/IMethod.java:126 | (assumed simple-name rule) the array depth is the number of `[` markers in front of the element type, and the character after them is not `[` |
| Signature.SimpleNameOfArray | org.eclipse.jdt.core/model/org/eclipse/jdt/core/IMethod.java:126 | (assumed simple-name rule) each array marker adds exactly one `[]` to the simple name |
| Signature.SimpleNameOfReference | org.eclipse.jdt.core/model/org/eclipse/jdt/core/IMethod.java:126 | (assumed simple-name rule) a reference type in source (`Q`) or binary (`L`) form, qualified or not, has its unqualified name as simple name |
| Signature.ConcatAvoids | org.eclipse.jdt.core/model/org/eclipse/jdt/core/IMethod.java:81-86 | a character that no parameter signature holds does not occur in the parameter part of the signature |
| Decimal.NatToString | org.eclipse.jdt.core/model/org/eclipse/jdt/core/IMethod.java:46 | the index in `"arg"+i` is written as at least one decimal digit with no leading zero |
| Decimal.ParseNatToString | org.eclipse.jdt.core/model/org/eclipse/jdt/core/IMethod.java:46 | reading the decimal text of a number gives the number back |
| Decimal.NatToStringInjective | org.eclipse.jdt.core/model/org/eclipse/jdt/core/IMethod.java:46 | different numbers have different decimal text |
| MethodProperties.StaleHandle | org.eclipse.jdt.core/model/org/eclipse/jdt/core/IMethod.java:15-115 | when the declaration is gone, every resolving query fails with the same error, while the handle-only queries still return the stored name and parameter types |
| MethodProperties.SignatureSplits | org.eclipse.jdt.core/model/org/eclipse/jdt/core/IMethod.java:81-93 | a live method's signature splits back into its parameter types and its return type |
| MethodProperties.SignatureIgnoresNameAndExceptions | org.eclipse.jdt.core/model/org/eclipse/jdt/core/IMethod.java:82-83 | the signature does not depend on the method name or the exception types |
| MethodProperties.ConstructorShape | org.eclipse.jdt.core/model/org/eclipse/jdt/core/IMethod.java:68-80 | a constructor's return type is void and its signature ends in `)V`; its naming after the declaring type (IMethod.java:17-19) is taken from the consistency assumption, not derived |
| MethodProperties.ParameterNamesPerParameter | org.eclipse.jdt.core/model/org/eclipse/jdt/core/IMethod.java:44-56 | in a consistent store there is one parameter name per parameter, so the names are empty exactly when there are no parameters |
| MethodProperties.ArgNameInjective | org.eclipse.jdt.core/model/org/eclipse/jdt/core/IMethod.java:46 | different indices give different `arg` names |
| MethodProperties.SyntheticNamesDistinct | org.eclipse.jdt.core/model/org/eclipse/jdt/core/IMethod.java:46-47 | the invented parameter names are pairwise distinct |
| MethodProperties.SyntheticNamesPrefix | org.eclipse.jdt.core/model/org/eclipse/jdt/core/IMethod.java:46-47 | each position gets the same invented name whatever the parameter count |
| MethodProperties.SimilarReflexive | org.eclipse.jdt.core/model/org/eclipse/jdt/core/IMethod.java:116-129 | every method is similar to itself |
| MethodProperties.SimilarSymmetric | org.eclipse.jdt.core/model/org/eclipse/jdt/core/IMethod.java:116-129 | similarity is symmetric |
| MethodProperties.SimilarTransitive | org.eclipse.jdt.core/model/org/eclipse/jdt/core/IMethod.java:116-129 | similarity is transitive |
| MethodProperties.NotSimilarWhenNameOrCountDiffers | org.eclipse.jdt.core/model/org/eclipse/jdt/core/IMethod.java:120-121 | methods whose names or parameter counts differ are never similar |
| MethodProperties.SimilarIgnoresQualifier | org.eclipse.jdt.core/model/org/eclipse/jdt/core/IMethod.java:122-126 | qualifying one parameter type's name keeps the method similar to the original |
| MethodProperties.MainMethodNeedsEachCondition | org.eclipse.jdt.core/model/org/eclipse/jdt/core/IMethod.java:103-109 | falsifying any one condition (name, void return, static and public, one parameter, its simple name) makes the method not a main method |
| MethodProperties.MainMethodSignature | org.eclipse.jdt.core/model/org/eclipse/jdt/core/IMethod.java:101-115 | a main method's signature is `(` + its one parameter type + `)V`, and that parameter's simple name is `String[]` |
| DocExamples.OtherHandleDoesNotExist | org.eclipse.jdt.core/model/org/eclipse/jdt/core/IMethod.java:33-34 | under a store holding only `foo(String, int)`, the handle `foo(String, long)` names no element: all six resolving queries fail with `ElementDoesNotExist`, while its name and parameter count are still answered |
| DocExamples.FooQueries | org.eclipse.jdt.core/model/org/eclipse/jdt/core/IMethod.java:50-93 | `public void foo(String text, int length)` has parameter types `{"QString;","I"}`, names `{"text","length"}` and signature `"(QString;I)V"` |
| DocExamples.GetNameReturnType | org.eclipse.jdt.core/model/org/eclipse/jdt/core/IMethod.java:72-73 | `public String getName()` returns `"QString;"` |
| DocExamples.ThrowsIOException | org.eclipse.jdt.core/model/org/eclipse/jdt/core/IMethod.java:30-31 | `throws IOException` gives `{"QIOException;"}` |
| DocExamples.BinaryParameterNames | org.eclipse.jdt.core/model/org/eclipse/jdt/core/IMethod.java:46-47 | a binary method with three parameters has the names `arg1`, `arg2` and `arg3` |
| DocExamples.BinaryConstructor | org.eclipse.jdt.core/model/org/eclipse/jdt/core/IMethod.java:17-19 | a class-file `<init>` is named after its type, is a constructor and has signature `"(I)V"` |
| DocExamples.SimpleNamesOfString | org.eclipse.jdt.core/model/org/eclipse/jdt/core/IMethod.java:126 | (assumed simple-name rule) all three of those signatures have the simple name `String` |
| DocExamples.SimpleNamesOfStringArrays | org.eclipse.jdt.core/model/org/eclipse/jdt/core/IMethod.java:108 | (assumed simple-name rule) `[QString;` and `[Ljava/lang/String;` have the simple name `String[]` |
| DocExamples.SimpleNamesOfInt | org.eclipse.jdt.core/model/org/eclipse/jdt/core/IMethod.java:126 | (assumed simple-name rule) `I` has the simple name `int`, and `[[I` has `int[][]` |
| DocExamples.MainMethods | org.eclipse.jdt.core/model/org/eclipse/jdt/core/IMethod.java:101-115 | `public static void main(String[] args)` is a main method in source and in binary form, and is not one once it is no longer static |
| DocExamples.SimilarAcrossQualifiers | org.eclipse.jdt.core/model/org/eclipse/jdt/core/IMethod.java:116-129 | `foo(String)` and `foo(java.lang.String)` are similar; a different name or an extra parameter is not |

## Left out

- The backing Java model is not part of this model. That covers `IMember`, the workspace, the
  parsers and the class-file readers. It is the `Lookup` function parameter. Each call of a
  resolving query sees whatever that function answers, and no caching or threading is modelled.
- There is one error, `ElementDoesNotExist`. It covers "does not exist" and "an exception occurs
  while accessing its corresponding resource". The causes of the second (I/O, corrupt class files)
  are not distinguished.
- The signature utility is not part of this model. That covers the full type-signature grammar with
  generics, its encoder and decoder, and their round trips. The only part modelled is the
  method-signature layout. `SimpleName` is an assumed minimal rule. It ignores generic type
  arguments and trusts its input to be well formed.
- The declaration holds its return and exception types already as signatures. Encoding them from
  source text is left to the store.
- Methods.NumberOfParameters: the result is an unbounded `nat`, not a 32-bit `int`. A method
  cannot have more than 255 parameters, so the two never differ.
- Methods.ParameterNames: declared names are returned as the store gives them. That there is one
  name per parameter holds only for a store that is consistent at the handle, which
  `MethodProperties.ParameterNamesPerParameter` assumes.
- Methods.ElementName: the rule that a constructor is named after its declaring type and never
  `<init>` is proved only for handles built from class-file members (`Methods.BinaryHandleMatches`).
  For any other handle it is an assumption about the store (`Methods.ConsistentAt`), because how
  the store builds handles for source members is not part of this model.
- MethodProperties.ConstructorShape: its naming conclusions come from its `ConsistentAt`
  precondition rather than being derived; only the void return and the `)V` ending are proved.
