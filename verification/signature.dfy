/** The part of the type-signature encoding that the method contract relies on.
    Signatures are strings: a primitive is one letter (`V` for void, `I` for int,
    ...), a reference type is `Q` (source form) or `L` (binary form) followed by
    its name and `;`, each leading `[` adds one array dimension, and a method
    signature is `(` + parameter signatures + `)` + return signature, as in
    the method descriptors of section 4.3.3 of the Java Virtual Machine
    Specification.

    `SimpleName` is a deliberately small stand-in for the signature utility's
    simple-name operation, which is not part of this model: it covers
    primitive letters, `Q`/`L` names with `/` or `.` qualifiers, and array
    markers, and passes anything else through unchanged. */
module Signature {
  import opened Wrappers

  /** The signature of `void`. */
  const VoidSig: string := "V"

  predicate IsVoid(sig: string) {
    sig == VoidSig
  }

  // ---------------------------------------------------------------------
  // Method signatures
  // ---------------------------------------------------------------------

  /** The parameter signatures written one after another. */
  function Concat(ss: seq<string>): string {
    if ss == [] then [] else ss[0] + Concat(ss[1..])
  }

  /** A character none of the parts holds is not in their concatenation. */
  lemma {:induction false} ConcatAvoids(ss: seq<string>, c: char)
    requires forall i :: 0 <= i < |ss| ==> c !in ss[i]
    ensures c !in Concat(ss)
    decreases |ss|
  {
    if ss != [] {
      ConcatAvoids(ss[1..], c);
      assert c !in ss[0];
    }
  }

  /** The method signature built from parameter and return signatures. */
  function MethodSignature(params: seq<string>, ret: string): (r: string)
    ensures |r| == |Concat(params)| + 2 + |ret|
    ensures r[0] == '(' && r[|Concat(params)| + 1] == ')'
    ensures r[1..|Concat(params)| + 1] == Concat(params)
    ensures r[|Concat(params)| + 2..] == ret
  {
    "(" + Concat(params) + ")" + ret
  }

  /** The position of the first `c` in `s`, if any. */
  function IndexOf(s: string, c: char): (r: Option<nat>)
    ensures r.None? <==> c !in s
    ensures r.Some? ==> r.value < |s| && s[r.value] == c && c !in s[..r.value]
  {
    if s == [] then None
    else if s[0] == c then Some(0)
    else
      match IndexOf(s[1..], c)
      case None => None
      case Some(k) =>
        assert s[..k + 1] == [s[0]] + s[1..][..k];
        Some(k + 1)
  }

  lemma IndexOfIsFirst(s: string, c: char, k: nat)
    requires k < |s| && s[k] == c && c !in s[..k]
    ensures IndexOf(s, c) == Some(k)
  {
  }

  /** Splits a method signature into its parameter part (between the
      parentheses) and its return part; fails when `sig` does not open with
      `(` or has no `)`. */
  function SplitMethodSignature(sig: string): (r: Option<(string, string)>)
    ensures r.Some? <==> |sig| > 0 && sig[0] == '(' && ')' in sig[1..]
    ensures r.Some? ==> sig == "(" + r.value.0 + ")" + r.value.1 && ')' !in r.value.0
  {
    if |sig| == 0 || sig[0] != '(' then None
    else
      match IndexOf(sig[1..], ')')
      case None => None
      case Some(k) =>
        var params := sig[1..][..k];
        var ret := sig[1..][k + 1..];
        assert sig == "(" + params + ")" + ret by {
          assert sig[1..] == params + [')'] + ret;
        }
        Some((params, ret))
  }

  /** Splitting undoes building, provided no parameter signature holds `)`
      (which no well-formed type signature does). */
  lemma SplitMethodSignatureInverts(params: seq<string>, ret: string)
    requires forall i :: 0 <= i < |params| ==> ')' !in params[i]
    ensures SplitMethodSignature(MethodSignature(params, ret)) == Some((Concat(params), ret))
  {
    var p := Concat(params);
    ConcatAvoids(params, ')');
    var tail := p + ")" + ret;
    assert tail[..|p|] == p;
    assert tail[|p| + 1..] == ret;
    IndexOfIsFirst(tail, ')', |p|);
    SplitAfterOpening(tail);
  }

  lemma SplitAfterOpening(tail: string)
    requires ')' in tail
    ensures SplitMethodSignature("(" + tail) ==
      Some((tail[..IndexOf(tail, ')').value], tail[IndexOf(tail, ')').value + 1..]))
  {
    assert ("(" + tail)[1..] == tail;
  }

  // ---------------------------------------------------------------------
  // Simple names
  // ---------------------------------------------------------------------

  predicate IsQualifierSeparator(c: char) {
    c == '/' || c == '.'
  }

  /** A name without any qualifier separator. */
  predicate IsPlainName(name: string) {
    '/' !in name && '.' !in name
  }

  /** A qualifier prefix is empty or ends with a separator, as `java/lang/`. */
  predicate IsQualifierPrefix(prefix: string) {
    prefix == [] || IsQualifierSeparator(prefix[|prefix| - 1])
  }

  /** The part of `name` after its last `/` or `.`. */
  function Unqualified(name: string): string {
    if name == [] then []
    else if IsQualifierSeparator(name[|name| - 1]) then []
    else Unqualified(name[..|name| - 1]) + [name[|name| - 1]]
  }

  /** `Unqualified` gives the longest suffix of `name` that holds no `/` or `.`. */
  lemma {:induction false} UnqualifiedIsLongestPlainSuffix(name: string)
    ensures |Unqualified(name)| <= |name|
    ensures Unqualified(name) == name[|name| - |Unqualified(name)|..]
    ensures IsPlainName(Unqualified(name))
    ensures |Unqualified(name)| < |name| ==> IsQualifierSeparator(name[|name| - |Unqualified(name)| - 1])
    decreases |name|
  {
    if name != [] && !IsQualifierSeparator(name[|name| - 1]) {
      var init := name[..|name| - 1];
      UnqualifiedIsLongestPlainSuffix(init);
      var r := Unqualified(init);
      assert init[|init| - |r|..] + [name[|name| - 1]] == name[|name| - |r| - 1..];
      if |r| < |init| {
        assert name[|name| - |r| - 2] == init[|init| - |r| - 1];
      }
    }
  }

  /** A qualifier prefix in front of a plain name is dropped. */
  lemma {:induction false} UnqualifiedDropsPrefix(prefix: string, name: string)
    requires IsQualifierPrefix(prefix)
    requires IsPlainName(name)
    ensures Unqualified(prefix + name) == name
    decreases |name|
  {
    var full := prefix + name;
    if name == [] {
      assert full == prefix;
    } else {
      var init := name[..|name| - 1];
      var last := name[|name| - 1];
      assert last in name;
      assert forall c :: c in init ==> c in name;
      assert full[..|full| - 1] == prefix + init;
      assert full[|full| - 1] == last;
      UnqualifiedDropsPrefix(prefix, init);
      assert init + [last] == name;
    }
  }

  /** The number of leading `[` markers. */
  function ArrayDepth(sig: string): (n: nat)
    ensures n <= |sig|
  {
    if sig != [] && sig[0] == '[' then 1 + ArrayDepth(sig[1..]) else 0
  }

  /** `ArrayDepth` counts exactly the `[` markers in front of the element type. */
  lemma {:induction false} ArrayDepthCountsMarkers(sig: string)
    ensures forall i :: 0 <= i < ArrayDepth(sig) ==> sig[i] == '['
    ensures ArrayDepth(sig) < |sig| ==> sig[ArrayDepth(sig)] != '['
    decreases |sig|
  {
    if sig != [] && sig[0] == '[' {
      ArrayDepthCountsMarkers(sig[1..]);
    }
  }

  /** `n` array suffixes `[]`. */
  function Brackets(n: nat): (r: string)
    ensures |r| == 2 * n
  {
    if n == 0 then [] else Brackets(n - 1) + "[]"
  }

  predicate IsPrimitiveLetter(c: char) {
    c in "VZBCSIJFD"
  }

  function PrimitiveKeyword(c: char): (r: string)
    requires IsPrimitiveLetter(c)
    ensures r != []
  {
    match c
    case 'V' => "void"
    case 'Z' => "boolean"
    case 'B' => "byte"
    case 'C' => "char"
    case 'S' => "short"
    case 'I' => "int"
    case 'J' => "long"
    case 'F' => "float"
    case 'D' => "double"
  }

  /** The simple name of a non-array signature. */
  function ElementSimpleName(sig: string): string {
    if 2 <= |sig| && (sig[0] == 'Q' || sig[0] == 'L') && sig[|sig| - 1] == ';' then
      Unqualified(sig[1..|sig| - 1])
    else if |sig| == 1 && IsPrimitiveLetter(sig[0]) then
      PrimitiveKeyword(sig[0])
    else
      sig
  }

  /** The display name of the type a signature encodes, without qualifier,
      with one `[]` per array dimension. */
  function SimpleName(sig: string): string {
    var dims := ArrayDepth(sig);
    ElementSimpleName(sig[dims..]) + Brackets(dims)
  }

  /** Each array marker adds exactly one `[]` to the simple name. */
  lemma SimpleNameOfArray(sig: string)
    ensures SimpleName("[" + sig) == SimpleName(sig) + "[]"
  {
    var a := "[" + sig;
    assert a[1..] == sig;
    assert a[ArrayDepth(a)..] == sig[ArrayDepth(sig)..];
  }

  /** The signature of the reference type named `prefix + name`, in source
      (`Q`) or binary (`L`) form. */
  function ReferenceSignature(marker: char, prefix: string, name: string): string {
    [marker] + prefix + name + ";"
  }

  /** The simple name of a reference type ignores its qualifier and whether
      it is written in source (`Q`) or binary (`L`) form. */
  lemma SimpleNameOfReference(marker: char, prefix: string, name: string)
    requires marker == 'Q' || marker == 'L'
    requires IsQualifierPrefix(prefix)
    requires IsPlainName(name)
    ensures SimpleName(ReferenceSignature(marker, prefix, name)) == name
  {
    var sig := ReferenceSignature(marker, prefix, name);
    assert ArrayDepth(sig) == 0;
    assert sig[0..] == sig;
    assert sig[1..|sig| - 1] == prefix + name;
    UnqualifiedDropsPrefix(prefix, name);
  }
}
