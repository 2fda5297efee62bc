// The CWE-338 recipe: replace every method invocation of a `RandomUtil`
// source file by a call to a synthesized helper that draws from a
// `SecureRandom`, and rebuild the class body around that helper.

module FixCwe338 {
  import opened JavaTree

  // ---------------------------------------------------------------------------
  // Applicability: a package declaration and a top-level class named RandomUtil
  // ---------------------------------------------------------------------------

  const RandomUtilName := "RandomUtil"

  /** Some class of `classes` has the simple name `RandomUtil`. */
  function DeclaresRandomUtil(classes: seq<ClassDecl>): (b: bool)
    ensures b <==> exists i :: 0 <= i < |classes| && classes[i].simpleName == RandomUtilName
  {
    if classes == [] then false
    else classes[0].simpleName == RandomUtilName || DeclaresRandomUtil(classes[1..])
  }

  /** The single-source applicable test: a unit without a package declaration
      is left alone, otherwise the top-level classes are searched by name. */
  function IsApplicable(cu: CompilationUnit): (b: bool)
    ensures cu.packageDecl.None? ==> !b
    ensures cu.packageDecl.Some? ==>
      (b <==> exists i :: 0 <= i < |cu.classes| && cu.classes[i].simpleName == RandomUtilName)
  {
    cu.packageDecl.Some? && DeclaresRandomUtil(cu.classes)
  }

  // ---------------------------------------------------------------------------
  // The members the template adds, and the two imports the recipe asks for
  // ---------------------------------------------------------------------------

  const HelperName := "generateRandomAlphanumericString"
  const SecureRandomName := "SECURE_RANDOM"
  const DefCountName := "DEF_COUNT"

  /** `generateRandomAlphanumericString()`, the call every invocation becomes. */
  const HelperCall: Expr := Invoke(Implicit, HelperName, [])

  /** `private static String generateRandomAlphanumericString() { return
      RandomStringUtils.random(DEF_COUNT, 0, 0, true, true, null, SECURE_RANDOM); }` */
  const HelperMethod: Member :=
    Method(HelperName, [Node("return", [
      Invoke(On(Name("RandomStringUtils")), "random",
        [Name(DefCountName), Literal("0"), Literal("0"), Literal("true"),
         Literal("true"), Literal("null"), Name(SecureRandomName)])])])

  /** `private static final SecureRandom SECURE_RANDOM = new SecureRandom();` */
  const SecureRandomField: Member :=
    VarDecl("SecureRandom", [SecureRandomName], [Node("new SecureRandom", [])])

  /** `private static final int DEF_COUNT = 20;` */
  const DefCountField: Member := VarDecl("int", [DefCountName], [Literal("20")])

  /** `static { SECURE_RANDOM.nextBytes(new byte[64]); }` */
  const StaticInitializer: Member :=
    StaticInit([Invoke(On(Name(SecureRandomName)), "nextBytes",
      [Node("new byte[]", [Literal("64")])])])

  /** The four statements of the template, in the order the template text lists them. */
  const Template: seq<Member> := [HelperMethod, SecureRandomField, DefCountField, StaticInitializer]

  const SecureRandomImport := Import("java.security", "SecureRandom")
  const CommonsLang2Package := "org.apache.commons.lang"
  const CommonsLang3Package := "org.apache.commons.lang3"

  // ---------------------------------------------------------------------------
  // The already-done guard
  // ---------------------------------------------------------------------------

  /** A declaration of exactly one variable, named SECURE_RANDOM. */
  predicate IsSecureRandomField(m: Member)
    ensures IsSecureRandomField(m) <==> m.VarDecl? && m.names == [SecureRandomName]
  {
    m.VarDecl? && |m.names| == 1 && m.names[0] == SecureRandomName
  }

  /** The class body already holds a single-variable SECURE_RANDOM declaration. */
  function FieldExists(body: seq<Member>): (b: bool)
    ensures b <==> exists i :: 0 <= i < |body| && IsSecureRandomField(body[i])
  {
    if body == [] then false
    else IsSecureRandomField(body[0]) || FieldExists(body[1..])
  }

  // ---------------------------------------------------------------------------
  // The invocation rewrite (children are visited before the template is added)
  // ---------------------------------------------------------------------------

  /** `e` with every invocation reduced to a bare placeholder: what the
      rewrite must keep (all code outside the invocations, in place). */
  function Shape(e: Expr): Expr
    decreases e
  {
    match e
    case Invoke(_, _, _) => Invoke(Implicit, "", [])
    case Name(_) => e
    case Literal(_) => e
    case Node(k, cs) => Node(k, Shapes(cs))
  }

  function Shapes(es: seq<Expr>): seq<Expr>
    decreases es
  {
    if es == [] then [] else [Shape(es[0])] + Shapes(es[1..])
  }

  /** Every invocation node in `e` is the zero-argument helper call. */
  predicate HelperOnly(e: Expr)
    decreases e
  {
    match e
    case Invoke(_, _, _) => e == HelperCall
    case Name(_) => true
    case Literal(_) => true
    case Node(_, cs) => AllHelperOnly(cs)
  }

  predicate AllHelperOnly(es: seq<Expr>)
    decreases es
  {
    es == [] || (HelperOnly(es[0]) && AllHelperOnly(es[1..]))
  }

  /** Number of invocations in `e` that are not nested inside another invocation. */
  function CallCount(e: Expr): nat
    decreases e
  {
    match e
    case Invoke(_, _, _) => 1
    case Name(_) => 0
    case Literal(_) => 0
    case Node(_, cs) => CallCounts(cs)
  }

  function CallCounts(es: seq<Expr>): nat
    decreases es
  {
    if es == [] then 0 else CallCount(es[0]) + CallCounts(es[1..])
  }

  /** visitMethodInvocation: an invocation is replaced whole, receiver and
      arguments included, so nested invocations disappear with it; everything
      around an invocation stays where it was. */
  function RewriteExpr(e: Expr): (r: Expr)
    ensures HelperOnly(r)
    ensures Shape(r) == Shape(e)
    ensures CallCount(r) == CallCount(e)
    decreases e
  {
    match e
    case Invoke(_, _, _) => HelperCall
    case Name(_) => e
    case Literal(_) => e
    case Node(k, cs) => Node(k, RewriteExprs(cs))
  }

  function RewriteExprs(es: seq<Expr>): (r: seq<Expr>)
    ensures |r| == |es|
    ensures AllHelperOnly(r)
    ensures Shapes(r) == Shapes(es)
    ensures CallCounts(r) == CallCounts(es)
    decreases es
  {
    if es == [] then [] else [RewriteExpr(es[0])] + RewriteExprs(es[1..])
  }

  /** The expressions a class-body statement carries. */
  function MemberExprs(m: Member): seq<Expr> {
    match m
    case VarDecl(_, _, inits) => inits
    case Method(_, body) => body
    case StaticInit(body) => body
    case Other(_, parts) => parts
  }

  /** The default traversal of a class-body statement with visitMethodInvocation applied. */
  function RewriteMember(m: Member): (r: Member)
    ensures r.VarDecl? == m.VarDecl? && r.Method? == m.Method? && r.StaticInit? == m.StaticInit?
    ensures r.VarDecl? ==> r.typeName == m.typeName && r.names == m.names
    ensures r.Method? ==> r.name == m.name
    ensures r.Other? ==> r.kind == m.kind
    ensures AllHelperOnly(MemberExprs(r))
    ensures Shapes(MemberExprs(r)) == Shapes(MemberExprs(m))
    ensures CallCounts(MemberExprs(r)) == CallCounts(MemberExprs(m))
  {
    match m
    case VarDecl(t, ns, inits) => VarDecl(t, ns, RewriteExprs(inits))
    case Method(n, body) => Method(n, RewriteExprs(body))
    case StaticInit(body) => StaticInit(RewriteExprs(body))
    case Other(k, parts) => Other(k, RewriteExprs(parts))
  }

  /** The children of a class body are visited one by one, in place. */
  function RewriteMembers(s: seq<Member>): (r: seq<Member>)
    ensures |r| == |s|
    ensures forall i :: 0 <= i < |s| ==> r[i] == RewriteMember(s[i])
    ensures forall i :: 0 <= i < |s| ==> r[i].VarDecl? == s[i].VarDecl? && AllHelperOnly(MemberExprs(r[i]))
  {
    seq(|s|, i requires 0 <= i < |s| => RewriteMember(s[i]))
  }

  // ---------------------------------------------------------------------------
  // Field removal and the rotation of the appended template
  // ---------------------------------------------------------------------------

  predicate IsField(m: Member) { m.VarDecl? }

  /** Drop every variable declaration of the body. */
  function RemoveFields(s: seq<Member>): (r: seq<Member>)
    ensures forall i :: 0 <= i < |r| ==> !r[i].VarDecl?
    ensures |r| == |s| - CountWhere(s, IsField)
  {
    if s == [] then []
    else if s[0].VarDecl? then RemoveFields(s[1..])
    else [s[0]] + RemoveFields(s[1..])
  }

  /** Move the last three statements to the front (two sublists, concatenated). */
  function MoveLastThreeToFront<T>(s: seq<T>): (r: seq<T>)
    requires |s| >= 3
    ensures |r| == |s| && multiset(r) == multiset(s)
    ensures |s| > 3 ==> r[|r| - 1] == s[|s| - 4]
  {
    assert s == s[..|s| - 3] + s[|s| - 3..];
    s[|s| - 3..] + s[..|s| - 3]
  }

  /** Appending the template and rotating puts the two fields and the static
      initializer first and leaves the helper last. */
  lemma AppendTemplateThenRotate(kept: seq<Member>)
    ensures MoveLastThreeToFront(kept + Template)
         == [SecureRandomField, DefCountField, StaticInitializer] + kept + [HelperMethod]
  {
    var s := kept + Template;
    assert s[|s| - 3..] == [SecureRandomField, DefCountField, StaticInitializer];
    assert s[..|s| - 3] == kept + [HelperMethod];
  }

  // ---------------------------------------------------------------------------
  // The class rewrite: specification and the visitor's step-by-step pipeline
  // ---------------------------------------------------------------------------

  /** The body the rewrite produces: the new fields and the static initializer,
      then the rewritten non-declaration statements in their order, then the helper. */
  function RewrittenBody(body: seq<Member>): (r: seq<Member>)
    ensures |r| >= 4 && r[|r| - 1] == HelperMethod
    ensures FieldExists(r)
  {
    assert IsSecureRandomField(SecureRandomField);
    [SecureRandomField, DefCountField, StaticInitializer]
      + RemoveFields(RewriteMembers(body))
      + [HelperMethod]
  }

  /** The class after visitClassDeclaration: as it was when guarded, otherwise
      with the rebuilt body, which the guard recognises on a later visit. */
  function RewriteClass(c: ClassDecl): (r: ClassDecl)
    ensures r.simpleName == c.simpleName
    ensures FieldExists(c.body) ==> r == c
    ensures FieldExists(r.body)
  {
    if FieldExists(c.body) then c else c.(body := RewrittenBody(c.body))
  }

  /** The library RandomStringUtils is imported from. */
  function RandomStringUtilsImport(commonsLang2: bool): (imp: Import)
    ensures imp.typeName == "RandomStringUtils"
    ensures imp.packageName == CommonsLang2Package <==> commonsLang2
    ensures !commonsLang2 ==> imp.packageName == CommonsLang3Package
  {
    Import(if commonsLang2 then CommonsLang2Package else CommonsLang3Package, "RandomStringUtils")
  }

  /** The imports a visit of `c` asks maybeAddImport for, in call order. */
  function RequestedImports(c: ClassDecl, commonsLang2: bool): (r: seq<Import>)
    ensures r == [] <==> FieldExists(c.body)
    ensures forall x :: x in r <==> !FieldExists(c.body) && (x == SecureRandomImport || x == RandomStringUtilsImport(commonsLang2))
  {
    if FieldExists(c.body) then [] else [SecureRandomImport, RandomStringUtilsImport(commonsLang2)]
  }

  /** visitClassDeclaration: guard, visit the children, drop the fields, append
      the template after the last statement, bring its last three statements to
      the front, and choose the RandomStringUtils import. */
  method VisitClassDeclaration(classDecl: ClassDecl, commonsLang2: bool)
    returns (cd: ClassDecl, addedImports: seq<Import>)
    ensures cd == RewriteClass(classDecl)
    ensures addedImports == RequestedImports(classDecl, commonsLang2)
  {
    if FieldExists(classDecl.body) {
      return classDecl, [];
    }
    cd := classDecl.(body := RewriteMembers(classDecl.body));
    cd := cd.(body := RemoveFields(cd.body));
    ghost var kept := cd.body;
    cd := cd.(body := cd.body + Template);
    addedImports := [SecureRandomImport];
    AppendTemplateThenRotate(kept);
    cd := cd.(body := MoveLastThreeToFront(cd.body));
    var randomStringUtils := RandomStringUtilsImport(commonsLang2);
    addedImports := addedImports + [randomStringUtils];
  }

  // ---------------------------------------------------------------------------
  // The library flag and import insertion
  // ---------------------------------------------------------------------------

  /** visitImport's flag: some import's package is exactly org.apache.commons.lang. */
  function HasCommonsLang2Import(imports: seq<Import>): (b: bool)
    ensures b <==> exists i :: 0 <= i < |imports| && imports[i].packageName == CommonsLang2Package
  {
    if imports == [] then false
    else imports[0].packageName == CommonsLang2Package || HasCommonsLang2Import(imports[1..])
  }

  /** Abstract maybeAddImport: add the import unless it is already there. */
  function MaybeAddImport(imports: seq<Import>, imp: Import): (r: seq<Import>)
    ensures forall x :: x in r <==> x in imports || x == imp
    ensures imp in imports ==> r == imports
    ensures |r| <= |imports| + 1
  {
    if imp in imports then imports else imports + [imp]
  }

  function MaybeAddImports(imports: seq<Import>, requested: seq<Import>): (r: seq<Import>)
    ensures forall x :: x in r <==> x in imports || x in requested
    decreases |requested|
  {
    if requested == [] then imports
    else MaybeAddImports(MaybeAddImport(imports, requested[0]), requested[1..])
  }

  // ---------------------------------------------------------------------------
  // One run of the recipe over a compilation unit
  // ---------------------------------------------------------------------------

  function RewriteClasses(cs: seq<ClassDecl>): seq<ClassDecl> {
    seq(|cs|, i requires 0 <= i < |cs| => RewriteClass(cs[i]))
  }

  /** The imports requested by visiting `cs` in order. */
  function RequestedByClasses(cs: seq<ClassDecl>, commonsLang2: bool): (r: seq<Import>)
    ensures |r| <= 2 * |cs|
    ensures r == [] <==> forall i :: 0 <= i < |cs| ==> FieldExists(cs[i].body)
  {
    if cs == [] then [] else RequestedImports(cs[0], commonsLang2) + RequestedByClasses(cs[1..], commonsLang2)
  }

  /** The recipe on one source file: untouched unless applicable; otherwise
      every top-level class is visited and the requested imports are added. */
  function Run(cu: CompilationUnit): (r: CompilationUnit)
    ensures !IsApplicable(cu) ==> r == cu
    ensures r.packageDecl == cu.packageDecl && |r.classes| == |cu.classes|
    ensures forall i :: 0 <= i < |cu.classes| ==> r.classes[i].simpleName == cu.classes[i].simpleName
    ensures IsApplicable(cu) ==> forall i :: 0 <= i < |r.classes| ==> FieldExists(r.classes[i].body)
    ensures forall x :: x in cu.imports ==> x in r.imports
  {
    if !IsApplicable(cu) then cu
    else
      var commonsLang2 := HasCommonsLang2Import(cu.imports);
      cu.(imports := MaybeAddImports(cu.imports, RequestedByClasses(cu.classes, commonsLang2)),
          classes := RewriteClasses(cu.classes))
  }
}
