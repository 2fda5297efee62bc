// The two before/after fixtures of the recipe's tests, as concrete facts
// about the model.

module FixCwe338Fixtures {
  import opened JavaTree
  import opened FixCwe338
  import FixCwe338Properties

  const Lang2Import := Import(CommonsLang2Package, "RandomStringUtils")
  const Lang3Import := Import(CommonsLang3Package, "RandomStringUtils")

  /** `return RandomStringUtils.<name>(<arg>);` */
  function ReturnRandom(name: string, arg: string): Expr {
    Node("return", [Invoke(On(Name("RandomStringUtils")), name, [Name(arg)])])
  }

  const ReturnHelper: Expr := Node("return", [HelperCall])

  lemma RewriteReturnRandom(methodName: string, name: string, arg: string)
    ensures RewriteMember(Method(methodName, [ReturnRandom(name, arg)])) == Method(methodName, [ReturnHelper])
  {
    var call := Invoke(On(Name("RandomStringUtils")), name, [Name(arg)]);
    assert [call][1..] == [];
    assert RewriteExprs([call]) == [HelperCall];
    var ret := ReturnRandom(name, arg);
    assert [ret][1..] == [];
    assert RewriteExprs([ret]) == [ReturnHelper];
  }

  /** Adding the two requested imports when the library import is already present. */
  lemma AddSecureRandomImport(lib: Import)
    requires lib != SecureRandomImport
    ensures MaybeAddImports([lib], [SecureRandomImport, lib]) == [lib, SecureRandomImport]
  {
    calc {
      MaybeAddImports([lib], [SecureRandomImport, lib]);
      { assert [SecureRandomImport, lib][1..] == [lib]; }
      MaybeAddImports(MaybeAddImport([lib], SecureRandomImport), [lib]);
      { assert SecureRandomImport !in [lib]; }
      MaybeAddImports([lib, SecureRandomImport], [lib]);
      { assert lib in [lib, SecureRandomImport]; assert [lib][1..] == []; }
      MaybeAddImports([lib, SecureRandomImport], []);
    }
  }

  /** A class with a private constructor and one generator taking a count. */
  const CommonsLang2Before: CompilationUnit :=
    CompilationUnit(Some("au.com.suncorp.easyshare.services.util"), [Lang2Import],
      [ClassDecl("RandomUtil", [
        Method("RandomUtil", []),
        Method("generateString", [ReturnRandom("randomAlphanumeric", "count")])])])

  const CommonsLang2After: CompilationUnit :=
    CompilationUnit(Some("au.com.suncorp.easyshare.services.util"), [Lang2Import, SecureRandomImport],
      [ClassDecl("RandomUtil", [
        SecureRandomField, DefCountField, StaticInitializer,
        Method("RandomUtil", []),
        Method("generateString", [ReturnHelper]),
        HelperMethod])])

  lemma CommonsLang2Fixture()
    ensures Run(CommonsLang2Before) == CommonsLang2After
    ensures Run(CommonsLang2After) == CommonsLang2After
  {
    var c := CommonsLang2Before.classes[0];
    var kept := CommonsLang2After.classes[0].body[3..5];
    assert !FieldExists(c.body);
    RewriteReturnRandom("generateString", "randomAlphanumeric", "count");
    assert RewriteMembers(c.body) == kept by {
      assert RewriteMembers(c.body)[0] == kept[0];
      assert RewriteMembers(c.body)[1] == kept[1];
    }
    FixCwe338Properties.RemoveFieldsWithoutFields(kept);
    assert RewriteClass(c) == CommonsLang2After.classes[0];
    assert RewriteClasses(CommonsLang2Before.classes) == CommonsLang2After.classes;
    assert RequestedByClasses(CommonsLang2Before.classes, true) == [SecureRandomImport, Lang2Import];
    AddSecureRandomImport(Lang2Import);
    FixCwe338Properties.RunIdempotent(CommonsLang2Before);
  }

  /** The constructor and the five generators of the second fixture, before and after. */
  const FiveGenerators: seq<Member> := [
    Method("RandomUtil", []),
    Method("generatePassword", [ReturnRandom("randomAlphanumeric", DefCountName)]),
    Method("generateActivationKey", [ReturnRandom("randomNumeric", DefCountName)]),
    Method("generateResetKey", [ReturnRandom("randomNumeric", DefCountName)]),
    Method("generateSeriesData", [ReturnRandom("randomAlphanumeric", DefCountName)]),
    Method("generateTokenData", [ReturnRandom("randomAlphanumeric", DefCountName)])]

  const FiveGeneratorsRewritten: seq<Member> := [
    Method("RandomUtil", []),
    Method("generatePassword", [ReturnHelper]),
    Method("generateActivationKey", [ReturnHelper]),
    Method("generateResetKey", [ReturnHelper]),
    Method("generateSeriesData", [ReturnHelper]),
    Method("generateTokenData", [ReturnHelper])]

  /** Five generators and a pre-existing DEF_COUNT field. */
  const FiveCallsBefore: CompilationUnit :=
    CompilationUnit(Some("io.moderne.service.util"), [Lang3Import],
      [ClassDecl("RandomUtil", [VarDecl("int", [DefCountName], [Literal("20")])] + FiveGenerators)])

  const FiveCallsAfter: CompilationUnit :=
    CompilationUnit(Some("io.moderne.service.util"), [Lang3Import, SecureRandomImport],
      [ClassDecl("RandomUtil",
        [SecureRandomField, DefCountField, StaticInitializer] + FiveGeneratorsRewritten + [HelperMethod])])

  lemma FiveGeneratorsRewrite()
    ensures RewriteMembers(FiveGenerators) == FiveGeneratorsRewritten
  {
    assert RewriteMember(Method("RandomUtil", [])) == Method("RandomUtil", []);
    RewriteReturnRandom("generatePassword", "randomAlphanumeric", DefCountName);
    RewriteReturnRandom("generateActivationKey", "randomNumeric", DefCountName);
    RewriteReturnRandom("generateResetKey", "randomNumeric", DefCountName);
    RewriteReturnRandom("generateSeriesData", "randomAlphanumeric", DefCountName);
    RewriteReturnRandom("generateTokenData", "randomAlphanumeric", DefCountName);
  }

  lemma FiveCallsClass()
    ensures RewriteClass(FiveCallsBefore.classes[0]) == FiveCallsAfter.classes[0]
  {
    var d := VarDecl("int", [DefCountName], [Literal("20")]);
    var body := [d] + FiveGenerators;
    FixCwe338Properties.NoFieldsNoGuard(FiveGenerators);
    assert body[1..] == FiveGenerators;
    assert !IsSecureRandomField(d);
    assert !FieldExists(body);
    FiveGeneratorsRewrite();
    var visited := RewriteMembers(body);
    assert visited[1..] == RewriteMembers(FiveGenerators);
    FixCwe338Properties.RemoveFieldsWithoutFields(FiveGeneratorsRewritten);
    assert RemoveFields(visited) == FiveGeneratorsRewritten;
  }

  lemma FiveCallsFixture()
    ensures Run(FiveCallsBefore) == FiveCallsAfter
  {
    FiveCallsClass();
    assert RewriteClasses(FiveCallsBefore.classes) == FiveCallsAfter.classes;
    assert !HasCommonsLang2Import(FiveCallsBefore.imports);
    assert RequestedByClasses(FiveCallsBefore.classes, false) == [SecureRandomImport, Lang3Import];
    AddSecureRandomImport(Lang3Import);
  }

  /** The library test is an equality on the package name, not a prefix test. */
  lemma LibraryFlagIsNotAPrefixTest()
    ensures !HasCommonsLang2Import([Lang3Import])
    ensures !HasCommonsLang2Import([Import("org.apache.commons.lang.text", "StrBuilder")])
    ensures HasCommonsLang2Import([Lang3Import, Lang2Import])
  {
  }

  /** A unit without a package declaration is left alone even with a RandomUtil class. */
  lemma DefaultPackageIsNotApplicable()
    ensures Run(CommonsLang2Before.(packageDecl := None)) == CommonsLang2Before.(packageDecl := None)
  {
  }
}
