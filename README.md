# FixCwe338 — a Dafny model of the CWE-338 recipe of rewrite-jhipster

The `FixCwe338` OpenRewrite recipe hardens JHipster's `RandomUtil` class. It
replaces the weak `RandomStringUtils` generators with one helper that draws
from a `SecureRandom`. This project models the decisions the recipe itself
makes on an abstract syntax tree, and proves what those decisions guarantee:

- **Applicability.** A source file qualifies only when it has a package
  declaration and a top-level class named `RandomUtil`.
- **Already-done guard.** If a class body declares exactly one variable
  named `SECURE_RANDOM` in one declaration, the class is returned as it is.
- **Call rewrite.** Every method invocation is replaced, receiver and
  arguments included, by `generateRandomAlphanumericString()`. This happens
  before the template is added, so the helper's own call is kept.
- **Body rebuild.** All variable declarations are dropped. The four template
  statements (helper, `SECURE_RANDOM`, `DEF_COUNT`, static initializer) are
  appended. The last three are then moved to the front.
- **Library choice.** commons-lang 2 is used when some import's package is
  exactly `org.apache.commons.lang`; otherwise commons-lang3 is used.
  `java.security.SecureRandom` and the chosen `RandomStringUtils` are
  requested as imports.

Files:

- `JavaTree.dfy`: the syntax tree. It has expressions (`Invoke`, `Name`,
  `Literal`, `Node`), class-body statements (`VarDecl`, `Method`,
  `StaticInit`, `Other`), classes, imports and compilation units. It also
  has a counting function and a subsequence predicate.
- `FixCwe338.dfy`: the recipe. The pure parts are functions over `seq`.
  `visitClassDeclaration`, which assigns its local `cd` four times, is the
  method `VisitClassDeclaration`. That method is proved equal to the
  closed-form layout `RewriteClass`. `Run` is one pass over a compilation
  unit.
- `FixCwe338Properties.dfy`: lemmas about the guard, field removal, the
  rotation, the call rewrite, the layout, single synthesis, idempotence and
  the imports.
- `FixCwe338Fixtures.dfy`: the two before/after fixtures of
  `FixCwe338Test.kt`, stated as equalities on the model.

Behaviour of the code that differs from a general remediation engine. The
model follows the code in each case:

- The code never checks the owner type, name or overload of an invocation.
  Every invocation in a visited class is replaced, including ones unrelated
  to `RandomStringUtils`.
- Nothing is reused and no conflict is reported. A method already named
  `generateRandomAlphanumericString` ends up next to a second one
  (`SingleSynthesis` states the count as "old count + 1"). Every existing
  field is deleted, not only `DEF_COUNT`.
- Every top-level class of an applicable file is rewritten, not only
  `RandomUtil`.
- The guard looks only at the variable's name, and only at declarations
  that hold one variable.

## Model

| member | source | states |
|---|---|---|
| FixCwe338.DeclaresRandomUtil | src/main/java/org/openrewrite/java/jhipster/FixCwe338.java:65-71 | true exactly when some top-level class has the simple name `RandomUtil` |
| FixCwe338.IsApplicable | src/main/java/org/openrewrite/java/jhipster/FixCwe338.java:54-73 | a unit without a package declaration is never applicable; otherwise it is applicable exactly when some class is named `RandomUtil` |
| FixCwe338.FieldExists | src/main/java/org/openrewrite/java/jhipster/FixCwe338.java:81-86 | true exactly when some body statement declares exactly one variable, named `SECURE_RANDOM` |
| FixCwe338Properties.GuardLeavesClassUntouched | src/main/java/org/openrewrite/java/jhipster/FixCwe338.java:81-89 | with such a declaration present, the class comes back unchanged and no import is requested |
| FixCwe338Properties.MultiVariableDeclarationDoesNotGuard | src/main/java/org/openrewrite/java/jhipster/FixCwe338.java:84-86 | inserting a declaration of zero or several variables anywhere, `SECURE_RANDOM` among them or not, does not change whether the guard fires |
| FixCwe338Properties.NoFieldsNoGuard | src/main/java/org/openrewrite/java/jhipster/FixCwe338.java:81-86 | a body without variable declarations never trips the guard |
| FixCwe338.IsSecureRandomField | src/main/java/org/openrewrite/java/jhipster/FixCwe338.java:82-86 | a statement counts for the guard exactly when it is a variable declaration whose variable list is exactly `[SECURE_RANDOM]` |
| FixCwe338.RewriteExpr | src/main/java/org/openrewrite/java/jhipster/FixCwe338.java:145-150 | every invocation left in the result is the zero-argument helper call, every outermost invocation is replaced in place (the result has the same shape, invocations aside, as the input), and there are as many outermost invocations as before |
| FixCwe338.RewriteExprs | src/main/java/org/openrewrite/java/jhipster/FixCwe338.java:145-150 | the same for a list of expressions; the length and the shape of each element are kept |
| FixCwe338Properties.RewriteExprUnique | src/main/java/org/openrewrite/java/jhipster/FixCwe338.java:145-150 | the rewrite is the only expression of the input's shape whose invocations are all the helper call, so the contract above fixes it |
| FixCwe338Properties.RewriteExprsUnique | src/main/java/org/openrewrite/java/jhipster/FixCwe338.java:145-150 | the same for a list of expressions |
| FixCwe338.RewriteMember | src/main/java/org/openrewrite/java/jhipster/FixCwe338.java:91 | visiting a statement's children keeps its kind, its declared type and variable names, its method name and its kind tag; its expressions keep their shape and call only the helper, one call per original outermost invocation |
| FixCwe338.RewriteMembers | src/main/java/org/openrewrite/java/jhipster/FixCwe338.java:91 | the children of the body are visited one by one in place: same length, each statement rewritten at its own position, none changes between declaration and non-declaration |
| FixCwe338Properties.RewriteExprFixedPoint | src/main/java/org/openrewrite/java/jhipster/FixCwe338.java:145-150 | the rewrite leaves an expression unchanged exactly when every invocation in it already is the helper call |
| FixCwe338Properties.RewriteExprsFixedPoint | src/main/java/org/openrewrite/java/jhipster/FixCwe338.java:145-150 | the same for a list of expressions |
| FixCwe338Properties.RewriteExprWithoutCalls | src/main/java/org/openrewrite/java/jhipster/FixCwe338.java:145-150 | code without invocations is returned unchanged |
| FixCwe338Properties.RewriteExprsWithoutCalls | src/main/java/org/openrewrite/java/jhipster/FixCwe338.java:145-150 | the same for a list of expressions |
| FixCwe338Properties.RewriteExprIdempotent | src/main/java/org/openrewrite/java/jhipster/FixCwe338.java:145-150 | rewriting twice equals rewriting once |
| FixCwe338Properties.HelperBodyIsNotRewritten | src/main/java/org/openrewrite/java/jhipster/FixCwe338.java:91-113 | the helper's own `RandomStringUtils.random(...)` call is not a helper call, so the rewrite would change it; it survives because the template is added after the children are visited |
| FixCwe338.RemoveFields | src/main/java/org/openrewrite/java/jhipster/FixCwe338.java:93-96 | no variable declaration remains, and the length drops by the number of declarations |
| FixCwe338Properties.RemoveFieldsMembers | src/main/java/org/openrewrite/java/jhipster/FixCwe338.java:94-96 | a statement is kept exactly when it occurs in the body and is not a variable declaration |
| FixCwe338Properties.RemoveFieldsAppend | src/main/java/org/openrewrite/java/jhipster/FixCwe338.java:94-96 | removal distributes over concatenation, so the kept statements keep their relative order |
| FixCwe338Properties.RemoveFieldsIsSubsequence | src/main/java/org/openrewrite/java/jhipster/FixCwe338.java:94-96 | the result is a subsequence of the body |
| FixCwe338Properties.RemoveFieldsWithoutFields | src/main/java/org/openrewrite/java/jhipster/FixCwe338.java:94-96 | a body without declarations is kept as it is |
| FixCwe338Properties.RemoveFieldsRewriteCommute | src/main/java/org/openrewrite/java/jhipster/FixCwe338.java:91-96 | visiting the children and then removing fields equals removing fields and then visiting |
| FixCwe338.MoveLastThreeToFront | src/main/java/org/openrewrite/java/jhipster/FixCwe338.java:117-121 | the rotation keeps the length and the multiset of statements; with more than three statements, the last one of the result is the one that preceded the three moved |
| FixCwe338Properties.MoveLastThreeToFrontIsPermutation | src/main/java/org/openrewrite/java/jhipster/FixCwe338.java:117-121 | the rotation keeps the length and the multiset of statements |
| FixCwe338Properties.MoveLastThreeToFrontAt | src/main/java/org/openrewrite/java/jhipster/FixCwe338.java:117-121 | position k of the result holds element (k + n - 3) mod n of the input |
| FixCwe338Properties.MoveLastThreeToFrontInverse | src/main/java/org/openrewrite/java/jhipster/FixCwe338.java:117-121 | moving the first three back to the end restores the input, so both blocks keep their order |
| FixCwe338.AppendTemplateThenRotate | src/main/java/org/openrewrite/java/jhipster/FixCwe338.java:100-121 | appending the template and rotating gives `SECURE_RANDOM`, `DEF_COUNT`, static initializer, the kept statements, then the helper |
| FixCwe338.VisitClassDeclaration | src/main/java/org/openrewrite/java/jhipster/FixCwe338.java:79-134 | the guard, the visit, the filter, the append, the rotation and the import choice produce exactly `RewriteClass`, and request exactly `SecureRandom` and the chosen `RandomStringUtils`, or nothing when guarded |
| FixCwe338.RewrittenBody | src/main/java/org/openrewrite/java/jhipster/FixCwe338.java:93-122 | the rebuilt body has at least four statements, ends with the helper method and trips the guard |
| FixCwe338.RewriteClass | src/main/java/org/openrewrite/java/jhipster/FixCwe338.java:79-122 | the simple name is kept; a guarded class is returned as it is; the result always trips the guard |
| FixCwe338.RequestedImports | src/main/java/org/openrewrite/java/jhipster/FixCwe338.java:114-131 | a class requests nothing exactly when it is guarded; otherwise it requests exactly `SecureRandom` and the chosen `RandomStringUtils` |
| FixCwe338Properties.RewrittenBodyLayout | src/main/java/org/openrewrite/java/jhipster/FixCwe338.java:93-122 | the new body is the three synthesized statements, then the original non-declarations (rewritten, in order), then the helper; its length is the number of non-declarations plus 4 |
| FixCwe338Properties.RewrittenBodyContents | src/main/java/org/openrewrite/java/jhipster/FixCwe338.java:93-122 | every kept statement calls only the helper; the only declarations are the two synthesized fields at positions 0 and 1; the helper is last |
| FixCwe338Properties.SynthesizedFieldCount | src/main/java/org/openrewrite/java/jhipster/FixCwe338.java:94-105 | a declaration kind that picks out exactly one of the two synthesized fields occurs exactly once afterwards |
| FixCwe338Properties.SynthesizedMemberCount | src/main/java/org/openrewrite/java/jhipster/FixCwe338.java:100-113 | any kind of non-declaration statement gains exactly the template members of that kind |
| FixCwe338Properties.SingleSynthesis | src/main/java/org/openrewrite/java/jhipster/FixCwe338.java:100-122 | whatever the number of invocations, exactly one `SECURE_RANDOM` and one `DEF_COUNT` declaration remain, and one helper and one static initializer are added |
| FixCwe338Properties.RewriteClassIdempotent | src/main/java/org/openrewrite/java/jhipster/FixCwe338.java:81-104 | a second rewrite returns the class unchanged and requests no import |
| FixCwe338Properties.RequestedByRewrittenClasses | src/main/java/org/openrewrite/java/jhipster/FixCwe338.java:87-89 | classes that were already rewritten request no import |
| FixCwe338Properties.RunVisitsEveryClass | src/main/java/org/openrewrite/java/jhipster/FixCwe338.java:54-91 | a unit that fails the applicable test is unchanged; otherwise every top-level class is rewritten, whatever its name |
| FixCwe338Properties.RunIdempotent | src/main/java/org/openrewrite/java/jhipster/FixCwe338.java:54-152 | running the recipe on its own output changes nothing |
| FixCwe338.RandomStringUtilsImport | src/main/java/org/openrewrite/java/jhipster/FixCwe338.java:125-130 | the import is `RandomStringUtils`, from `org.apache.commons.lang` exactly when the flag is set and from `org.apache.commons.lang3` otherwise |
| FixCwe338.HasCommonsLang2Import | src/main/java/org/openrewrite/java/jhipster/FixCwe338.java:137-140 | the flag is set exactly when some import's package equals `org.apache.commons.lang` |
| FixCwe338Properties.LibraryChoice | src/main/java/org/openrewrite/java/jhipster/FixCwe338.java:124-140 | the chosen package is `org.apache.commons.lang` when such an import exists, otherwise `org.apache.commons.lang3` |
| FixCwe338.MaybeAddImport | src/main/java/org/openrewrite/java/jhipster/FixCwe338.java:114 | add-if-absent: afterwards the imports are the old ones plus the requested one, unchanged if it was present |
| FixCwe338.RequestedByClasses | src/main/java/org/openrewrite/java/jhipster/FixCwe338.java:114-131 | visiting the classes in order requests at most two imports per class, and none exactly when every class is guarded |
| FixCwe338.Run | src/main/java/org/openrewrite/java/jhipster/FixCwe338.java:54-152 | an inapplicable unit is returned unchanged; the package declaration, the number and names of the classes and every existing import are kept; in an applicable unit every class afterwards trips the guard |
| FixCwe338.MaybeAddImports | src/main/java/org/openrewrite/java/jhipster/FixCwe338.java:114-131 | afterwards an import is present exactly when it was present before or was requested |
| FixCwe338Properties.RequestedByClassesMembers | src/main/java/org/openrewrite/java/jhipster/FixCwe338.java:114-131 | the requested imports are `SecureRandom` and the chosen `RandomStringUtils`, and they are requested exactly when some class is not guarded |
| FixCwe338Properties.RunImports | src/main/java/org/openrewrite/java/jhipster/FixCwe338.java:114-140 | after a run of an applicable unit, an import is present exactly when it was present before, or it is one of those two and some class was not guarded |
| FixCwe338Fixtures.CommonsLang2Fixture | src/test/kotlin/org/openrewrite/java/jhipster/FixCwe338Test.kt:33-73 | the commons-lang 2 fixture rewrites to its expected output, and a second run leaves that output unchanged |
| FixCwe338Fixtures.FiveCallsClass | src/test/kotlin/org/openrewrite/java/jhipster/FixCwe338Test.kt:82-150 | the five-invocation class, including its own `DEF_COUNT`, gets the expected body |
| FixCwe338Fixtures.FiveCallsFixture | src/test/kotlin/org/openrewrite/java/jhipster/FixCwe338Test.kt:75-153 | the commons-lang3 fixture rewrites to its expected output, imports included |
| FixCwe338Fixtures.LibraryFlagIsNotAPrefixTest | src/main/java/org/openrewrite/java/jhipster/FixCwe338.java:138 | `org.apache.commons.lang3` and `org.apache.commons.lang.text` imports do not set the flag; `org.apache.commons.lang` does |
| FixCwe338Fixtures.DefaultPackageIsNotApplicable | src/main/java/org/openrewrite/java/jhipster/FixCwe338.java:59-61 | the first fixture without its package declaration is left unchanged |

## Left out

- Java parsing and printing, and `JavaTemplate` expansion. The four template statements are fixed constant nodes. The rewritten call is the constant `HelperCall`.
- Modifiers, declared and return types (beyond a declaration's type name), and method parameters. The recipe never inspects them.
- `AutoFormat` via `doAfterVisit`, and the `JavaSearchResult` marker. The applicable test is modelled as a boolean.
- Where `maybeAddImport` places an import, and its check that the type is actually referenced, are library behaviour. `MaybeAddImport` is add-if-absent and appends. Only membership is claimed, not order.
- The `COMMONS_LANG_2` cursor message is modelled as one flag. It is computed from all imports of the unit and passed to every class. The code uses `pollMessage`, which removes the message, and the message travels through the library's cursor tree. Both are outside what this code shows.
- Nested classes. `super.visitClassDeclaration` would also visit and rebuild nested class declarations. The model treats them as `Other` statements: their expressions are rewritten, but their bodies are not rebuilt.
- The `ThreadLocal<JavaParser>` cache, `getDisplayName` and `getDescription` (constant strings), the build file and the test harness.
- MoveLastThreeToFront: requires at least three statements, the case where `subList` throws. It is only applied after four statements have been appended, so it never sees a shorter list.
