// Properties of the CWE-338 recipe model: the guard, field removal, the
// output layout, the rotation, the invocation rewrite, single synthesis,
// the library choice and idempotence of a whole run.

module FixCwe338Properties {
  import opened JavaTree
  import opened FixCwe338

  // ---------------------------------------------------------------------------
  // Member classifiers used to count what a body holds
  // ---------------------------------------------------------------------------

  predicate DeclaresSecureRandom(m: Member) { m.VarDecl? && SecureRandomName in m.names }
  predicate DeclaresDefCount(m: Member) { m.VarDecl? && DefCountName in m.names }
  predicate IsHelperMethod(m: Member) { m.Method? && m.name == HelperName }
  predicate IsStaticInit(m: Member) { m.StaticInit? }

  // ---------------------------------------------------------------------------
  // The already-done guard
  // ---------------------------------------------------------------------------

  /** Once the guard fires the class and the imports are left as they are. */
  lemma GuardLeavesClassUntouched(c: ClassDecl, commonsLang2: bool)
    requires exists i :: 0 <= i < |c.body| && c.body[i].VarDecl? && c.body[i].names == [SecureRandomName]
    ensures RewriteClass(c) == c
    ensures RequestedImports(c, commonsLang2) == []
  {
    var i :| 0 <= i < |c.body| && c.body[i].VarDecl? && c.body[i].names == [SecureRandomName];
    assert IsSecureRandomField(c.body[i]);
  }

  /** Inserting a declaration of several variables, SECURE_RANDOM among them
      or not, anywhere in a body does not change whether the guard fires. */
  lemma {:induction false} MultiVariableDeclarationDoesNotGuard(
    body: seq<Member>, k: nat, typeName: string, names: seq<string>, inits: seq<Expr>)
    requires k <= |body|
    requires |names| != 1
    ensures FieldExists(body[..k] + [VarDecl(typeName, names, inits)] + body[k..]) == FieldExists(body)
  {
    var d := VarDecl(typeName, names, inits);
    var b := body[..k] + [d] + body[k..];
    assert !IsSecureRandomField(d);
    if FieldExists(body) {
      var i :| 0 <= i < |body| && IsSecureRandomField(body[i]);
      var j := if i < k then i else i + 1;
      assert b[j] == body[i];
    }
    if FieldExists(b) {
      var j :| 0 <= j < |b| && IsSecureRandomField(b[j]);
      assert j != k;
      var i := if j < k then j else j - 1;
      assert body[i] == b[j];
    }
  }

  /** A body without variable declarations never trips the guard. */
  lemma NoFieldsNoGuard(body: seq<Member>)
    requires forall i :: 0 <= i < |body| ==> !body[i].VarDecl?
    ensures !FieldExists(body)
  {
  }

  // ---------------------------------------------------------------------------
  // Field removal keeps the order of what remains
  // ---------------------------------------------------------------------------

  lemma {:induction false} RemoveFieldsAppend(a: seq<Member>, b: seq<Member>)
    ensures RemoveFields(a + b) == RemoveFields(a) + RemoveFields(b)
  {
    if a == [] {
      assert a + b == b;
    } else {
      var ab := a + b;
      assert ab[0] == a[0];
      assert ab[1..] == a[1..] + b;
      RemoveFieldsAppend(a[1..], b);
      if a[0].VarDecl? {
        assert RemoveFields(ab) == RemoveFields(a[1..] + b);
      } else {
        assert RemoveFields(ab) == [a[0]] + RemoveFields(a[1..] + b);
        assert RemoveFields(a) == [a[0]] + RemoveFields(a[1..]);
      }
    }
  }

  /** What field removal keeps: exactly the statements that are not declarations. */
  lemma {:induction false} RemoveFieldsMembers(s: seq<Member>, m: Member)
    ensures m in RemoveFields(s) <==> m in s && !m.VarDecl?
  {
    if s != [] {
      RemoveFieldsMembers(s[1..], m);
      assert s == [s[0]] + s[1..];
    }
  }

  lemma {:induction false} RemoveFieldsIsSubsequence(s: seq<Member>)
    ensures IsSubsequence(RemoveFields(s), s)
  {
    if s != [] {
      RemoveFieldsIsSubsequence(s[1..]);
      if !s[0].VarDecl? {
        assert RemoveFields(s)[1..] == RemoveFields(s[1..]);
      } else {
        SubsequenceOfTail(RemoveFields(s), s);
      }
    }
  }

  lemma {:induction false} SubsequenceOfTail(sub: seq<Member>, s: seq<Member>)
    requires s != []
    requires IsSubsequence(sub, s[1..])
    ensures IsSubsequence(sub, s)
    decreases |s|, 0
  {
    if sub != [] && sub[0] == s[0] {
      // sub[1..] is a subsequence of sub, hence of s[1..]
      SubsequenceDropHead(sub, s[1..]);
    }
  }

  lemma {:induction false} SubsequenceDropHead(sub: seq<Member>, s: seq<Member>)
    requires sub != []
    requires IsSubsequence(sub, s)
    ensures IsSubsequence(sub[1..], s)
    decreases |s|, 1
  {
    if s != [] {
      if sub[0] == s[0] {
        SubsequenceOfTail(sub[1..], s);
      } else {
        SubsequenceDropHead(sub, s[1..]);
        SubsequenceOfTail(sub[1..], s);
      }
    }
  }

  /** A body without declarations is kept as it is. */
  lemma {:induction false} RemoveFieldsWithoutFields(s: seq<Member>)
    requires forall i :: 0 <= i < |s| ==> !s[i].VarDecl?
    ensures RemoveFields(s) == s
  {
    if s != [] {
      RemoveFieldsWithoutFields(s[1..]);
    }
  }

  lemma RewriteMembersCons(m: Member, s: seq<Member>)
    ensures RewriteMembers([m] + s) == [RewriteMember(m)] + RewriteMembers(s)
  {
  }

  /** Visiting the children and dropping the fields commute: the kept
      statements are exactly the original non-declarations, each rewritten. */
  lemma {:induction false} RemoveFieldsRewriteCommute(s: seq<Member>)
    ensures RemoveFields(RewriteMembers(s)) == RewriteMembers(RemoveFields(s))
  {
    if s != [] {
      var v := RewriteMembers(s);
      assert v[0] == RewriteMember(s[0]);
      assert v[1..] == RewriteMembers(s[1..]);
      RemoveFieldsRewriteCommute(s[1..]);
      if s[0].VarDecl? {
        calc {
          RemoveFields(v);
          RemoveFields(v[1..]);
          RewriteMembers(RemoveFields(s[1..]));
          RewriteMembers(RemoveFields(s));
        }
      } else {
        calc {
          RemoveFields(v);
          [v[0]] + RemoveFields(v[1..]);
          [RewriteMember(s[0])] + RewriteMembers(RemoveFields(s[1..]));
          { RewriteMembersCons(s[0], RemoveFields(s[1..])); }
          RewriteMembers([s[0]] + RemoveFields(s[1..]));
          RewriteMembers(RemoveFields(s));
        }
      }
    }
  }

  // ---------------------------------------------------------------------------
  // The rotation
  // ---------------------------------------------------------------------------

  /** The rotation only reorders: same length, same elements with the same multiplicities. */
  lemma MoveLastThreeToFrontIsPermutation<T>(s: seq<T>)
    requires |s| >= 3
    ensures |MoveLastThreeToFront(s)| == |s|
    ensures multiset(MoveLastThreeToFront(s)) == multiset(s)
  {
    assert s == s[..|s| - 3] + s[|s| - 3..];
  }

  /** Position k of the result holds the element three places to the left, cyclically. */
  lemma MoveLastThreeToFrontAt<T>(s: seq<T>, k: nat)
    requires |s| >= 3 && k < |s|
    ensures MoveLastThreeToFront(s)[k] == s[(k + |s| - 3) % |s|]
  {
    var n := |s|;
    if k < 3 {
      assert (k + n - 3) % n == k + n - 3 by { assert 0 <= k + n - 3 < n; }
    } else {
      assert (k + n - 3) % n == k - 3 by { assert k + n - 3 == (k - 3) + n; assert 0 <= k - 3 < n; }
    }
  }

  /** Moving the first three back to the end undoes it, so both blocks keep their inner order. */
  lemma MoveLastThreeToFrontInverse<T>(s: seq<T>)
    requires |s| >= 3
    ensures MoveLastThreeToFront(s)[3..] + MoveLastThreeToFront(s)[..3] == s
  {
    var r := MoveLastThreeToFront(s);
    assert r[..3] == s[|s| - 3..];
    assert r[3..] == s[..|s| - 3];
  }

  // ---------------------------------------------------------------------------
  // The invocation rewrite
  // ---------------------------------------------------------------------------

  /** The expressions the rewrite leaves unchanged are exactly those whose
      every invocation already is the helper call. */
  lemma {:induction false} RewriteExprFixedPoint(e: Expr)
    ensures RewriteExpr(e) == e <==> HelperOnly(e)
    decreases e
  {
    match e
    case Invoke(_, _, _) =>
    case Name(_) =>
    case Literal(_) =>
    case Node(k, cs) => RewriteExprsFixedPoint(cs);
  }

  lemma {:induction false} RewriteExprsFixedPoint(es: seq<Expr>)
    ensures RewriteExprs(es) == es <==> AllHelperOnly(es)
    decreases es
  {
    if es != [] {
      RewriteExprFixedPoint(es[0]);
      RewriteExprsFixedPoint(es[1..]);
      assert RewriteExprs(es)[0] == RewriteExpr(es[0]);
      assert RewriteExprs(es)[1..] == RewriteExprs(es[1..]);
    }
  }

  /** Code without invocations is returned unchanged. */
  lemma {:induction false} RewriteExprWithoutCalls(e: Expr)
    requires CallCount(e) == 0
    ensures RewriteExpr(e) == e
    decreases e
  {
    match e
    case Invoke(_, _, _) =>
    case Name(_) =>
    case Literal(_) =>
    case Node(k, cs) => RewriteExprsWithoutCalls(cs);
  }

  lemma {:induction false} RewriteExprsWithoutCalls(es: seq<Expr>)
    requires CallCounts(es) == 0
    ensures RewriteExprs(es) == es
    decreases es
  {
    if es != [] {
      RewriteExprWithoutCalls(es[0]);
      RewriteExprsWithoutCalls(es[1..]);
    }
  }

  /** Rewriting twice is rewriting once. */
  lemma RewriteExprIdempotent(e: Expr)
    ensures RewriteExpr(RewriteExpr(e)) == RewriteExpr(e)
  {
    RewriteExprFixedPoint(RewriteExpr(e));
  }

  /** The contract of RewriteExpr determines it: the only expression with the
      shape of `e` whose invocations are all helper calls is the rewrite of `e`. */
  lemma {:induction false} RewriteExprUnique(e: Expr, r: Expr)
    requires HelperOnly(r) && Shape(r) == Shape(e)
    ensures r == RewriteExpr(e)
    decreases e
  {
    match e
    case Invoke(_, _, _) =>
    case Name(_) =>
    case Literal(_) =>
    case Node(k, cs) =>
      assert r.Node? && r.kind == k;
      RewriteExprsUnique(cs, r.children);
  }

  lemma {:induction false} RewriteExprsUnique(es: seq<Expr>, rs: seq<Expr>)
    requires AllHelperOnly(rs) && Shapes(rs) == Shapes(es)
    ensures rs == RewriteExprs(es)
    decreases es
  {
    if es != [] {
      assert rs != [];
      var a, b := Shapes(rs), Shapes(es);
      assert a == [Shape(rs[0])] + Shapes(rs[1..]) && b == [Shape(es[0])] + Shapes(es[1..]);
      assert a[0] == Shape(rs[0]) && a[1..] == Shapes(rs[1..]);
      assert b[0] == Shape(es[0]) && b[1..] == Shapes(es[1..]);
      RewriteExprUnique(es[0], rs[0]);
      RewriteExprsUnique(es[1..], rs[1..]);
      assert rs == [rs[0]] + rs[1..];
    }
  }

  /** The helper's own RandomStringUtils.random call is not a helper call:
      the template is added after the children were visited, so it survives. */
  lemma HelperBodyIsNotRewritten()
    ensures !AllHelperOnly(MemberExprs(HelperMethod))
    ensures RewriteMember(HelperMethod) != HelperMethod
  {
    var ret := HelperMethod.body[0];
    assert !HelperOnly(ret.children[0]);
    assert !HelperOnly(ret);
  }

  // ---------------------------------------------------------------------------
  // Output layout and single synthesis
  // ---------------------------------------------------------------------------

  /** The rebuilt body: three synthesized statements, the original
      non-declarations rewritten and in order, then the helper. */
  lemma RewrittenBodyLayout(body: seq<Member>)
    ensures RewrittenBody(body)
         == [SecureRandomField, DefCountField, StaticInitializer] + RewriteMembers(RemoveFields(body)) + [HelperMethod]
    ensures |RewrittenBody(body)| == |body| - CountWhere(body, IsField) + 4
    ensures IsSubsequence(RemoveFields(body), body)
  {
    RemoveFieldsRewriteCommute(body);
    RemoveFieldsIsSubsequence(body);
  }

  /** Every kept statement calls only the helper; no original declaration
      survives: the only declarations are the two synthesized fields. */
  lemma RewrittenBodyContents(body: seq<Member>)
    ensures var r := RewrittenBody(body);
      && (forall i :: 3 <= i < |r| - 1 ==> AllHelperOnly(MemberExprs(r[i])) && !r[i].VarDecl?)
      && (forall i :: 0 <= i < |r| && r[i].VarDecl? ==> i < 2)
      && r[|r| - 1] == HelperMethod
  {
    var r := RewrittenBody(body);
    var visited := RewriteMembers(body);
    var kept := RemoveFields(visited);
    assert r == [SecureRandomField, DefCountField, StaticInitializer] + kept + [HelperMethod];
    forall i | 3 <= i < |r| - 1
      ensures AllHelperOnly(MemberExprs(r[i])) && !r[i].VarDecl?
    {
      assert r[i] == kept[i - 3];
      RemoveFieldsMembers(visited, kept[i - 3]);
      var j :| 0 <= j < |visited| && visited[j] == kept[i - 3];
      assert visited[j] == RewriteMember(body[j]);
    }
  }

  lemma {:induction false} CountWhereRewriteMembers(s: seq<Member>, p: Member -> bool)
    requires forall m :: p(RewriteMember(m)) == p(m)
    ensures CountWhere(RewriteMembers(s), p) == CountWhere(s, p)
  {
    if s != [] {
      assert RewriteMembers(s)[0] == RewriteMember(s[0]);
      assert RewriteMembers(s)[1..] == RewriteMembers(s[1..]);
      CountWhereRewriteMembers(s[1..], p);
    }
  }

  lemma {:induction false} CountWhereRemoveFields(s: seq<Member>, p: Member -> bool)
    requires forall m :: p(m) ==> !m.VarDecl?
    ensures CountWhere(RemoveFields(s), p) == CountWhere(s, p)
  {
    if s != [] {
      CountWhereRemoveFields(s[1..], p);
    }
  }

  /** How a count over the rebuilt body splits into its three parts. */
  lemma CountRewrittenBody(body: seq<Member>, p: Member -> bool)
    ensures CountWhere(RewrittenBody(body), p)
         == CountWhere([SecureRandomField, DefCountField, StaticInitializer], p)
          + CountWhere(RemoveFields(RewriteMembers(body)), p)
          + (if p(HelperMethod) then 1 else 0)
  {
    var head := [SecureRandomField, DefCountField, StaticInitializer];
    var kept := RemoveFields(RewriteMembers(body));
    CountWhereAppend(head + kept, [HelperMethod], p);
    CountWhereAppend(head, kept, p);
  }

  /** The kept statements hold no declaration, so each synthesized field is declared once. */
  lemma SynthesizedFieldCount(body: seq<Member>, p: Member -> bool)
    requires forall m :: p(m) ==> m.VarDecl?
    requires p(DefCountField) != p(SecureRandomField)
    ensures CountWhere(RewrittenBody(body), p) == 1
  {
    CountRewrittenBody(body, p);
    assert CountWhere(RemoveFields(RewriteMembers(body)), p) == 0;
  }

  /** Members the rewrite keeps by kind gain exactly the one the template adds. */
  lemma SynthesizedMemberCount(body: seq<Member>, p: Member -> bool)
    requires forall m :: p(m) ==> !m.VarDecl?
    requires forall m :: p(RewriteMember(m)) == p(m)
    ensures CountWhere(RewrittenBody(body), p)
         == CountWhere(body, p) + (if p(StaticInitializer) then 1 else 0) + (if p(HelperMethod) then 1 else 0)
  {
    var head := [SecureRandomField, DefCountField, StaticInitializer];
    assert head[1..][1..][1..] == [];
    assert CountWhere(head, p) == (if p(StaticInitializer) then 1 else 0) by {
      assert !p(SecureRandomField) && !p(DefCountField);
      assert head[1..][1..][0] == StaticInitializer;
    }
    CountRewrittenBody(body, p);
    CountWhereRemoveFields(RewriteMembers(body), p);
    CountWhereRewriteMembers(body, p);
  }

  /** However many invocations the class holds, the rewrite leaves exactly one
      SECURE_RANDOM and one DEF_COUNT declaration and adds exactly one helper
      method and one static initializer to those already present. */
  lemma SingleSynthesis(body: seq<Member>)
    ensures CountWhere(RewrittenBody(body), DeclaresSecureRandom) == 1
    ensures CountWhere(RewrittenBody(body), DeclaresDefCount) == 1
    ensures CountWhere(RewrittenBody(body), IsHelperMethod) == CountWhere(body, IsHelperMethod) + 1
    ensures CountWhere(RewrittenBody(body), IsStaticInit) == CountWhere(body, IsStaticInit) + 1
  {
    SynthesizedFieldCount(body, DeclaresSecureRandom);
    SynthesizedFieldCount(body, DeclaresDefCount);
    SynthesizedMemberCount(body, IsHelperMethod);
    SynthesizedMemberCount(body, IsStaticInit);
  }

  // ---------------------------------------------------------------------------
  // Idempotence
  // ---------------------------------------------------------------------------

  /** A second rewrite of a class returns it unchanged and asks for no import. */
  lemma RewriteClassIdempotent(c: ClassDecl, commonsLang2: bool)
    ensures RewriteClass(RewriteClass(c)) == RewriteClass(c)
    ensures RequestedImports(RewriteClass(c), commonsLang2) == []
  {
    var r := RewriteClass(c);
    if !FieldExists(c.body) {
      assert IsSecureRandomField(r.body[0]);
    }
  }

  lemma {:induction false} RequestedByRewrittenClasses(cs: seq<ClassDecl>, commonsLang2: bool)
    ensures RequestedByClasses(RewriteClasses(cs), commonsLang2) == []
  {
    if cs != [] {
      var rs := RewriteClasses(cs);
      assert rs != [];
      assert rs[0] == RewriteClass(cs[0]);
      assert rs[1..] == RewriteClasses(cs[1..]);
      RewriteClassIdempotent(cs[0], commonsLang2);
      RequestedByRewrittenClasses(cs[1..], commonsLang2);
      assert RequestedByClasses(rs, commonsLang2)
          == RequestedImports(rs[0], commonsLang2) + RequestedByClasses(rs[1..], commonsLang2);
    }
  }

  /** A unit that fails the applicable test is returned as it is; one that
      passes has every top-level class rewritten, whatever its name. */
  lemma RunVisitsEveryClass(cu: CompilationUnit)
    ensures !IsApplicable(cu) ==> Run(cu) == cu
    ensures IsApplicable(cu) ==>
      |Run(cu).classes| == |cu.classes| && Run(cu).packageDecl == cu.packageDecl &&
      forall i :: 0 <= i < |cu.classes| ==> Run(cu).classes[i] == RewriteClass(cu.classes[i])
  {
  }

  /** Running the recipe on its own output changes nothing. */
  lemma RunIdempotent(cu: CompilationUnit)
    ensures Run(Run(cu)) == Run(cu)
  {
    if IsApplicable(cu) {
      var cu1 := Run(cu);
      var i :| 0 <= i < |cu.classes| && cu.classes[i].simpleName == RandomUtilName;
      assert cu1.classes[i].simpleName == RandomUtilName;
      RequestedByRewrittenClasses(cu.classes, HasCommonsLang2Import(cu1.imports));
      forall j | 0 <= j < |cu.classes|
        ensures RewriteClass(cu1.classes[j]) == cu1.classes[j]
      {
        RewriteClassIdempotent(cu.classes[j], false);
      }
      assert RewriteClasses(cu1.classes) == cu1.classes;
    }
  }

  // ---------------------------------------------------------------------------
  // Library choice and the imports a run adds
  // ---------------------------------------------------------------------------

  /** commons-lang 2 is chosen exactly when some import's package equals
      org.apache.commons.lang; commons-lang3 otherwise. */
  lemma LibraryChoice(imports: seq<Import>)
    ensures var imp := RandomStringUtilsImport(HasCommonsLang2Import(imports));
      imp.packageName == (if exists i :: 0 <= i < |imports| && imports[i].packageName == CommonsLang2Package
                          then CommonsLang2Package else CommonsLang3Package)
  {
  }

  lemma {:induction false} RequestedByClassesMembers(cs: seq<ClassDecl>, commonsLang2: bool, x: Import)
    ensures x in RequestedByClasses(cs, commonsLang2)
        <==> (x == SecureRandomImport || x == RandomStringUtilsImport(commonsLang2))
             && exists i :: 0 <= i < |cs| && !FieldExists(cs[i].body)
  {
    if cs != [] {
      RequestedByClassesMembers(cs[1..], commonsLang2, x);
      if exists i :: 0 <= i < |cs[1..]| && !FieldExists(cs[1..][i].body) {
        var i :| 0 <= i < |cs[1..]| && !FieldExists(cs[1..][i].body);
        assert cs[i + 1] == cs[1..][i];
      }
      if exists i :: 0 <= i < |cs| && !FieldExists(cs[i].body) {
        var i :| 0 <= i < |cs| && !FieldExists(cs[i].body);
        if i > 0 {
          assert cs[1..][i - 1] == cs[i];
        }
      }
    }
  }

  /** After a run of an applicable unit the imports are the old ones plus
      SecureRandom and the chosen RandomStringUtils, the last two exactly when
      some class was not guarded; nothing else is added. */
  lemma RunImports(cu: CompilationUnit, x: Import)
    requires IsApplicable(cu)
    ensures var lib := RandomStringUtilsImport(HasCommonsLang2Import(cu.imports));
      (x in Run(cu).imports)
        <==> (x in cu.imports
              || ((x == SecureRandomImport || x == lib)
                  && exists i :: 0 <= i < |cu.classes| && !FieldExists(cu.classes[i].body)))
  {
    RequestedByClassesMembers(cu.classes, HasCommonsLang2Import(cu.imports), x);
  }
}
