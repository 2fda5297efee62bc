// An abstract view of the Java syntax tree that the CWE-338 recipe visits.
// Only the distinctions the recipe itself makes are kept: which class-body
// statements are variable declarations (and their variable names), where the
// method invocations are, the simple names of top-level classes, the package
// declaration and the package name of each import.

module JavaTree {

  datatype Option<T> = None | Some(value: T)

  /** Whether an invocation is qualified (`RandomStringUtils.random(..)`) or not (`helper()`). */
  datatype Receiver = Implicit | On(target: Expr)

  /** Expressions and statements inside member bodies. */
  datatype Expr =
    | Invoke(receiver: Receiver, name: string, args: seq<Expr>)
    | Name(id: string)
    | Literal(text: string)
      // any other expression or statement (return, new, array creation, ...)
    | Node(kind: string, children: seq<Expr>)

  /** A statement of a class body. */
  datatype Member =
    | VarDecl(typeName: string, names: seq<string>, inits: seq<Expr>)
    | Method(name: string, body: seq<Expr>)
    | StaticInit(body: seq<Expr>)
      // any other class-body statement (a nested class, an instance initializer, ...)
    | Other(kind: string, parts: seq<Expr>)

  datatype ClassDecl = ClassDecl(simpleName: string, body: seq<Member>)

  /** `import <packageName>.<typeName>;` */
  datatype Import = Import(packageName: string, typeName: string)

  datatype CompilationUnit = CompilationUnit(
    packageDecl: Option<string>,
    imports: seq<Import>,
    classes: seq<ClassDecl>)

  /** Number of members of `s` that satisfy `p`. */
  function CountWhere(s: seq<Member>, p: Member -> bool): (n: nat)
    ensures n <= |s|
    ensures n == 0 <==> forall i :: 0 <= i < |s| ==> !p(s[i])
  {
    if s == [] then 0 else (if p(s[0]) then 1 else 0) + CountWhere(s[1..], p)
  }

  lemma {:induction false} CountWhereAppend(a: seq<Member>, b: seq<Member>, p: Member -> bool)
    ensures CountWhere(a + b, p) == CountWhere(a, p) + CountWhere(b, p)
  {
    if a == [] {
      assert a + b == b;
    } else {
      assert (a + b)[1..] == a[1..] + b;
      CountWhereAppend(a[1..], b, p);
    }
  }

  /** `sub` is obtained from `s` by deleting some elements, keeping the order of the rest. */
  predicate IsSubsequence<T(==)>(sub: seq<T>, s: seq<T>)
    decreases |s|
  {
    if sub == [] then true
    else if s == [] then false
    else if sub[0] == s[0] then IsSubsequence(sub[1..], s[1..])
    else IsSubsequence(sub, s[1..])
  }
}
