/**
 * The signature-help query: find the argument list around the cursor, count
 * the separators before it, narrow the method group by how the receiver is
 * reached, and pick the first overload whose argument types score best.
 */
module Signatures {
  import opened Wrappers
  import opened Text
  import opened Symbols
  import Seqs

  /** The syntactic kind of the expression on the left of a member access. */
  datatype ExpressionKind = LiteralExpression | TypeOfExpression | OtherExpression

  /** What speculative binding of that expression as an expression resolves to. */
  datatype BoundSymbol = NamedTypeSymbol | OtherTypeSymbol | ValueSymbol

  /**
   * The `x` of `x.Method(...)`: its kind, the symbol it binds to as an
   * expression, and whether it binds as a type or namespace.
   */
  datatype ThroughExpression = ThroughExpression(
    kind: ExpressionKind,
    speculativeSymbol: Option<BoundSymbol>,
    speculativeType: Option<TypeId>)

  /** The receiver an invocation context carries. */
  datatype Receiver =
    | MemberAccess(through: ThroughExpression)
    | SimpleName
    | ObjectCreationReceiver
    | AttributeReceiver
    | OtherReceiver

  /**
   * An argument list: its span, the converted type of each argument (None
   * when unknown) and the separator tokens between the arguments.
   */
  datatype ArgumentList = ArgumentList(span: Span, argumentTypes: seq<Option<TypeId>>, separators: seq<Span>)

  /** The ancestors the walk tests for; the others are `OtherSyntax`. */
  datatype SyntaxNode =
    | InvocationExpression(expression: Receiver, argumentList: ArgumentList)
    | ObjectCreationExpression(objectArguments: Option<ArgumentList>)
    | AttributeSyntax(attributeArguments: Option<ArgumentList>)
    | OtherSyntax

  datatype InvocationContext = InvocationContext(
    position: int,
    receiver: Receiver,
    argumentTypes: seq<Option<TypeId>>,
    separators: seq<Span>,
    isInStaticContext: bool)

  /** One of the two `InvocationContext` constructors; neither assigns `IsInStaticContext`. */
  function NewContext(position: int, receiver: Receiver, args: ArgumentList): (r: InvocationContext)
    ensures r.position == position && r.receiver == receiver
    ensures r.argumentTypes == args.argumentTypes && r.separators == args.separators
    ensures !r.isInStaticContext
  {
    InvocationContext(position, receiver, args.argumentTypes, args.separators, false)
  }

  /**
   * The test `GetInvocation` makes of one ancestor: an invocation, object
   * creation or attribute whose argument list contains the position.
   */
  function ContextAt(node: SyntaxNode, position: int): (r: Option<InvocationContext>)
    ensures r.Some? <==>
      || (node.InvocationExpression? && node.argumentList.span.Contains(position))
      || (node.ObjectCreationExpression? && node.objectArguments.Some? &&
          node.objectArguments.value.span.Contains(position))
      || (node.AttributeSyntax? && node.attributeArguments.Some? &&
          node.attributeArguments.value.span.Contains(position))
    ensures r.Some? ==> r.value.position == position && !r.value.isInStaticContext
    ensures r.Some? && node.InvocationExpression? ==>
      r.value == NewContext(position, node.expression, node.argumentList)
    ensures r.Some? && node.ObjectCreationExpression? ==>
      r.value == NewContext(position, ObjectCreationReceiver, node.objectArguments.value)
    ensures r.Some? && node.AttributeSyntax? ==>
      r.value == NewContext(position, AttributeReceiver, node.attributeArguments.value)
  {
    match node
    case InvocationExpression(expression, argumentList) =>
      if argumentList.span.Contains(position) then Some(NewContext(position, expression, argumentList))
      else None
    case ObjectCreationExpression(Some(argumentList)) =>
      if argumentList.span.Contains(position) then Some(NewContext(position, ObjectCreationReceiver, argumentList))
      else None
    case AttributeSyntax(Some(argumentList)) =>
      if argumentList.span.Contains(position) then Some(NewContext(position, AttributeReceiver, argumentList))
      else None
    case _ => None
  }

  /**
   * The context of the nearest ancestor that qualifies. It is null exactly
   * when none does, and otherwise comes from an ancestor before which none does.
   */
  function FirstContext(ancestors: seq<SyntaxNode>, position: int): (r: Option<InvocationContext>)
    ensures r.None? <==> forall i :: 0 <= i < |ancestors| ==> ContextAt(ancestors[i], position).None?
    ensures r.Some? ==> exists i :: 0 <= i < |ancestors| && r == ContextAt(ancestors[i], position) &&
                                    forall j :: 0 <= j < i ==> ContextAt(ancestors[j], position).None?
  {
    if |ancestors| == 0 then None
    else if ContextAt(ancestors[0], position).Some? then ContextAt(ancestors[0], position)
    else
      var rest := FirstContext(ancestors[1..], position);
      assert forall i :: 1 <= i < |ancestors| ==> ancestors[i] == ancestors[1..][i - 1];
      if rest.Some? then
        var k :| 0 <= k < |ancestors[1..]| && rest == ContextAt(ancestors[1..][k], position) &&
          forall j :: 0 <= j < k ==> ContextAt(ancestors[1..][j], position).None?;
        assert rest == ContextAt(ancestors[k + 1], position);
        rest
      else rest
  }

  /**
   * `InvocationContext.GetInvocation`: walk from the token's parent through
   * its ancestors (nearest first) until one qualifies.
   */
  method GetInvocation(ancestors: seq<SyntaxNode>, position: int) returns (ctx: Option<InvocationContext>)
    ensures ctx == FirstContext(ancestors, position)
  {
    var i := 0;
    while i < |ancestors|
      invariant 0 <= i <= |ancestors|
      invariant FirstContext(ancestors, position) == FirstContext(ancestors[i..], position)
    {
      var node := ancestors[i];
      var found := ContextAt(node, position);
      if found.Some? {
        return found;
      }
      assert ancestors[i..][1..] == ancestors[i + 1..];
      i := i + 1;
    }
    return None;
  }

  /**
   * `k` is the active parameter: the separators before index `k` all start
   * at or before the position, and the one at `k`, if any, after it.
   */
  predicate IsActiveParameter(separators: seq<Span>, position: int, k: int) {
    && 0 <= k <= |separators|
    && (forall i :: 0 <= i < k ==> separators[i].start <= position)
    && (k < |separators| ==> separators[k].start > position)
  }

  /** The separator-counting loop of `GetSignaturesAsync`, with its early exit. */
  method ActiveParameter(separators: seq<Span>, position: int) returns (activeParameter: int)
    ensures IsActiveParameter(separators, position, activeParameter)
  {
    activeParameter := 0;
    for i := 0 to |separators|
      invariant activeParameter == i
      invariant forall j :: 0 <= j < i ==> separators[j].start <= position
    {
      if separators[i].start > position {
        break;
      }
      activeParameter := activeParameter + 1;
    }
  }

  predicate SortedSeparators(separators: seq<Span>) {
    forall i, j :: 0 <= i < j < |separators| ==> separators[i].start <= separators[j].start
  }

  /** The number of separators that start at or before the position. */
  function CountAtOrBefore(separators: seq<Span>, position: int): nat {
    if |separators| == 0 then 0
    else
      var last := if separators[|separators| - 1].start <= position then 1 else 0;
      CountAtOrBefore(separators[..|separators| - 1], position) + last
  }

  /**
   * For separators in source order, the early exit loses nothing: the active
   * parameter is the number of separators at or before the position.
   */
  lemma {:induction false} ActiveParameterCountsSeparators(separators: seq<Span>, position: int, k: int)
    requires SortedSeparators(separators)
    requires IsActiveParameter(separators, position, k)
    ensures k == CountAtOrBefore(separators, position)
  {
    if |separators| > 0 {
      var n := |separators| - 1;
      var init := separators[..n];
      if k <= n {
        assert IsActiveParameter(init, position, k) by {
          if k < n {
            assert init[k] == separators[k];
          }
        }
        ActiveParameterCountsSeparators(init, position, k);
        if k < n {
          assert separators[n].start >= separators[k].start;
        }
      } else {
        assert IsActiveParameter(init, position, n);
        ActiveParameterCountsSeparators(init, position, n);
      }
    }
  }

  datatype Inclusion = Inclusion(includeStatic: bool, includeInstance: bool)

  /**
   * Whether `x.Method(...)` may name static overloads, instance overloads or
   * both. Static ones when `x` binds to a named type or as a type; instance
   * ones when it binds to a value, is a literal or a `typeof`, or does not
   * bind as a type, so at least one of the two always holds.
   */
  function ReceiverInclusion(through: ThroughExpression): (r: Inclusion)
    ensures r.includeStatic || r.includeInstance
    ensures r.includeStatic <==> through.speculativeSymbol == Some(NamedTypeSymbol) || through.speculativeType.Some?
    ensures r.includeInstance <==>
      || through.speculativeType.None?
      || through.speculativeSymbol == Some(ValueSymbol)
      || through.kind == LiteralExpression
      || through.kind == TypeOfExpression
  {
    var throughSymbol := through.speculativeSymbol;
    var includeInstance :=
      (throughSymbol.Some? && !(throughSymbol.value == NamedTypeSymbol || throughSymbol.value == OtherTypeSymbol))
      || through.kind == LiteralExpression
      || through.kind == TypeOfExpression;
    var includeStatic := throughSymbol == Some(NamedTypeSymbol) || through.speculativeType.Some?;
    var includeInstance := if through.speculativeType.None? then true else includeInstance;
    Inclusion(includeStatic, includeInstance)
  }

  function MemberAccessFilter(inclusion: Inclusion): MethodSymbol -> bool {
    (m: MethodSymbol) => (m.isStatic && inclusion.includeStatic) || (!m.isStatic && inclusion.includeInstance)
  }

  function StaticContextFilter(): MethodSymbol -> bool {
    (m: MethodSymbol) => m.isStatic || m.isLocalFunction
  }

  /**
   * The method group after narrowing: for a member access, exactly the
   * overloads whose staticness the receiver admits, in order; in a static
   * context, the static methods and local functions; otherwise unchanged.
   */
  function FilterMethodGroup(ctx: InvocationContext, group: seq<MethodSymbol>): (r: seq<MethodSymbol>)
    ensures ctx.receiver.MemberAccess? ==>
      var inclusion := ReceiverInclusion(ctx.receiver.through);
      forall m :: m in r <==>
        (m in group && ((m.isStatic && inclusion.includeStatic) || (!m.isStatic && inclusion.includeInstance)))
    ensures ctx.receiver.SimpleName? && ctx.isInStaticContext ==>
      forall m :: m in r <==> (m in group && (m.isStatic || m.isLocalFunction))
    ensures !ctx.receiver.MemberAccess? && !ctx.isInStaticContext ==> r == group
  {
    if ctx.receiver.MemberAccess? then
      Seqs.Filter(group, MemberAccessFilter(ReceiverInclusion(ctx.receiver.through)))
    else if ctx.receiver.SimpleName? && ctx.isInStaticContext then
      Seqs.Filter(group, StaticContextFilter())
    else group
  }

  /**
   * `IsInStaticContext` is never assigned, so for every context the walk can
   * return, a simple-name receiver's group is left as it is.
   */
  lemma SimpleNameGroupUnfiltered(ancestors: seq<SyntaxNode>, position: int, group: seq<MethodSymbol>)
    requires FirstContext(ancestors, position).Some?
    requires FirstContext(ancestors, position).value.receiver.SimpleName?
    ensures FilterMethodGroup(FirstContext(ancestors, position).value, group) == group
  {
  }

  /** `int.MinValue`, the score of a disqualified overload. */
  const IntMinValue: int := -0x8000_0000

  /** One argument against one parameter: 1 if its type is unknown, 2 if equal, 0 if not. */
  function PairScore(arg: Option<TypeId>, param: Parameter): int {
    match arg
    case None => 1
    case Some(t) => if t == param.paramType.id then 2 else 0
  }

  /** The sum of the pair scores of the arguments against the first parameters. */
  function ZipScore(args: seq<Option<TypeId>>, params: seq<Parameter>): int
    requires |args| <= |params|
  {
    if |args| == 0 then 0
    else ZipScore(args[..|args| - 1], params) + PairScore(args[|args| - 1], params[|args| - 1])
  }

  /** `InvocationScore`, as a value. */
  function Score(m: MethodSymbol, args: seq<Option<TypeId>>): int {
    if |m.parameters| < |args| then IntMinValue else ZipScore(args, m.parameters)
  }

  /** A qualifying overload scores between 0 and two points per argument. */
  lemma {:induction false} ZipScoreBounds(args: seq<Option<TypeId>>, params: seq<Parameter>)
    requires |args| <= |params|
    ensures 0 <= ZipScore(args, params) <= 2 * |args|
  {
    if |args| > 0 {
      ZipScoreBounds(args[..|args| - 1], params);
    }
  }

  /** An argument matches its parameter exactly when its type is known and equal. */
  predicate ExactMatch(args: seq<Option<TypeId>>, params: seq<Parameter>)
    requires |args| <= |params|
  {
    forall i :: 0 <= i < |args| ==> args[i] == Some(params[i].paramType.id)
  }

  /** The top score is reached exactly when every argument's type is known and equal. */
  lemma {:induction false} ZipScoreTopIffExact(args: seq<Option<TypeId>>, params: seq<Parameter>)
    requires |args| <= |params|
    ensures ZipScore(args, params) == 2 * |args| <==> ExactMatch(args, params)
  {
    if |args| > 0 {
      var n := |args| - 1;
      var init := args[..n];
      ZipScoreTopIffExact(init, params);
      ZipScoreBounds(init, params);
      assert forall i :: 0 <= i < n ==> init[i] == args[i];
      if ExactMatch(args, params) {
        assert ExactMatch(init, params);
      }
    }
  }

  /** `InvocationScore`: the enumerator loop over arguments and parameters together. */
  method InvocationScore(m: MethodSymbol, types: seq<Option<TypeId>>) returns (score: int)
    ensures score == Score(m, types)
    ensures score == IntMinValue || 0 <= score <= 2 * |types|
  {
    var parameters := m.parameters;
    if |parameters| < |types| {
      return IntMinValue;
    }
    score := 0;
    var i := 0;
    while i < |types| && i < |parameters|
      invariant 0 <= i <= |types|
      invariant score == ZipScore(types[..i], parameters)
    {
      assert types[..i + 1][..i] == types[..i];
      if types[i].None? {
        score := score + 1;
      } else if types[i].value == parameters[i].paramType.id {
        score := score + 2;
      }
      i := i + 1;
    }
    assert types[..i] == types;
    ZipScoreBounds(types, parameters);
  }

  /**
   * `active` is the index of the first overload with a strictly greatest
   * score, or -1 when every overload is disqualified (or there is none).
   */
  predicate IsActiveSignature(group: seq<MethodSymbol>, args: seq<Option<TypeId>>, active: int) {
    && (active == -1 <==> forall i :: 0 <= i < |group| ==> Score(group[i], args) == IntMinValue)
    && (active != -1 ==>
          && 0 <= active < |group|
          && Score(group[active], args) > IntMinValue
          && (forall j :: 0 <= j < |group| ==> Score(group[j], args) <= Score(group[active], args))
          && (forall j :: 0 <= j < active ==> Score(group[j], args) < Score(group[active], args)))
  }

  /** At most one index is the active signature. */
  lemma {:induction false} ActiveSignatureUnique(group: seq<MethodSymbol>, args: seq<Option<TypeId>>, a: int, b: int)
    requires IsActiveSignature(group, args, a) && IsActiveSignature(group, args, b)
    ensures a == b
  {
  }

  /**
   * `f(int)` and `f(int, int)` called with one int argument tie at 2 points:
   * the two-parameter overload is not disqualified, and whichever comes
   * first in the group is the active signature.
   */
  lemma TiedOverloadsFirstWins(one: MethodSymbol, two: MethodSymbol, intType: TypeRef, a: int, b: int)
    requires |one.parameters| == 1 && one.parameters[0].paramType == intType
    requires |two.parameters| == 2 && two.parameters[0].paramType == intType
    requires IsActiveSignature([one, two], [Some(intType.id)], a)
    requires IsActiveSignature([two, one], [Some(intType.id)], b)
    ensures Score(one, [Some(intType.id)]) == 2 && Score(two, [Some(intType.id)]) == 2
    ensures a == 0 && b == 0
  {
    var args := [Some(intType.id)];
    assert args[..0] == [];
    assert ZipScore(args, one.parameters) == ZipScore([], one.parameters) + PairScore(args[0], one.parameters[0]);
    assert ZipScore(args, two.parameters) == ZipScore([], two.parameters) + PairScore(args[0], two.parameters[0]);
    var g, h := [one, two], [two, one];
    assert Score(g[0], args) == 2 && Score(g[1], args) == 2;
    assert Score(h[0], args) == 2 && Score(h[1], args) == 2;
  }

  /** A signature as the designer shows it. */
  datatype Signature = Signature(signatureLabel: string, documentation: string, parameters: seq<string>)

  /** `BuildSignature`: the display label, documentation and parameter labels of an overload. */
  function BuildSignature(m: MethodSymbol): (r: Signature)
    ensures |r.parameters| == |m.parameters|
    ensures forall i :: 0 <= i < |m.parameters| ==> r.parameters[i] == m.parameters[i].display
  {
    Signature(m.display, m.documentation, seq(|m.parameters|, i requires 0 <= i < |m.parameters| => m.parameters[i].display))
  }

  /**
   * The overload loop of `GetSignaturesAsync`: each overload adds its newly
   * built signature to the set, and the first strictly better score moves
   * the best one.
   */
  method SelectSignature(group: seq<MethodSymbol>, types: seq<Option<TypeId>>)
    returns (signatures: seq<Signature>, activeSignature: int)
    ensures |signatures| == |group|
    ensures forall i :: 0 <= i < |group| ==> signatures[i] == BuildSignature(group[i])
    ensures IsActiveSignature(group, types, activeSignature)
  {
    signatures := [];
    var bestScore := IntMinValue;
    activeSignature := -1;
    for i := 0 to |group|
      invariant |signatures| == i
      invariant forall j :: 0 <= j < i ==> signatures[j] == BuildSignature(group[j])
      invariant activeSignature == -1 <==> forall j :: 0 <= j < i ==> Score(group[j], types) == IntMinValue
      invariant activeSignature == -1 ==> bestScore == IntMinValue
      invariant activeSignature != -1 ==>
        && 0 <= activeSignature < i
        && bestScore == Score(group[activeSignature], types) > IntMinValue
        && (forall j :: 0 <= j < i ==> Score(group[j], types) <= bestScore)
        && (forall j :: 0 <= j < activeSignature ==> Score(group[j], types) < bestScore)
    {
      var methodOverload := group[i];
      var signature := BuildSignature(methodOverload);
      signatures := signatures + [signature];
      var score := InvocationScore(methodOverload, types);
      if score > bestScore {
        bestScore := score;
        activeSignature := i;
      }
    }
  }

  /** What signature help returns: the signatures and the active parameter and signature. */
  datatype SignatureResult = SignatureResult(signatures: seq<Signature>, activeParameter: int, activeSignature: int)

  /**
   * The outcome of a signature-help request: null when no argument list
   * encloses the position; otherwise one signature per overload of the
   * narrowed group, with the active parameter and signature as above.
   */
  predicate SignatureOutcome(ancestors: seq<SyntaxNode>, position: int,
                             memberGroupOf: Receiver -> seq<MethodSymbol>, r: Option<SignatureResult>) {
    match FirstContext(ancestors, position)
    case None => r.None?
    case Some(ctx) =>
      var group := FilterMethodGroup(ctx, memberGroupOf(ctx.receiver));
      && r.Some?
      && |r.value.signatures| == |group|
      && (forall i :: 0 <= i < |group| ==> r.value.signatures[i] == BuildSignature(group[i]))
      && IsActiveParameter(ctx.separators, position, r.value.activeParameter)
      && IsActiveSignature(group, ctx.argumentTypes, r.value.activeSignature)
  }

  /**
   * The body of `GetSignaturesAsync` after the documents are in place.
   * `ancestors` are the token's parent and its ancestors, and
   * `memberGroupOf` stands for the semantic model's `GetMemberGroup`.
   */
  method SignatureHelp(ancestors: seq<SyntaxNode>, position: int, memberGroupOf: Receiver -> seq<MethodSymbol>)
    returns (r: Option<SignatureResult>)
    ensures SignatureOutcome(ancestors, position, memberGroupOf, r)
  {
    var invocation := GetInvocation(ancestors, position);
    if invocation.None? {
      return None;
    }
    var ctx := invocation.value;
    var activeParameter := ActiveParameter(ctx.separators, ctx.position);
    var methodGroup := FilterMethodGroup(ctx, memberGroupOf(ctx.receiver));
    var signatures, activeSignature := SelectSignature(methodGroup, ctx.argumentTypes);
    r := Some(SignatureResult(signatures, activeParameter, activeSignature));
  }
}
