/**
 * The hover query: a fixed-precedence dispatch over the syntax node at the
 * cursor and the one-line description `HoverInfoBuild` writes for a symbol.
 */
module Hover {
  import opened Wrappers
  import opened Text
  import opened Symbols

  /** Lower-casing of ASCII letters, which is all accessibility names contain. */
  function LowerChar(c: char): char {
    if 'A' <= c <= 'Z' then (c as int + 32) as char else c
  }

  function ToLower(s: string): (r: string)
    ensures |r| == |s|
    ensures forall i :: 0 <= i < |s| ==> r[i] == LowerChar(s[i])
  {
    if |s| == 0 then "" else [LowerChar(s[0])] + ToLower(s[1..])
  }

  /** The lower-cased accessibility name the descriptions show. */
  function AccessText(a: Accessibility): string {
    match a
    case NotApplicable => "notapplicable"
    case Private => "private"
    case ProtectedAndInternal => "protectedandinternal"
    case Protected => "protected"
    case Internal => "internal"
    case ProtectedOrInternal => "protectedorinternal"
    case Public => "public"
  }

  /** Lower-casing a string character by character yields `t`. */
  lemma ToLowerIs(s: string, t: string)
    requires |s| == |t|
    requires forall i :: 0 <= i < |s| ==> LowerChar(s[i]) == t[i]
    ensures ToLower(s) == t
  {
  }

  /** `AccessText` is `DeclaredAccessibility.ToString().ToLower()`. */
  lemma AccessTextIsLoweredName(a: Accessibility)
    ensures AccessText(a) == ToLower(AccessibilityName(a))
  {
    ToLowerIs(AccessibilityName(a), AccessText(a));
  }

  /** One parameter as the method description shows it: type, a space, name. */
  function ParamText(p: Parameter): string {
    p.paramType.display + " " + p.name
  }

  /**
   * The parameter list as the builder loop produces it: each entry followed
   * by ", " unless it is the last.
   */
  function ParamList(ps: seq<Parameter>): string {
    if |ps| == 0 then ""
    else ParamList(ps[..|ps| - 1]) + (if |ps| > 1 then ", " else "") + ParamText(ps[|ps| - 1])
  }

  /** An independent reference: the entries joined with ", ", head first. */
  function JoinParams(ps: seq<Parameter>): string {
    if |ps| == 0 then ""
    else if |ps| == 1 then ParamText(ps[0])
    else ParamText(ps[0]) + ", " + JoinParams(ps[1..])
  }

  lemma {:induction false} JoinParamsSnoc(ps: seq<Parameter>, p: Parameter)
    ensures JoinParams(ps + [p]) == JoinParams(ps) + (if |ps| > 0 then ", " else "") + ParamText(p)
  {
    if |ps| == 0 {
      assert ps + [p] == [p];
    } else if |ps| == 1 {
      assert (ps + [p])[1..] == [p];
    } else {
      assert (ps + [p])[1..] == ps[1..] + [p];
      JoinParamsSnoc(ps[1..], p);
    }
  }

  /** The builder loop's output is exactly the ", "-join of the "T n" entries. */
  lemma {:induction false} ParamListIsJoin(ps: seq<Parameter>)
    ensures ParamList(ps) == JoinParams(ps)
  {
    if |ps| > 0 {
      var init := ps[..|ps| - 1];
      ParamListIsJoin(init);
      JoinParamsSnoc(init, ps[|ps| - 1]);
      assert init + [ps[|ps| - 1]] == ps;
    }
  }

  /** Appending one more parameter to the builder's list. */
  lemma ParamListStep(ps: seq<Parameter>, i: nat)
    requires i < |ps|
    ensures ParamList(ps[..i + 1]) == ParamList(ps[..i]) + (if i > 0 then ", " else "") + ParamText(ps[i])
  {
    assert ps[..i + 1][..i] == ps[..i];
  }

  function StaticText(isStatic: bool): string {
    if isStatic then "static " else ""
  }

  /** `(method) <access> [static ]<name>(<T n>, ...) : <return type>`. */
  function MethodText(m: MethodSymbol): string {
    "(method) " + AccessText(m.accessibility) + " " + StaticText(m.isStatic)
      + m.name + "(" + ParamList(m.parameters) + ") : " + m.returnType.display
  }

  /** `<name> : [const ]<type>`. */
  function LocalText(name: string, isConst: bool, t: TypeRef): string {
    name + " : " + (if isConst then "const " else "") + t.display
  }

  /** `<name> : <access> [static ][readonly ][const ]<type>`. */
  function FieldText(name: string, a: Accessibility, isStatic: bool, isReadOnly: bool,
                     isConst: bool, t: TypeRef): string {
    name + " : " + AccessText(a) + " " + StaticText(isStatic)
      + (if isReadOnly then "readonly " else "") + (if isConst then "const " else "") + t.display
  }

  /**
   * The description `HoverInfoBuild` returns. It is empty exactly for the
   * symbol kinds it does not describe; a method's starts with "(method) " and
   * a local's or field's starts with its name followed by " : ".
   */
  function HoverText(s: Symbol): (r: string)
    ensures r == "" <==> s.OtherSymbol?
    ensures s.Method? ==> "(method) " <= r
    ensures s.Local? ==> s.localName + " : " <= r
    ensures s.Field? ==> s.fieldName + " : " <= r
  {
    match s
    case Method(m) => MethodText(m)
    case Local(n, c, t) => LocalText(n, c, t)
    case Field(n, a, st, ro, c, t) => FieldText(n, a, st, ro, c, t)
    case OtherSymbol => ""
  }

  /** `HoverInfoBuild`: the description of the symbol the cursor binds to. */
  method HoverInfoBuild(symbol: Symbol) returns (info: string)
    ensures info == HoverText(symbol)
  {
    match symbol {
      case Method(m) => info := BuildMethodInfo(m);
      case Local(name, isConst, t) => info := BuildLocalInfo(name, isConst, t);
      case Field(name, a, isStatic, isReadOnly, isConst, t) =>
        info := BuildFieldInfo(name, a, isStatic, isReadOnly, isConst, t);
      case OtherSymbol => info := "";
    }
  }

  /** The parameter loop of the method branch: each "T n" entry, with ", " between entries. */
  method AppendParameters(sb: string, ps: seq<Parameter>) returns (r: string)
    ensures r == sb + ParamList(ps)
  {
    r := sb;
    var n := |ps|;
    for i := 0 to n
      invariant r == sb + ParamList(ps[..i]) + (if 0 < i < n then ", " else "")
    {
      ParamListStep(ps, i);
      r := r + ps[i].paramType.display + " " + ps[i].name;
      assert r == sb + ParamList(ps[..i + 1]);
      if i < n - 1 {
        r := r + ", ";
      }
    }
    assert ps[..n] == ps;
  }

  /** The method branch of `HoverInfoBuild`: its `StringBuilder` appends, in order. */
  method BuildMethodInfo(m: MethodSymbol) returns (info: string)
    ensures info == MethodText(m)
  {
    var sb := "(method) " + AccessText(m.accessibility) + " ";
    if m.isStatic {
      sb := sb + "static ";
    }
    assert sb == "(method) " + AccessText(m.accessibility) + " " + StaticText(m.isStatic);
    sb := sb + m.name + "(";
    sb := AppendParameters(sb, m.parameters);
    sb := sb + ") : ";
    sb := sb + m.returnType.display;
    info := sb;
  }

  /** The local-variable branch of `HoverInfoBuild`. */
  method BuildLocalInfo(name: string, isConst: bool, t: TypeRef) returns (info: string)
    ensures info == LocalText(name, isConst, t)
  {
    var sb := name + " : ";
    if isConst {
      sb := sb + "const ";
    }
    sb := sb + t.display;
    info := sb;
  }

  /** The field branch of `HoverInfoBuild`: modifiers in the order static, readonly, const. */
  method BuildFieldInfo(name: string, a: Accessibility, isStatic: bool, isReadOnly: bool,
                        isConst: bool, t: TypeRef) returns (info: string)
    ensures info == FieldText(name, a, isStatic, isReadOnly, isConst, t)
  {
    var sb := name + " : " + AccessText(a) + " ";
    ghost var prefix := sb;
    if isStatic {
      sb := sb + "static ";
    }
    assert sb == prefix + StaticText(isStatic);
    prefix := sb;
    if isReadOnly {
      sb := sb + "readonly ";
    }
    assert sb == prefix + (if isReadOnly then "readonly " else "");
    prefix := sb;
    if isConst {
      sb := sb + "const ";
    }
    assert sb == prefix + (if isConst then "const " else "");
    sb := sb + t.display;
    info := sb;
  }

  type NodeId = nat

  /** The syntactic categories the dispatch tests for, each with what it reads. */
  datatype HoverNodeKind =
      /** A variable declarator; `initializerValue` is its first child's first child, if any. */
    | VariableDeclarator(initializerValue: Option<NodeId>)
    | PropertyDeclaration(propertyType: string)
      /** A parameter; `parameterType` is None for a lambda parameter written without a type. */
    | ParameterDeclaration(parameterType: Option<string>)
    | IdentifierName
    | OtherNode

  /** The parent node of the token at the cursor. */
  datatype HoverNode = HoverNode(id: NodeId, kind: HoverNodeKind, span: Span)

  /** What the semantic model answers: `GetTypeInfo(..).Type` and `GetSymbolInfo(..).Symbol`. */
  datatype SemanticModel = SemanticModel(typeOf: map<NodeId, TypeRef>, symbolOf: map<NodeId, Symbol>)

  datatype HoverInfo = HoverInfo(information: string, offsetFrom: nat, offsetTo: nat)

  /**
   * How a hover request ends: with an answer, with null, or with the
   * `NullReferenceException` of reading the type of an untyped parameter.
   */
  datatype HoverOutcome = Answer(info: HoverInfo) | NoAnswer | NullReference

  /** A parameter node without a declared type, as in `x => x > 1`. */
  predicate UntypedParameter(node: HoverNode) {
    node.kind == ParameterDeclaration(None)
  }

  /**
   * The type text the first four cases of the dispatch report, if one of
   * them applies: an initialised declarator whose value has a type, a
   * property's or parameter's declared type, or an identifier with a type.
   */
  function TypeAnswer(node: HoverNode, model: SemanticModel): Option<string> {
    match node.kind
    case VariableDeclarator(Some(c)) =>
      if c in model.typeOf then Some(model.typeOf[c].display) else None
    case PropertyDeclaration(t) => Some(t)
    case ParameterDeclaration(t) => t
    case IdentifierName =>
      if node.id in model.typeOf then Some(model.typeOf[node.id].display) else None
    case _ => None
  }

  /**
   * The dispatch of `GetHoverInfoAsync`. An untyped parameter throws, since
   * its type is read without a null check. Otherwise a type from the first
   * four cases wins; failing that, a bound symbol is described by
   * `HoverInfoBuild`, even when that gives the empty string; the result is
   * null exactly when neither exists. Every answer covers the node's span.
   */
  method HoverAt(node: HoverNode, model: SemanticModel) returns (r: HoverOutcome)
    ensures r.NullReference? <==> UntypedParameter(node)
    ensures r.NoAnswer? <==>
      !UntypedParameter(node) && TypeAnswer(node, model).None? && node.id !in model.symbolOf
    ensures r.Answer? ==> r.info.offsetFrom == node.span.start && r.info.offsetTo == node.span.end
    ensures TypeAnswer(node, model).Some? ==> r.Answer? && r.info.information == TypeAnswer(node, model).value
    ensures !UntypedParameter(node) && TypeAnswer(node, model).None? && node.id in model.symbolOf ==>
      r.Answer? && r.info.information == HoverText(model.symbolOf[node.id])
  {
    var location := node.span;
    if node.kind.VariableDeclarator? {
      var childNode := node.kind.initializerValue;
      if childNode.Some? {
        if childNode.value in model.typeOf {
          return Answer(HoverInfo(model.typeOf[childNode.value].display, location.start, location.end));
        }
      }
    }
    if node.kind.PropertyDeclaration? {
      return Answer(HoverInfo(node.kind.propertyType, location.start, location.end));
    }
    if node.kind.ParameterDeclaration? {
      if node.kind.parameterType.None? {
        return NullReference;
      }
      return Answer(HoverInfo(node.kind.parameterType.value, location.start, location.end));
    }
    if node.kind.IdentifierName? {
      if node.id in model.typeOf {
        return Answer(HoverInfo(model.typeOf[node.id].display, location.start, location.end));
      }
    }
    if node.id in model.symbolOf {
      var information := HoverInfoBuild(model.symbolOf[node.id]);
      return Answer(HoverInfo(information, location.start, location.end));
    }
    return NoAnswer;
  }
}
