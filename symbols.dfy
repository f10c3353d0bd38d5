/**
 * The parts of Roslyn's symbols that the editor service reads: names, flags,
 * declared accessibility and types. Types are compared by identity (what
 * `SymbolEqualityComparer.Default` does) and shown by their display text
 * (what `ToString()` and `StringBuilder.Append(object)` produce).
 */
module Symbols {

  type TypeId = nat

  datatype TypeRef = TypeRef(id: TypeId, display: string)

  /** Roslyn's `Accessibility` enumeration. */
  datatype Accessibility =
    | NotApplicable
    | Private
    | ProtectedAndInternal
    | Protected
    | Internal
    | ProtectedOrInternal
    | Public

  /** `Accessibility.ToString()`: the member's own name. */
  function AccessibilityName(a: Accessibility): string {
    match a
    case NotApplicable => "NotApplicable"
    case Private => "Private"
    case ProtectedAndInternal => "ProtectedAndInternal"
    case Protected => "Protected"
    case Internal => "Internal"
    case ProtectedOrInternal => "ProtectedOrInternal"
    case Public => "Public"
  }

  /**
   * A method parameter: its name and type, and its minimally qualified
   * display string (`ToDisplayString(MinimallyQualifiedFormat)`).
   */
  datatype Parameter = Parameter(name: string, paramType: TypeRef, display: string)

  /** An `IMethodSymbol`, with its display label and documentation XML. */
  datatype MethodSymbol = MethodSymbol(
    name: string,
    accessibility: Accessibility,
    isStatic: bool,
    isLocalFunction: bool,
    parameters: seq<Parameter>,
    returnType: TypeRef,
    display: string,
    documentation: string)

  /** The symbol a position binds to; `OtherSymbol` is any kind the hover text does not describe. */
  datatype Symbol =
    | Method(methodSymbol: MethodSymbol)
    | Local(localName: string, isConst: bool, localType: TypeRef)
    | Field(fieldName: string, fieldAccessibility: Accessibility, fieldIsStatic: bool,
            isReadOnly: bool, fieldIsConst: bool, fieldType: TypeRef)
    | OtherSymbol
}
