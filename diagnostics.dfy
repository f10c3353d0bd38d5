/** The diagnostics query: compiler diagnostics mapped to the designer's result items. */
module Diagnostics {
  import opened Text

  /** Roslyn's `DiagnosticSeverity`. */
  datatype DiagnosticSeverity = Hidden | Info | Warning | Error

  /** The designer's severity scale. */
  datatype AnalysisSeverity = AnalysisError | AnalysisWarning | AnalysisInfo | AnalysisHint

  /** A compiler diagnostic: identifier, formatted message, source span and severity. */
  datatype Diagnostic = Diagnostic(id: string, message: string, span: Span, severity: DiagnosticSeverity)

  /** One result item of the diagnostics query. */
  datatype AnalysisItem = AnalysisItem(
    id: string,
    message: string,
    offsetFrom: nat,
    offsetTo: nat,
    severity: AnalysisSeverity)

  function DiagnosticSeverityName(s: DiagnosticSeverity): string {
    match s
    case Hidden => "Hidden"
    case Info => "Info"
    case Warning => "Warning"
    case Error => "Error"
  }

  function AnalysisSeverityName(s: AnalysisSeverity): string {
    match s
    case AnalysisError => "Error"
    case AnalysisWarning => "Warning"
    case AnalysisInfo => "Info"
    case AnalysisHint => "Hint"
  }

  /**
   * `MapDiagnosticSeverity`: Error, Warning and Info keep their name, every
   * other severity becomes Hint.
   */
  function MapDiagnosticSeverity(s: DiagnosticSeverity): (r: AnalysisSeverity)
    ensures s != Hidden ==> AnalysisSeverityName(r) == DiagnosticSeverityName(s)
    ensures r == AnalysisHint <==> s !in {Error, Warning, Info}
  {
    match s
    case Error => AnalysisError
    case Warning => AnalysisWarning
    case Info => AnalysisInfo
    case _ => AnalysisHint
  }

  /** The mapping loses nothing for the severities it names: it is one-to-one on them. */
  lemma MapDiagnosticSeverityInjective(a: DiagnosticSeverity, b: DiagnosticSeverity)
    requires a != Hidden && b != Hidden
    requires MapDiagnosticSeverity(a) == MapDiagnosticSeverity(b)
    ensures a == b
  {
  }

  /**
   * The loop of `GetCodeAnalysisAsync`: one item per diagnostic, in the same
   * order, carrying its id, message, span offsets and mapped severity.
   */
  method MapDiagnostics(diagnostics: seq<Diagnostic>) returns (items: seq<AnalysisItem>)
    ensures |items| == |diagnostics|
    ensures forall i :: 0 <= i < |items| ==>
      && items[i].id == diagnostics[i].id
      && items[i].message == diagnostics[i].message
      && items[i].offsetFrom == diagnostics[i].span.start
      && items[i].offsetTo == diagnostics[i].span.end
      && items[i].severity == MapDiagnosticSeverity(diagnostics[i].severity)
  {
    items := [];
    for k := 0 to |diagnostics|
      invariant |items| == k
      invariant forall i :: 0 <= i < k ==>
        items[i] == AnalysisItem(diagnostics[i].id, diagnostics[i].message,
                                 diagnostics[i].span.start, diagnostics[i].span.end,
                                 MapDiagnosticSeverity(diagnostics[i].severity))
    {
      var diagnostic := diagnostics[k];
      var severity := MapDiagnosticSeverity(diagnostic.severity);
      var item := AnalysisItem(diagnostic.id, diagnostic.message,
                               diagnostic.span.start, diagnostic.span.end, severity);
      items := items + [item];
    }
  }
}
