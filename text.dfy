/** Character spans into a document's text, as Roslyn's `TextSpan` gives them. */
module Text {

  /** A half-open range `[start, end)` of character offsets. */
  datatype Span = Span(start: nat, end: nat) {
    /** `TextSpan.Contains(position)`: the end offset itself is outside. */
    predicate Contains(position: int) {
      start <= position < end
    }
  }

  /** The span lies inside `text`, so `SourceText.GetSubText(span)` does not throw. */
  predicate InText(text: string, span: Span) {
    span.start <= span.end <= |text|
  }

  /** `SourceText.GetSubText(span).ToString()`. */
  function SubText(text: string, span: Span): (r: string)
    requires InText(text, span)
    ensures |r| == span.end - span.start
    ensures forall i :: 0 <= i < |r| ==> r[i] == text[span.start + i]
  {
    text[span.start..span.end]
  }
}
