/**
 * The completion query: the trigger chosen from the character before the
 * cursor, the pattern filter over the raw candidates with its span-to-text
 * cache, and the classification of each kept candidate on the designer's
 * coarse kind scale.
 */
module Completion {
  import opened Wrappers
  import opened Text
  import Seqs

  datatype CompletionTrigger = Invoke | Insertion(character: char)

  /** The exceptions the completion path can raise. */
  datatype CompletionError =
      /** `SourceText.GetSubText(start)` with a start past the end of the text. */
    | ArgumentOutOfRange
      /** `Enum.Parse<SymbolKind>` on a string that names no member. */
    | UnknownSymbolKind(value: string)
      /** `Enum.Parse<SymbolKind>` on a number outside the 32-bit range. */
    | SymbolKindOverflow(value: string)

  datatype Result<+T> = Ok(value: T) | Err(error: CompletionError)

  /** The offset whose character decides the trigger: one before the cursor, but never below 0. */
  function TriggerStart(position: int): nat {
    if position <= 0 then 0 else position - 1
  }

  /**
   * The trigger of `GetCompletionAsync`. The text from `TriggerStart` on is
   * taken; it throws past the end of the text. The trigger is Invoke when
   * that text is empty or starts with '.', and otherwise an insertion of its
   * first character.
   */
  function ChooseTrigger(text: string, position: int): (r: Result<CompletionTrigger>)
    ensures r.Err? <==> TriggerStart(position) > |text|
    ensures r.Err? ==> r.error == ArgumentOutOfRange
    ensures r == Ok(Invoke) <==>
      TriggerStart(position) == |text| ||
      (TriggerStart(position) < |text| && text[TriggerStart(position)] == '.')
    ensures r.Ok? && r.value.Insertion? ==>
      r.value.character == text[TriggerStart(position)] && r.value.character != '.'
  {
    var start := TriggerStart(position);
    if start > |text| then Err(ArgumentOutOfRange)
    else
      var triggerText := text[start..];
      if |triggerText| > 0 && triggerText[0] != '.' then Ok(Insertion(triggerText[0]))
      else Ok(Invoke)
  }

  /**
   * At the start of the text there is no character before the cursor, so the
   * one after it decides: position 0 behaves like position 1.
   */
  lemma TriggerAtStartLooksAhead(text: string, position: int)
    requires position <= 0
    ensures ChooseTrigger(text, position) == ChooseTrigger(text, 1)
    ensures |text| > 0 && text[0] != '.' ==> ChooseTrigger(text, position) == Ok(Insertion(text[0]))
  {
  }

  /** A raw completion candidate: its span, display text and property bag. */
  datatype CompletionItem = CompletionItem(span: Span, displayText: string, properties: map<string, string>)

  /** The filter predicate: `MatchesPattern` applied to the text under the candidate's span. */
  function SpanMatch(text: string, matches: (CompletionItem, string) -> bool): CompletionItem -> bool {
    (x: CompletionItem) => InText(text, x.span) && matches(x, SubText(text, x.span))
  }

  /** The span-to-text cache holds, for every span it knows, the text under it. */
  ghost predicate CacheAgrees(text: string, cache: map<Span, string>) {
    forall sp :: sp in cache ==> InText(text, sp) && cache[sp] == SubText(text, sp)
  }

  /**
   * The filter of `GetCompletionAsync`, with its memo of span texts. It keeps
   * the same candidates, in the same order, as slicing the text afresh for
   * each one: the cache never changes the result.
   */
  method FilterCompletions(text: string, items: seq<CompletionItem>,
                           matches: (CompletionItem, string) -> bool)
    returns (kept: seq<CompletionItem>)
    requires forall i :: 0 <= i < |items| ==> InText(text, items[i].span)
    ensures kept == Seqs.Filter(items, SpanMatch(text, matches))
  {
    var cache: map<Span, string> := map[];
    kept := [];
    for i := 0 to |items|
      invariant CacheAgrees(text, cache)
      invariant kept == Seqs.Filter(items[..i], SpanMatch(text, matches))
    {
      var x := items[i];
      var spanText: string;
      if x.span in cache {
        spanText := cache[x.span];
      } else {
        spanText := SubText(text, x.span);
        cache := cache[x.span := spanText];
      }
      assert items[..i + 1][..i] == items[..i];
      assert SpanMatch(text, matches)(x) == matches(x, spanText);
      if matches(x, spanText) {
        kept := kept + [x];
      }
    }
    assert items[..|items|] == items;
  }

  /** Roslyn's `SymbolKind`, by its underlying 32-bit value. */
  newtype SymbolKind = k: int | 0 <= k < 0x8000_0000

  /** The names of `SymbolKind`'s members, indexed by their values. */
  const SymbolKindNames: seq<string> := [
    "Alias", "ArrayType", "Assembly", "DynamicType", "ErrorType", "Event", "Field",
    "Label", "Local", "Method", "NetModule", "NamedType", "Namespace", "Parameter",
    "PointerType", "Property", "RangeVariable", "TypeParameter", "Preprocessing",
    "Discard", "FunctionPointerType"]

  const FieldKindValue: SymbolKind := 6
  const LocalKindValue: SymbolKind := 8
  const MethodKindValue: SymbolKind := 9
  const NamedTypeKindValue: SymbolKind := 11
  const PropertyKindValue: SymbolKind := 15

  predicate IsDigit(c: char) {
    '0' <= c <= '9'
  }

  predicate AllDigits(s: string) {
    forall i :: 0 <= i < |s| ==> IsDigit(s[i])
  }

  /** The value of a string of decimal digits. */
  function DecimalValue(s: string): nat
    requires AllDigits(s)
  {
    if |s| == 0 then 0
    else DecimalValue(s[..|s| - 1]) * 10 + (s[|s| - 1] as int - '0' as int)
  }

  /** The decimal digits of `n`, without leading zeros. */
  function DecimalText(n: nat): (r: string)
    ensures |r| > 0 && AllDigits(r)
  {
    if n < 10 then [('0' as int + n) as char]
    else DecimalText(n / 10) + [('0' as int + n % 10) as char]
  }

  /** Reading back the digits of a number gives the number. */
  lemma {:induction false} DecimalRoundTrip(n: nat)
    ensures DecimalValue(DecimalText(n)) == n
  {
    if n >= 10 {
      var t := DecimalText(n / 10);
      DecimalRoundTrip(n / 10);
      assert (t + [('0' as int + n % 10) as char])[..|t|] == t;
    }
  }

  /** `SymbolKind.ToString()`: the member's name, or the number for a value no member has. */
  function SymbolKindName(k: SymbolKind): string {
    if (k as int) < |SymbolKindNames| then SymbolKindNames[k] else DecimalText(k as nat)
  }

  /** The position of the first member named `s`, searching from `from`. */
  function IndexOfName(s: string, from: nat): (r: Option<nat>)
    requires from <= |SymbolKindNames|
    ensures r.Some? ==> from <= r.value < |SymbolKindNames| && SymbolKindNames[r.value] == s
    ensures r.None? ==> forall j :: from <= j < |SymbolKindNames| ==> SymbolKindNames[j] != s
    decreases |SymbolKindNames| - from
  {
    if from == |SymbolKindNames| then None
    else if SymbolKindNames[from] == s then Some(from)
    else IndexOfName(s, from + 1)
  }

  /**
   * `Enum.Parse<SymbolKind>(value)`: a string of digits is read as a number
   * (any 32-bit value is accepted, named or not); anything else must be a
   * member's exact name.
   */
  function ParseSymbolKind(s: string): (r: Result<SymbolKind>)
    ensures r.Err? ==> r.error == UnknownSymbolKind(s) || r.error == SymbolKindOverflow(s)
    ensures r.Ok? && |s| > 0 && AllDigits(s) ==> r.value as int == DecimalValue(s)
    ensures r.Ok? && !(|s| > 0 && AllDigits(s)) ==>
      (r.value as int) < |SymbolKindNames| && SymbolKindNames[r.value] == s
  {
    if |s| > 0 && AllDigits(s) then
      var n := DecimalValue(s);
      if n < 0x8000_0000 then Ok(n as SymbolKind) else Err(SymbolKindOverflow(s))
    else
      match IndexOfName(s, 0)
      case Some(i) => Ok(i as SymbolKind)
      case None => Err(UnknownSymbolKind(s))
  }

  /**
   * When parsing succeeds and which error it raises otherwise: digits fail
   * only beyond the 32-bit range, any other string only when no member has
   * that name.
   */
  lemma ParseSymbolKindOutcome(s: string)
    ensures ParseSymbolKind(s).Ok? <==>
      || (|s| > 0 && AllDigits(s) && DecimalValue(s) < 0x8000_0000)
      || (!(|s| > 0 && AllDigits(s)) && s in SymbolKindNames)
    ensures ParseSymbolKind(s) == Err(SymbolKindOverflow(s)) <==>
      |s| > 0 && AllDigits(s) && DecimalValue(s) >= 0x8000_0000
    ensures ParseSymbolKind(s) == Err(UnknownSymbolKind(s)) <==>
      !(|s| > 0 && AllDigits(s)) && s !in SymbolKindNames
  {
  }

  /** No member name is a string of digits, and the names are pairwise distinct. */
  lemma SymbolKindNamesWellFormed()
    ensures forall i :: 0 <= i < |SymbolKindNames| ==> |SymbolKindNames[i]| > 0 && !IsDigit(SymbolKindNames[i][0])
    ensures forall i, j :: 0 <= i < j < |SymbolKindNames| ==> SymbolKindNames[i] != SymbolKindNames[j]
  {
  }

  /** Parsing the name `ToString()` gives back yields the same kind. */
  lemma ParseSymbolKindName(k: SymbolKind)
    ensures ParseSymbolKind(SymbolKindName(k)) == Ok(k)
  {
    SymbolKindNamesWellFormed();
    if (k as int) < |SymbolKindNames| {
      var name := SymbolKindNames[k];
      assert !AllDigits(name) by { assert !IsDigit(name[0]); }
      var found := IndexOfName(name, 0);
      assert found.Some? by { assert SymbolKindNames[k] == name; }
      assert found.value == k as nat;
    } else {
      DecimalRoundTrip(k as nat);
    }
  }

  /** The designer's coarse kind scale. */
  datatype CompletionItemKind = Field | Property | Variable | Function | Class | Enum | Others

  /**
   * `MapKind`: the five kinds the designer distinguishes, and Others for the
   * rest. The mapping is total and never yields Enum.
   */
  function MapKind(k: SymbolKind): (r: CompletionItemKind)
    ensures r != Enum
    ensures r == Field <==> k == FieldKindValue
    ensures r == Property <==> k == PropertyKindValue
    ensures r == Variable <==> k == LocalKindValue
    ensures r == Function <==> k == MethodKindValue
    ensures r == Class <==> k == NamedTypeKindValue
    ensures r == Others <==> k !in {FieldKindValue, PropertyKindValue, LocalKindValue, MethodKindValue, NamedTypeKindValue}
  {
    if k == FieldKindValue then Field
    else if k == PropertyKindValue then Property
    else if k == LocalKindValue then Variable
    else if k == MethodKindValue then Function
    else if k == NamedTypeKindValue then Class
    else Others
  }

  /** The kind a candidate reports: its "SymbolKind" property parsed, Local when it has none. */
  function ItemSymbolKind(item: CompletionItem): Result<SymbolKind> {
    if "SymbolKind" in item.properties then ParseSymbolKind(item.properties["SymbolKind"])
    else Ok(LocalKindValue)
  }

  /** A candidate without a kind property is shown as a variable. */
  lemma MissingKindIsVariable(item: CompletionItem)
    requires "SymbolKind" !in item.properties
    ensures ItemSymbolKind(item).Ok? && MapKind(ItemSymbolKind(item).value) == Variable
    ensures SymbolKindName(ItemSymbolKind(item).value) == "Local"
  {
  }

  /** One entry of the completion result. */
  datatype CompletionEntry = CompletionEntry(
    description: string,
    suggestion: string,
    symbolKind: string,
    itemKind: CompletionItemKind)

  function EntryFor(item: CompletionItem, k: SymbolKind, describe: CompletionItem -> string): CompletionEntry {
    CompletionEntry(describe(item), item.displayText, SymbolKindName(k), MapKind(k))
  }

  /**
   * `r` is what classifying `kept` gives: an entry per candidate, in order,
   * when every kind property parses; otherwise the error of the first one
   * that does not.
   */
  predicate Classifies(kept: seq<CompletionItem>, describe: CompletionItem -> string,
                       r: Result<seq<CompletionEntry>>) {
    && (r.Ok? <==> forall i :: 0 <= i < |kept| ==> ItemSymbolKind(kept[i]).Ok?)
    && (r.Ok? ==>
          |r.value| == |kept| &&
          forall i :: 0 <= i < |kept| ==>
            ItemSymbolKind(kept[i]).Ok? &&
            r.value[i] == EntryFor(kept[i], ItemSymbolKind(kept[i]).value, describe))
    && (r.Err? ==>
          exists i :: 0 <= i < |kept| && ItemSymbolKind(kept[i]) == Err(r.error) &&
            forall j :: 0 <= j < i ==> ItemSymbolKind(kept[j]).Ok?)
  }

  /** The loop over the kept candidates that builds the result list. */
  method ClassifyCompletions(kept: seq<CompletionItem>, describe: CompletionItem -> string)
    returns (r: Result<seq<CompletionEntry>>)
    ensures Classifies(kept, describe, r)
  {
    var results: seq<CompletionEntry> := [];
    for i := 0 to |kept|
      invariant |results| == i
      invariant forall j :: 0 <= j < i ==>
        ItemSymbolKind(kept[j]).Ok? &&
        results[j] == EntryFor(kept[j], ItemSymbolKind(kept[j]).value, describe)
    {
      var item := kept[i];
      var symbolKind := ItemSymbolKind(item);
      if symbolKind.Err? {
        return Err(symbolKind.error);
      }
      results := results + [EntryFor(item, symbolKind.value, describe)];
    }
    r := Ok(results);
  }

  /**
   * The outcome of a completion request: empty when no completion service
   * exists, the trigger's exception when it throws, and otherwise the
   * classification of the raw candidates for that trigger that match.
   */
  predicate CompletionOutcome(text: string, position: int, serviceAvailable: bool,
                              getCompletions: CompletionTrigger -> seq<CompletionItem>,
                              matches: (CompletionItem, string) -> bool,
                              describe: CompletionItem -> string,
                              r: Result<seq<CompletionEntry>>) {
    if !serviceAvailable then r == Ok([])
    else match ChooseTrigger(text, position)
      case Err(e) => r == Err(e)
      case Ok(trigger) =>
        Classifies(Seqs.Filter(getCompletions(trigger), SpanMatch(text, matches)), describe, r)
  }

  /**
   * The body of `GetCompletionAsync` after the documents are in place.
   * `getCompletions` stands for the completion service, `matches` for
   * `MatchesPattern` and `describe` for `GetDescriptionAsync`.
   */
  method Complete(text: string, position: int, serviceAvailable: bool,
                  getCompletions: CompletionTrigger -> seq<CompletionItem>,
                  matches: (CompletionItem, string) -> bool,
                  describe: CompletionItem -> string)
    returns (r: Result<seq<CompletionEntry>>)
    requires forall t, x :: x in getCompletions(t) ==> InText(text, x.span)
    ensures CompletionOutcome(text, position, serviceAvailable, getCompletions, matches, describe, r)
  {
    if !serviceAvailable {
      return Ok([]);
    }
    var completionTrigger := ChooseTrigger(text, position);
    if completionTrigger.Err? {
      return Err(completionTrigger.error);
    }
    var items := getCompletions(completionTrigger.value);
    var kept := FilterCompletions(text, items, matches);
    r := ClassifyCompletions(kept, describe);
  }
}
