# Workflow C# editor service, modelled in Dafny

This project models the editor service behind the C# code editor of the Elsa
workflow designer (`WorkflowCSharpEditorService`). Every workflow gets its own
ad-hoc Roslyn project, keyed by its definition id with the dashes removed. The
project holds a generated-types document and the user's script as the primary
document. On top of that, the service answers five requests:

- code analysis: diagnostics mapped to the designer's severities;
- formatting: done in a throwaway project that is deleted afterwards;
- completion: the trigger character, the pattern filter over the candidates
  with its span-text cache, and the kind of each candidate;
- hover: a type or a symbol description for the node under the cursor;
- signature help: the enclosing argument list, the active parameter, the
  method group narrowed by the receiver, and the best-scoring overload.

Files:

- `workspace.dfy`: the host's projects and the service's request methods, as
  classes.
- `diagnostics.dfy`, `completion.dfy`, `hover.dfy`, `signatures.dfy`: the logic
  of each request.
- `symbols.dfy`, `text.dfy`, `seqs.dfy`, `wrappers.dfy`: the shared vocabulary.

Roslyn's own analyses are parameters of the model, because their results are
all the service looks at. These are:

- the diagnostics of a document;
- the raw completion items per trigger;
- `MatchesPattern`;
- the completion description;
- the semantic model, as maps from nodes to types and symbols;
- the member group of a receiver;
- the formatter.

`Guid.NewGuid()` is a parameter too, constrained to the GUID text shape.

Three consequences of the code worth knowing:

- With one `int` argument, the overloads `f(int)` and `f(int, int)` tie at
  2 points each. The later overload is not disqualified, so whichever overload
  comes first in the group is active (`Signatures.TiedOverloadsFirstWins`).
- A user document named `GeneratedTypes` overwrites the generated document and
  marks it primary (`Workspace.PreparedProjects`). The reserved document is
  therefore not always non-primary.
- Hovering over a lambda parameter written without a type, such as `x` in
  `list.Where(x => x > 1)`, fails: the parameter's type is read without a null
  check (`WorkflowCSharpEditorService.cs` line 247), so the request throws a `NullReferenceException`. This is
  the `NullReference` outcome of `Hover.HoverAt`.

## Model

| member | source | states |
|---|---|---|
| Seqs.Filter | src/Passingwind.Abp.ElsaModule.ElsaExtensions/Services/WorkflowCSharpEditorService.cs:125-133 | the kept candidates are exactly those of the input that satisfy the predicate, and no more of them |
| Seqs.FilterIndices | src/Passingwind.Abp.ElsaModule.ElsaExtensions/Services/WorkflowCSharpEditorService.cs:125-133 | `Where` keeps order: the kept items are the input's items at strictly increasing indices, exactly the indices whose item passes |
| Seqs.FilterConcat | src/Passingwind.Abp.ElsaModule.ElsaExtensions/Services/WorkflowCSharpEditorService.cs:125-133 | filtering a concatenation is the concatenation of the filtered parts |
| Diagnostics.MapDiagnosticSeverity | src/Passingwind.Abp.ElsaModule.ElsaExtensions/Services/WorkflowCSharpEditorService.cs:360-369 | Error, Warning and Info keep their name; every other severity, and only those, becomes Hint |
| Diagnostics.MapDiagnosticSeverityInjective | src/Passingwind.Abp.ElsaModule.ElsaExtensions/Services/WorkflowCSharpEditorService.cs:360-369 | two severities other than Hidden map to the same analysis severity only if they are equal |
| Diagnostics.MapDiagnostics | src/Passingwind.Abp.ElsaModule.ElsaExtensions/Services/WorkflowCSharpEditorService.cs:51-65 | one analysis item per diagnostic, in order, with its id, message, span start and end, and mapped severity |
| Completion.ChooseTrigger | src/Passingwind.Abp.ElsaModule.ElsaExtensions/Services/WorkflowCSharpEditorService.cs:109-115 | the text from one before the cursor (never below 0) is taken, out of range past the end; Invoke exactly when that text is empty or starts with '.', otherwise an insertion of its first character |
| Completion.TriggerAtStartLooksAhead | src/Passingwind.Abp.ElsaModule.ElsaExtensions/Services/WorkflowCSharpEditorService.cs:110 | a cursor at or before 0 behaves like a cursor at 1: the first character decides |
| Completion.FilterCompletions | src/Passingwind.Abp.ElsaModule.ElsaExtensions/Services/WorkflowCSharpEditorService.cs:121-133 | the span-to-text cache never changes the answer: the kept candidates are those whose span text matches the pattern, in order |
| Completion.DecimalRoundTrip | src/Passingwind.Abp.ElsaModule.ElsaExtensions/Services/WorkflowCSharpEditorService.cs:140 | reading back the digits of a number yields the number |
| Completion.ParseSymbolKind | src/Passingwind.Abp.ElsaModule.ElsaExtensions/Services/WorkflowCSharpEditorService.cs:140 | a digit string parses to its value; any other string parses to the member with exactly that name; the only errors are overflow and unknown name |
| Completion.ParseSymbolKindOutcome | src/Passingwind.Abp.ElsaModule.ElsaExtensions/Services/WorkflowCSharpEditorService.cs:140 | parsing succeeds exactly for a digit string below 2^31 or a member's exact name; it fails with overflow exactly for a digit string at or beyond 2^31 and as unknown exactly for any other non-name |
| Completion.ParseSymbolKindName | src/Passingwind.Abp.ElsaModule.ElsaExtensions/Services/WorkflowCSharpEditorService.cs:140-149 | parsing the name `ToString()` gives for a kind yields that kind again |
| Completion.MapKind | src/Passingwind.Abp.ElsaModule.ElsaExtensions/Services/WorkflowCSharpEditorService.cs:157-191 | Field, Property, Local, Method and NamedType map to Field, Property, Variable, Function and Class, each in both directions; every other kind to Others; never Enum |
| Completion.MissingKindIsVariable | src/Passingwind.Abp.ElsaModule.ElsaExtensions/Services/WorkflowCSharpEditorService.cs:137-141 | a candidate without a kind property is reported as Local and shown as a variable |
| Completion.ClassifyCompletions | src/Passingwind.Abp.ElsaModule.ElsaExtensions/Services/WorkflowCSharpEditorService.cs:135-152 | one entry per kept candidate in order, with its description, display text, kind name and mapped kind; the first unparsable kind property aborts with its error |
| Completion.Complete | src/Passingwind.Abp.ElsaModule.ElsaExtensions/Services/WorkflowCSharpEditorService.cs:99-155 | empty without a completion service; the trigger's exception when it throws; otherwise the classification of the matching candidates for the chosen trigger |
| Hover.AccessTextIsLoweredName | src/Passingwind.Abp.ElsaModule.ElsaExtensions/Services/WorkflowCSharpEditorService.cs:375 | the accessibility text is the lower-cased `ToString()` name of the accessibility |
| Hover.ParamListIsJoin | src/Passingwind.Abp.ElsaModule.ElsaExtensions/Services/WorkflowCSharpEditorService.cs:379-383 | the parameter loop yields the parameters' `type name` texts joined by ", " with no trailing separator |
| Hover.AppendParameters | src/Passingwind.Abp.ElsaModule.ElsaExtensions/Services/WorkflowCSharpEditorService.cs:379-383 | the parameter loop appends exactly the parameter list: each entry's type and name, with ", " between entries and none after the last |
| Hover.HoverText | src/Passingwind.Abp.ElsaModule.ElsaExtensions/Services/WorkflowCSharpEditorService.cs:371-410 | empty exactly for a symbol that is no method, local or field; methods start with "(method) ", locals and fields with their name and " : " |
| Hover.BuildMethodInfo | src/Passingwind.Abp.ElsaModule.ElsaExtensions/Services/WorkflowCSharpEditorService.cs:373-387 | the builder yields "(method) ", the access, "static " if static, the name, the parameter list and ") : " with the return type |
| Hover.BuildLocalInfo | src/Passingwind.Abp.ElsaModule.ElsaExtensions/Services/WorkflowCSharpEditorService.cs:388-395 | the builder yields the name, " : ", "const " if constant, and the type |
| Hover.BuildFieldInfo | src/Passingwind.Abp.ElsaModule.ElsaExtensions/Services/WorkflowCSharpEditorService.cs:396-407 | the builder yields the name, " : ", the access, then "static ", "readonly ", "const " as flagged, and the type |
| Hover.HoverInfoBuild | src/Passingwind.Abp.ElsaModule.ElsaExtensions/Services/WorkflowCSharpEditorService.cs:371-410 | the text built for a symbol is its hover text |
| Hover.HoverAt | src/Passingwind.Abp.ElsaModule.ElsaExtensions/Services/WorkflowCSharpEditorService.cs:211-278 | an untyped lambda parameter throws, and only it; otherwise a type answer wins, failing that a bound symbol's hover text is the answer, and the result is null exactly when neither exists; every answer spans the node under the cursor |
| Signatures.NewContext | src/Passingwind.Abp.ElsaModule.ElsaExtensions/Services/WorkflowCSharpEditorService.cs:490-506 | a new invocation context keeps the position, receiver, argument types and separators, and is never in a static context |
| Signatures.ContextAt | src/Passingwind.Abp.ElsaModule.ElsaExtensions/Services/WorkflowCSharpEditorService.cs:459-475 | a node yields a context exactly when it is an invocation, object creation or attribute whose argument list exists and contains the position; the context carries the invocation's expression, or the creation or attribute itself, as receiver, and that argument list's types and separators |
| Signatures.FirstContext | src/Passingwind.Abp.ElsaModule.ElsaExtensions/Services/WorkflowCSharpEditorService.cs:457-480 | no context exactly when no ancestor yields one; otherwise the context of the innermost ancestor that does |
| Signatures.GetInvocation | src/Passingwind.Abp.ElsaModule.ElsaExtensions/Services/WorkflowCSharpEditorService.cs:450-481 | the walk up the parents returns the innermost enclosing argument list's context |
| Signatures.ActiveParameter | src/Passingwind.Abp.ElsaModule.ElsaExtensions/Services/WorkflowCSharpEditorService.cs:300-307 | the count of separators before the first separator starting after the position |
| Signatures.ActiveParameterCountsSeparators | src/Passingwind.Abp.ElsaModule.ElsaExtensions/Services/WorkflowCSharpEditorService.cs:300-307 | for separators in source order, the active parameter is the number of separators starting at or before the position |
| Signatures.ReceiverInclusion | src/Passingwind.Abp.ElsaModule.ElsaExtensions/Services/WorkflowCSharpEditorService.cs:317-331 | static members are included exactly when the receiver binds to a named type or as a type; instance members when it binds to a value, is a literal or typeof, or does not bind as a type; at least one kind is always included |
| Signatures.FilterMethodGroup | src/Passingwind.Abp.ElsaModule.ElsaExtensions/Services/WorkflowCSharpEditorService.cs:316-337 | a member-access receiver keeps the overloads whose staticness is included; any other receiver keeps the whole group |
| Signatures.SimpleNameGroupUnfiltered | src/Passingwind.Abp.ElsaModule.ElsaExtensions/Services/WorkflowCSharpEditorService.cs:334-337 | since no context is ever in a static context, a simple-name receiver never narrows the group |
| Signatures.ZipScoreBounds | src/Passingwind.Abp.ElsaModule.ElsaExtensions/Services/WorkflowCSharpEditorService.cs:429-446 | a score lies between 0 and twice the number of arguments when the overload has enough parameters |
| Signatures.ZipScoreTopIffExact | src/Passingwind.Abp.ElsaModule.ElsaExtensions/Services/WorkflowCSharpEditorService.cs:438-444 | the top score is reached exactly when every argument's type is known and equals its parameter's type |
| Signatures.InvocationScore | src/Passingwind.Abp.ElsaModule.ElsaExtensions/Services/WorkflowCSharpEditorService.cs:429-446 | the loop's score is the minimum integer when there are more arguments than parameters, otherwise the paired score, within its bounds |
| Signatures.ActiveSignatureUnique | src/Passingwind.Abp.ElsaModule.ElsaExtensions/Services/WorkflowCSharpEditorService.cs:339-356 | the active signature is determined by the group and the argument types |
| Signatures.TiedOverloadsFirstWins | src/Passingwind.Abp.ElsaModule.ElsaExtensions/Services/WorkflowCSharpEditorService.cs:339-350 | with one int argument, f(int) and f(int, int) both score 2, so whichever overload comes first is active |
| Signatures.BuildSignature | src/Passingwind.Abp.ElsaModule.ElsaExtensions/Services/WorkflowCSharpEditorService.cs:412-427 | one parameter label per parameter, each its display text |
| Signatures.SelectSignature | src/Passingwind.Abp.ElsaModule.ElsaExtensions/Services/WorkflowCSharpEditorService.cs:339-357 | one signature per overload in order; the active one is the first overload with the highest score above the minimum, or -1 when every overload is disqualified |
| Signatures.SignatureHelp | src/Passingwind.Abp.ElsaModule.ElsaExtensions/Services/WorkflowCSharpEditorService.cs:297-357 | null without an enclosing argument list; otherwise the signatures of the narrowed group with the active parameter and active signature |
| Workspace.ProjectKey | src/Passingwind.Abp.ElsaModule.ElsaExtensions/Services/WorkflowCSharpEditorService.cs:42 | the key is the id with every '-' removed and the other characters kept in order, as the order-preserving filter of the id |
| Workspace.ProjectKeyUnchangedIff | src/Passingwind.Abp.ElsaModule.ElsaExtensions/Services/WorkflowCSharpEditorService.cs:42 | an id is its own key exactly when it has no '-' |
| Workspace.ProjectKeyIdempotent | src/Passingwind.Abp.ElsaModule.ElsaExtensions/Services/WorkflowCSharpEditorService.cs:42 | removing dashes from a key changes nothing |
| Workspace.GuidIsNeverProjectKey | src/Passingwind.Abp.ElsaModule.ElsaExtensions/Services/WorkflowCSharpEditorService.cs:71 | a formatting project's GUID name contains '-', so it is never a workflow's key |
| Workspace.PreparedProjects | src/Passingwind.Abp.ElsaModule.ElsaExtensions/Services/WorkflowCSharpEditorService.cs:39-45 | only the workflow's project changes: it exists, keeps its original references, holds the user text as primary, the generated text as non-primary unless the user document is named GeneratedTypes, and its other documents |
| Workspace.FormatKeepsWorkflowProjects | src/Passingwind.Abp.ElsaModule.ElsaExtensions/Services/WorkflowCSharpEditorService.cs:71-78 | deleting the formatting project leaves every workflow project as it was |
| Workspace.RoslynHost.GetOrCreateProject | src/Passingwind.Abp.ElsaModule.ElsaExtensions/Services/WorkflowCSharpEditorService.cs:42 | the project exists afterwards; an existing one is left untouched, a new one gets the given references and imports |
| Workspace.RoslynHost.CreateOrUpdateDocument | src/Passingwind.Abp.ElsaModule.ElsaExtensions/Services/WorkflowCSharpEditorService.cs:44-45 | the named document of the project gets the text and primary flag; the document id is its name |
| Workspace.RoslynHost.GetDocument | src/Passingwind.Abp.ElsaModule.ElsaExtensions/Services/WorkflowCSharpEditorService.cs:73 | the stored document of that project and id, or none |
| Workspace.RoslynHost.DeleteProject | src/Passingwind.Abp.ElsaModule.ElsaExtensions/Services/WorkflowCSharpEditorService.cs:78 | exactly the named project disappears |
| Workspace.EditorService.constructor | src/Passingwind.Abp.ElsaModule.ElsaExtensions/Services/WorkflowCSharpEditorService.cs:30-35 | the service keeps the host it is given |
| Workspace.EditorService.PrepareWorkflowProject | src/Passingwind.Abp.ElsaModule.ElsaExtensions/Services/WorkflowCSharpEditorService.cs:39-45 | the project is named by the key, the host holds the prepared projects, and the user document reads back as primary |
| Workspace.EditorService.GetCodeAnalysis | src/Passingwind.Abp.ElsaModule.ElsaExtensions/Services/WorkflowCSharpEditorService.cs:37-67 | the documents are prepared and one analysis item is produced per diagnostic, in order, with its id, message, span and mapped severity |
| Workspace.EditorService.CodeFormatter | src/Passingwind.Abp.ElsaModule.ElsaExtensions/Services/WorkflowCSharpEditorService.cs:69-84 | the result is the formatter's output for the text, and only the temporary project is removed again |
| Workspace.EditorService.GetCompletion | src/Passingwind.Abp.ElsaModule.ElsaExtensions/Services/WorkflowCSharpEditorService.cs:86-155 | the documents are prepared and the completion outcome is computed on the text read back from the host |
| Workspace.EditorService.GetHoverInfo | src/Passingwind.Abp.ElsaModule.ElsaExtensions/Services/WorkflowCSharpEditorService.cs:194-279 | the documents are prepared; the outcome is the hover dispatch's: the untyped-parameter exception, the type answer, the symbol's hover text, or null exactly when nothing answers |
| Workspace.EditorService.GetSignatures | src/Passingwind.Abp.ElsaModule.ElsaExtensions/Services/WorkflowCSharpEditorService.cs:281-358 | the documents are prepared and the signature-help outcome is returned |
## Left out

- Asynchrony, cancellation tokens and logging: not modelled. Each request is a
  sequential method.
- Roslyn itself is not part of this model. This covers parsing, binding, the
  completion service, `MatchesPattern`, descriptions, display strings,
  documentation XML and the formatter; their results are parameters.
- `ICSharpTypeDefinitionService.GenerateAsync` is not part of this model. Its
  output is the `GeneratedTypes` parameter.
- `AnalysisProjectAsync` and `GetCompilationAsync`: only needed to obtain
  Roslyn's answers, which are parameters here.
- `SeverityNumeric`: the numeric values of the designer's severity enum are
  not in this file, so only the severity itself is modelled.
- Filtering of the diagnostics to the user's document: done by
  `GetDocumentDiagnosticsAsync` in the host. The diagnostics list is the
  host's answer.
- Host behaviour beyond storing projects and documents is not part of this
  model. This covers clearing other documents' primary flags, document
  versions, and `DocumentId` values distinct from document names. The host is
  a map from project name to project.
- `Completion.ChooseTrigger`: offsets count Dafny characters (Unicode scalar
  values), not the UTF-16 code units that Roslyn positions count. Texts with
  characters outside the Basic Multilingual Plane, which take a surrogate pair
  in UTF-16, are outside the model. On such texts the trigger character, or
  whether `GetSubText` throws, can differ.
- `Completion.FilterCompletions`: candidate spans are taken to index Dafny
  characters. After a character outside the Basic Multilingual Plane, a Roslyn
  span would select different text, so such texts are outside the model.
- `Completion.ParseSymbolKind`: `Enum.Parse` also accepts surrounding
  whitespace, a leading sign and comma-separated lists of names. Only plain digit strings and exact member names are
  modelled.
- `Hover.AccessTextIsLoweredName`: `ToLower` is culture-sensitive in .NET.
  The model assumes a culture that lowers `I` to `i` and lowers ASCII letters
  only. Under Turkish or Azeri cultures `"Internal"` lowers to a dotless
  `ı`, which the model does not capture.
- `Completion.Complete`: it requires every candidate span to lie inside the
  text, as Roslyn's candidates do. The exception `GetSubText` would throw on a
  span outside the text is not modelled.
- `Signatures.SelectSignature`: `MonacoSignatures` is not part of this model.
  The model assumes it keeps reference equality and that the `HashSet` of
  freshly built signatures lists them in insertion order. Under that
  assumption, every overload keeps its own signature in order.
- `Signatures.InvocationScore`: scores are unbounded integers. A 32-bit score
  cannot overflow, because it is at most twice the number of arguments.
- `Signatures.GetInvocation`: the syntax tree walk from the token's parent
  upward is given as the list of ancestors. `FindToken` is not modelled.
- `Signatures.FilterMethodGroup`: `OfType<IMethodSymbol>` is taken as done,
  since the member group is given as method symbols only.
- `Workspace.EditorService.CodeFormatter`: the formatter's own properties,
  such as idempotence, are Roslyn's and not stated.
