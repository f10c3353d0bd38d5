/**
 * How the editor service uses the Roslyn host: one project per workflow,
 * keyed by the definition id without dashes; every query first upserts the
 * generated-types document and then the user's document as primary; and
 * formatting works in a throwaway project that it deletes afterwards.
 */
module Workspace {
  import opened Wrappers
  import opened Text
  import Diagnostics
  import Completion
  import Hover
  import Signatures
  import Symbols
  import Seqs

  /** The reserved name of the generated-types document. */
  const GeneratedTypeClassName: string := "GeneratedTypes"

  /** A document of a project: its full text and whether it is the primary one. */
  datatype Document = Document(text: string, isPrimary: bool)

  /** A project: its references, its imports and its documents by name. */
  datatype Project = Project(assemblies: seq<string>, imports: seq<string>, documents: map<string, Document>)

  predicate NotDash(c: char) {
    c != '-'
  }

  /**
   * `DefinitionId.Replace("-", null)`: the id with every '-' removed and the
   * other characters kept in order.
   */
  function ProjectKey(definitionId: string): (key: string)
    ensures key == Seqs.Filter(definitionId, NotDash)
    ensures '-' !in key
    ensures |key| <= |definitionId|
  {
    if |definitionId| == 0 then ""
    else
      Seqs.FilterConcat([definitionId[0]], definitionId[1..], NotDash);
      assert [definitionId[0]] + definitionId[1..] == definitionId;
      assert [definitionId[0]][..0] == [];
      (if definitionId[0] == '-' then "" else [definitionId[0]]) + ProjectKey(definitionId[1..])
  }

  /** The key of an id is the id itself exactly when the id has no '-'. */
  lemma {:induction false} ProjectKeyUnchangedIff(definitionId: string)
    ensures ProjectKey(definitionId) == definitionId <==> '-' !in definitionId
  {
    if |definitionId| > 0 && '-' !in definitionId {
      ProjectKeyUnchangedIff(definitionId[1..]);
      assert '-' !in definitionId[1..] by {
        forall i | 0 <= i < |definitionId[1..]| ensures definitionId[1..][i] != '-' {
          assert definitionId[1..][i] == definitionId[i + 1];
        }
      }
      assert [definitionId[0]] + definitionId[1..] == definitionId;
    }
  }

  /** Removing dashes twice is removing them once. */
  lemma ProjectKeyIdempotent(definitionId: string)
    ensures ProjectKey(ProjectKey(definitionId)) == ProjectKey(definitionId)
  {
    ProjectKeyUnchangedIff(ProjectKey(definitionId));
  }

  predicate IsLowerHexDigit(c: char) {
    '0' <= c <= '9' || 'a' <= c <= 'f'
  }

  /** The shape of `Guid.ToString()`: 8-4-4-4-12 lower-case hex digits. */
  predicate IsGuidText(s: string) {
    && |s| == 36
    && s[8] == '-' && s[13] == '-' && s[18] == '-' && s[23] == '-'
    && forall i :: 0 <= i < 36 && i != 8 && i != 13 && i != 18 && i != 23 ==> IsLowerHexDigit(s[i])
  }

  /** A formatting project's name is never a workflow's project key. */
  lemma GuidIsNeverProjectKey(guid: string, definitionId: string)
    requires IsGuidText(guid)
    ensures guid != ProjectKey(definitionId)
  {
    assert guid[8] in guid;
  }

  /** `GetOrCreateProject`: an existing project is returned unchanged. */
  function EnsureProject(projects: map<string, Project>, name: string,
                         assemblies: seq<string>, imports: seq<string>): map<string, Project> {
    if name in projects then projects else projects[name := Project(assemblies, imports, map[])]
  }

  /** `CreateOrUpdateDocument`: the named document of the project gets the text and flag. */
  function UpsertDocument(projects: map<string, Project>, projectName: string,
                          documentName: string, document: Document): map<string, Project>
    requires projectName in projects
  {
    var p := projects[projectName];
    projects[projectName := p.(documents := p.documents[documentName := document])]
  }

  /** The source-generated type for a workflow: its text, references and imports. */
  datatype GeneratedTypes = GeneratedTypes(text: string, assemblies: seq<string>, imports: seq<string>)

  /**
   * The host's projects after a query's preparation. Only the workflow's own
   * project changes: it exists afterwards, keeps the references it was
   * created with, holds the user's text as its primary document, keeps its
   * other documents, and holds the generated text as a non-primary document
   * unless the user's document has the reserved name itself.
   */
  function PreparedProjects(projects: map<string, Project>, definitionId: string,
                            generated: GeneratedTypes, textId: string, text: string): (r: map<string, Project>)
    ensures var key := ProjectKey(definitionId);
      && r.Keys == projects.Keys + {key}
      && (forall k :: k in projects && k != key ==> r[k] == projects[k])
      && (key in projects ==>
            r[key].assemblies == projects[key].assemblies && r[key].imports == projects[key].imports)
      && (key !in projects ==>
            r[key].assemblies == generated.assemblies && r[key].imports == generated.imports)
      && textId in r[key].documents && r[key].documents[textId] == Document(text, true)
      && ((GeneratedTypeClassName in r[key].documents &&
           r[key].documents[GeneratedTypeClassName] == Document(generated.text, false))
          <==> textId != GeneratedTypeClassName)
      && (forall d :: d != textId && d != GeneratedTypeClassName ==>
            (d in r[key].documents <==> key in projects && d in projects[key].documents))
      && (forall d :: d in r[key].documents && d != textId && d != GeneratedTypeClassName ==>
            r[key].documents[d] == projects[key].documents[d])
  {
    var key := ProjectKey(definitionId);
    var withProject := EnsureProject(projects, key, generated.assemblies, generated.imports);
    var withGenerated := UpsertDocument(withProject, key, GeneratedTypeClassName, Document(generated.text, false));
    UpsertDocument(withGenerated, key, textId, Document(text, true))
  }

  /**
   * Formatting deletes only its own project: every workflow project survives
   * it, whatever other requests did before.
   */
  lemma FormatKeepsWorkflowProjects(projects: map<string, Project>, guid: string, definitionId: string)
    requires IsGuidText(guid)
    requires ProjectKey(definitionId) in projects
    ensures ProjectKey(definitionId) in projects - {guid}
    ensures (projects - {guid})[ProjectKey(definitionId)] == projects[ProjectKey(definitionId)]
  {
    GuidIsNeverProjectKey(guid, definitionId);
  }

  /** The part of `IRoslynHost` the editor service calls: a map from project name to project. */
  class RoslynHost {
    var projects: map<string, Project>

    constructor ()
      ensures projects == map[]
    {
      projects := map[];
    }

    method GetOrCreateProject(name: string, assemblies: seq<string> := [], imports: seq<string> := [])
      returns (projectName: string)
      modifies this
      ensures projectName == name && name in projects
      ensures projects == EnsureProject(old(projects), name, assemblies, imports)
    {
      projects := EnsureProject(projects, name, assemblies, imports);
      projectName := name;
    }

    method CreateOrUpdateDocument(projectName: string, documentName: string, text: string, isPrimary: bool := false)
      returns (documentId: string)
      requires projectName in projects
      modifies this
      ensures documentId == documentName
      ensures projects == UpsertDocument(old(projects), projectName, documentName, Document(text, isPrimary))
    {
      projects := UpsertDocument(projects, projectName, documentName, Document(text, isPrimary));
      documentId := documentName;
    }

    function GetDocument(projectName: string, documentId: string): (r: Option<Document>)
      reads this
      ensures r.Some? <==> projectName in projects && documentId in projects[projectName].documents
      ensures r.Some? ==> r.value == projects[projectName].documents[documentId]
    {
      if projectName in projects && documentId in projects[projectName].documents
      then Some(projects[projectName].documents[documentId])
      else None
    }

    method DeleteProject(projectName: string)
      modifies this
      ensures projects == old(projects) - {projectName}
    {
      projects := projects - {projectName};
    }
  }

  /** `WorkflowCSharpEditorService`, over the host it is given. */
  class EditorService {
    const host: RoslynHost

    constructor (host: RoslynHost)
      ensures this.host == host
    {
      this.host := host;
    }

    /** The sequence every workflow query begins with. */
    method PrepareWorkflowProject(definitionId: string, generated: GeneratedTypes, textId: string, text: string)
      returns (projectName: string, documentId: string)
      modifies host
      ensures projectName == ProjectKey(definitionId) && documentId == textId
      ensures host.projects == PreparedProjects(old(host.projects), definitionId, generated, textId, text)
      ensures host.GetDocument(projectName, documentId) == Some(Document(text, true))
    {
      projectName := host.GetOrCreateProject(ProjectKey(definitionId), generated.assemblies, generated.imports);
      var generatedId := host.CreateOrUpdateDocument(projectName, GeneratedTypeClassName, generated.text);
      documentId := host.CreateOrUpdateDocument(projectName, textId, text, true);
    }

    /**
     * `GetCodeAnalysisAsync`. `diagnostics` stands for what the host reports
     * for the user's document once both documents are in place.
     */
    method GetCodeAnalysis(definitionId: string, generated: GeneratedTypes, textId: string, text: string,
                           diagnostics: seq<Diagnostics.Diagnostic>)
      returns (items: seq<Diagnostics.AnalysisItem>)
      modifies host
      ensures host.projects == PreparedProjects(old(host.projects), definitionId, generated, textId, text)
      ensures |items| == |diagnostics|
      ensures forall i :: 0 <= i < |items| ==>
        && items[i].id == diagnostics[i].id
        && items[i].message == diagnostics[i].message
        && items[i].offsetFrom == diagnostics[i].span.start
        && items[i].offsetTo == diagnostics[i].span.end
        && items[i].severity == Diagnostics.MapDiagnosticSeverity(diagnostics[i].severity)
    {
      var projectName, documentId := PrepareWorkflowProject(definitionId, generated, textId, text);
      items := Diagnostics.MapDiagnostics(diagnostics);
    }

    /** `CodeFormatterAsync`. `guid` is the fresh `Guid.NewGuid()` text and `format` the formatter. */
    method CodeFormatter(guid: string, textId: string, text: string, format: string -> string)
      returns (formatted: string)
      requires IsGuidText(guid)
      modifies host
      ensures formatted == format(text)
      ensures host.projects == old(host.projects) - {guid}
    {
      var projectName := host.GetOrCreateProject(guid);
      var documentId := host.CreateOrUpdateDocument(projectName, textId, text, true);
      var document := host.GetDocument(projectName, documentId);
      formatted := format(document.value.text);
      host.DeleteProject(projectName);
    }

    /** `GetCompletionAsync`, with the completion service's parts as parameters. */
    method GetCompletion(definitionId: string, generated: GeneratedTypes, textId: string, text: string,
                         position: int, serviceAvailable: bool,
                         getCompletions: Completion.CompletionTrigger -> seq<Completion.CompletionItem>,
                         matches: (Completion.CompletionItem, string) -> bool,
                         describe: Completion.CompletionItem -> string)
      returns (r: Completion.Result<seq<Completion.CompletionEntry>>)
      requires forall t, x :: x in getCompletions(t) ==> InText(text, x.span)
      modifies host
      ensures host.projects == PreparedProjects(old(host.projects), definitionId, generated, textId, text)
      ensures Completion.CompletionOutcome(text, position, serviceAvailable, getCompletions, matches, describe, r)
    {
      var projectName, documentId := PrepareWorkflowProject(definitionId, generated, textId, text);
      var document := host.GetDocument(projectName, documentId);
      r := Completion.Complete(document.value.text, position, serviceAvailable, getCompletions, matches, describe);
    }

    /** `GetHoverInfoAsync`, with the node at the cursor and the semantic model as parameters. */
    method GetHoverInfo(definitionId: string, generated: GeneratedTypes, textId: string, text: string,
                        node: Hover.HoverNode, model: Hover.SemanticModel)
      returns (r: Hover.HoverOutcome)
      modifies host
      ensures host.projects == PreparedProjects(old(host.projects), definitionId, generated, textId, text)
      ensures r.NullReference? <==> Hover.UntypedParameter(node)
      ensures r.NoAnswer? <==>
        !Hover.UntypedParameter(node) && Hover.TypeAnswer(node, model).None? && node.id !in model.symbolOf
      ensures r.Answer? ==> r.info.offsetFrom == node.span.start && r.info.offsetTo == node.span.end
      ensures Hover.TypeAnswer(node, model).Some? ==>
        r.Answer? && r.info.information == Hover.TypeAnswer(node, model).value
      ensures !Hover.UntypedParameter(node) && Hover.TypeAnswer(node, model).None? && node.id in model.symbolOf ==>
        r.Answer? && r.info.information == Hover.HoverText(model.symbolOf[node.id])
    {
      var projectName, documentId := PrepareWorkflowProject(definitionId, generated, textId, text);
      r := Hover.HoverAt(node, model);
    }

    /** `GetSignaturesAsync`, with the syntax ancestors and member groups as parameters. */
    method GetSignatures(definitionId: string, generated: GeneratedTypes, textId: string, text: string,
                         ancestors: seq<Signatures.SyntaxNode>, position: int,
                         memberGroupOf: Signatures.Receiver -> seq<Symbols.MethodSymbol>)
      returns (r: Option<Signatures.SignatureResult>)
      modifies host
      ensures host.projects == PreparedProjects(old(host.projects), definitionId, generated, textId, text)
      ensures Signatures.SignatureOutcome(ancestors, position, memberGroupOf, r)
    {
      var projectName, documentId := PrepareWorkflowProject(definitionId, generated, textId, text);
      r := Signatures.SignatureHelp(ancestors, position, memberGroupOf);
    }
  }
}
