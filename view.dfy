/**
 * The page state of main.js: the schema last generated (`currentSchema`)
 * and the selected tab (`activeTab`), the four tabs that render the schema,
 * and the handlers that change the state: generation, tab clicks and the
 * two download buttons. What a handler would write into the page is
 * returned instead: the content of the tab, or the error text it shows.
 */
module View {
  import opened Wrappers
  import opened Text
  import opened Schemas
  import opened Html
  import Sql
  import Python
  import Erd

  /** How a tab turns the schema into content. */
  datatype Renderer = DiagramRenderer | SqlRenderer | PythonRenderer | JsonRenderer

  /** An entry of the tab bar. */
  datatype Tab = Tab(id: string, labelText: string, icon: string, renderer: Renderer)

  const Tabs: seq<Tab> := [
    Tab("erd", "ERD Diagram", "layout", DiagramRenderer),
    Tab("sql", "SQL Script", "terminal", SqlRenderer),
    Tab("code", "Python Models", "code", PythonRenderer),
    Tab("json", "JSON", "file-json", JsonRenderer)
  ]

  /**
   * What the content area shows. A code block shows its text HTML-escaped;
   * the JSON tab shows the schema serialised, which is kept as the schema.
   */
  datatype TabContent =
    | Blank
    | DiagramView(diagram: Erd.Diagram)
    | CodeView(language: string, escaped: string)
    | JsonView(schema: Schema)

  /** What the network call delivered: a schema document, or an error of any kind. */
  datatype Reply = Received(schema: Schema) | Failed

  /** A file offered for download. */
  datatype Payload = PlainText(text: string) | JsonDump(schema: Schema)
  datatype Export = Export(filename: string, payload: Payload)

  const EmptyPromptError := "Please write the system description first."
  const GenerateError := "Failed to generate the diagrem."
  const NoDiagramError := "There is no diagram to download"

  /** A code block around `code`, which it shows escaped. */
  function CodeBlock(code: string, language: string): (c: TabContent)
    ensures c.CodeView? && c.language == language
    ensures Unescape(c.escaped) == code
    ensures '<' !in c.escaped && '>' !in c.escaped
  {
    EscapeHtmlRoundTrip(code);
    EscapeHtmlHasNoAngles(Some(code));
    CodeView(language, EscapeHtml(Some(code)))
  }

  /** `renderERD`, `renderSQL`, `renderPython`, `renderJSON`: each draws nothing without a schema. */
  function Render(r: Renderer, schema: Option<Schema>): (c: TabContent)
    ensures c == Blank <==> schema.None?
  {
    match schema
    case None => Blank
    case Some(s) =>
      match r
      case DiagramRenderer => DiagramView(Erd.RenderErd(schema).value)
      case SqlRenderer => CodeBlock(Sql.SqlText(schema), "sql")
      case PythonRenderer => CodeBlock(Python.PythonText(schema), "python")
      case JsonRenderer => JsonView(s)
  }

  predicate HasId(id: string, t: Tab)
  {
    t.id == id
  }

  /** The tab ids of the tab bar. */
  predicate KnownTab(id: string)
  {
    exists k :: 0 <= k < |Tabs| && Tabs[k].id == id
  }

  /** `updateContent`: the active tab's rendering of the schema, or nothing for an unknown tab. */
  function ContentFor(id: string, schema: Option<Schema>): (c: TabContent)
    ensures !KnownTab(id) ==> c == Blank
  {
    match FindIndex(Tabs, t => HasId(id, t))
    case None => Blank
    case Some(k) => Render(Tabs[k].renderer, schema)
  }

  /** Each id of the tab bar names exactly one tab. */
  lemma TabLookup(k: nat)
    requires k < |Tabs|
    ensures FindIndex(Tabs, t => HasId(Tabs[k].id, t)) == Some(k)
  {
    var p := t => HasId(Tabs[k].id, t);
    assert Tabs[1..][1..][1..] == [Tabs[3]];
    assert Tabs[1..][1..] == [Tabs[2], Tabs[3]];
    assert Tabs[1..] == [Tabs[1], Tabs[2], Tabs[3]];
  }

  /** With no schema every tab is blank. */
  lemma NoSchemaBlank(id: string)
    ensures ContentFor(id, None) == Blank
  {
  }

  /** With a schema, every tab of the tab bar shows its own rendering, and nothing is blank. */
  lemma KnownTabContent(k: nat, s: Schema)
    requires k < |Tabs|
    ensures ContentFor(Tabs[k].id, Some(s)) == Render(Tabs[k].renderer, Some(s))
    ensures ContentFor(Tabs[k].id, Some(s)) != Blank
  {
    TabLookup(k);
  }

  /** The SQL tab shows the generated script, escaped so that it reads back exactly. */
  lemma SqlTabShowsScript(s: Schema)
    ensures ContentFor("sql", Some(s)).CodeView?
    ensures ContentFor("sql", Some(s)).language == "sql"
    ensures Unescape(ContentFor("sql", Some(s)).escaped) == Sql.SqlText(Some(s))
  {
    KnownTabContent(1, s);
  }

  /** The Python tab shows the generated classes, escaped so that they read back exactly. */
  lemma PythonTabShowsClasses(s: Schema)
    ensures ContentFor("code", Some(s)).CodeView?
    ensures ContentFor("code", Some(s)).language == "python"
    ensures Unescape(ContentFor("code", Some(s)).escaped) == Python.PythonText(Some(s))
  {
    KnownTabContent(2, s);
  }

  /** The diagram tab shows the diagram of the schema: card i is entity i's card. */
  lemma DiagramTabShowsCards(s: Schema)
    ensures ContentFor("erd", Some(s)).DiagramView?
    ensures ContentFor("erd", Some(s)).diagram == Erd.RenderErd(Some(s)).value
    ensures |ContentFor("erd", Some(s)).diagram.cards| == |EntitiesOf(s)|
    ensures forall i :: 0 <= i < |EntitiesOf(s)| ==>
      ContentFor("erd", Some(s)).diagram.cards[i] == Erd.RenderEntityCard(EntitiesOf(s)[i])
  {
    KnownTabContent(0, s);
  }

  /** `renderSQL` and its siblings: `Render` computed by calling the generators. */
  method RenderTab(r: Renderer, schema: Option<Schema>) returns (shown: TabContent)
    ensures shown == Render(r, schema)
  {
    if schema.None? {
      return Blank;
    }
    match r
    case DiagramRenderer =>
      shown := DiagramView(Erd.RenderErd(schema).value);
    case SqlRenderer =>
      var sql := Sql.GenerateSql(schema);
      shown := CodeBlock(sql, "sql");
    case PythonRenderer =>
      var code := Python.GeneratePython(schema);
      shown := CodeBlock(code, "python");
    case JsonRenderer =>
      shown := JsonView(schema.value);
  }

  class Page {
    var currentSchema: Option<Schema>
    var activeTab: string

    /** The selected tab is one of the tab bar. */
    predicate Valid()
      reads this
    {
      KnownTab(activeTab)
    }

    /** Before any generation: no schema, the diagram tab selected. */
    constructor()
      ensures currentSchema == None && activeTab == "erd"
      ensures Valid()
    {
      currentSchema := None;
      activeTab := "erd";
      assert Tabs[0].id == "erd";
    }

    /** `updateContent`: what the content area shows now; nothing changes. */
    method UpdateContent() returns (shown: TabContent)
      ensures shown == ContentFor(activeTab, currentSchema)
      ensures Valid() && currentSchema.Some? ==> shown != Blank
    {
      var id := activeTab;
      var k := FindIndex(Tabs, t => HasId(id, t));
      if k.None? {
        assert forall j :: 0 <= j < |Tabs| ==> !HasId(id, Tabs[j]);
        shown := Blank;
      } else {
        shown := RenderTab(Tabs[k.value].renderer, currentSchema);
      }
    }

    /** A click on tab `id`: it becomes the active tab and its content is shown. */
    method SelectTab(id: string) returns (shown: TabContent)
      modifies this
      ensures activeTab == id && currentSchema == old(currentSchema)
      ensures shown == ContentFor(id, currentSchema)
      ensures Valid() <==> KnownTab(id)
    {
      activeTab := id;
      shown := UpdateContent();
    }

    /**
     * `handleGenerate` up to the request: a prompt that is empty once
     * trimmed is refused and changes nothing; otherwise the old schema is
     * dropped and the trimmed prompt is sent.
     */
    method StartGenerate(prompt: string) returns (request: Result<string, string>)
      modifies this
      ensures request.Failure? <==> Trim(prompt) == ""
      ensures request.Failure? ==> request.error == EmptyPromptError
      ensures request.Failure? ==> currentSchema == old(currentSchema) && activeTab == old(activeTab)
      ensures request.Success? ==> request.value == Trim(prompt) && currentSchema == None && activeTab == old(activeTab)
    {
      var trimmed := Trim(prompt);
      if trimmed == "" {
        return Failure(EmptyPromptError);
      }
      currentSchema := None;
      request := Success(trimmed);
    }

    /**
     * `handleGenerate` after the reply: a schema becomes the current one
     * and the diagram tab is shown; a failure leaves the state as it is
     * and shows the error.
     */
    method FinishGenerate(reply: Reply) returns (outcome: Result<TabContent, string>)
      modifies this
      ensures reply.Failed? ==> outcome == Failure(GenerateError)
      ensures reply.Failed? ==> currentSchema == old(currentSchema) && activeTab == old(activeTab)
      ensures reply.Received? ==> currentSchema == Some(reply.schema) && activeTab == "erd" && Valid()
      ensures reply.Received? ==> outcome == Success(ContentFor("erd", Some(reply.schema)))
    {
      match reply
      case Failed =>
        outcome := Failure(GenerateError);
      case Received(schema) =>
        currentSchema := Some(schema);
        activeTab := "erd";
        assert Tabs[0].id == "erd";
        var shown := UpdateContent();
        outcome := Success(shown);
    }

    /** The whole of `handleGenerate`, with `reply` standing for the outcome of the network call. */
    method HandleGenerate(prompt: string, reply: Reply) returns (outcome: Result<TabContent, string>)
      modifies this
      ensures Trim(prompt) == "" ==> outcome == Failure(EmptyPromptError)
      ensures Trim(prompt) == "" ==> currentSchema == old(currentSchema) && activeTab == old(activeTab)
      ensures Trim(prompt) != "" && reply.Failed? ==> outcome == Failure(GenerateError)
      ensures Trim(prompt) != "" && reply.Failed? ==> currentSchema == None && activeTab == old(activeTab)
      ensures Trim(prompt) != "" && reply.Received? ==>
        currentSchema == Some(reply.schema) && activeTab == "erd" && outcome == Success(ContentFor("erd", currentSchema))
      ensures old(Valid()) ==> Valid()
    {
      var request := StartGenerate(prompt);
      if request.Failure? {
        return Failure(request.error);
      }
      outcome := FinishGenerate(reply);
    }

    /** The SQL download button: the generated script, or a refusal without a schema. */
    method DownloadSql() returns (r: Result<Export, string>)
      ensures r.Failure? <==> currentSchema.None?
      ensures r.Failure? ==> r.error == NoDiagramError
      ensures r.Success? ==> r.value == Export("schema.sql", PlainText(Sql.SqlText(currentSchema)))
    {
      if currentSchema.None? {
        return Failure(NoDiagramError);
      }
      var sql := Sql.GenerateSql(currentSchema);
      r := Success(Export("schema.sql", PlainText(sql)));
    }

    /** The JSON download button: the schema serialised, or a refusal without a schema. */
    method DownloadJson() returns (r: Result<Export, string>)
      ensures r.Failure? <==> currentSchema.None?
      ensures r.Failure? ==> r.error == NoDiagramError
      ensures r.Success? ==> r.value == Export("schema.json", JsonDump(currentSchema.value))
    {
      if currentSchema.None? {
        return Failure(NoDiagramError);
      }
      r := Success(Export("schema.json", JsonDump(currentSchema.value)));
    }
  }
}
