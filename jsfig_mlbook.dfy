/** The `jsfig` directive of the mlbook extension
    (extensions/mlbook/directives/jsfig.py): a figure node without options,
    always rendered as a live p5 sketch. */
module BookJsFigure {
  import opened Wrappers
  import opened Text
  import opened Html
  import JsFigure

  datatype FigureNode = FigureNode(id: string, figureName: string, optionsJson: string)

  /** `JSFigureDirective.run`; `id` is the fresh UUID. The options text is
      built as in the ml4p directive. */
  function Run(id: string, arguments: seq<string>, content: seq<string>): seq<FigureNode>
    requires |arguments| == 1
  {
    [FigureNode(id, arguments[0], JsFigure.OptionsJson(content))]
  }

  /** `run` yields one node named after the argument, whose options text is
      never empty and is `{}` for content that is all white space. */
  lemma RunSpec(id: string, arguments: seq<string>, content: seq<string>)
    requires |arguments| == 1
    ensures var nodes := Run(id, arguments, content);
      |nodes| == 1 && nodes[0].id == id && nodes[0].figureName == arguments[0]
      && nodes[0].optionsJson != ""
      && (AllSpace(Join(content, "\n")) ==> nodes[0].optionsJson == "{}")
      && (!AllSpace(Join(content, "\n")) ==> nodes[0].optionsJson == Strip(Join(content, "\n")))
  {
    JsFigure.OptionsJsonSpec(content);
  }

  /** The template of `visit_jsfigure_node`. */
  const BookTemplate: Template := [
    Lit("\n    <script type=\"module\">\n      "),
    Lit("import { setup_dynamic } from \"/_static/vis/js/"),
    Hole(FigureName),
    Lit("/main.js\";"),
    Lit("\n\n      function getTheme() {\n        "),
    Lit("return document.body.getAttribute(\"data-bs-theme\");"),
    Lit("\n      }\n\n      "),
    Lit("setup_dynamic(\n        \""),
    Hole(DivId),
    Lit("\",\n        getTheme,\n        "),
    Hole(FigureOptionsJson),
    Lit(","),
    Lit("\n      );\n    </script>\n\n    <div "),
    Lit("id=\""),
    Hole(DivId),
    Lit("\"></div>"),
    Lit("\n    ")
  ]

  function BookValues(node: FigureNode): map<Name, string>
  {
    map[FigureName := node.figureName, DivId := node.id, FigureOptionsJson := node.optionsJson]
  }

  lemma BookCovers(node: FigureNode)
    ensures Covers(BookTemplate, BookValues(node))
  {
  }

  function BookHtml(node: FigureNode): string
  {
    BookCovers(node);
    Render(BookTemplate, BookValues(node))
  }

  lemma BookImport(node: FigureNode)
    ensures Contains(BookHtml(node), "import { setup_dynamic } from \"/_static/vis/js/" + node.figureName + "/main.js\";")
  {
    var t, m := BookTemplate, BookValues(node);
    BookCovers(node);
    assert t[1] == Lit("import { setup_dynamic } from \"/_static/vis/js/");
    assert t[2] == Hole(FigureName) && m[FigureName] == node.figureName;
    assert t[3] == Lit("/main.js\";");
    RenderRun3(t, m, 1);
  }

  lemma BookTheme(node: FigureNode)
    ensures Contains(BookHtml(node), "return document.body.getAttribute(\"data-bs-theme\");")
  {
    var t, m := BookTemplate, BookValues(node);
    BookCovers(node);
    assert t[5] == Lit("return document.body.getAttribute(\"data-bs-theme\");");
    RenderRun1(t, m, 5);
  }

  lemma BookCall(node: FigureNode)
    ensures Contains(BookHtml(node),
      "setup_dynamic(\n        \"" + node.id + "\",\n        getTheme,\n        " + node.optionsJson + ",")
  {
    var t, m := BookTemplate, BookValues(node);
    BookCovers(node);
    assert t[7] == Lit("setup_dynamic(\n        \"");
    assert t[8] == Hole(DivId) && m[DivId] == node.id;
    assert t[9] == Lit("\",\n        getTheme,\n        ");
    assert t[10] == Hole(FigureOptionsJson) && m[FigureOptionsJson] == node.optionsJson;
    assert t[11] == Lit(",");
    RenderRun5(t, m, 7);
  }

  lemma BookDiv(node: FigureNode)
    ensures Contains(BookHtml(node), "id=\"" + node.id + "\"></div>")
  {
    var t, m := BookTemplate, BookValues(node);
    BookCovers(node);
    assert t[13] == Lit("id=\"");
    assert t[14] == Hole(DivId) && m[DivId] == node.id;
    assert t[15] == Lit("\"></div>");
    RenderRun3(t, m, 13);
  }

  /** The sketch is imported from `/_static/vis/js/<name>/main.js`, with no
      `figures/` segment; its `getTheme` reads the body's theme attribute;
      `setup_dynamic` receives the div id and the options text verbatim, and
      the div carries the same id. */
  lemma BookHtmlSpec(node: FigureNode)
    ensures Substitute(BookTemplate, BookValues(node)) == Ok(BookHtml(node))
    ensures Contains(BookHtml(node), "import { setup_dynamic } from \"/_static/vis/js/" + node.figureName + "/main.js\";")
    ensures Contains(BookHtml(node), "return document.body.getAttribute(\"data-bs-theme\");")
    ensures Contains(BookHtml(node),
      "setup_dynamic(\n        \"" + node.id + "\",\n        getTheme,\n        " + node.optionsJson + ",")
    ensures Contains(BookHtml(node), "id=\"" + node.id + "\"></div>")
  {
    BookCovers(node);
    BookImport(node);
    BookTheme(node);
    BookCall(node);
    BookDiv(node);
  }

  /** `visit_jsfigure_node`: appends exactly one string. */
  method Visit(t: Translator, node: FigureNode)
    modifies t
    ensures t.body == old(t.body) + [BookHtml(node)]
  {
    var html := BookHtml(node);
    t.Append(html);
  }

  /** `depart_jsfigure_node` appends nothing. */
  method Depart(t: Translator, node: FigureNode)
    ensures t.body == old(t.body)
  {
  }
}
