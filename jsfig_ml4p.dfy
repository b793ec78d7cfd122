/** The `jsfig` directive of the ml4p extension (ext/ml4p/directives/jsfig.py):
    option validation, the figure node `run` builds, and the HTML the visitor
    appends, either a live p5 sketch or a pre-rendered image. */
module JsFigure {
  import opened Wrappers
  import opened Text
  import opened Html

  /** The `ValueError` the `html_output` option validator raises. */
  datatype ValueError = InvalidHtmlOutput

  /** `_validate_html_output_option`. */
  function ValidateHtmlOutput(argument: string): Result<string, ValueError>
  {
    var a := Lower(argument);
    if a == "static" || a == "dynamic" then Ok(a) else Err(InvalidHtmlOutput)
  }

  /** The validator accepts exactly the two values in any letter case,
      returns them lower-cased, and accepts its own results unchanged. */
  lemma ValidateHtmlOutputSpec(argument: string)
    ensures ValidateHtmlOutput(argument).Ok? <==> Lower(argument) == "static" || Lower(argument) == "dynamic"
    ensures ValidateHtmlOutput(argument).Ok? ==>
      ValidateHtmlOutput(argument).value == Lower(argument)
      && ValidateHtmlOutput(ValidateHtmlOutput(argument).value) == ValidateHtmlOutput(argument)
  {
    LowerIdempotent(argument);
  }

  lemma ValidateHtmlOutputExamples()
    ensures ValidateHtmlOutput("Static") == Ok("static")
    ensures ValidateHtmlOutput("DYNAMIC") == Ok("dynamic")
    ensures ValidateHtmlOutput("png") == Err(InvalidHtmlOutput)
  {
    LowerStatic();
    LowerDynamic();
    assert Lower("png")[0] == 'p';
  }

  lemma LowerStatic()
    ensures Lower("Static") == "static"
  {
    assert Lower("Static")[0] == 's';
  }

  lemma LowerDynamic()
    ensures Lower("DYNAMIC") == "dynamic"
  {
    assert Lower("DYNAMIC")[0] == 'd';
  }

  /** The directive's content as the options object: its lines joined by
      newlines and stripped, or `{}` when nothing is left. */
  function OptionsJson(content: seq<string>): string
  {
    var j := Strip(Join(content, "\n"));
    if j == "" then "{}" else j
  }

  /** The options text is never empty. Content that is all white space gives
      `{}`; any other content gives the stripped text, which neither starts
      nor ends with white space. */
  lemma OptionsJsonSpec(content: seq<string>)
    ensures OptionsJson(content) != ""
    ensures AllSpace(Join(content, "\n")) ==> OptionsJson(content) == "{}"
    ensures !AllSpace(Join(content, "\n")) ==>
      var r := OptionsJson(content);
      r == Strip(Join(content, "\n")) && !IsSpace(r[0]) && !IsSpace(r[|r| - 1])
  {
    StripEmptyIff(Join(content, "\n"));
    StripSpec(Join(content, "\n"));
  }

  /** Content that is only Unicode white space, such as the ideographic
      space, gives `{}` as well. */
  lemma UnicodeSpaceOptions()
    ensures OptionsJson(["\U{3000}"]) == "{}"
    ensures OptionsJson(["\U{2028}", "\U{a0}\U{1680}"]) == "{}"
  {
    assert Join(["\U{3000}"], "\n") == "\U{3000}";
    OptionsJsonSpec(["\U{3000}"]);
    assert Join(["\U{2028}", "\U{a0}\U{1680}"], "\n") == "\U{2028}\n\U{a0}\U{1680}";
    OptionsJsonSpec(["\U{2028}", "\U{a0}\U{1680}"]);
  }

  /** The directive's options after docutils has converted them; an absent
      option is `None`. */
  datatype Options = Options(align: Option<string>, htmlOutput: Option<string>)

  /** The option conversion the directive declares: `align` unchanged,
      `html_output` through the validator. */
  function ConvertOptions(align: Option<string>, htmlOutput: Option<string>): Result<Options, ValueError>
  {
    match htmlOutput
    case None => Ok(Options(align, None))
    case Some(h) =>
      match ValidateHtmlOutput(h)
      case Err(e) => Err(e)
      case Ok(v) => Ok(Options(align, Some(v)))
  }

  function GetOr(o: Option<string>, default: string): string
  {
    if o.Some? then o.value else default
  }

  datatype FigureNode = FigureNode(id: string, figureName: string, optionsJson: string, align: string, htmlOutput: string)

  /** `JSFigureDirective.run`; `id` is the fresh UUID. */
  function Run(id: string, arguments: seq<string>, content: seq<string>, options: Options): seq<FigureNode>
    requires 1 <= |arguments| <= 2
  {
    [FigureNode(id, arguments[0], OptionsJson(content), GetOr(options.align, "center"), GetOr(options.htmlOutput, "dynamic"))]
  }

  /** `run` yields one node, named after the first argument, centred and
      dynamic unless the options say otherwise; with converted options its
      output mode is one of the two valid values. */
  lemma RunSpec(id: string, arguments: seq<string>, content: seq<string>, align: Option<string>, htmlOutput: Option<string>)
    requires 1 <= |arguments| <= 2
    requires ConvertOptions(align, htmlOutput).Ok?
    ensures var nodes := Run(id, arguments, content, ConvertOptions(align, htmlOutput).value);
      |nodes| == 1 && nodes[0].id == id && nodes[0].figureName == arguments[0]
      && nodes[0].optionsJson == OptionsJson(content)
      && nodes[0].align == (if align.None? then "center" else align.value)
      && (htmlOutput.None? ==> nodes[0].htmlOutput == "dynamic")
      && (htmlOutput.Some? ==> nodes[0].htmlOutput == Lower(htmlOutput.value))
      && (nodes[0].htmlOutput == "static" || nodes[0].htmlOutput == "dynamic")
  {
    if htmlOutput.Some? {
      ValidateHtmlOutputSpec(htmlOutput.value);
    }
  }

  // ---------------------------------------------------------------------
  // HTML

  /** The template of `_generate_html_for_dynamic_figure`. */
  const DynamicTemplate: Template := [
    Lit("\n    <script defer type=\"module\">\n      "),
    Lit("import { setup_dynamic } from \"/_static/vis/js/figures/"),
    Hole(FigureName),
    Lit("/main.js\";"),
    Lit("\n\n      function getTheme() {\n        "),
    Lit("return document.documentElement.getAttribute(\"data-bs-theme\");"),
    Lit("\n      }\n\n      "),
    Lit("setup_dynamic(\n        \""),
    Hole(DivId),
    Lit("\",\n        getTheme,\n        "),
    Hole(FigureOptionsJson),
    Lit(","),
    Lit("\n      );\n    </script>\n\n    <div class=\"ml4p-figure text-"),
    Hole(Align),
    Lit(" d-flex-inline\" "),
    Lit("id=\""),
    Hole(DivId),
    Lit("\"></div>"),
    Lit("\n    ")
  ]

  function DynamicValues(node: FigureNode): map<Name, string>
  {
    map[FigureName := node.figureName, DivId := node.id, FigureOptionsJson := node.optionsJson, Align := node.align]
  }

  lemma DynamicCovers(node: FigureNode)
    ensures Covers(DynamicTemplate, DynamicValues(node))
  {
  }

  /** `_generate_html_for_dynamic_figure`. */
  function DynamicHtml(node: FigureNode): string
  {
    DynamicCovers(node);
    Render(DynamicTemplate, DynamicValues(node))
  }

  lemma DynamicImport(node: FigureNode)
    ensures Contains(DynamicHtml(node),
      "import { setup_dynamic } from \"/_static/vis/js/figures/" + node.figureName + "/main.js\";")
  {
    var t, m := DynamicTemplate, DynamicValues(node);
    DynamicCovers(node);
    assert t[1] == Lit("import { setup_dynamic } from \"/_static/vis/js/figures/");
    assert t[2] == Hole(FigureName);
    assert t[3] == Lit("/main.js\";");
    assert m[FigureName] == node.figureName;
    RenderRun3(t, m, 1);
  }

  lemma DynamicTheme(node: FigureNode)
    ensures Contains(DynamicHtml(node), "return document.documentElement.getAttribute(\"data-bs-theme\");")
  {
    var t, m := DynamicTemplate, DynamicValues(node);
    DynamicCovers(node);
    assert t[5] == Lit("return document.documentElement.getAttribute(\"data-bs-theme\");");
    RenderRun1(t, m, 5);
  }

  lemma DynamicCall(node: FigureNode)
    ensures Contains(DynamicHtml(node),
      "setup_dynamic(\n        \"" + node.id + "\",\n        getTheme,\n        " + node.optionsJson + ",")
  {
    var t, m := DynamicTemplate, DynamicValues(node);
    DynamicCovers(node);
    assert t[7] == Lit("setup_dynamic(\n        \"");
    assert t[8] == Hole(DivId) && m[DivId] == node.id;
    assert t[9] == Lit("\",\n        getTheme,\n        ");
    assert t[10] == Hole(FigureOptionsJson) && m[FigureOptionsJson] == node.optionsJson;
    assert t[11] == Lit(",");
    RenderRun5(t, m, 7);
  }

  lemma DynamicDiv(node: FigureNode)
    ensures Contains(DynamicHtml(node), "id=\"" + node.id + "\"></div>")
  {
    var t, m := DynamicTemplate, DynamicValues(node);
    DynamicCovers(node);
    assert t[15] == Lit("id=\"");
    assert t[16] == Hole(DivId) && m[DivId] == node.id;
    assert t[17] == Lit("\"></div>");
    RenderRun3(t, m, 15);
  }

  /** The sketch is imported from the figure's own directory, its `getTheme`
      reads the root element's theme attribute, `setup_dynamic` receives the
      div id and the options text verbatim, and the div carries the same id. */
  lemma DynamicHtmlSpec(node: FigureNode)
    ensures Substitute(DynamicTemplate, DynamicValues(node)) == Ok(DynamicHtml(node))
    ensures Contains(DynamicHtml(node),
      "import { setup_dynamic } from \"/_static/vis/js/figures/" + node.figureName + "/main.js\";")
    ensures Contains(DynamicHtml(node), "return document.documentElement.getAttribute(\"data-bs-theme\");")
    ensures Contains(DynamicHtml(node),
      "setup_dynamic(\n        \"" + node.id + "\",\n        getTheme,\n        " + node.optionsJson + ",")
    ensures Contains(DynamicHtml(node), "id=\"" + node.id + "\"></div>")
  {
    DynamicCovers(node);
    DynamicImport(node);
    DynamicTheme(node);
    DynamicCall(node);
    DynamicDiv(node);
  }

  /** The template of `_generate_html_for_static_figure`. */
  const StaticTemplate: Template := [
    Lit("\n        <div class=\"text-"),
    Hole(Align),
    Lit("\" "),
    Lit("id=\""),
    Hole(DivId),
    Lit("\">"),
    Lit("\n            <img\n                "),
    Lit("src=\"/_static/vis/js/figures/"),
    Hole(FigureName),
    Lit("/"),
    Hole(FigBasename),
    Lit("-dark.png\""),
    Lit("\n                class=\"ml4p-figure ml4p-figure-generated-static\"\n                style=\"display: none;\"\n                "),
    Lit("onload=\"initializeGeneratedImage(this); this.style.display = 'block';\""),
    Lit("\n            >\n        </div>\n        ")
  ]

  function StaticValues(node: FigureNode, figbasename: string): map<Name, string>
  {
    map[FigureName := node.figureName, FigBasename := figbasename, DivId := node.id, Align := node.align]
  }

  lemma StaticCovers(node: FigureNode, figbasename: string)
    ensures Covers(StaticTemplate, StaticValues(node, figbasename))
  {
  }

  /** `_generate_html_for_static_figure`; `figbasename` is the base name the
      screenshot step returns. */
  function StaticHtml(node: FigureNode, figbasename: string): string
  {
    StaticCovers(node, figbasename);
    Render(StaticTemplate, StaticValues(node, figbasename))
  }

  lemma StaticSource(node: FigureNode, figbasename: string)
    ensures Contains(StaticHtml(node, figbasename),
      "src=\"/_static/vis/js/figures/" + node.figureName + "/" + figbasename + "-dark.png\"")
  {
    var t, m := StaticTemplate, StaticValues(node, figbasename);
    StaticCovers(node, figbasename);
    assert t[7] == Lit("src=\"/_static/vis/js/figures/");
    assert t[8] == Hole(FigureName) && m[FigureName] == node.figureName;
    assert t[9] == Lit("/");
    assert t[10] == Hole(FigBasename) && m[FigBasename] == figbasename;
    assert t[11] == Lit("-dark.png\"");
    RenderRun5(t, m, 7);
  }

  lemma StaticOnload(node: FigureNode, figbasename: string)
    ensures Contains(StaticHtml(node, figbasename),
      "onload=\"initializeGeneratedImage(this); this.style.display = 'block';\"")
  {
    StaticCovers(node, figbasename);
    RenderRun1(StaticTemplate, StaticValues(node, figbasename), 13);
  }

  lemma StaticDiv(node: FigureNode, figbasename: string)
    ensures Contains(StaticHtml(node, figbasename), "id=\"" + node.id + "\">")
  {
    StaticCovers(node, figbasename);
    RenderRun3(StaticTemplate, StaticValues(node, figbasename), 3);
  }

  /** The image shows the dark rendering from the figure's directory, and
      loading it hands it to `initializeGeneratedImage`. */
  lemma StaticHtmlSpec(node: FigureNode, figbasename: string)
    ensures Substitute(StaticTemplate, StaticValues(node, figbasename)) == Ok(StaticHtml(node, figbasename))
    ensures Contains(StaticHtml(node, figbasename),
      "src=\"/_static/vis/js/figures/" + node.figureName + "/" + figbasename + "-dark.png\"")
    ensures Contains(StaticHtml(node, figbasename),
      "onload=\"initializeGeneratedImage(this); this.style.display = 'block';\"")
    ensures Contains(StaticHtml(node, figbasename), "id=\"" + node.id + "\">")
  {
    StaticCovers(node, figbasename);
    StaticSource(node, figbasename);
    StaticOnload(node, figbasename);
    StaticDiv(node, figbasename);
  }

  /** The HTML `visit` appends: the dynamic sketch exactly when the output
      mode is `dynamic`. */
  function FigureHtml(node: FigureNode, figbasename: string): string
  {
    if node.htmlOutput == "dynamic" then DynamicHtml(node) else StaticHtml(node, figbasename)
  }

  /** `visit_jsfigure_node`: appends one string. The static branch first
      renders and copies the screenshots; its result, the base name, is a
      parameter here. */
  method Visit(t: Translator, node: FigureNode, figbasename: string)
    modifies t
    ensures t.body == old(t.body) + [FigureHtml(node, figbasename)]
  {
    var html: string;
    if node.htmlOutput == "dynamic" {
      html := DynamicHtml(node);
    } else {
      html := StaticHtml(node, figbasename);
    }
    t.Append(html);
  }

  /** `depart_jsfigure_node` appends nothing. */
  method Depart(t: Translator, node: FigureNode)
    ensures t.body == old(t.body)
  {
  }
}
