/** The navigation tree the book's HTML templates receive
    (extensions/mlbook/html_context.py): parts, chapters and sections built
    from Sphinx's build environment, and the part and chapter the current page
    belongs to. The environment's dictionaries are maps; a lookup of a missing
    key is a `KeyError` result. */
module Navigation {
  import opened Wrappers
  import opened Text

  /** What the builder reads from `app.env`: each document's metadata
      dictionary, its title (already rendered as text) and the documents its
      toctree includes. */
  datatype Env = Env(
    metadata: map<string, map<string, string>>,
    titles: map<string, string>,
    toctreeIncludes: map<string, seq<string>>)

  /** A failed dictionary lookup, carrying the missing key. */
  datatype KeyError = KeyError(key: string)

  /** The fields of a part other than its children. A chapter refers back to
      its part; the model keeps these fields of it. */
  datatype PartRef = PartRef(supertitle: string, title: string, id: string, indexDoc: string)

  /** The fields of a chapter other than its children, as its sections refer
      to it. */
  datatype ChapterRef = ChapterRef(title: string, id: string, indexDoc: string, part: PartRef)

  datatype Section = Section(title: string, id: string, doc: string, chapter: ChapterRef)

  datatype Chapter = Chapter(title: string, id: string, indexDoc: string, children: seq<Section>, part: PartRef)

  datatype Part = Part(supertitle: string, title: string, id: string, indexDoc: string, children: seq<Chapter>)

  function PartHead(p: Part): PartRef
  {
    PartRef(p.supertitle, p.title, p.id, p.indexDoc)
  }

  function ChapterHead(c: Chapter): ChapterRef
  {
    ChapterRef(c.title, c.id, c.indexDoc, c.part)
  }

  // ---------------------------------------------------------------------
  // Activity tests

  /** `Part.is_active`: the first path segments agree. */
  predicate PartIsActive(p: Part, doc: string)
  {
    Split(doc, '/')[0] == Split(p.indexDoc, '/')[0]
  }

  /** Python's `xs[:2]`. */
  function Take2<T>(xs: seq<T>): seq<T>
  {
    if |xs| <= 2 then xs else xs[..2]
  }

  /** `Chapter.is_active`: the lists of the first two path segments agree. */
  predicate ChapterIsActive(c: Chapter, doc: string)
  {
    Take2(Split(doc, '/')) == Take2(Split(c.indexDoc, '/'))
  }

  /** A page without a `/` is in a chapter exactly when it is the chapter's
      own index document, which then has no `/` either. */
  lemma ChapterOneSegment(c: Chapter, doc: string)
    requires '/' !in doc
    ensures ChapterIsActive(c, doc) <==> c.indexDoc == doc
  {
    SplitNoSep(doc, '/');
    if ChapterIsActive(c, doc) {
      var segs := Split(c.indexDoc, '/');
      assert |segs| == 1;
      JoinSplit(c.indexDoc, '/');
    }
  }

  /** A page active in a chapter is active in every part whose index shares
      the chapter's first segment. */
  lemma ChapterActiveInPart(c: Chapter, p: Part, doc: string)
    requires ChapterIsActive(c, doc)
    requires Split(p.indexDoc, '/')[0] == Split(c.indexDoc, '/')[0]
    ensures PartIsActive(p, doc)
  {
    assert Take2(Split(doc, '/'))[0] == Split(doc, '/')[0];
    assert Take2(Split(c.indexDoc, '/'))[0] == Split(c.indexDoc, '/')[0];
  }

  // ---------------------------------------------------------------------
  // Lookups

  /** `docname.replace("/", "-")`. */
  function DocId(d: string): (r: string)
    ensures |r| == |d| && '/' !in r
    ensures forall k :: 0 <= k < |d| ==> r[k] == (if d[k] == '/' then '-' else d[k])
  {
    ReplaceChar(d, '/', '-')
  }

  /** `toctree_includes.get(docname, [])`. */
  function Includes(env: Env, d: string): seq<string>
  {
    if d in env.toctreeIncludes then env.toctreeIncludes[d] else []
  }

  /** `titles[docname]`. */
  function Title(env: Env, d: string): Result<string, KeyError>
  {
    if d in env.titles then Ok(env.titles[d]) else Err(KeyError(d))
  }

  /** `metadata[docname]['supertitle']`: the outer lookup fails first. */
  function Supertitle(env: Env, d: string): Result<string, KeyError>
  {
    if d !in env.metadata then Err(KeyError(d))
    else if "supertitle" !in env.metadata[d] then Err(KeyError("supertitle"))
    else Ok(env.metadata[d]["supertitle"])
  }

  // ---------------------------------------------------------------------
  // Building the tree

  /** Applies `f` to each element in order; the first failure ends the loop
      and is the result. */
  function Collect<A, T>(f: A -> Result<T, KeyError>, ds: seq<A>): Result<seq<T>, KeyError>
    decreases |ds|
  {
    if ds == [] then Ok([])
    else
      match Collect(f, ds[..|ds| - 1])
      case Err(e) => Err(e)
      case Ok(ts) =>
        match f(ds[|ds| - 1])
        case Err(e) => Err(e)
        case Ok(t) => Ok(ts + [t])
  }

  /** Collecting succeeds exactly when every element succeeds, and then
      holds their results in order; otherwise its error is that of the first
      element that fails. */
  lemma {:induction false} CollectSpec<A, T>(f: A -> Result<T, KeyError>, ds: seq<A>)
    ensures Collect(f, ds).Ok? <==> forall k :: 0 <= k < |ds| ==> f(ds[k]).Ok?
    ensures Collect(f, ds).Ok? ==>
      |Collect(f, ds).value| == |ds| && forall k :: 0 <= k < |ds| ==> Collect(f, ds).value[k] == f(ds[k]).value
    ensures Collect(f, ds).Err? ==>
      exists k :: 0 <= k < |ds| && f(ds[k]) == Err(Collect(f, ds).error) && forall j :: 0 <= j < k ==> f(ds[j]).Ok?
    decreases |ds|
  {
    if ds != [] {
      var init := ds[..|ds| - 1];
      CollectSpec(f, init);
      assert forall k :: 0 <= k < |init| ==> init[k] == ds[k];
      if Collect(f, init).Err? {
        var k :| 0 <= k < |init| && f(init[k]) == Err(Collect(f, init).error) && forall j :: 0 <= j < k ==> f(init[j]).Ok?;
        assert f(ds[k]) == Err(Collect(f, ds).error);
      }
    }
  }

  /** Once a prefix has failed, so has the whole sequence, with the same
      error. */
  lemma {:induction false} CollectErrExtends<A, T>(f: A -> Result<T, KeyError>, ds: seq<A>, i: nat)
    requires i <= |ds| && Collect(f, ds[..i]).Err?
    ensures Collect(f, ds) == Collect(f, ds[..i])
    decreases |ds|
  {
    if i < |ds| {
      var init := ds[..|ds| - 1];
      assert init[..i] == ds[..i];
      CollectErrExtends(f, init, i);
    } else {
      assert ds[..i] == ds;
    }
  }

  /** One more successful element extends the collected prefix. */
  lemma CollectStep<A, T>(f: A -> Result<T, KeyError>, ds: seq<A>, i: nat, ts: seq<T>)
    requires i < |ds| && Collect(f, ds[..i]) == Ok(ts)
    ensures Collect(f, ds[..i + 1]) == match f(ds[i]) case Err(e) => Err(e) case Ok(t) => Ok(ts + [t])
  {
    assert ds[..i + 1][..i] == ds[..i];
  }

  /** `make_section`. */
  function SectionOf(env: Env, d: string, c: ChapterRef): Result<Section, KeyError>
  {
    match Title(env, d)
    case Err(e) => Err(e)
    case Ok(t) => Ok(Section(t, DocId(d), d, c))
  }

  function SectionMaker(env: Env, c: ChapterRef): string -> Result<Section, KeyError>
  {
    d => SectionOf(env, d, c)
  }

  /** `make_chapter`. */
  function ChapterOf(env: Env, d: string, p: PartRef): Result<Chapter, KeyError>
  {
    match Title(env, d)
    case Err(e) => Err(e)
    case Ok(t) =>
      match Collect(SectionMaker(env, ChapterRef(t, DocId(d), d, p)), Includes(env, d))
      case Err(e) => Err(e)
      case Ok(ss) => Ok(Chapter(t, DocId(d), d, ss, p))
  }

  function ChapterMaker(env: Env, p: PartRef): string -> Result<Chapter, KeyError>
  {
    d => ChapterOf(env, d, p)
  }

  /** `make_part`. */
  function PartOf(env: Env, d: string): Result<Part, KeyError>
  {
    match Supertitle(env, d)
    case Err(e) => Err(e)
    case Ok(st) =>
      match Title(env, d)
      case Err(e) => Err(e)
      case Ok(t) =>
        match Collect(ChapterMaker(env, PartRef(st, t, DocId(d), d)), Includes(env, d))
        case Err(e) => Err(e)
        case Ok(cs) => Ok(Part(st, t, DocId(d), d, cs))
  }

  function PartMaker(env: Env): string -> Result<Part, KeyError>
  {
    d => PartOf(env, d)
  }

  /** A chapter document and every section it includes have titles. */
  predicate Titled(env: Env, d: string)
  {
    d in env.titles && forall k :: 0 <= k < |Includes(env, d)| ==> Includes(env, d)[k] in env.titles
  }

  /** A chapter is built exactly when its document and all its sections
      have titles. It then carries its document's title, id and name, refers
      to the part it was given, and has one section per included document, in
      order, each referring back to the chapter. A failure names a missing
      title. */
  lemma ChapterOfSpec(env: Env, d: string, p: PartRef)
    ensures ChapterOf(env, d, p).Ok? <==> Titled(env, d)
    ensures ChapterOf(env, d, p).Ok? ==>
      var c := ChapterOf(env, d, p).value;
      var inc := Includes(env, d);
      c.title == env.titles[d] && c.id == DocId(d) && c.indexDoc == d && c.part == p
      && |c.children| == |inc|
      && forall k :: 0 <= k < |inc| ==>
           c.children[k] == Section(env.titles[inc[k]], DocId(inc[k]), inc[k], ChapterHead(c))
    ensures ChapterOf(env, d, p).Err? ==>
      var k := ChapterOf(env, d, p).error.key;
      k !in env.titles && (k == d || k in Includes(env, d))
  {
    if d in env.titles {
      var head := ChapterRef(env.titles[d], DocId(d), d, p);
      CollectSpec(SectionMaker(env, head), Includes(env, d));
    }
  }

  /** A part is built exactly when its document has a supertitle and a title
      and each of its chapters can be built. It then carries those, has one
      chapter per included document, in order, each referring back to the
      part. A failure names the missing document, the missing `supertitle`
      key, or a document without a title. */
  lemma PartOfSpec(env: Env, d: string)
    ensures PartOf(env, d).Ok? <==>
      d in env.metadata && "supertitle" in env.metadata[d] && d in env.titles
      && forall k :: 0 <= k < |Includes(env, d)| ==> Titled(env, Includes(env, d)[k])
    ensures PartOf(env, d).Ok? ==>
      var p := PartOf(env, d).value;
      var inc := Includes(env, d);
      p.supertitle == env.metadata[d]["supertitle"] && p.title == env.titles[d]
      && p.id == DocId(d) && p.indexDoc == d && |p.children| == |inc|
      && forall k :: 0 <= k < |inc| ==>
           ChapterOf(env, inc[k], PartHead(p)).Ok? && p.children[k] == ChapterOf(env, inc[k], PartHead(p)).value
           && p.children[k].indexDoc == inc[k] && p.children[k].part == PartHead(p)
    ensures PartOf(env, d).Err? ==>
      var k := PartOf(env, d).error.key;
      (k == d && d !in env.metadata) || k == "supertitle" || k !in env.titles
  {
    if d in env.metadata && "supertitle" in env.metadata[d] && d in env.titles {
      var head := PartRef(env.metadata[d]["supertitle"], env.titles[d], DocId(d), d);
      var inc := Includes(env, d);
      CollectSpec(ChapterMaker(env, head), inc);
      forall k | 0 <= k < |inc|
        ensures ChapterOf(env, inc[k], head).Ok? <==> Titled(env, inc[k])
        ensures ChapterOf(env, inc[k], head).Ok? ==> ChapterOf(env, inc[k], head).value.indexDoc == inc[k]
        ensures ChapterOf(env, inc[k], head).Ok? ==> ChapterOf(env, inc[k], head).value.part == head
        ensures ChapterOf(env, inc[k], head).Err? ==> ChapterOf(env, inc[k], head).error.key !in env.titles
      {
        ChapterOfSpec(env, inc[k], head);
      }
      if PartOf(env, d).Err? {
        var j :| 0 <= j < |inc| && ChapterMaker(env, head)(inc[j]) == Err(PartOf(env, d).error)
          && forall i :: 0 <= i < j ==> ChapterMaker(env, head)(inc[i]).Ok?;
        assert ChapterOf(env, inc[j], head).Err?;
      }
    }
  }

  /** The loop of `make_chapter`: the sections are appended one by one, and
      the first missing title raises. */
  method MakeChapter(env: Env, d: string, p: PartRef) returns (r: Result<Chapter, KeyError>)
    ensures r == ChapterOf(env, d, p)
  {
    var title := Title(env, d);
    if title.Err? {
      return Err(title.error);
    }
    var includes := Includes(env, d);
    var head := ChapterRef(title.value, DocId(d), d, p);
    var children: seq<Section> := [];
    for i := 0 to |includes|
      invariant Collect(SectionMaker(env, head), includes[..i]) == Ok(children)
    {
      CollectStep(SectionMaker(env, head), includes, i, children);
      var section := SectionOf(env, includes[i], head);
      if section.Err? {
        CollectErrExtends(SectionMaker(env, head), includes, i + 1);
        return Err(section.error);
      }
      children := children + [section.value];
    }
    assert includes[..|includes|] == includes;
    r := Ok(Chapter(title.value, DocId(d), d, children, p));
  }

  /** The loop of `make_part`: the chapters are appended one by one. */
  method MakePart(env: Env, d: string) returns (r: Result<Part, KeyError>)
    ensures r == PartOf(env, d)
  {
    var supertitle := Supertitle(env, d);
    if supertitle.Err? {
      return Err(supertitle.error);
    }
    var title := Title(env, d);
    if title.Err? {
      return Err(title.error);
    }
    var includes := Includes(env, d);
    var head := PartRef(supertitle.value, title.value, DocId(d), d);
    var children: seq<Chapter> := [];
    for i := 0 to |includes|
      invariant Collect(ChapterMaker(env, head), includes[..i]) == Ok(children)
    {
      CollectStep(ChapterMaker(env, head), includes, i, children);
      var chapter := MakeChapter(env, includes[i], head);
      if chapter.Err? {
        CollectErrExtends(ChapterMaker(env, head), includes, i + 1);
        return Err(chapter.error);
      }
      children := children + [chapter.value];
    }
    assert includes[..|includes|] == includes;
    r := Ok(Part(supertitle.value, title.value, DocId(d), d, children));
  }

  // ---------------------------------------------------------------------
  // The template context

  /** The three keys `make_context` writes; `None` is a key not (yet)
      written. */
  datatype Context = Context(parts: Option<seq<Part>>, activePart: Option<Part>, activeChapter: Option<Chapter>)

  /** The page's active part document, `"<seg0>/index"`. */
  function ActivePartDoc(names: seq<string>): string
    requires |names| >= 1
  {
    names[0] + "/index"
  }

  /** The page's active chapter document, `"<seg0>/<seg1>/index"`. */
  function ActiveChapterDoc(names: seq<string>): string
    requires |names| >= 2
  {
    Join(names[..2], "/") + "/index"
  }

  /** The context after `make_context`, and the error that stopped it, if
      any. Keys are written in the source's order, so a failure leaves the
      keys written before it in place. */
  function ContextAfter(env: Env, pagename: string, ctx: Context): (Context, Option<KeyError>)
  {
    if "index" !in env.toctreeIncludes then (ctx, Some(KeyError("index")))
    else
      match Collect(PartMaker(env), env.toctreeIncludes["index"])
      case Err(e) => (ctx, Some(e))
      case Ok(ps) =>
        var c1 := ctx.(parts := Some(ps));
        var names := Split(pagename, '/');
        if |names| < 2 then (c1, None)
        else
          match PartOf(env, ActivePartDoc(names))
          case Err(e) => (c1, Some(e))
          case Ok(ap) =>
            var c2 := c1.(activePart := Some(ap));
            if |names| < 3 then (c2, None)
            else
              match ChapterOf(env, ActiveChapterDoc(names), PartHead(ap))
              case Err(e) => (c2, Some(e))
              case Ok(ac) => (c2.(activeChapter := Some(ac)), None)
  }

  /** On success `parts` holds one part per entry of the root toctree, in
      order; a missing root toctree fails before anything is written. */
  lemma ContextParts(env: Env, pagename: string, ctx: Context)
    ensures "index" !in env.toctreeIncludes ==>
      ContextAfter(env, pagename, ctx) == (ctx, Some(KeyError("index")))
    ensures ContextAfter(env, pagename, ctx).1.None? ==>
      var roots := env.toctreeIncludes["index"];
      var ps := ContextAfter(env, pagename, ctx).0.parts;
      ps.Some? && |ps.value| == |roots|
      && forall k :: 0 <= k < |roots| ==> PartOf(env, roots[k]).Ok? && ps.value[k] == PartOf(env, roots[k]).value && ps.value[k].indexDoc == roots[k]
  {
    if "index" in env.toctreeIncludes {
      var roots := env.toctreeIncludes["index"];
      CollectSpec(PartMaker(env), roots);
      forall k | 0 <= k < |roots| && PartOf(env, roots[k]).Ok?
        ensures PartOf(env, roots[k]).value.indexDoc == roots[k]
      {
        PartOfSpec(env, roots[k]);
      }
    }
  }

  lemma SplitActivePart(seg0: string)
    requires '/' !in seg0
    ensures Split(seg0 + "/index", '/') == [seg0, "index"]
  {
    assert seg0 + "/index" == seg0 + ['/'] + "index";
    SplitPrefix(seg0, "index", '/');
    SplitNoSep("index", '/');
  }

  lemma SplitActiveChapter(seg0: string, seg1: string)
    requires '/' !in seg0 && '/' !in seg1
    ensures Join([seg0, seg1], "/") + "/index" == seg0 + ['/'] + (seg1 + ['/'] + "index")
    ensures Split(Join([seg0, seg1], "/") + "/index", '/') == [seg0, seg1, "index"]
  {
    ChapterIndexPath(seg0, seg1);
    SplitActivePart(seg1);
    assert seg1 + "/index" == seg1 + ['/'] + "index";
    SplitPrefix(seg0, seg1 + "/index", '/');
  }

  lemma ChapterIndexPath(seg0: string, seg1: string)
    ensures Join([seg0, seg1], "/") + "/index" == seg0 + ['/'] + (seg1 + ['/'] + "index")
  {
    assert Join([seg1], "/") == seg1;
    assert Join([seg0, seg1], "/") == seg0 + "/" + seg1;
  }

  /** On success the active part is written exactly when the page name has
      at least two segments, and the active chapter exactly when it has at
      least three; they are built from `"<seg0>/index"` and
      `"<seg0>/<seg1>/index"`, the chapter belongs to the active part, and
      the page is active in both. */
  lemma ContextActive(env: Env, pagename: string, ctx: Context)
    requires ContextAfter(env, pagename, ctx).1.None?
    ensures var names := Split(pagename, '/');
      var c := ContextAfter(env, pagename, ctx).0;
      (|names| < 2 ==> c.activePart == ctx.activePart)
      && (|names| < 3 ==> c.activeChapter == ctx.activeChapter)
      && (|names| >= 2 ==>
            c.activePart.Some? && c.activePart.value.indexDoc == names[0] + "/index"
            && PartIsActive(c.activePart.value, pagename))
      && (|names| >= 3 ==>
            c.activeChapter.Some? && c.activeChapter.value.indexDoc == names[0] + "/" + names[1] + "/index"
            && c.activeChapter.value.part == PartHead(c.activePart.value)
            && ChapterIsActive(c.activeChapter.value, pagename))
  {
    var names := Split(pagename, '/');
    var c := ContextAfter(env, pagename, ctx).0;
    if |names| >= 2 {
      var ap := PartOf(env, ActivePartDoc(names)).value;
      PartOfSpec(env, ActivePartDoc(names));
      SplitActivePart(names[0]);
      if |names| >= 3 {
        assert names[..2] == [names[0], names[1]];
        ChapterOfSpec(env, ActiveChapterDoc(names), PartHead(ap));
        SplitActiveChapter(names[0], names[1]);
        assert Take2(Split(pagename, '/')) == [names[0], names[1]];
      }
    }
  }

  /** `app.env`, whose `cache` attribute `make_context` creates if absent. */
  class BuildEnvironment {
    const data: Env
    var hasCache: bool

    constructor (data: Env, hasCache: bool)
      ensures this.data == data && this.hasCache == hasCache
    {
      this.data := data;
      this.hasCache := hasCache;
    }
  }

  /** The template context dictionary, reduced to the keys this module
      writes. */
  class TemplateContext {
    var parts: Option<seq<Part>>
    var activePart: Option<Part>
    var activeChapter: Option<Chapter>

    function Values(): Context
      reads this
    {
      Context(parts, activePart, activeChapter)
    }

    constructor ()
      ensures Values() == Context(None, None, None)
    {
      parts := None;
      activePart := None;
      activeChapter := None;
    }
  }

  /** `make_context`: returns the error that would be raised, if any. */
  method MakeContext(app: BuildEnvironment, pagename: string, context: TemplateContext) returns (err: Option<KeyError>)
    modifies app`hasCache, context
    ensures app.hasCache
    ensures (context.Values(), err) == ContextAfter(app.data, pagename, old(context.Values()))
  {
    if !app.hasCache {
      app.hasCache := true;
    }
    var env := app.data;
    if "index" !in env.toctreeIncludes {
      return Some(KeyError("index"));
    }
    var roots := env.toctreeIncludes["index"];
    var parts: seq<Part> := [];
    for i := 0 to |roots|
      invariant Collect(PartMaker(env), roots[..i]) == Ok(parts)
      invariant app.hasCache && context.Values() == old(context.Values())
    {
      CollectStep(PartMaker(env), roots, i, parts);
      var part := MakePart(env, roots[i]);
      if part.Err? {
        CollectErrExtends(PartMaker(env), roots, i + 1);
        return Some(part.error);
      }
      parts := parts + [part.value];
    }
    assert roots[..|roots|] == roots;
    context.parts := Some(parts);
    var names := Split(pagename, '/');
    if |names| >= 2 {
      var part := MakePart(env, ActivePartDoc(names));
      if part.Err? {
        return Some(part.error);
      }
      context.activePart := Some(part.value);
    }
    if |names| >= 3 {
      var chapter := MakeChapter(env, ActiveChapterDoc(names), PartHead(context.activePart.value));
      if chapter.Err? {
        return Some(chapter.error);
      }
      context.activeChapter := Some(chapter.value);
    }
    err := None;
  }
}
