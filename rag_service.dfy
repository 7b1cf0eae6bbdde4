/**
 * `RAGService` (rag_service.py) around its foreign services: the loader
 * dispatch of `add_documents`, the clean-up of the query expansion, the
 * search, ranking and answer assembly of `query`, and `list_documents`.
 * The vector store's search, the loaders and splitter, and the language
 * model are parameters; a call that raises yields `None`.
 */
module RagService {
  import opened Wrappers
  import opened Text
  import opened PromptTemplates
  import opened RagRanking

  // ---------------------------------------------------------------------
  // Paths: `os.path.splitext` and `os.path.basename` on POSIX.

  /** `s.rfind(c)`: the last index holding `c`, or -1. */
  function LastIndexOf(s: string, c: char): (r: int)
    ensures -1 <= r < |s|
    ensures r >= 0 ==> s[r] == c
    ensures forall i | r < i < |s| :: s[i] != c
  {
    if s == [] then -1
    else if s[|s| - 1] == c then |s| - 1
    else LastIndexOf(s[..|s| - 1], c)
  }

  /**
   * `os.path.splitext(path)[1]`: from the last dot of the last path
   * component to the end, provided something other than dots comes before
   * that dot in the component; otherwise empty (a name such as `.pdf`).
   */
  function Extension(path: string): (r: string)
    ensures |r| <= |path| && r == path[|path| - |r|..]
    ensures r != [] ==> r[0] == '.'
    ensures forall i | 1 <= i < |r| :: r[i] != '.'
    ensures forall i | 0 <= i < |r| :: r[i] != '/'
  {
    var sep := LastIndexOf(path, '/');
    var dot := LastIndexOf(path, '.');
    if sep < dot && exists i | sep < i < dot :: path[i] != '.' then path[dot..] else []
  }

  /** A final component `stem.ext` whose stem is not all dots has the extension `.ext`. */
  lemma ExtensionOfName(dir: string, stem: string, ext: string)
    requires forall i | 0 <= i < |stem| :: stem[i] != '/'
    requires exists i | 0 <= i < |stem| :: stem[i] != '.'
    requires forall i | 0 <= i < |ext| :: ext[i] != '/' && ext[i] != '.'
    ensures Extension(dir + stem + "." + ext) == "." + ext
  {
    var p := dir + stem + "." + ext;
    var d := |dir| + |stem|;
    assert p[d] == '.';
    assert forall i | d < i < |p| :: p[i] == ext[i - d - 1];
    assert LastIndexOf(p, '.') == d;
    assert forall i | |dir| <= i < |p| :: p[i] != '/' by {
      forall i | |dir| <= i < |p| ensures p[i] != '/' {
        if i < d { assert p[i] == stem[i - |dir|]; }
      }
    }
    var j :| 0 <= j < |stem| && stem[j] != '.';
    assert p[|dir| + j] == stem[j];
    assert p[d..] == "." + ext;
  }

  /** A final component that is a dot followed by a name has no extension. */
  lemma DotNameHasNoExtension(dir: string, name: string)
    requires dir == [] || dir[|dir| - 1] == '/'
    requires forall i | 0 <= i < |name| :: name[i] != '/' && name[i] != '.'
    ensures Extension(dir + "." + name) == []
  {
    var p := dir + "." + name;
    assert p[|dir|] == '.';
    assert forall i | |dir| < i < |p| :: p[i] == name[i - |dir| - 1];
    assert LastIndexOf(p, '.') == |dir|;
    if dir != [] {
      assert p[|dir| - 1] == '/';
    } else {
      assert forall i | 0 <= i < |p| :: p[i] != '/';
    }
  }

  /** `os.path.basename(path)`: what follows the last `/`. */
  function Basename(path: string): (r: string)
    ensures |r| <= |path| && r == path[|path| - |r|..]
    ensures forall i | 0 <= i < |r| :: r[i] != '/'
    ensures |r| < |path| ==> path[|path| - |r| - 1] == '/'
  {
    path[LastIndexOf(path, '/') + 1..]
  }

  /** `str.lower()` on one character, for ASCII letters. */
  function LowerChar(c: char): (r: char)
    ensures 'A' <= c <= 'Z' ==> 'a' <= r <= 'z'
    ensures !('A' <= c <= 'Z') ==> r == c
  {
    if 'A' <= c <= 'Z' then (c as int + 32) as char else c
  }

  function Lower(s: string): (r: string)
    ensures |r| == |s| && forall i | 0 <= i < |s| :: r[i] == LowerChar(s[i])
  {
    if s == [] then [] else [LowerChar(s[0])] + Lower(s[1..])
  }

  // ---------------------------------------------------------------------
  // `add_documents`.

  /** The LangChain loaders the service chooses between. */
  datatype Loader = PdfLoader | TextLoader | MarkdownLoader | CsvLoader

  /** `SUPPORTED_EXTENSIONS` (backend/config.py). */
  const SupportedExtensions: set<string> := {".pdf", ".txt", ".md", ".csv"}

  /** The extension each loader is chosen for. */
  function Serves(l: Loader): string {
    match l
    case PdfLoader => ".pdf"
    case TextLoader => ".txt"
    case MarkdownLoader => ".md"
    case CsvLoader => ".csv"
  }

  const UnsupportedFormat := "サポートされていないファイル形式です: "

  /**
   * The loader for a path, by its lower-cased extension; a `ValueError`
   * naming the lower-cased extension for any other.
   */
  function LoaderFor(path: string): (r: Result<Loader, string>)
    ensures r.Ok? <==> Lower(Extension(path)) in SupportedExtensions
    ensures r.Ok? ==> Serves(r.value) == Lower(Extension(path))
    ensures r.Err? ==> r.error == UnsupportedFormat + Lower(Extension(path))
  {
    var ext := Lower(Extension(path));
    if ext == ".pdf" then Ok(PdfLoader)
    else if ext == ".txt" then Ok(TextLoader)
    else if ext == ".md" then Ok(MarkdownLoader)
    else if ext == ".csv" then Ok(CsvLoader)
    else Err(UnsupportedFormat + ext)
  }

  /** Each loader is chosen for a file with its extension, in any directory. */
  lemma LoaderForServed(l: Loader, dir: string, stem: string)
    requires forall i | 0 <= i < |stem| :: stem[i] != '/'
    requires exists i | 0 <= i < |stem| :: stem[i] != '.'
    ensures LoaderFor(dir + stem + Serves(l)) == Ok(l)
  {
    match l
    case PdfLoader => LoaderForName(l, dir, stem, "pdf");
    case TextLoader => LoaderForName(l, dir, stem, "txt");
    case MarkdownLoader => LoaderForName(l, dir, stem, "md");
    case CsvLoader => LoaderForName(l, dir, stem, "csv");
  }

  lemma LoaderForName(l: Loader, dir: string, stem: string, ext: string)
    requires forall i | 0 <= i < |stem| :: stem[i] != '/'
    requires exists i | 0 <= i < |stem| :: stem[i] != '.'
    requires forall i | 0 <= i < |ext| :: ext[i] != '/' && ext[i] != '.'
    requires Serves(l) == "." + ext
    ensures LoaderFor(dir + stem + Serves(l)) == Ok(l)
  {
    var p := dir + stem + Serves(l);
    ExtensionOfName(dir, stem, ext);
    assert p == dir + stem + "." + ext;
    LowerServes(l);
    LoaderForExtension(p, l);
  }

  /** A path whose lower-cased extension a loader serves gets that loader. */
  lemma LoaderForExtension(path: string, l: Loader)
    requires Lower(Extension(path)) == Serves(l)
    ensures LoaderFor(path) == Ok(l)
  {
    match l
    case PdfLoader =>
    case TextLoader => assert ".txt" != ".pdf";
    case MarkdownLoader => assert ".md" != ".pdf" && ".md" != ".txt";
    case CsvLoader => assert ".csv" != ".pdf" && ".csv" != ".txt" && ".csv" != ".md";
  }

  /** The served extensions are already lower case. */
  lemma LowerServes(l: Loader)
    ensures Lower(Serves(l)) == Serves(l)
  {
    match l
    case PdfLoader => assert Lower(".pdf") == ".pdf";
    case TextLoader => assert Lower(".txt") == ".txt";
    case MarkdownLoader => assert Lower(".md") == ".md";
    case CsvLoader => assert Lower(".csv") == ".csv";
  }

  /** The extension is compared after lower-casing: `.PDF` is a PDF. */
  lemma UpperCaseExtension(dir: string, stem: string)
    requires forall i | 0 <= i < |stem| :: stem[i] != '/'
    requires exists i | 0 <= i < |stem| :: stem[i] != '.'
    ensures LoaderFor(dir + stem + ".PDF") == Ok(PdfLoader)
  {
    var p := dir + stem + ".PDF";
    ExtensionOfName(dir, stem, "PDF");
    assert p == dir + stem + "." + "PDF";
    assert Extension(p) == ".PDF";
    assert Lower(".PDF") == ".pdf";
    LoaderForExtension(p, PdfLoader);
  }

  /** A file named just `.pdf` has an empty extension and is refused. */
  lemma DotFileRefused(dir: string)
    requires dir == [] || dir[|dir| - 1] == '/'
    ensures LoaderFor(dir + ".pdf") == Err(UnsupportedFormat)
  {
    var p := dir + ".pdf";
    DotNameHasNoExtension(dir, "pdf");
    assert p == dir + "." + "pdf";
    assert Lower(Extension(p)) == [];
    assert UnsupportedFormat + [] == UnsupportedFormat;
  }

  const SourceFileKey := "source_file"
  const PageKey := "page"

  /** A chunk with `source_file` set to `name`; its other metadata is kept. */
  function Tagged(c: Chunk, name: string): (r: Chunk)
    ensures r.content == c.content
    ensures r.metadata.Keys == c.metadata.Keys + {SourceFileKey}
    ensures r.metadata[SourceFileKey] == MStr(name)
    ensures forall key | key in c.metadata && key != SourceFileKey :: r.metadata[key] == c.metadata[key]
  {
    Chunk(c.content, c.metadata[SourceFileKey := MStr(name)])
  }

  /** The tagging loop: every split gets the file's base name as its `source_file`. */
  method TagSources(splits: array<Chunk>, name: string)
    modifies splits
    ensures forall i | 0 <= i < splits.Length :: splits[i] == Tagged(old(splits[i]), name)
  {
    for i := 0 to splits.Length
      invariant forall j | 0 <= j < i :: splits[j] == Tagged(old(splits[j]), name)
      invariant forall j | i <= j < splits.Length :: splits[j] == old(splits[j])
    {
      splits[i] := Tagged(splits[i], name);
    }
  }

  /**
   * `add_documents`: the chunks handed to the vector store, or the error
   * raised for an unsupported extension before anything is loaded.
   * `split` stands for the chosen loader followed by the text splitter.
   */
  method AddDocuments(path: string, split: Loader -> seq<Chunk>) returns (r: Result<seq<Chunk>, string>)
    ensures r.Err? <==> LoaderFor(path).Err?
    ensures r.Err? ==> r.error == LoaderFor(path).error
    ensures r.Ok? ==> var chunks := split(LoaderFor(path).value);
      |r.value| == |chunks| && forall i | 0 <= i < |chunks| :: r.value[i] == Tagged(chunks[i], Basename(path))
  {
    var loader := LoaderFor(path);
    if loader.Err? {
      return Err(loader.error);
    }
    var tagged := TagAll(split(loader.value), Basename(path));
    return Ok(tagged);
  }

  /** The chunks, each tagged in place with `name`. */
  method TagAll(chunks: seq<Chunk>, name: string) returns (tagged: seq<Chunk>)
    ensures |tagged| == |chunks| && forall i | 0 <= i < |chunks| :: tagged[i] == Tagged(chunks[i], name)
  {
    var splits := new Chunk[|chunks|](i requires 0 <= i < |chunks| => chunks[i]);
    TagSources(splits, name);
    tagged := splits[..];
  }

  // ---------------------------------------------------------------------
  // `_expand_query`.

  /** Python's `str.strip()`. */
  function Strip(s: string): (r: string)
    ensures |r| <= |s|
    ensures r == [] || (!IsPySpace(r[0]) && !IsPySpace(r[|r| - 1]))
  {
    Trim(s, IsPySpace)
  }

  /** A stripped line the expansion keeps: not empty and not a `#` heading. */
  predicate IsKeyword(line: string) {
    line != [] && line[0] != '#'
  }

  /** The stripped lines that are keywords, in order. */
  function Keywords(lines: seq<string>): (r: seq<string>)
    ensures |r| <= |lines|
    ensures forall i | 0 <= i < |r| :: IsKeyword(r[i])
  {
    if lines == [] then []
    else
      var t := Strip(lines[0]);
      (if IsKeyword(t) then [t] else []) + Keywords(lines[1..])
  }

  /** Every line that strips to a keyword is kept. */
  lemma {:induction false} KeywordsComplete(lines: seq<string>, j: nat)
    requires j < |lines| && IsKeyword(Strip(lines[j]))
    ensures Strip(lines[j]) in Keywords(lines)
    decreases |lines|
  {
    if j > 0 {
      KeywordsComplete(lines[1..], j - 1);
    }
  }

  /** Every keyword is the stripped form of some line. */
  lemma {:induction false} KeywordSource(lines: seq<string>, x: string) returns (j: nat)
    requires x in Keywords(lines)
    ensures j < |lines| && Strip(lines[j]) == x
    decreases |lines|
  {
    var t := Strip(lines[0]);
    if IsKeyword(t) && x == t {
      j := 0;
    } else {
      var m := KeywordSource(lines[1..], x);
      j := m + 1;
    }
  }

  /** An Ollama model as the service configures it. */
  datatype Llm = Ollama(model: string, baseUrl: string, temperature: real)

  const OllamaUrl := "http://localhost:11434"

  /** `self.llm`: the service's own model. */
  function ServiceLlm(modelName: string): (r: Llm)
    ensures r.model == modelName && r.baseUrl == OllamaUrl && r.temperature == 0.7
  {
    Ollama(modelName, OllamaUrl, 0.7)
  }

  /**
   * The clean-up of `_expand_query`: the question, then up to three
   * keywords taken from the lines of the model's answer to the expansion
   * prompt; only the question when the model call raised (`None`).
   */
  function ExpandQuery(question: string, expanded: Option<string>): (r: seq<string>)
    ensures 1 <= |r| <= 4 && r[0] == question
    ensures expanded.None? ==> r == [question]
    ensures expanded.Some? ==> var kw := Keywords(Split(expanded.value, '\n'));
      |r| == (if |kw| < 3 then |kw| + 1 else 4) && r[1..] == kw[..|r| - 1]
  {
    match expanded
    case None => [question]
    case Some(answer) =>
      var kw := Keywords(Split(answer, '\n'));
      var r := Take([question] + kw, 4);
      assert r[1..] == kw[..|r| - 1];
      r
  }

  /**
   * Every search query after the first is a stripped line of the model's
   * answer: not empty, not a `#` heading, without surrounding whitespace.
   */
  lemma ExpandedQueriesAreKeywords(question: string, expanded: Option<string>, i: nat)
    requires 1 <= i < |ExpandQuery(question, expanded)|
    ensures var q := ExpandQuery(question, expanded)[i];
      && IsKeyword(q) && !IsPySpace(q[0]) && !IsPySpace(q[|q| - 1])
      && exists line | line in Split(expanded.value, '\n') :: Strip(line) == q
  {
    var lines := Split(expanded.value, '\n');
    var kw := Keywords(lines);
    var q := ExpandQuery(question, expanded)[i];
    assert q == kw[i - 1];
    var j := KeywordSource(lines, q);
    assert lines[j] in lines;
  }

  // ---------------------------------------------------------------------
  // `query`.

  /** The model that answers: the requested one when a non-empty name is given. */
  function ChooseLlm(serviceModel: string, modelName: Option<string>): (r: Llm)
    ensures r.baseUrl == OllamaUrl && r.temperature == 0.7
    ensures modelName.Some? && modelName.value != "" ==> r.model == modelName.value
    ensures modelName.None? || modelName.value == "" ==> r == ServiceLlm(serviceModel)
  {
    if modelName.Some? && modelName.value != "" then Ollama(modelName.value, OllamaUrl, 0.7)
    else ServiceLlm(serviceModel)
  }

  /** The service's own template (`self.prompt_template`): only the first five instructions. */
  const ServiceBullets: seq<string> := BaseBullets[..5]
  const ServiceTemplate: seq<Piece> := RetrievalPart(Preamble + BaseIntro + ContextLabel, ServiceBullets)

  /** `self.prompt.format(context=..., question=...)`. */
  function ServicePrompt(context: string, question: string): (r: string)
    ensures r == Filled(Preamble + BaseIntro + ContextLabel, context, question, ServiceBullets)
  {
    var v := Values("", context, question);
    RetrievalShape(Preamble + BaseIntro + ContextLabel, ServiceBullets, v);
    Format(ServiceTemplate, v)
  }

  /** The service's prompt holds the context and `質問: question` verbatim. */
  lemma ServicePromptQuotes(context: string, question: string)
    ensures Contains(ServicePrompt(context, question), context)
    ensures Contains(ServicePrompt(context, question), QuestionCue + question)
  {
    FilledQuotes(Preamble + BaseIntro + ContextLabel, context, question, ServiceBullets);
  }

  /** Bulleting two non-empty lists one after the other. */
  lemma {:induction false} BulletLinesAppend(a: seq<string>, b: seq<string>)
    requires a != [] && b != []
    ensures BulletLines(a + b) == BulletLines(a) + "\n" + BulletLines(b)
    decreases |a|
  {
    assert a + b == [a[0]] + (a[1..] + b);
    BulletLinesCons(a[0], a[1..] + b);
    if |a| == 1 {
      assert a[1..] + b == b && a == [a[0]];
    } else {
      BulletLinesAppend(a[1..], b);
      BulletLinesCons(a[0], a[1..]);
      assert [a[0]] + a[1..] == a;
      var x, y, z := "- " + a[0] + "\n", BulletLines(a[1..]), BulletLines(b);
      assert x + (y + "\n" + z) == (x + y) + "\n" + z;
    }
  }

  /** A bullet in front of a non-empty list. */
  lemma BulletLinesCons(x: string, rest: seq<string>)
    requires rest != []
    ensures BulletLines([x] + rest) == "- " + x + "\n" + BulletLines(rest)
  {
    assert ([x] + rest)[1..] == rest;
  }

  /**
   * `query` does not use `PromptTemplates.BASE_RAG_TEMPLATE`: its own
   * template lacks the last two instructions, so its prompt is shorter
   * than `build_prompt`'s for the same context and question.
   */
  lemma ServicePromptIsNotBaseTemplate(context: string, question: string)
    ensures |ServicePrompt(context, question)| < |BuildPrompt(context, question, None)|
  {
    ServiceBulletsShorter();
    FilledLonger(Preamble + BaseIntro + ContextLabel, context, question, ServiceBullets, BaseBullets);
  }

  /** The service's instruction lines are a strict prefix of the template's. */
  lemma ServiceBulletsShorter()
    ensures |BulletLines(ServiceBullets)| < |BulletLines(BaseBullets)|
  {
    assert BaseBullets == ServiceBullets + BaseBullets[5..];
    BulletLinesAppend(ServiceBullets, BaseBullets[5..]);
  }

  /** Longer instruction lines make a longer filled-in prompt. */
  lemma FilledLonger(head: string, context: string, question: string, a: seq<string>, b: seq<string>)
    requires |BulletLines(a)| < |BulletLines(b)|
    ensures |Filled(head, context, question, a)| < |Filled(head, context, question, b)|
  {
  }

  /** The page contents of the hits, in order. */
  function Contents(top: seq<Hit>): (r: seq<string>)
    ensures |r| == |top| && forall i | 0 <= i < |top| :: r[i] == top[i].chunk.content
  {
    if top == [] then [] else [top[0].chunk.content] + Contents(top[1..])
  }

  /** `"\n\n".join(doc.page_content for doc in top_docs)`. */
  function Context(top: seq<Hit>): (r: string)
    ensures top == [] ==> r == []
    ensures |top| == 1 ==> r == top[0].chunk.content
  {
    Join(Contents(top), "\n\n")
  }

  /** Every selected chunk's text is in the context, and so in the prompt. */
  lemma ContextHoldsEveryChunk(top: seq<Hit>, question: string, i: nat)
    requires i < |top|
    ensures Contains(Context(top), top[i].chunk.content)
    ensures Contains(ServicePrompt(Context(top), question), top[i].chunk.content)
  {
    var content := top[i].chunk.content;
    assert Contains(Context(top), content) by {
      JoinContains(Contents(top), "\n\n", i);
    }
    PromptAroundContext(Context(top), question, content);
  }

  /** Whatever the context holds, the service's prompt holds too. */
  lemma PromptAroundContext(context: string, question: string, p: string)
    requires Contains(context, p)
    ensures Contains(ServicePrompt(context, question), p)
  {
    FilledHolds(Preamble + BaseIntro + ContextLabel, context, question, ServiceBullets, p);
  }

  /** Python's `str()` of a metadata value. */
  function Render(v: MetaValue): (r: string)
    ensures v.MStr? ==> r == v.s
    ensures v.MInt? ==> r != [] && (r[0] == '-' <==> v.n < 0)
  {
    match v
    case MStr(s) => s
    case MInt(n) => if n >= 0 then DecimalString(n) else "-" + DecimalString(-n)
  }

  /** `metadata.get(key, "Unknown")`, rendered. */
  function MetaOrUnknown(m: map<string, MetaValue>, key: string): (r: string)
    ensures key !in m ==> r == "Unknown"
    ensures key in m && m[key].MStr? ==> r == m[key].s
  {
    if key in m then Render(m[key]) else "Unknown"
  }

  /** `f"{source} (Page {page})"`. */
  function SourceLabel(c: Chunk): (r: string)
    ensures StartsWith(r, MetaOrUnknown(c.metadata, SourceFileKey) + " (Page ") && r[|r| - 1] == ')'
  {
    MetaOrUnknown(c.metadata, SourceFileKey) + " (Page " + MetaOrUnknown(c.metadata, PageKey) + ")"
  }

  /** A chunk tagged by `add_documents` is cited by its file name and page. */
  lemma SourceLabelOfTagged(c: Chunk, name: string)
    ensures PageKey !in c.metadata ==> SourceLabel(Tagged(c, name)) == name + " (Page Unknown)"
    ensures PageKey in c.metadata ==> SourceLabel(Tagged(c, name)) == name + " (Page " + Render(c.metadata[PageKey]) + ")"
  {
    assert SourceFileKey != PageKey by { assert SourceFileKey[0] != PageKey[0]; }
  }

  /** The sources loop: one label per selected hit, in order. */
  method SourceLabels(top: seq<Hit>) returns (sources: seq<string>)
    ensures |sources| == |top| && forall i | 0 <= i < |top| :: sources[i] == SourceLabel(top[i].chunk)
  {
    sources := [];
    for i := 0 to |top|
      invariant |sources| == i && forall j | 0 <= j < i :: sources[j] == SourceLabel(top[j].chunk)
    {
      sources := sources + [SourceLabel(top[i].chunk)];
    }
  }

  const NoDocumentsAnswer := "ドキュメントが登録されていません。まずファイルをアップロードしてください。"

  /** An answer and its distinct sources (`list(set(sources))`, whose order Python leaves open). */
  datatype Answer = Answer(text: string, sources: set<string>)

  /** The search queries of `query`. */
  function Queries(question: string, enableExpansion: bool, serviceModel: string,
                   invoke: (Llm, string) -> Option<string>): (r: seq<string>)
    ensures 1 <= |r| <= 4 && r[0] == question
    ensures !enableExpansion ==> r == [question]
  {
    if enableExpansion then ExpandQuery(question, invoke(ServiceLlm(serviceModel), BuildQueryExpansionPrompt(question)))
    else [question]
  }

  /**
   * `query`: search every query for `3 * k` hits, deduplicate them, and
   * answer from the selected hits; without any hit, the fixed answer and
   * no sources. `None` when the answering model call raises.
   */
  method Query(question: string, k: int, modelName: Option<string>, enableExpansion: bool, serviceModel: string,
               search: (string, int) -> Option<seq<Hit>>, invoke: (Llm, string) -> Option<string>)
    returns (r: Option<Answer>)
    ensures var candidates := Dedup(Retrieved(Queries(question, enableExpansion, serviceModel, invoke), 3 * k, search));
      && (candidates == [] ==> r == Some(Answer(NoDocumentsAnswer, {})))
      && (candidates != [] ==>
            var top := Select(candidates, k);
            var generated := invoke(ChooseLlm(serviceModel, modelName), ServicePrompt(Context(top), question));
            && (r.None? <==> generated.None?)
            && (r.Some? ==>
                  && r.value.text == generated.value
                  && forall s :: s in r.value.sources <==> exists i | 0 <= i < |top| :: SourceLabel(top[i].chunk) == s))
  {
    var queries := Queries(question, enableExpansion, serviceModel, invoke);
    var candidates := CollectCandidates(queries, k, search);
    if |candidates| == 0 {
      return Some(Answer(NoDocumentsAnswer, {}));
    }
    r := Generate(Select(candidates, k), question, modelName, serviceModel, invoke);
  }

  /**
   * The part of `query` after retrieval: the prompt over the selected hits,
   * one call of the chosen model, and the answer with the sources of the hits.
   */
  method Generate(top: seq<Hit>, question: string, modelName: Option<string>, serviceModel: string,
                  invoke: (Llm, string) -> Option<string>)
    returns (r: Option<Answer>)
    ensures var generated := invoke(ChooseLlm(serviceModel, modelName), ServicePrompt(Context(top), question));
      && (r.None? <==> generated.None?)
      && (r.Some? ==>
            && r.value.text == generated.value
            && forall s :: s in r.value.sources <==> exists i | 0 <= i < |top| :: SourceLabel(top[i].chunk) == s)
  {
    var prompt := ServicePrompt(Context(top), question);
    var llm := ChooseLlm(serviceModel, modelName);
    var generated := invoke(llm, prompt);
    if generated.None? {
      return None;
    }
    var labels := SourceLabels(top);
    var sources := set s | s in labels;
    return Some(Answer(generated.value, sources));
  }

  // ---------------------------------------------------------------------
  // `list_documents`.

  /** What `vectorstore.get()` returns: the `metadatas` entry, when present. */
  datatype Collection = Collection(metadatas: Option<seq<Option<map<string, MetaValue>>>>)

  /** The `source_file` of one metadata entry, when it has one. */
  function SourceFileOf(m: Option<map<string, MetaValue>>): set<string> {
    if m.Some? && SourceFileKey in m.value && m.value[SourceFileKey].MStr? then {m.value[SourceFileKey].s} else {}
  }

  /** The `source_file` values of all entries. */
  function SourceFiles(metas: seq<Option<map<string, MetaValue>>>): (r: set<string>)
    ensures metas == [] ==> r == {}
  {
    if metas == [] then {} else SourceFiles(metas[..|metas| - 1]) + SourceFileOf(metas[|metas| - 1])
  }

  /** A name is listed exactly when some entry carries it as its `source_file`. */
  lemma {:induction false} SourceFilesMembers(metas: seq<Option<map<string, MetaValue>>>, x: string)
    ensures x in SourceFiles(metas) <==>
      exists i | 0 <= i < |metas| :: metas[i].Some? && SourceFileKey in metas[i].value && metas[i].value[SourceFileKey] == MStr(x)
    decreases |metas|
  {
    if metas != [] {
      var front := metas[..|metas| - 1];
      SourceFilesMembers(front, x);
      if exists i | 0 <= i < |front| :: front[i].Some? && SourceFileKey in front[i].value && front[i].value[SourceFileKey] == MStr(x) {
        var i :| 0 <= i < |front| && front[i].Some? && SourceFileKey in front[i].value && front[i].value[SourceFileKey] == MStr(x);
        assert metas[i] == front[i];
      }
    }
  }

  /** Chunks stored by one `add_documents` call list exactly that file. */
  lemma StoredFileIsListed(chunks: seq<Chunk>, name: string)
    requires chunks != []
    ensures SourceFiles(seq(|chunks|, i requires 0 <= i < |chunks| => Some(Tagged(chunks[i], name).metadata))) == {name}
  {
    var metas := seq(|chunks|, i requires 0 <= i < |chunks| => Some(Tagged(chunks[i], name).metadata));
    forall x ensures x in SourceFiles(metas) <==> x == name {
      SourceFilesMembers(metas, x);
      if x == name {
        assert metas[0].value[SourceFileKey] == MStr(name);
      }
    }
  }

  /** Python's `<` on strings: code point by code point, a proper prefix first. */
  predicate Less(a: string, b: string) {
    if a == [] then b != []
    else b != [] && (a[0] < b[0] || (a[0] == b[0] && Less(a[1..], b[1..])))
  }

  lemma {:induction false} LessIrreflexive(a: string)
    ensures !Less(a, a)
    decreases |a|
  {
    if a != [] {
      LessIrreflexive(a[1..]);
    }
  }

  lemma {:induction false} LessTransitive(a: string, b: string, c: string)
    requires Less(a, b) && Less(b, c)
    ensures Less(a, c)
    decreases |a|
  {
    if a != [] && a[0] == b[0] && b[0] == c[0] {
      LessTransitive(a[1..], b[1..], c[1..]);
    }
  }

  lemma {:induction false} LessTotal(a: string, b: string)
    requires a != b
    ensures Less(a, b) || Less(b, a)
    decreases |a|
  {
    if a != [] && b != [] && a[0] == b[0] {
      assert a == [a[0]] + a[1..] && b == [b[0]] + b[1..];
      LessTotal(a[1..], b[1..]);
    }
  }

  /** Ascending and without repetitions. */
  predicate StrictlySorted(s: seq<string>) {
    forall i, j | 0 <= i < j < |s| :: Less(s[i], s[j])
  }

  /** Puts a new name into a sorted list at its place. */
  function InsertName(x: string, s: seq<string>): (r: seq<string>)
    requires StrictlySorted(s) && x !in s
    ensures StrictlySorted(r) && |r| == |s| + 1
    ensures forall y :: y in r <==> y == x || y in s
  {
    if s == [] then [x]
    else if Less(x, s[0]) then
      assert forall j | 0 < j < |s| :: Less(x, s[j]) by {
        forall j | 0 < j < |s| ensures Less(x, s[j]) { LessTransitive(x, s[0], s[j]); }
      }
      [x] + s
    else
      LessTotal(x, s[0]);
      var rest := InsertName(x, s[1..]);
      assert forall y | y in rest :: Less(s[0], y);
      [s[0]] + rest
  }

  /** `sorted(list(names))`. */
  method SortNames(names: set<string>) returns (r: seq<string>)
    ensures StrictlySorted(r)
    ensures forall x :: x in r <==> x in names
  {
    r := [];
    var rest := names;
    while rest != {}
      invariant StrictlySorted(r)
      invariant forall x :: x in r <==> x in names && x !in rest
      invariant rest <= names
      decreases |rest|
    {
      var x :| x in rest;
      r := InsertName(x, r);
      rest := rest - {x};
    }
  }

  /** There is only one sorted list of given names, so `SortNames` is `sorted`. */
  lemma {:induction false} SortedIsUnique(a: seq<string>, b: seq<string>)
    requires StrictlySorted(a) && StrictlySorted(b)
    requires forall x :: x in a <==> x in b
    ensures a == b
    decreases |a|
  {
    assert b != [] ==> b[0] in b;
    if a != [] {
      assert a[0] in b;
      assert b != [] && b[0] in a;
      var m :| 0 <= m < |b| && b[m] == a[0];
      var n :| 0 <= n < |a| && a[n] == b[0];
      if m > 0 {
        assert Less(b[0], b[m]);
        if n > 0 {
          LessTransitive(a[0], a[n], a[0]);
        }
        LessIrreflexive(a[0]);
      }
      assert a[0] == b[0];
      assert a == [a[0]] + a[1..] && b == [b[0]] + b[1..];
      forall x ensures x in a[1..] <==> x in b[1..] {
        LessIrreflexive(x);
        if x in a[1..] {
          var i :| 1 <= i < |a| && a[i] == x;
          assert Less(a[0], a[i]);
          assert x != b[0] && x in b;
        }
        if x in b[1..] {
          var i :| 1 <= i < |b| && b[i] == x;
          assert Less(b[0], b[i]);
          assert x != a[0] && x in a;
        }
      }
      SortedIsUnique(a[1..], b[1..]);
    }
  }

  /**
   * `list_documents`: the distinct `source_file` names in ascending order;
   * empty when the store cannot be read or has no metadata.
   */
  method ListDocuments(collection: Option<Collection>) returns (names: seq<string>)
    ensures collection.None? || collection.value.metadatas.None? || collection.value.metadatas.value == [] ==> names == []
    ensures collection.Some? && collection.value.metadatas.Some? ==>
      StrictlySorted(names) && forall x :: x in names <==> x in SourceFiles(collection.value.metadatas.value)
  {
    if collection.None? || collection.value.metadatas.None? || |collection.value.metadatas.value| == 0 {
      return [];
    }
    var metas := collection.value.metadatas.value;
    var sources: set<string> := {};
    for i := 0 to |metas|
      invariant sources == SourceFiles(metas[..i])
    {
      assert metas[..i + 1][..i] == metas[..i];
      var metadata := metas[i];
      if metadata.Some? && SourceFileKey in metadata.value {
        match metadata.value[SourceFileKey]
        case MStr(s) =>
          sources := sources + {s};
        case MInt(_) =>
      }
    }
    assert metas[..|metas|] == metas;
    names := SortNames(sources);
  }
}
