/**
 * The prompt builders of the backend (backend/config.py, `PromptTemplates`):
 * three constant templates with `{history}`, `{context}` and `{question}`
 * placeholders, filled in by `str.format`.
 *
 * A template is kept as the list of its pieces: literal text and the
 * placeholders cut out of it. Filling a placeholder inserts the argument
 * verbatim; nothing in an argument is read as a placeholder again.
 */
module PromptTemplates {
  import opened Wrappers
  import opened Text

  datatype Field = HistoryField | ContextField | QuestionField

  datatype Piece = Lit(text: string) | Hole(field: Field)

  /** The keyword arguments of one `format` call. */
  datatype Values = Values(history: string, context: string, question: string)

  function Value(v: Values, f: Field): string {
    match f
    case HistoryField => v.history
    case ContextField => v.context
    case QuestionField => v.question
  }

  function Render(p: Piece, v: Values): string {
    match p
    case Lit(text) => text
    case Hole(f) => Value(v, f)
  }

  /** `template.format(**v)`: each piece in order, placeholders replaced by their values. */
  function Format(t: seq<Piece>, v: Values): (r: string)
    ensures t == [] ==> r == []
  {
    if t == [] then "" else Render(t[0], v) + Format(t[1..], v)
  }

  /** Formatting a template made of two parts formats each part. */
  lemma {:induction false} FormatAppend(t: seq<Piece>, u: seq<Piece>, v: Values)
    ensures Format(t + u, v) == Format(t, v) + Format(u, v)
    decreases |t|
  {
    if t == [] {
      assert t + u == u;
    } else {
      assert (t + u)[1..] == t[1..] + u;
      FormatAppend(t[1..], u, v);
    }
  }

  /** Formatting a template formats its first piece, then the rest. */
  lemma FormatCons(p: Piece, t: seq<Piece>, v: Values)
    ensures Format([p] + t, v) == Render(p, v) + Format(t, v)
  {
    assert ([p] + t)[1..] == t;
  }

  /** A template of three pieces. */
  lemma FormatThree(a: Piece, b: Piece, c: Piece, v: Values)
    ensures Format([a, b, c], v) == Render(a, v) + Render(b, v) + Render(c, v)
  {
    FormatCons(c, [], v);
    FormatCons(b, [c], v);
    assert [b] + [c] == [b, c];
    FormatCons(a, [b, c], v);
    assert [a] + [b, c] == [a, b, c];
  }

  /** A template of five pieces. */
  lemma FormatFive(a: Piece, b: Piece, c: Piece, d: Piece, e: Piece, v: Values)
    ensures Format([a, b, c, d, e], v) == Render(a, v) + Render(b, v) + Render(c, v) + Render(d, v) + Render(e, v)
  {
    var tail := Format([c, d, e], v);
    assert tail == Render(c, v) + Render(d, v) + Render(e, v) by {
      FormatThree(c, d, e, v);
    }
    assert Format([b, c, d, e], v) == Render(b, v) + tail by {
      FormatCons(b, [c, d, e], v);
      assert [b] + [c, d, e] == [b, c, d, e];
    }
    assert Format([a, b, c, d, e], v) == Render(a, v) + Format([b, c, d, e], v) by {
      FormatCons(a, [b, c, d, e], v);
      assert [a] + [b, c, d, e] == [a, b, c, d, e];
    }
    var ra, rb, rc, rd, re := Render(a, v), Render(b, v), Render(c, v), Render(d, v), Render(e, v);
    assert ra + (rb + (rc + rd + re)) == ra + rb + rc + rd + re;
  }

  const Preamble := "あなたは親切で知識豊富なアシスタントです。"

  /** The label in front of the question in every template. */
  const QuestionCue := "質問: "
  const QuestionLabel := "\n\n" + QuestionCue

  /** The instruction lines of the retrieval template, in their order. */
  const BaseBullets: seq<string> := [
    "上記の参照ドキュメントに含まれる情報を最大限活用して、質問に対して詳しく丁寧に答えてください",
    "直接的な答えが見つからない場合でも、関連する情報や類似の内容があれば、それを基に推論して回答してください",
    "ドキュメントに複数の関連情報がある場合は、それらを統合して包括的な回答を提供してください",
    "ドキュメント内の具体的な情報（数値、固有名詞、事実など）を積極的に引用してください",
    "どうしても関連する情報が全く見つからない場合のみ、その旨を伝えてください",
    "回答は読みやすいように、適切に段落分けや改行を入れてください",
    "複数の項目を説明する場合は、項目ごとに改行して見やすくしてください"
  ]

  /** The conversation template has one more line, second in the list. */
  const HistoryBullets: seq<string> := [BaseBullets[0], "会話の文脈を考慮し、自然な対話を心がけてください"] + BaseBullets[1..]

  /** Bulleted lines `- b`, separated by newlines. */
  function BulletLines(bullets: seq<string>): (r: string)
    ensures bullets != [] ==> StartsWith(r, "- ")
  {
    if bullets == [] then ""
    else if |bullets| == 1 then "- " + bullets[0]
    else "- " + bullets[0] + "\n" + BulletLines(bullets[1..])
  }

  /** The text after the question: the instructions and the answer cue. */
  function Tail(bullets: seq<string>): (r: string)
    ensures StartsWith(r, "\n\n指示:\n") && |r| > |BulletLines(bullets)|
  {
    "\n\n指示:\n" + BulletLines(bullets) + "\n\n回答:"
  }

  const BaseIntro := "以下のドキュメントから抽出された情報を使って、ユーザーの質問に答えてください。"
  const HistoryIntro := "\n\n以下は過去の会話履歴です：\n"
  const ContextLabel := "\n\n参照ドキュメント:\n"

  /** From the context placeholder to the end: the part both retrieval templates share in shape. */
  function RetrievalPart(head: string, bullets: seq<string>): (r: seq<Piece>)
    ensures |r| == 5 && r[1] == Hole(ContextField) && r[3] == Hole(QuestionField)
    ensures forall i | 0 <= i < |r| && r[i].Hole? :: r[i].field != HistoryField
  {
    [Lit(head), Hole(ContextField), Lit(QuestionLabel), Hole(QuestionField), Lit(Tail(bullets))]
  }

  /** `BASE_RAG_TEMPLATE`. */
  const BaseRagTemplate: seq<Piece> := RetrievalPart(Preamble + BaseIntro + ContextLabel, BaseBullets)

  /** `CHAT_HISTORY_TEMPLATE`. */
  const ChatHistoryTemplate: seq<Piece> :=
    [Lit(Preamble + HistoryIntro), Hole(HistoryField)] + RetrievalPart(ContextLabel, HistoryBullets)

  const SimpleIntro := "以下の質問に答えてください。\n\n"
  const SimpleTail := "\n\n回答:"

  /** `SIMPLE_PROMPT_TEMPLATE`. */
  const SimplePromptTemplate: seq<Piece> :=
    [Lit(Preamble + SimpleIntro + QuestionCue), Hole(QuestionField), Lit(SimpleTail)]

  const ExpansionRest :=
    "\n\nこの質問に答えるために必要な関連キーワードや言い換えを3つ生成してください。\n各キーワードは1行に1つずつ出力してください。\nキーワードのみを出力し、説明は不要です。"

  /** `QUERY_EXPANSION_TEMPLATE`. */
  const QueryExpansionTemplate: seq<Piece> :=
    [Lit(QuestionCue + "\""), Hole(QuestionField), Lit("\"" + ExpansionRest)]

  /** A retrieval part with its placeholders filled in. */
  function Filled(head: string, context: string, question: string, bullets: seq<string>): (r: string)
    ensures |r| > |head| + |context|
    ensures r[..|head|] == head && r[|head|..|head| + |context|] == context
  {
    head + context + QuestionLabel + question + Tail(bullets)
  }

  /** Formatting a retrieval part puts the context and the question in verbatim. */
  lemma RetrievalShape(head: string, bullets: seq<string>, v: Values)
    ensures Format(RetrievalPart(head, bullets), v) == Filled(head, v.context, v.question, bullets)
  {
    FormatFive(Lit(head), Hole(ContextField), Lit(QuestionLabel), Hole(QuestionField), Lit(Tail(bullets)), v);
  }

  /** A filled-in retrieval part starts with its head. */
  lemma FilledStarts(head: string, context: string, question: string, bullets: seq<string>)
    ensures var r := Filled(head, context, question, bullets); |r| > |head| && r[..|head|] == head
  {
    assert |QuestionLabel| > 0;
  }

  /** A filled-in retrieval part contains the context and `質問: question`. */
  lemma FilledQuotes(head: string, context: string, question: string, bullets: seq<string>)
    ensures Contains(Filled(head, context, question, bullets), context)
    ensures Contains(Filled(head, context, question, bullets), QuestionCue + question)
  {
    ContainsPart(head, context, QuestionLabel + question + Tail(bullets));
    assert Filled(head, context, question, bullets) == head + context + QuestionLabel + question + Tail(bullets);
    assert head + context + (QuestionLabel + question + Tail(bullets)) == Filled(head, context, question, bullets);
    ContainsPart(head + context + "\n\n", QuestionCue + question, Tail(bullets));
    assert head + context + "\n\n" + (QuestionCue + question) + Tail(bullets) == Filled(head, context, question, bullets);
  }

  /** Whatever the context holds, the filled-in retrieval part holds too. */
  lemma FilledHolds(head: string, context: string, question: string, bullets: seq<string>, p: string)
    requires Contains(context, p)
    ensures Contains(Filled(head, context, question, bullets), p)
  {
    var rest := QuestionLabel + question + Tail(bullets);
    ContainsWithin(head, context, rest, p);
    assert head + context + rest == Filled(head, context, question, bullets);
  }

  /** Python truthiness of the optional `chat_history` argument: given and not empty. */
  predicate Truthy(chatHistory: Option<string>) {
    chatHistory.Some? && chatHistory.value != ""
  }

  /**
   * `build_prompt`: the conversation template, with the history put in,
   * when a history is given and not empty; otherwise the retrieval template.
   * Either way the context and the question are put in verbatim.
   */
  function BuildPrompt(context: string, question: string, chatHistory: Option<string>): (r: string)
    ensures Truthy(chatHistory) ==>
      r == (Preamble + HistoryIntro) + (chatHistory.value + Filled(ContextLabel, context, question, HistoryBullets))
    ensures !Truthy(chatHistory) ==>
      r == Filled(Preamble + BaseIntro + ContextLabel, context, question, BaseBullets)
  {
    if Truthy(chatHistory) then
      var v := Values(chatHistory.value, context, question);
      RetrievalShape(ContextLabel, HistoryBullets, v);
      FormatCons(Hole(HistoryField), RetrievalPart(ContextLabel, HistoryBullets), v);
      FormatCons(Lit(Preamble + HistoryIntro), [Hole(HistoryField)] + RetrievalPart(ContextLabel, HistoryBullets), v);
      assert ChatHistoryTemplate == [Lit(Preamble + HistoryIntro)] + ([Hole(HistoryField)] + RetrievalPart(ContextLabel, HistoryBullets));
      Format(ChatHistoryTemplate, v)
    else
      RetrievalShape(Preamble + BaseIntro + ContextLabel, BaseBullets, Values("", context, question));
      Format(BaseRagTemplate, Values("", context, question))
  }

  /** The two heads differ right after the preamble. */
  lemma IntrosDiffer()
    ensures |BaseIntro| > 0 && |HistoryIntro| > 0 && BaseIntro[0] != HistoryIntro[0]
  {
    assert BaseIntro[0] == '以';
    assert HistoryIntro[0] == '\n';
  }

  /**
   * The template is chosen exactly by the truthiness of the history: the
   * character after the preamble is the newline that opens the
   * conversation part exactly when a non-empty history is given.
   */
  lemma BuildPromptSelects(context: string, question: string, chatHistory: Option<string>)
    ensures var r := BuildPrompt(context, question, chatHistory);
      StartsWith(r, Preamble) && |r| > |Preamble| && (r[|Preamble|] == HistoryIntro[0] <==> Truthy(chatHistory))
  {
    IntrosDiffer();
    if Truthy(chatHistory) {
      HistoryPromptOpens(context, question, chatHistory.value);
    } else {
      BasePromptOpens(context, question, chatHistory);
    }
  }

  lemma HistoryPromptOpens(context: string, question: string, history: string)
    requires history != ""
    ensures var r := BuildPrompt(context, question, Some(history));
      |r| > |Preamble| + |HistoryIntro| && r[..|Preamble|] == Preamble && r[|Preamble|..|Preamble| + |HistoryIntro|] == HistoryIntro
  {
    Framed(Preamble, HistoryIntro, history + Filled(ContextLabel, context, question, HistoryBullets));
    FilledStarts(ContextLabel, context, question, HistoryBullets);
  }

  lemma BasePromptOpens(context: string, question: string, chatHistory: Option<string>)
    requires !Truthy(chatHistory)
    ensures var r := BuildPrompt(context, question, chatHistory);
      |r| > |Preamble| + |BaseIntro| && r[..|Preamble|] == Preamble && r[|Preamble|..|Preamble| + |BaseIntro|] == BaseIntro
  {
    var head := Preamble + BaseIntro + ContextLabel;
    FilledStarts(head, context, question, BaseBullets);
    HeadOpens(Preamble, BaseIntro, ContextLabel, BuildPrompt(context, question, chatHistory));
  }

  /** A string that starts with `a + x + b` has `a` and then `x` at its front. */
  lemma HeadOpens(a: string, x: string, b: string, r: string)
    requires |r| > |a + x + b| && r[..|a + x + b|] == a + x + b
    ensures |r| > |a| + |x| && r[..|a|] == a && r[|a|..|a| + |x|] == x
  {
    assert r[..|a|] == (a + x + b)[..|a|];
    assert r[|a|..|a| + |x|] == (a + x + b)[|a|..|a| + |x|];
  }

  /** Whichever template is used, the context and `質問: question` appear in the prompt. */
  lemma BuildPromptQuotes(context: string, question: string, chatHistory: Option<string>)
    ensures Contains(BuildPrompt(context, question, chatHistory), context)
    ensures Contains(BuildPrompt(context, question, chatHistory), QuestionCue + question)
  {
    if Truthy(chatHistory) {
      var f := Filled(ContextLabel, context, question, HistoryBullets);
      FilledQuotes(ContextLabel, context, question, HistoryBullets);
      ContainsAfter(chatHistory.value, f, context);
      ContainsAfter(Preamble + HistoryIntro, chatHistory.value + f, context);
      ContainsAfter(chatHistory.value, f, QuestionCue + question);
      ContainsAfter(Preamble + HistoryIntro, chatHistory.value + f, QuestionCue + question);
    } else {
      FilledQuotes(Preamble + BaseIntro + ContextLabel, context, question, BaseBullets);
    }
  }

  /**
   * `build_simple_prompt`: the question sits verbatim between a fixed head,
   * which ends in `質問: `, and a fixed tail; nothing else varies.
   */
  function BuildSimplePrompt(question: string): (r: string)
    ensures r == Preamble + SimpleIntro + QuestionCue + question + SimpleTail
  {
    FormatThree(Lit(Preamble + SimpleIntro + QuestionCue), Hole(QuestionField), Lit(SimpleTail), Values("", "", question));
    Format(SimplePromptTemplate, Values("", "", question))
  }

  /** The simple prompt determines its question, and quotes it after `質問: `. */
  lemma SimplePromptRecoversQuestion(question: string)
    ensures var r := BuildSimplePrompt(question); var h := |Preamble + SimpleIntro + QuestionCue|;
      |r| == h + |question| + |SimpleTail| && r[h..h + |question|] == question
    ensures Contains(BuildSimplePrompt(question), QuestionCue + question)
  {
    Quoted(Preamble + SimpleIntro, QuestionCue, question, SimpleTail);
  }

  /** Two questions with the same simple prompt are the same question. */
  lemma SimplePromptInjective(q1: string, q2: string)
    requires BuildSimplePrompt(q1) == BuildSimplePrompt(q2)
    ensures q1 == q2
  {
    SimplePromptRecoversQuestion(q1);
    SimplePromptRecoversQuestion(q2);
  }

  /** `build_query_expansion_prompt`: the question put in verbatim between the quotes. */
  function BuildQueryExpansionPrompt(question: string): (r: string)
    ensures r == (QuestionCue + "\"") + question + ("\"" + ExpansionRest)
  {
    var v := Values("", "", question);
    FormatThree(Lit(QuestionCue + "\""), Hole(QuestionField), Lit("\"" + ExpansionRest), v);
    Format(QueryExpansionTemplate, v)
  }

  /** The expansion prompt starts with `質問: "question"` and gives the question back. */
  lemma QueryExpansionQuotes(question: string)
    ensures var r := BuildQueryExpansionPrompt(question); var h := |QuestionCue| + 1;
      && StartsWith(r, QuestionCue + "\"" + question + "\"")
      && |r| == h + |question| + 1 + |ExpansionRest|
      && r[h..h + |question|] == question
  {
    var a := QuestionCue + "\"";
    var b := "\"" + ExpansionRest;
    Framed(a, question, b);
    Framed(a + question, b[..1], b[1..]);
    assert b[..1] + b[1..] == b;
  }

  /** Two questions with the same expansion prompt are the same question. */
  lemma QueryExpansionPromptInjective(q1: string, q2: string)
    requires BuildQueryExpansionPrompt(q1) == BuildQueryExpansionPrompt(q2)
    ensures q1 == q2
  {
    QueryExpansionQuotes(q1);
    QueryExpansionQuotes(q2);
  }
}
