/**
  The three prompt builders of the translation workflow. Each builder turns
  the workflow state into a request for the completion service: a system
  message and a user prompt. A template is a sequence of pieces, fixed text
  and interpolated values in the order the template writes them, rendered by
  `Join`. The fixed text is kept exactly, including the line breaks and the
  four-space indentation the multi-line templates carry.
 */
module Prompts {
  import opened Wrappers
  import opened Text
  import opened States

  /** One call to the completion service: a system message and a user prompt */
  datatype Request = Request(system: string, prompt: string)

  /** A line break followed by the indentation of the multi-line templates */
  const Indent: string := "\n    "
  const BlankLine: string := "\n\n    "

  const SourceTextTag: string := "SOURCE_TEXT"
  const TranslationTag: string := "TRANSLATION"
  const SuggestionsTag: string := "EXPERT_SUGGESTIONS"

  function Open(tag: string): string { "<" + tag + ">" }
  function Close(tag: string): string { "</" + tag + ">" }

  /** How the templates wrap an interpolated value in markup: the opening tag,
      the value on its own indented line, the closing tag on the next. */
  function TaggedPieces(tag: string, x: string): seq<string> {
    [Open(tag), Indent, x, Indent, Close(tag)]
  }

  function Tagged(tag: string, x: string): string {
    Join(TaggedPieces(tag, x))
  }

  /** How a template renders a state value read with `get`: an absent value
      is rendered as the text "None". */
  function Show(o: Option<string>): string {
    match o
    case Some(v) => v
    case None => "None"
  }

  // ---------------------------------------------------------------------
  // Fixed text of the templates
  // ---------------------------------------------------------------------

  const TranslatorRole: string := "你是一名翻译专家，你擅长"
  const LinguistRole: string := "你是一名专业的语言专家，你擅长"
  const CritiqueGoal: string := "\n    你将获得源文本及其翻译的译文，而你现在的目标是改进这个翻译。"

  const DraftTask: string := "的翻译任务，请你完成将目标语言为"
  const DraftInstruction: string := "的翻译，最终输出翻译后的文本。\n    除了翻译之外，不要再提供任何其他解释或其他文字。\n    "

  const RuleHead: string := "翻译的最终风格和语气应该与"
  const RuleTail: string := "的文化和语言习惯相匹配。"

  const CritiqueTask: string := "你的任务是仔细阅读源文本和从"
  const CritiqueAsk: string := "的译文,然后给出建设性的批评和有益的建议以改进翻译。\n    "
  const CritiqueMarkup: string :=
    "\n    源文本和初始译文以 XML 标签：<SOURCE_TEXT></SOURCE_TEXT> 和 <TRANSLATION></TRANSLATION>分割。如下所示：\n\n    "
  const CritiqueCriteriaIntro: string := "\n    \n    在撰写翻译时，请注意额是否有有方法可以改进翻译的：\n    "
  const CritiqueOutro: string :=
    "；\n\n    要列出具体的、有用的且有建设性的反馈，以帮助改进翻译。\n    每个建议应针对翻译的一个特定部分。\n\n    仅输出建议，不要输出其他内容。\n    "

  /** The review dimensions shared by the critique and the refine prompts
      (accuracy, fluency, style, terminology); the target language is
      interpolated after the head and after the tail. */
  const CriteriaHead: string := "1.准确性：通过纠正添加、误译、遗漏或未翻译文本的错误；\n    2.流畅性：通过应用"
  const CriteriaTail: string :=
    "语法、拼写和标点规则，并确保没有不必要的重复；\n    3.风格：通过确保翻译反映源文本的风格和语气与文化背景相匹配；\n    4.术语：通过确保术语使用一致并反映源文本领域，并且确保使用等效习语"

  const RefineTask: string := "\n    你的任务是仔细阅读文本，然后编辑从"
  const RefineMarkup: string :=
    "的翻译,同时你需要考虑专家给到的有益性建议和建设性批评。\n    源文本、初始化翻译和专家语言学家的建议由 XML 标签<SOURCE_TEXT></SOURCE_TEXT>、<TRANSLATION></TRANSLATION>和<EXPERT_SUGGESTIONS></EXPERT_SUGGESTIONS>分割。如下所示：\n\n    "
  const RefineCriteriaIntro: string := "\n\n    在撰写翻译时，请考虑专家的建议，并确保：\n    "
  const RefineOutro: string := "；\n    5.是否有其他错误；\n\n    仅输出新的译文，不要输出其他内容。\n    "

  /** The review dimensions as both prompts render them for `targetLang` */
  function Criteria(targetLang: string): string {
    Join([CriteriaHead, targetLang, CriteriaTail, targetLang])
  }

  // ---------------------------------------------------------------------
  // Draft (initial translation)
  // ---------------------------------------------------------------------

  function DraftSystemPieces(sourceLang: string, targetLang: string): seq<string> {
    [TranslatorRole, sourceLang, "到", targetLang, "的翻译工作。"]
  }

  function DraftPromptPieces(sourceLang: string, targetLang: string, sourceText: string): seq<string> {
    [ "这是一个从", sourceLang, "到", targetLang, DraftTask, targetLang, DraftInstruction,
      sourceLang, ": ", sourceText, "\n\n\n    ",
      targetLang, ":\n    " ]
  }

  function DraftRequest(s: State): Request {
    Request(Join(DraftSystemPieces(s.sourceLang, s.targetLang)),
            Join(DraftPromptPieces(s.sourceLang, s.targetLang, s.sourceText)))
  }

  // ---------------------------------------------------------------------
  // Critique (reflection on the draft)
  // ---------------------------------------------------------------------

  function CritiqueSystemPieces(sourceLang: string, targetLang: string): seq<string> {
    [LinguistRole, targetLang, "到", sourceLang, "的翻译工作。", CritiqueGoal]
  }

  /** The localisation clause: present exactly when a country is given, and
      then it names that country. */
  function AdditionalRule(country: string): (r: string)
    ensures r == "" <==> country == ""
    ensures country != "" ==> Contains(r, country)
  {
    if country != "" then
      var pieces := [RuleHead, country, RuleTail];
      JoinPiece(pieces, 1);
      InOrderSpan(pieces, 0, 1, 2, country, [], [country]);
      assert pieces[0..] == pieces;
      InOrderContains(Join(pieces), [country], 0);
      assert Join(pieces) == RuleHead + Join(pieces[1..]);
      Join(pieces)
    else
      ""
  }

  function CritiquePromptPieces(sourceLang: string, targetLang: string, sourceText: string,
                                rule: string, translation1: string): seq<string>
  {
    [ CritiqueTask, sourceLang, "到", targetLang, CritiqueAsk, rule, CritiqueMarkup,
      Open(SourceTextTag), Indent, sourceText, Indent, Close(SourceTextTag),
      BlankLine,
      Open(TranslationTag), Indent, translation1, Indent, Close(TranslationTag),
      CritiqueCriteriaIntro, CriteriaHead, targetLang, CriteriaTail, targetLang, CritiqueOutro ]
  }

  function CritiqueRequest(s: State): Request {
    Request(Join(CritiqueSystemPieces(s.sourceLang, s.targetLang)),
            Join(CritiquePromptPieces(s.sourceLang, s.targetLang, s.sourceText,
                                      AdditionalRule(s.country), Show(s.translation1))))
  }

  // ---------------------------------------------------------------------
  // Refine (improved translation)
  // ---------------------------------------------------------------------

  function RefineSystemPieces(sourceLang: string, targetLang: string): seq<string> {
    [LinguistRole, targetLang, "到", sourceLang, "的翻译工作。"]
  }

  function RefinePromptPieces(sourceLang: string, targetLang: string, sourceText: string,
                              translation1: string, reflection: string): seq<string>
  {
    [ RefineTask, sourceLang, "到", targetLang, RefineMarkup,
      Open(SourceTextTag), Indent, sourceText, Indent, Close(SourceTextTag),
      BlankLine,
      Open(TranslationTag), Indent, translation1, Indent, Close(TranslationTag),
      BlankLine,
      Open(SuggestionsTag), Indent, reflection, Indent, Close(SuggestionsTag),
      RefineCriteriaIntro, CriteriaHead, targetLang, CriteriaTail, targetLang, RefineOutro ]
  }

  function RefineRequest(s: State): Request {
    Request(Join(RefineSystemPieces(s.sourceLang, s.targetLang)),
            Join(RefinePromptPieces(s.sourceLang, s.targetLang, s.sourceText,
                                    Show(s.translation1), Show(s.reflection))))
  }

  // ---------------------------------------------------------------------
  // What each request embeds, and where
  // ---------------------------------------------------------------------

  /** The five pieces from index `i` on are the tagged block around `x` */
  predicate TaggedAt(ps: seq<string>, i: int, tag: string, x: string) {
    0 <= i && i + 5 <= |ps| &&
    ps[i] == Open(tag) && ps[i + 1] == Indent && ps[i + 2] == x && ps[i + 3] == Indent && ps[i + 4] == Close(tag)
  }

  lemma JoinTagged(ps: seq<string>, i: int, tag: string, x: string)
    requires TaggedAt(ps, i, tag, x)
    ensures Join(ps[i..i + 5]) == Tagged(tag, x)
  {
    assert ps[i..i + 5] == TaggedPieces(tag, x);
  }

  /** The four pieces from index `i` on are the review dimensions for `targetLang` */
  lemma JoinCriteria(ps: seq<string>, i: int, targetLang: string)
    requires 0 <= i && i + 4 <= |ps|
    requires ps[i] == CriteriaHead && ps[i + 1] == targetLang && ps[i + 2] == CriteriaTail && ps[i + 3] == targetLang
    ensures Join(ps[i..i + 4]) == Criteria(targetLang)
  {
    assert ps[i..i + 4] == [CriteriaHead, targetLang, CriteriaTail, targetLang];
  }

  /** A template whose pieces 1 and 3 are `a` and `b` renders them in that order */
  lemma TwoValuesShape(ps: seq<string>, a: string, b: string)
    requires |ps| >= 4 && ps[1] == a && ps[3] == b
    ensures InOrder(Join(ps), [a, b])
  {
    JoinPiece(ps, 1);
    JoinPiece(ps, 3);
    InOrderSpan(ps, 2, 3, 4, b, [], [b]);
    InOrderSpan(ps, 0, 1, 2, a, [b], [a, b]);
    assert ps[0..] == ps;
  }

  /** The draft system message names the source language, then the target
      language. */
  lemma DraftSystemOrder(sourceLang: string, targetLang: string)
    ensures InOrder(Join(DraftSystemPieces(sourceLang, targetLang)), [sourceLang, targetLang])
  {
    TwoValuesShape(DraftSystemPieces(sourceLang, targetLang), sourceLang, targetLang);
  }

  /** Where the interpolated values sit among the draft template's pieces */
  lemma DraftShape(ps: seq<string>, sourceLang: string, targetLang: string, sourceText: string)
    requires |ps| == 13 && ps[1] == sourceLang && ps[3] == targetLang
    requires ps[7] == sourceLang && ps[8] == ": " && ps[9] == sourceText
    ensures InOrder(Join(ps), [sourceLang, targetLang, sourceLang + ": " + sourceText])
    ensures Contains(Join(ps), sourceText)
  {
    var labelled := sourceLang + ": " + sourceText;
    assert Join(ps[7..10]) == labelled by {
      assert ps[7..10] == [sourceLang] + [": "] + [sourceText];
      JoinAppend([sourceLang] + [": "], [sourceText]);
      JoinAppend([sourceLang], [": "]);
      JoinSingle(sourceLang);
      JoinSingle(": ");
      JoinSingle(sourceText);
    }
    JoinPiece(ps, 1);
    JoinPiece(ps, 3);
    InOrderSpan(ps, 4, 7, 10, labelled, [], [labelled]);
    InOrderSpan(ps, 2, 3, 4, targetLang, [labelled], [targetLang, labelled]);
    InOrderSpan(ps, 0, 1, 2, sourceLang, [targetLang, labelled], [sourceLang, targetLang, labelled]);
    assert ps[0..] == ps;
    JoinPiece(ps, 9);
    InOrderSpan(ps, 0, 9, 10, sourceText, [], [sourceText]);
    InOrderContains(Join(ps), [sourceText], 0);
  }

  /** The draft prompt names the source and the target language, then gives
      the source text, verbatim, labelled with the source language. */
  lemma DraftPromptOrder(sourceLang: string, targetLang: string, sourceText: string)
    ensures InOrder(Join(DraftPromptPieces(sourceLang, targetLang, sourceText)),
                    [sourceLang, targetLang, sourceLang + ": " + sourceText])
    ensures Contains(Join(DraftPromptPieces(sourceLang, targetLang, sourceText)), sourceText)
  {
    DraftShape(DraftPromptPieces(sourceLang, targetLang, sourceText), sourceLang, targetLang, sourceText);
  }

  /** The critique and the refine system messages name the target language
      before the source language (the reverse of the draft's order). */
  lemma ReviewerSystemOrder(sourceLang: string, targetLang: string)
    ensures InOrder(Join(CritiqueSystemPieces(sourceLang, targetLang)), [targetLang, sourceLang])
    ensures InOrder(Join(RefineSystemPieces(sourceLang, targetLang)), [targetLang, sourceLang])
  {
    TwoValuesShape(CritiqueSystemPieces(sourceLang, targetLang), targetLang, sourceLang);
    TwoValuesShape(RefineSystemPieces(sourceLang, targetLang), targetLang, sourceLang);
  }

  /** Where the interpolated values sit among the critique template's pieces */
  predicate CritiqueLayout(ps: seq<string>, sourceLang: string, targetLang: string, sourceText: string,
                           rule: string, translation1: string)
  {
    |ps| == 24 && ps[1] == sourceLang && ps[3] == targetLang && ps[5] == rule &&
    TaggedAt(ps, 7, SourceTextTag, sourceText) && TaggedAt(ps, 13, TranslationTag, translation1) &&
    ps[19] == CriteriaHead && ps[20] == targetLang && ps[21] == CriteriaTail && ps[22] == targetLang
  }

  lemma CritiqueLayoutHolds(sourceLang: string, targetLang: string, sourceText: string,
                            rule: string, translation1: string)
    ensures CritiqueLayout(CritiquePromptPieces(sourceLang, targetLang, sourceText, rule, translation1),
                           sourceLang, targetLang, sourceText, rule, translation1)
  {
  }

  lemma CritiqueTail(ps: seq<string>, sourceLang: string, targetLang: string, sourceText: string,
                     rule: string, translation1: string)
    requires CritiqueLayout(ps, sourceLang, targetLang, sourceText, rule, translation1)
    ensures InOrder(Join(ps[6..]), [Tagged(SourceTextTag, sourceText), Tagged(TranslationTag, translation1),
                                    Criteria(targetLang)])
  {
    var src, draft, crit := Tagged(SourceTextTag, sourceText), Tagged(TranslationTag, translation1), Criteria(targetLang);
    JoinTagged(ps, 7, SourceTextTag, sourceText);
    JoinTagged(ps, 13, TranslationTag, translation1);
    JoinCriteria(ps, 19, targetLang);
    InOrderSpan(ps, 18, 19, 23, crit, [], [crit]);
    InOrderSpan(ps, 12, 13, 18, draft, [crit], [draft, crit]);
    InOrderSpan(ps, 6, 7, 12, src, [draft, crit], [src, draft, crit]);
  }

  /** The critique prompt names the source and the target language, then
      carries the localisation clause, then the source text and the draft,
      each inside its own tags, then the review dimensions, in that order. */
  lemma CritiquePromptOrder(sourceLang: string, targetLang: string, sourceText: string,
                            rule: string, translation1: string)
    ensures InOrder(Join(CritiquePromptPieces(sourceLang, targetLang, sourceText, rule, translation1)),
                    [sourceLang, targetLang, rule, Tagged(SourceTextTag, sourceText),
                     Tagged(TranslationTag, translation1), Criteria(targetLang)])
  {
    var ps := CritiquePromptPieces(sourceLang, targetLang, sourceText, rule, translation1);
    CritiqueLayoutHolds(sourceLang, targetLang, sourceText, rule, translation1);
    CritiqueHead(ps, sourceLang, targetLang, sourceText, rule, translation1);
  }

  lemma CritiqueHead(ps: seq<string>, sourceLang: string, targetLang: string, sourceText: string,
                     rule: string, translation1: string)
    requires CritiqueLayout(ps, sourceLang, targetLang, sourceText, rule, translation1)
    ensures InOrder(Join(ps), [sourceLang, targetLang, rule, Tagged(SourceTextTag, sourceText),
                               Tagged(TranslationTag, translation1), Criteria(targetLang)])
  {
    var src, draft, crit := Tagged(SourceTextTag, sourceText), Tagged(TranslationTag, translation1), Criteria(targetLang);
    CritiqueTail(ps, sourceLang, targetLang, sourceText, rule, translation1);
    JoinPiece(ps, 1);
    JoinPiece(ps, 3);
    JoinPiece(ps, 5);
    InOrderSpan(ps, 4, 5, 6, rule, [src, draft, crit], [rule, src, draft, crit]);
    InOrderSpan(ps, 2, 3, 4, targetLang, [rule, src, draft, crit], [targetLang, rule, src, draft, crit]);
    InOrderSpan(ps, 0, 1, 2, sourceLang, [targetLang, rule, src, draft, crit], [sourceLang, targetLang, rule, src, draft, crit]);
    assert ps[0..] == ps;
  }

  /** Where the interpolated values sit among the refine template's pieces */
  predicate RefineLayout(ps: seq<string>, sourceLang: string, targetLang: string, sourceText: string,
                         translation1: string, reflection: string)
  {
    RefineNamesAt(ps, sourceLang, targetLang) && RefineTagsAt(ps, sourceText, translation1, reflection)
  }

  predicate RefineNamesAt(ps: seq<string>, sourceLang: string, targetLang: string) {
    |ps| == 28 && ps[1] == sourceLang && ps[3] == targetLang &&
    ps[23] == CriteriaHead && ps[24] == targetLang && ps[25] == CriteriaTail && ps[26] == targetLang
  }

  predicate RefineTagsAt(ps: seq<string>, sourceText: string, translation1: string, reflection: string) {
    TaggedAt(ps, 5, SourceTextTag, sourceText) && TaggedAt(ps, 11, TranslationTag, translation1) &&
    TaggedAt(ps, 17, SuggestionsTag, reflection)
  }

  lemma RefineNamesHold(sourceLang: string, targetLang: string, sourceText: string,
                        translation1: string, reflection: string)
    ensures RefineNamesAt(RefinePromptPieces(sourceLang, targetLang, sourceText, translation1, reflection),
                          sourceLang, targetLang)
  {
  }

  lemma RefineTagsHold(sourceLang: string, targetLang: string, sourceText: string,
                       translation1: string, reflection: string)
    ensures RefineTagsAt(RefinePromptPieces(sourceLang, targetLang, sourceText, translation1, reflection),
                         sourceText, translation1, reflection)
  {
  }

  lemma RefineTail(ps: seq<string>, sourceLang: string, targetLang: string, sourceText: string,
                   translation1: string, reflection: string)
    requires RefineLayout(ps, sourceLang, targetLang, sourceText, translation1, reflection)
    ensures InOrder(Join(ps[10..]), [Tagged(TranslationTag, translation1), Tagged(SuggestionsTag, reflection),
                                     Criteria(targetLang)])
  {
    var draft, hints, crit := Tagged(TranslationTag, translation1), Tagged(SuggestionsTag, reflection), Criteria(targetLang);
    JoinTagged(ps, 11, TranslationTag, translation1);
    JoinTagged(ps, 17, SuggestionsTag, reflection);
    JoinCriteria(ps, 23, targetLang);
    InOrderSpan(ps, 22, 23, 27, crit, [], [crit]);
    InOrderSpan(ps, 16, 17, 22, hints, [crit], [hints, crit]);
    InOrderSpan(ps, 10, 11, 16, draft, [hints, crit], [draft, hints, crit]);
  }

  lemma RefineHead(ps: seq<string>, sourceLang: string, targetLang: string, sourceText: string,
                   translation1: string, reflection: string)
    requires RefineLayout(ps, sourceLang, targetLang, sourceText, translation1, reflection)
    ensures InOrder(Join(ps), [sourceLang, targetLang, Tagged(SourceTextTag, sourceText),
                               Tagged(TranslationTag, translation1), Tagged(SuggestionsTag, reflection),
                               Criteria(targetLang)])
  {
    var src, draft := Tagged(SourceTextTag, sourceText), Tagged(TranslationTag, translation1);
    var hints, crit := Tagged(SuggestionsTag, reflection), Criteria(targetLang);
    RefineTail(ps, sourceLang, targetLang, sourceText, translation1, reflection);
    JoinPiece(ps, 1);
    JoinPiece(ps, 3);
    JoinTagged(ps, 5, SourceTextTag, sourceText);
    InOrderSpan(ps, 4, 5, 10, src, [draft, hints, crit], [src, draft, hints, crit]);
    InOrderSpan(ps, 2, 3, 4, targetLang, [src, draft, hints, crit], [targetLang, src, draft, hints, crit]);
    InOrderSpan(ps, 0, 1, 2, sourceLang, [targetLang, src, draft, hints, crit], [sourceLang, targetLang, src, draft, hints, crit]);
    assert ps[0..] == ps;
  }

  /** The refine prompt names the source and the target language, then carries
      the source text, the draft and the suggestions, each inside its own tags,
      then the same review dimensions as the critique, in that order. */
  lemma RefinePromptOrder(sourceLang: string, targetLang: string, sourceText: string,
                          translation1: string, reflection: string)
    ensures InOrder(Join(RefinePromptPieces(sourceLang, targetLang, sourceText, translation1, reflection)),
                    [sourceLang, targetLang, Tagged(SourceTextTag, sourceText),
                     Tagged(TranslationTag, translation1), Tagged(SuggestionsTag, reflection),
                     Criteria(targetLang)])
  {
    var ps := RefinePromptPieces(sourceLang, targetLang, sourceText, translation1, reflection);
    RefineNamesHold(sourceLang, targetLang, sourceText, translation1, reflection);
    RefineTagsHold(sourceLang, targetLang, sourceText, translation1, reflection);
    RefineHead(ps, sourceLang, targetLang, sourceText, translation1, reflection);
  }

  /** The draft request: the system message names the source and then the
      target language; the prompt names them in the same order and then
      gives the source text labelled with the source language. */
  lemma DraftRequestShape(s: State)
    ensures InOrder(DraftRequest(s).system, [s.sourceLang, s.targetLang])
    ensures InOrder(DraftRequest(s).prompt, [s.sourceLang, s.targetLang, s.sourceLang + ": " + s.sourceText])
    ensures Contains(DraftRequest(s).prompt, s.sourceText)
  {
    DraftSystemOrder(s.sourceLang, s.targetLang);
    DraftPromptOrder(s.sourceLang, s.targetLang, s.sourceText);
  }

  /** The critique request: the system message names the target language
      before the source language; the prompt carries the two languages, the
      localisation clause, the source text and the draft in their tags and
      the review criteria, in that order. */
  lemma CritiqueRequestShape(s: State)
    ensures InOrder(CritiqueRequest(s).system, [s.targetLang, s.sourceLang])
    ensures InOrder(CritiqueRequest(s).prompt,
                    [s.sourceLang, s.targetLang, AdditionalRule(s.country), Tagged(SourceTextTag, s.sourceText),
                     Tagged(TranslationTag, Show(s.translation1)), Criteria(s.targetLang)])
  {
    ReviewerSystemOrder(s.sourceLang, s.targetLang);
    CritiquePromptOrder(s.sourceLang, s.targetLang, s.sourceText, AdditionalRule(s.country), Show(s.translation1));
  }

  /** The refine request: the system message names the target language
      before the source language; the prompt carries the two languages, the
      source text, the draft and the suggestions in their tags and the review
      criteria, in that order. */
  lemma RefineRequestShape(s: State)
    ensures InOrder(RefineRequest(s).system, [s.targetLang, s.sourceLang])
    ensures InOrder(RefineRequest(s).prompt,
                    [s.sourceLang, s.targetLang, Tagged(SourceTextTag, s.sourceText),
                     Tagged(TranslationTag, Show(s.translation1)), Tagged(SuggestionsTag, Show(s.reflection)),
                     Criteria(s.targetLang)])
  {
    ReviewerSystemOrder(s.sourceLang, s.targetLang);
    RefinePromptOrder(s.sourceLang, s.targetLang, s.sourceText, Show(s.translation1), Show(s.reflection));
  }
}
