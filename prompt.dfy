/**
 * The prompt builder of popup.js: `getGeminiSummary` and `getGeminiAnswer`
 * without their final call into the generation client. Both cut the article
 * to a fixed number of characters first; the summary prompt is picked from a
 * table of three templates keyed by the selected summary type, and the answer
 * prompt puts the article and the question in delimited sections.
 */
module PromptBuilder {
  import opened Text

  /** The most characters of article text a prompt carries. */
  const MaxChars: nat := 20000
  const Ellipsis := "..."

  /**
   * The hard truncation applied to the article: a text of at most `MaxChars`
   * characters is kept as it is; a longer one becomes its first `MaxChars`
   * characters followed by the ellipsis.
   */
  function Truncate(s: string): (r: string)
    ensures |s| <= MaxChars ==> r == s
    ensures |s| > MaxChars ==> |r| == MaxChars + |Ellipsis|
    ensures |s| > MaxChars ==> r[..MaxChars] == s[..MaxChars] && r[MaxChars..] == Ellipsis
    ensures |r| <= MaxChars + |Ellipsis|
  {
    if |s| > MaxChars then s[..MaxChars] + Ellipsis else s
  }

  // ---------------------------------------------------------------------------
  // Summary prompts

  /** The summary types the popup offers, and everything else. */
  datatype Mode = Brief | Detailed | Bullets | Unknown

  /** The mode a value of the summary-type selector names. */
  function ModeOf(summaryType: string): (m: Mode)
    ensures m == Brief <==> summaryType == "brief"
    ensures m == Detailed <==> summaryType == "detailed"
    ensures m == Bullets <==> summaryType == "bullets"
  {
    if summaryType == "brief" then Brief
    else if summaryType == "detailed" then Detailed
    else if summaryType == "bullets" then Bullets
    else Unknown
  }

  const BriefInstruction := "Summarize in 2-3 sentences:"
  const DetailedInstruction := "Give a detailed summary:"
  /** The rule the bullets template gives for the shape of each line. */
  const DashRule := "start each line with \"- \""
  /** How many bullet points the bullets template asks for. */
  const BulletRange := "5-7 bullet points"
  const BulletsLead := "Summarize in "
  const BulletsInstruction := BulletsLead + BulletRange + " (" + DashRule + "):"

  /** The fixed instruction of each mode; an unknown mode gets the brief one. */
  function Instruction(m: Mode): string {
    match m
    case Brief => BriefInstruction
    case Detailed => DetailedInstruction
    case Bullets => BulletsInstruction
    case Unknown => BriefInstruction
  }

  /** The table `promptMap` of popup.js: one complete prompt per known summary type. */
  function PromptMap(text: string): map<string, string> {
    map[
      "brief" := BriefInstruction + "\n\n" + text,
      "detailed" := DetailedInstruction + "\n\n" + text,
      "bullets" := BulletsInstruction + "\n\n" + text
    ]
  }

  /**
   * The prompt `getGeminiSummary(rawText, summaryType, …)` sends: the entry
   * of the table for the summary type, or the brief entry when there is none.
   */
  function SummaryPrompt(rawText: string, summaryType: string): (p: string)
    ensures StartsWith(p, Instruction(ModeOf(summaryType)) + "\n\n")
    ensures EndsWith(p, Truncate(rawText))
  {
    var table := PromptMap(Truncate(rawText));
    if summaryType in table then table[summaryType] else table["brief"]
  }

  /**
   * A summary prompt is the mode's fixed instruction, a blank line and the
   * truncated article, so its length is bounded whatever the article.
   */
  lemma SummaryPromptForm(rawText: string, summaryType: string)
    ensures SummaryPrompt(rawText, summaryType) ==
            Instruction(ModeOf(summaryType)) + "\n\n" + Truncate(rawText)
    ensures |SummaryPrompt(rawText, summaryType)| <=
            |Instruction(ModeOf(summaryType))| + 2 + MaxChars + |Ellipsis|
  {
  }

  /** Any summary type other than the three known ones yields the brief prompt. */
  lemma UnknownTypeIsBrief(rawText: string, summaryType: string)
    requires summaryType != "brief" && summaryType != "detailed" && summaryType != "bullets"
    ensures SummaryPrompt(rawText, summaryType) == SummaryPrompt(rawText, "brief")
  {
  }

  /** The bullets prompt asks for 5 to 7 bullet points and tells the model to start each line with "- ". */
  lemma BulletsAsksForDashes(rawText: string)
    ensures OccursAt(SummaryPrompt(rawText, "bullets"), "5-7 bullet points", 13)
    ensures OccursAt(SummaryPrompt(rawText, "bullets"), "start each line with \"- \"", 32)
  {
    var p := SummaryPrompt(rawText, "bullets");
    var opening := BulletsLead + BulletRange + " (";
    StartsWithPieces(p, BulletsInstruction, "\n\n");
    StartsWithPieces(p, opening + DashRule, "):");
    StartsWithPieces(p, opening, DashRule);
    StartsWithPieces(p, BulletsLead + BulletRange, " (");
    StartsWithPieces(p, BulletsLead, BulletRange);
  }

  /** Two summary prompts of one type agree exactly when the truncated articles agree. */
  lemma SummaryPromptDeterminesArticle(a: string, b: string, summaryType: string)
    ensures SummaryPrompt(a, summaryType) == SummaryPrompt(b, summaryType) <==> Truncate(a) == Truncate(b)
  {
    SummaryPromptForm(a, summaryType);
    SummaryPromptForm(b, summaryType);
    var head := Instruction(ModeOf(summaryType)) + "\n\n";
    if SummaryPrompt(a, summaryType) == SummaryPrompt(b, summaryType) {
      assert Truncate(a) == SummaryPrompt(a, summaryType)[|head|..];
      assert Truncate(b) == SummaryPrompt(b, summaryType)[|head|..];
    }
  }

  // ---------------------------------------------------------------------------
  // Answer prompts

  /** The phrase the model is told to give when the article does not hold the answer. */
  const NotFoundPhrase := "The answer to that question is not found in the article."

  const AnswerLead :=
    "Based *only* on the content of the following article, answer the user's question. " +
    "If the answer is not in the article, say \""
  const AnswerInstruction := AnswerLead + NotFoundPhrase + "\""

  const ArticleMarker := "---ARTICLE---\n"
  const QuestionMarker := "\n\n---QUESTION---\n"

  /** The prompt `getGeminiAnswer(articleText, question, …)` sends. */
  function AnswerPrompt(articleText: string, question: string): (p: string)
    ensures StartsWith(p, AnswerInstruction + "\n\n" + ArticleMarker)
    ensures EndsWith(p, ArticleMarker + Truncate(articleText) + (QuestionMarker + question))
    ensures |p| == |AnswerInstruction| + 2 + |ArticleMarker| + |Truncate(articleText)| +
                   |QuestionMarker| + |question|
  {
    var head := AnswerInstruction + "\n\n";
    var tail := QuestionMarker + question;
    OccursInMiddle(head, ArticleMarker, Truncate(articleText) + tail);
    OccursInMiddle(head, ArticleMarker + Truncate(articleText) + tail, []);
    head + (ArticleMarker + Truncate(articleText) + tail)
  }

  /**
   * The answer prompt starts with the fixed instruction, which holds the
   * not-found phrase, and ends with the article section followed by the
   * question section; the question is carried whole, however long.
   */
  lemma AnswerPromptForm(articleText: string, question: string)
    ensures StartsWith(AnswerPrompt(articleText, question), AnswerInstruction)
    ensures OccursAt(AnswerPrompt(articleText, question), NotFoundPhrase, 124)
    ensures EndsWith(AnswerPrompt(articleText, question), QuestionMarker + question)
    ensures EndsWith(AnswerPrompt(articleText, question), question)
  {
    var p := AnswerPrompt(articleText, question);
    StartsWithPieces(p, AnswerInstruction + "\n\n", ArticleMarker);
    StartsWithPieces(p, AnswerInstruction, "\n\n");
    StartsWithPieces(p, AnswerLead + NotFoundPhrase, "\"");
    StartsWithPieces(p, AnswerLead, NotFoundPhrase);
    EndsWithPieces(p, ArticleMarker + Truncate(articleText), QuestionMarker + question);
    EndsWithPieces(p, QuestionMarker, question);
  }

  /** Two answer prompts about one article agree exactly when the questions agree. */
  lemma AnswerPromptDeterminesQuestion(articleText: string, q1: string, q2: string)
    ensures AnswerPrompt(articleText, q1) == AnswerPrompt(articleText, q2) <==> q1 == q2
  {
    var p1, p2 := AnswerPrompt(articleText, q1), AnswerPrompt(articleText, q2);
    if p1 == p2 {
      AnswerPromptForm(articleText, q1);
      AnswerPromptForm(articleText, q2);
      assert |q1| == |q2|;
    }
  }
}
