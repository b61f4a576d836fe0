/**
 * The content script (content.js): the message handler that answers the
 * popup's request for the page's text. The page is seen only through what
 * the handler reads from it: the rendered text of the first `<article>`
 * element, if there is one, and the rendered texts of the `<p>` elements in
 * document order. Since the page is a value here, the handler cannot change
 * it.
 */
module ContentScript {
  import opened Wrappers
  import opened Text

  /** The only message type the content script answers. */
  const GetArticleText := "GET ARTICLE TEXT"

  /**
   * `article` is the `innerText` of the first `<article>` element, `None`
   * when the page has none; `paragraphs` are the `innerText`s of the `<p>`
   * elements in document order.
   */
  datatype Page = Page(article: Option<string>, paragraphs: seq<string>)

  /** A message sent to the content script; `kind` is its `type` property. */
  datatype Message = Message(kind: string)

  /** The reply `{text: …}`. */
  datatype Reply = Reply(text: string)

  /**
   * The text the handler extracts: the article's text whenever there is an
   * article, even an empty one; otherwise the paragraphs joined by newlines,
   * which is empty for no paragraphs and otherwise as long as the paragraphs
   * together plus one newline between each two.
   */
  function ExtractText(page: Page): (text: string)
    ensures page.article.Some? ==> text == page.article.value
    ensures page.article.None? && page.paragraphs == [] ==> text == ""
    ensures page.article.None? && page.paragraphs != [] ==>
              |text| == TotalLength(page.paragraphs) + |page.paragraphs| - 1
  {
    match page.article
    case Some(a) => a
    case None => Join(page.paragraphs, '\n')
  }

  /** Without an article, every paragraph appears whole and in order, newline-separated. */
  lemma ParagraphsInOrder(page: Page, i: nat)
    requires page.article.None? && i < |page.paragraphs|
    ensures OccursAt(ExtractText(page), page.paragraphs[i], Offset(page.paragraphs, i))
    ensures i + 1 < |page.paragraphs| ==>
              Offset(page.paragraphs, i) + |page.paragraphs[i]| < |ExtractText(page)| &&
              ExtractText(page)[Offset(page.paragraphs, i) + |page.paragraphs[i]|] == '\n'
  {
    JoinSegment(page.paragraphs, '\n', i);
  }

  /**
   * Without an article, the paragraphs can be read back from the text by
   * splitting it at newlines, as long as no paragraph holds a newline itself.
   */
  lemma ParagraphsRecoverable(page: Page)
    requires page.article.None? && page.paragraphs != []
    requires forall p, i :: p in page.paragraphs && 0 <= i < |p| ==> p[i] != '\n'
    ensures Split(ExtractText(page), '\n') == page.paragraphs
  {
    SplitJoin(page.paragraphs, '\n');
  }

  /** With an article, the paragraphs are not consulted at all. */
  lemma ArticleHidesParagraphs(article: string, ps: seq<string>, qs: seq<string>)
    ensures ExtractText(Page(Some(article), ps)) == ExtractText(Page(Some(article), qs))
  {
  }

  /**
   * The listener: a message of type exactly `GetArticleText` is answered
   * with `{text: …}` holding the extracted text; any other gets no reply.
   */
  function HandleMessage(msg: Message, page: Page): (reply: Option<Reply>)
    ensures reply.Some? <==> msg.kind == GetArticleText
    ensures reply.Some? ==> reply.value.text == ExtractText(page)
  {
    if msg.kind == GetArticleText then Some(Reply(ExtractText(page))) else None
  }
}
