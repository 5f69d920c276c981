/**
 * The crawler's decision logic (`CrawlThread` in blog_generator.py): which
 * extractor a URL goes to, which frame of a Naver page is read, which CSS
 * selector's text is accepted, and how the final outcome is reported.
 *
 * The browser is abstracted away: a page is given as data. For every selector
 * string the page says what one `query_selector(...)` followed by
 * `inner_text()` yields (no element, a text, or an exception), which waits
 * (`wait_for_selector`) complete before their timeout, and what the
 * paragraph elements read as.
 */
module Extraction {
  import opened Wrappers
  import opened Text

  // ---------------------------------------------------------------- dispatch

  datatype Platform = Naver | Tistory | Generic

  const NaverHost := "blog.naver.com"
  const TistoryHost := "tistory.com"

  /** Site classification by substring, the Naver test first. */
  function Classify(url: string): (p: Platform)
    ensures p == Naver <==> Occurs(url, NaverHost)
    ensures p == Tistory <==> !Occurs(url, NaverHost) && Occurs(url, TistoryHost)
    ensures p == Generic <==> !Occurs(url, NaverHost) && !Occurs(url, TistoryHost)
  {
    if Contains(url, NaverHost) then Naver
    else if Contains(url, TistoryHost) then Tistory
    else Generic
  }

  // -------------------------------------------------------------- the page

  /** What one element lookup and its `inner_text()` produce. */
  datatype Lookup = Absent | Found(text: string) | Raises

  /**
   * One document (the top-level page or a frame).
   * `settles`: the selector strings whose wait completes before the timeout;
   * `elements`: the lookup result per selector string (a selector that is
   * not a key finds nothing); `paragraphs`: the `inner_text()` of every
   * `p` element in document order, or None when reading them raises.
   */
  datatype Document = Document(
    settles: set<string>,
    elements: map<string, Lookup>,
    paragraphs: Option<seq<string>>)

  datatype Frame = Frame(name: string, url: string, doc: Document)

  /** The loaded page: its own document and its frames, in `page.frames` order. */
  datatype Page = Page(top: Document, frames: seq<Frame>)

  function Query(doc: Document, selector: string): Lookup {
    if selector in doc.elements then doc.elements[selector] else Absent
  }

  // ------------------------------------------------- platform extractors

  const NaverReady := ".se-main-container, #postViewArea"
  const NaverTitle := ".se-title-text, .pcol1"
  const NaverBody := ".se-main-container, #postViewArea"
  const TistoryReady := "article, .entry-content, .contents_style"
  const TistoryTitle := "h1.tit_post, h2.title, .title_post"
  const TistoryBody := ".contents_style, .entry-content, article"
  const MainFrameName := "mainFrame"

  /** The title read under its own `try`: any failure leaves it empty. */
  function TitleOf(doc: Document, selector: string): string {
    match Query(doc, selector)
    case Found(t) => t
    case _ => ""
  }

  /** Title and body separated by a blank line, or the body alone without a title. */
  function JoinTitle(title: string, body: string): string {
    if title != "" then title + "\n\n" + body else body
  }

  /**
   * The shared shape of the Naver and Tistory extractors on one document:
   * wait for the content, read an optional title, read the body. A wait
   * that times out or a body lookup that raises ends in None, as does a
   * missing body.
   */
  function PlatformContent(doc: Document, ready: string, title: string, body: string): (r: Option<string>)
    ensures r.Some? <==> ready in doc.settles && Query(doc, body).Found?
    ensures r.Some? && Query(doc, title).Found? && Query(doc, title).text != "" ==>
              r.value == Query(doc, title).text + "\n\n" + Query(doc, body).text
    ensures r.Some? && !(Query(doc, title).Found? && Query(doc, title).text != "") ==>
              r.value == Query(doc, body).text
  {
    if ready !in doc.settles then None
    else match Query(doc, body)
      case Found(content) => Some(JoinTitle(TitleOf(doc, title), content))
      case _ => None
  }

  /** A frame is the Naver content frame when its URL mentions or its name is `mainFrame`. */
  predicate IsMainFrame(f: Frame) {
    Contains(f.url, MainFrameName) || f.name == MainFrameName
  }

  /** The index of the first content frame at or after `from`. */
  function MainFrameFrom(frames: seq<Frame>, from: nat): (r: Option<nat>)
    requires from <= |frames|
    ensures r.Some? ==> from <= r.value < |frames| && IsMainFrame(frames[r.value])
    ensures r.Some? ==> forall j :: from <= j < r.value ==> !IsMainFrame(frames[j])
    ensures r.None? ==> forall j :: from <= j < |frames| ==> !IsMainFrame(frames[j])
    decreases |frames| - from
  {
    if from == |frames| then None
    else if IsMainFrame(frames[from]) then Some(from)
    else MainFrameFrom(frames, from + 1)
  }

  /** The frame loop with its early `break`. */
  method FindMainFrame(frames: seq<Frame>) returns (r: Option<nat>)
    ensures r == MainFrameFrom(frames, 0)
  {
    for i := 0 to |frames|
      invariant MainFrameFrom(frames, 0) == MainFrameFrom(frames, i)
    {
      if IsMainFrame(frames[i]) {
        return Some(i);
      }
    }
    return None;
  }

  /** The document the Naver extractor reads: the first content frame, else the page itself. */
  function NaverDocument(page: Page): (d: Document)
    ensures (forall j :: 0 <= j < |page.frames| ==> !IsMainFrame(page.frames[j])) ==> d == page.top
    ensures forall k :: 0 <= k < |page.frames| && IsMainFrame(page.frames[k])
                        && (forall j :: 0 <= j < k ==> !IsMainFrame(page.frames[j]))
                        ==> d == page.frames[k].doc
  {
    match MainFrameFrom(page.frames, 0)
    case Some(i) => page.frames[i].doc
    case None => page.top
  }

  function NaverContent(page: Page): Option<string> {
    PlatformContent(NaverDocument(page), NaverReady, NaverTitle, NaverBody)
  }

  method ExtractNaver(page: Page) returns (r: Option<string>)
    ensures r == NaverContent(page)
  {
    var i := FindMainFrame(page.frames);
    var doc := if i.Some? then page.frames[i.value].doc else page.top;
    r := PlatformContent(doc, NaverReady, NaverTitle, NaverBody);
  }

  /**
   * The Tistory extractor reads the page itself, never a frame: a result
   * exists exactly when its content wait succeeds and its body lookup finds
   * an element.
   */
  function TistoryContent(page: Page): (r: Option<string>)
    ensures r.Some? <==> TistoryReady in page.top.settles && Query(page.top, TistoryBody).Found?
    ensures r.Some? ==> r.value == JoinTitle(TitleOf(page.top, TistoryTitle), Query(page.top, TistoryBody).text)
  {
    PlatformContent(page.top, TistoryReady, TistoryTitle, TistoryBody)
  }

  // ---------------------------------------------------- generic extractor

  const GenericReady := "article, main, .post-content, .entry-content"
  const GenericSelectors := ["article", "main", ".post-content", ".entry-content", ".content", "[role=\"main\"]"]
  const MinLength := 100
  const ParagraphSeparator := "\n\n"

  /** A candidate is accepted when it yields a text longer than the minimum. */
  predicate Qualifies(l: Lookup) {
    l.Found? && |l.text| > MinLength
  }

  /** The index of the first qualifying generic selector at or after `from`. */
  function FirstQualifyingFrom(doc: Document, from: nat): (r: Option<nat>)
    requires from <= |GenericSelectors|
    ensures r.Some? ==> from <= r.value < |GenericSelectors| && Qualifies(Query(doc, GenericSelectors[r.value]))
    ensures r.Some? ==> forall j :: from <= j < r.value ==> !Qualifies(Query(doc, GenericSelectors[j]))
    ensures r.None? ==> forall j :: from <= j < |GenericSelectors| ==> !Qualifies(Query(doc, GenericSelectors[j]))
    decreases |GenericSelectors| - from
  {
    if from == |GenericSelectors| then None
    else if Qualifies(Query(doc, GenericSelectors[from])) then Some(from)
    else FirstQualifyingFrom(doc, from + 1)
  }

  /** The paragraphs whose stripped text is non-empty, in document order. */
  function KeepNonBlank(ps: seq<string>): (r: seq<string>)
    ensures |r| <= |ps|
    ensures forall i :: 0 <= i < |r| ==> !IsBlank(r[i])
    ensures r == [] <==> forall i :: 0 <= i < |ps| ==> IsBlank(ps[i])
  {
    if ps == [] then []
    else if Strip(ps[0]) != "" then [ps[0]] + KeepNonBlank(ps[1..])
    else KeepNonBlank(ps[1..])
  }

  /** The filter keeps document order: it distributes over concatenation. */
  lemma {:induction false} KeepNonBlankAppend(a: seq<string>, b: seq<string>)
    ensures KeepNonBlank(a + b) == KeepNonBlank(a) + KeepNonBlank(b)
  {
    if a == [] {
      assert a + b == b;
    } else {
      assert (a + b)[1..] == a[1..] + b;
      KeepNonBlankAppend(a[1..], b);
    }
  }

  /** The filter keeps a single paragraph exactly when it is not blank. */
  lemma KeepNonBlankSingle(p: string)
    ensures KeepNonBlank([p]) == if IsBlank(p) then [] else [p]
  {
  }

  /** The last resort: the non-blank paragraphs joined by a blank line, None if there are none. */
  function LastResort(paragraphs: Option<seq<string>>): (r: Option<string>)
    ensures r.Some? <==> paragraphs.Some? && exists i :: 0 <= i < |paragraphs.value| && !IsBlank(paragraphs.value[i])
    ensures r.Some? ==> r.value == Join(KeepNonBlank(paragraphs.value), ParagraphSeparator)
    ensures r.Some? ==> r.value != ""
    ensures r.Some? ==> forall i :: 0 <= i < |paragraphs.value| && !IsBlank(paragraphs.value[i])
                          ==> Occurs(r.value, paragraphs.value[i])
  {
    match paragraphs
    case None => None
    case Some(ps) =>
      var kept := KeepNonBlank(ps);
      if kept == [] then None
      else
        LastResortFacts(ps);
        Some(Join(kept, ParagraphSeparator))
  }

  /** The joined last-resort text is non-empty and contains every non-blank paragraph. */
  lemma {:induction false} LastResortFacts(ps: seq<string>)
    requires KeepNonBlank(ps) != []
    ensures Join(KeepNonBlank(ps), ParagraphSeparator) != ""
    ensures forall i :: 0 <= i < |ps| && !IsBlank(ps[i]) ==> Occurs(Join(KeepNonBlank(ps), ParagraphSeparator), ps[i])
  {
    var kept := KeepNonBlank(ps);
    assert kept[0] != "" by {
      assert !IsBlank(kept[0]);
    }
    forall i | 0 <= i < |ps| && !IsBlank(ps[i])
      ensures Occurs(Join(kept, ParagraphSeparator), ps[i])
    {
      var k := KeptIndex(ps, i);
      JoinContainsEach(kept, ParagraphSeparator, k);
    }
  }

  /** Where a non-blank paragraph lands in the filtered list. */
  lemma {:induction false} KeptIndex(ps: seq<string>, i: nat) returns (k: nat)
    requires i < |ps| && !IsBlank(ps[i])
    ensures k < |KeepNonBlank(ps)| && KeepNonBlank(ps)[k] == ps[i]
  {
    assert ps == ps[..i] + [ps[i]] + ps[i + 1..];
    KeepNonBlankAppend(ps[..i] + [ps[i]], ps[i + 1..]);
    KeepNonBlankAppend(ps[..i], [ps[i]]);
    KeepNonBlankSingle(ps[i]);
    k := |KeepNonBlank(ps[..i])|;
  }

  /**
   * The generic extractor: after the page settles, the text of the first
   * selector, in the fixed order, whose text is longer than 100 characters;
   * otherwise the paragraph fallback. A wait that times out is caught by the
   * extractor's outer handler, so nothing is tried and the result is None.
   */
  function GenericContent(doc: Document): (r: Option<string>)
    ensures GenericReady !in doc.settles ==> r == None
    ensures forall k :: 0 <= k < |GenericSelectors| && GenericReady in doc.settles
                        && Qualifies(Query(doc, GenericSelectors[k]))
                        && (forall j :: 0 <= j < k ==> !Qualifies(Query(doc, GenericSelectors[j])))
                        ==> r == Some(Query(doc, GenericSelectors[k]).text)
    ensures GenericReady in doc.settles
            && (forall j :: 0 <= j < |GenericSelectors| ==> !Qualifies(Query(doc, GenericSelectors[j])))
            ==> r == LastResort(doc.paragraphs)
  {
    if GenericReady !in doc.settles then None
    else match FirstQualifyingFrom(doc, 0)
      case Some(k) => Some(Query(doc, GenericSelectors[k]).text)
      case None => LastResort(doc.paragraphs)
  }

  /** The selector loop with its early `return` and its per-candidate `continue`. */
  method ExtractGeneric(doc: Document) returns (r: Option<string>)
    ensures r == GenericContent(doc)
  {
    if GenericReady !in doc.settles {
      return None;
    }
    for k := 0 to |GenericSelectors|
      invariant FirstQualifyingFrom(doc, 0) == FirstQualifyingFrom(doc, k)
    {
      var candidate := Query(doc, GenericSelectors[k]);
      if candidate.Found? && |candidate.text| > MinLength {
        return Some(candidate.text);
      }
    }
    r := LastResort(doc.paragraphs);
  }

  // ----------------------------------------------------------- the thread

  datatype CrawlOutcome = Finished(content: string) | Failed(message: string)

  const NoContentMessage := "블로그 내용을 추출할 수 없습니다. 직접 복사해서 붙여넣어 주세요."
  const CrawlErrorPrefix := "크롤링 오류: "

  /** What the dispatched extractor returns for a loaded page: Naver first, then Tistory, else generic. */
  function Content(url: string, page: Page): (r: Option<string>)
    ensures Occurs(url, NaverHost) ==> r == NaverContent(page)
    ensures !Occurs(url, NaverHost) && Occurs(url, TistoryHost) ==> r == TistoryContent(page)
    ensures !Occurs(url, NaverHost) && !Occurs(url, TistoryHost) ==> r == GenericContent(page.top)
  {
    match Classify(url)
    case Naver => NaverContent(page)
    case Tistory => TistoryContent(page)
    case Generic => GenericContent(page.top)
  }

  /**
   * The thread's single terminal result. `load` is the browser launch and
   * page load: a page, or the message of the exception they raised.
   * Only a non-empty text is reported as success.
   */
  function Crawl(url: string, load: Result<Page, string>): (r: CrawlOutcome)
    ensures r.Finished? ==> r.content != ""
    ensures load.Failure? ==> r == Failed(CrawlErrorPrefix + load.error)
    ensures load.Success? ==>
              (r.Finished? <==> Content(url, load.value).Some? && Content(url, load.value).value != "")
    ensures load.Success? && r.Finished? ==> r.content == Content(url, load.value).value
    ensures load.Success? && r.Failed? ==> r.message == NoContentMessage
  {
    match load
    case Failure(e) => Failed(CrawlErrorPrefix + e)
    case Success(page) =>
      var content := Content(url, page);
      if content.Some? && content.value != "" then Finished(content.value)
      else Failed(NoContentMessage)
  }

  /** `CrawlThread.run`: load, dispatch on the URL, report. */
  method Run(url: string, load: Result<Page, string>) returns (r: CrawlOutcome)
    ensures r == Crawl(url, load)
  {
    if load.Failure? {
      return Failed(CrawlErrorPrefix + load.error);
    }
    var page := load.value;
    var content: Option<string>;
    match Classify(url) {
      case Naver => content := ExtractNaver(page);
      case Tistory => content := TistoryContent(page);
      case Generic => content := ExtractGeneric(page.top);
    }
    if content.Some? && content.value != "" {
      r := Finished(content.value);
    } else {
      r := Failed(NoContentMessage);
    }
  }

  // ------------------------------------------------------------- examples

  /** A URL naming neither blog host takes the generic path. */
  lemma GenericUrlExample()
    ensures Classify("https://example.com/post") == Generic
  {
    var url := "https://example.com/post";
    assert 'v' !in url && NaverHost[7] == 'v';
    MissingCharNotOccurs(url, NaverHost, 7);
    assert 'y' !in url && TistoryHost[6] == 'y';
    MissingCharNotOccurs(url, TistoryHost, 6);
  }

  /** `article` is tried first; when only `main` is present and long enough, its text is taken. */
  lemma MainElementContent(body: string)
    requires |body| > MinLength
    ensures GenericContent(Document({GenericReady}, map["main" := Found(body)], None)) == Some(body)
  {
    var doc := Document({GenericReady}, map["main" := Found(body)], None);
    assert GenericSelectors[0] != "main" && GenericSelectors[1] == "main";
    assert Query(doc, GenericSelectors[0]) == Absent;
    assert Query(doc, GenericSelectors[1]) == Found(body);
  }

  /** A generic page whose `main` element holds 150 characters yields exactly that text. */
  lemma MainElementExample(body: string)
    requires |body| == 150
    ensures Crawl("https://example.com/post",
                  Success(Page(Document({GenericReady}, map["main" := Found(body)], None), [])))
            == Finished(body)
  {
    GenericUrlExample();
    MainElementContent(body);
  }

  /** A Naver URL that also mentions Tistory still takes the Naver path. */
  lemma NaverCheckedFirst()
    ensures Occurs("https://" + NaverHost + "/post?from=" + TistoryHost, TistoryHost)
    ensures Classify("https://" + NaverHost + "/post?from=" + TistoryHost) == Naver
  {
    var url := "https://" + NaverHost + "/post?from=" + TistoryHost;
    assert url[8..8 + |NaverHost|] == NaverHost;
    assert OccursAt(url, NaverHost, 8);
    var j := |url| - |TistoryHost|;
    assert url[j..j + |TistoryHost|] == TistoryHost;
    assert OccursAt(url, TistoryHost, j);
  }
}
