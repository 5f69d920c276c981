# Blog generator: the decision logic, modelled and verified in Dafny

`blog_generator.py` is a desktop application that
1. fetches a blog post from a URL with a headless browser,
2. has a language model analyse its structure,
3. writes a new post in the same style,
4. saves the result to a file and, when configured, to a `blog_projects` table.

This project models the deterministic part of that program and proves what it does:

- **Which text the crawler extracts** (`CrawlThread`, module `Extraction`):
  - the dispatch on the URL (Naver blog, Tistory, or any other site);
  - the search for Naver's `mainFrame`;
  - joining the title and the body;
  - the ordered fallback over six CSS selectors that accepts the first text longer than 100 characters;
  - the last resort of joining all non-blank paragraphs.
- **The window's state machine** (`BlogGeneratorApp`, module `Session`): a class whose fields are the input and output boxes, the kept analysis result and the current project id. Its methods are the button handlers and the worker callbacks, with their input checks.
- **Saving to a file** (`save_content`, module `Export`): refusing blank text, the format box, the HTML page built around the text with every newline turned into `<br>` plus newline, and the extension appended only when missing.
- **The stored record** (`save_to_supabase`, module `Records`): stripped boxes, an empty URL or empty requirements stored as a missing value, and status `"completed"`.
- **Python's string built-ins that the program relies on** (module `Text`): `in`, `strip()` with the full `str.isspace` character set, `startswith`, `endswith` and `join`.

The browser, the language model and the storage service are not modelled. Their answers come in as data:
- A page is a `Page`: its own `Document` and its frames in order.
- A `Document` says four things:
  - which `wait_for_selector` calls finish before their timeout;
  - for each selector string, what `query_selector` followed by `inner_text()` gives: nothing, a text, or an exception;
  - what the `p` elements read as;
  - whether reading them raises.
- The page load is a `Result`: a page, or the exception message.
- The analysis and generation workers deliver through the `On…Finished` / `On…Error` methods.
- The storage insert is an `insertReply` parameter: the id returned, or None when the insert raised or returned no row.
- The save dialog's answer is a path, empty when the dialog is cancelled.

Three behaviours of the code are easy to misread, and the model keeps them as written:
- **URL matching.** The crawler classifies by a substring match on the whole URL, query string included. A URL that names both platforms goes to Naver, which is checked first (`Extraction.NaverCheckedFirst`).
- **Crawl failure.** Starting a crawl replaces the reference box with a placeholder (`Session.BlogGeneratorApp.CrawlUrl`), so the earlier text is lost either way. A failed crawl then leaves the box empty (`Session.BlogGeneratorApp.OnCrawlError`).
- **Generic wait timeout.** A timeout while waiting for the generic content area is caught by the extractor's outer handler. None of the six selectors is tried and the result is None (`Extraction.GenericContent`).

## Model

| member | source | states |
|---|---|---|
| Text.Contains | blog_generator.py:45-48 | Python's substring test `t in s` holds exactly when `t` occurs at some offset of `s` |
| Text.Strip | blog_generator.py:729 | `strip()` leaves neither leading nor trailing whitespace, and is empty exactly when the input is all whitespace |
| Text.StripIsInfix | blog_generator.py:729 | the stripped text is an infix of the input with only whitespace before and after it |
| Text.StripKeepsStripped | blog_generator.py:912-916 | stripping a text that has no surrounding whitespace leaves it unchanged |
| Text.JoinEnds | blog_generator.py:176 | `sep.join` of no pieces is empty; otherwise the joined text starts with the first piece and ends with the last |
| Text.JoinAppend | blog_generator.py:176 | `sep.join` grows from the left: one more piece adds the separator and that piece at the end |
| Text.JoinContainsEach | blog_generator.py:176 | every piece is a substring of the joined text |
| Extraction.Classify | blog_generator.py:45-52 | Naver exactly when the URL contains `blog.naver.com`; Tistory exactly when it does not but contains `tistory.com`; generic exactly when it contains neither |
| Extraction.NaverCheckedFirst | blog_generator.py:45-49 | the URL `https://blog.naver.com/post?from=tistory.com` contains `tistory.com` and still goes to the Naver extractor |
| Extraction.GenericUrlExample | blog_generator.py:50-52 | `https://example.com/post` goes to the generic extractor |
| Extraction.PlatformContent | blog_generator.py:77-96 | a result exists exactly when the content wait succeeds and the body lookup finds an element; it is `title + "\n\n" + body` when a non-empty title was read, and the body alone otherwise (a missing or raising title counts as empty) |
| Extraction.MainFrameFrom | blog_generator.py:72-75 | the first frame from a given index whose URL contains or whose name equals `mainFrame`, and None only when no later frame qualifies |
| Extraction.FindMainFrame | blog_generator.py:68-75 | the frame loop with its early `break` returns the index of the first content frame, as `MainFrameFrom` defines it |
| Extraction.NaverDocument | blog_generator.py:77-114 | the Naver extractor reads the first content frame when there is one, and the page itself otherwise |
| Extraction.ExtractNaver | blog_generator.py:64-117 | the Naver extractor's result is the platform rule applied to the chosen document with the Naver selectors |
| Extraction.TistoryContent | blog_generator.py:119-143 | the Tistory extractor reads the page itself; a result exists exactly when its content wait succeeds and its body lookup finds an element, and it is the title, a blank line and the body, or the body alone without a title |
| Extraction.FirstQualifyingFrom | blog_generator.py:152-169 | the first selector, in the fixed order, whose text is longer than 100 characters; missing, short and raising candidates are all skipped |
| Extraction.KeepNonBlank | blog_generator.py:174 | the filter keeps only non-blank paragraphs, and keeps none exactly when all are blank |
| Extraction.KeepNonBlankAppend | blog_generator.py:174 | the filter keeps document order: it distributes over concatenation |
| Extraction.KeepNonBlankSingle | blog_generator.py:174 | a single paragraph is kept exactly when it is not blank |
| Extraction.KeptIndex | blog_generator.py:174 | every non-blank paragraph appears in the filtered list |
| Extraction.LastResort | blog_generator.py:171-177 | a result exists exactly when the paragraphs could be read and at least one is non-blank; it is then the non-blank paragraphs, in document order, joined by a blank line, a non-empty text containing every one of them |
| Extraction.LastResortFacts | blog_generator.py:174-176 | the joined non-blank paragraphs form a non-empty text containing each of them |
| Extraction.GenericContent | blog_generator.py:145-180 | None when the content wait times out; otherwise the text of the first qualifying selector, and the paragraph last resort when none qualifies |
| Extraction.ExtractGeneric | blog_generator.py:145-180 | the selector loop with its early `return` and per-candidate `continue` computes `GenericContent` |
| Extraction.MainElementContent | blog_generator.py:152-167 | when `article` is missing and `main` holds more than 100 characters, that text is returned unchanged |
| Extraction.Content | blog_generator.py:44-52 | the Naver extractor's result when the URL contains `blog.naver.com`; otherwise the Tistory extractor's when it contains `tistory.com`; otherwise the generic extractor's on the page itself |
| Extraction.Crawl | blog_generator.py:54-62 | success only with a non-empty extracted text, which is reported unchanged; an empty or missing text gives the fixed "cannot extract" message; a load exception gives `크롤링 오류: ` followed by its message |
| Extraction.Run | blog_generator.py:30-62 | the thread's dispatch through the extractor methods reports the result `Crawl` defines |
| Extraction.MainElementExample | blog_generator.py:30-62 | a generic page whose `main` element holds 150 characters is crawled to exactly that text |
| Export.FormatOf | blog_generator.py:867-877 | `.txt` and `.md` select their formats and every other entry selects HTML |
| Export.Extension | blog_generator.py:869-877 | the extension is one of `.txt`, `.md` and `.html`, and it selects that same format in the format box, so text gets `.txt`, Markdown `.md` and HTML `.html` |
| Export.BreakLinesShape | blog_generator.py:886 | each newline grows the text by the four characters of `<br>`, and a text without newlines is unchanged |
| Export.UnbreakBreak | blog_generator.py:886 | replacing each newline by `<br>` plus newline loses nothing: reading each `<br>` plus newline back as a newline restores the text |
| Export.EveryNewlineTagged | blog_generator.py:886 | in a converted text every newline directly follows `<br>` |
| Export.HtmlRoundTrip | blog_generator.py:879-888 | the text can be read back out of the HTML page written around its converted form |
| Export.Render | blog_generator.py:869-888 | text and Markdown are written unchanged; HTML is exactly the fixed head, the text with every newline converted, and the fixed tail, and the text reads back out of it |
| Export.WithExtension | blog_generator.py:897-899 | the saved path ends with the extension and starts with the chosen path; a path that already ends with the extension is kept as it is, and any other path gets the extension appended in full |
| Export.WithExtensionIdempotent | blog_generator.py:897-899 | appending the extension a second time changes nothing |
| Export.Plan | blog_generator.py:860-899 | blank text is refused; a cancelled dialog writes nothing; otherwise one file is written, named by the extension rule for the chosen format and holding the stripped text rendered in that format (unchanged for text and Markdown, the HTML page that reads back to it otherwise) |
| Records.NoneIfEmpty | blog_generator.py:920 | an empty string becomes a missing value, and reading a missing value as empty restores it |
| Records.Build | blog_generator.py:909-927 | the status is `completed`; the URL and the requirements are missing exactly when their boxes are blank, and never stored as empty strings |
| Records.BuildRecoverRoundTrip | blog_generator.py:912-927 | the record holds the stripped boxes, the analysis and the generated text, nothing lost but the surrounding whitespace |
| Records.BuildWellFormed | blog_generator.py:912-927 | every record built has stripped text fields, no empty optional field and status `completed` |
| Records.OptionalRoundTrip | blog_generator.py:920-924 | a stored optional value is rebuilt unchanged from its text |
| Records.RecoverBuildRoundTrip | blog_generator.py:912-927 | every well-formed record is the record built from the values it holds |
| Session.ValidateUrl | blog_generator.py:727-742 | a blank URL box is refused as empty and a stripped URL not starting with `http` as malformed; the URL is accepted exactly when neither holds, and the crawl gets the stripped box |
| Session.ValidateAnalysis | blog_generator.py:777-792 | refused without a client, then with a blank reference; accepted exactly when neither holds, and the analysis gets the stripped reference |
| Session.ValidateGeneration | blog_generator.py:809-840 | generation starts exactly when there is a client, a non-blank reference, a non-blank topic and a non-empty kept analysis; each refusal names the first failing check in that order; keywords and requirements may be empty; the worker gets the stripped reference, topic, keywords and requirements and the kept analysis |
| Session.BlogGeneratorApp.constructor | blog_generator.py:356-380 | a new window has empty boxes, no kept analysis and no project id, and records whether the two clients were created |
| Session.BlogGeneratorApp.CrawlUrl | blog_generator.py:727-745 | the URL check's verdict; on success the reference box shows the crawling placeholder, otherwise nothing changes |
| Session.BlogGeneratorApp.OnCrawlFinished | blog_generator.py:747-751 | the extracted text becomes the reference |
| Session.BlogGeneratorApp.OnCrawlError | blog_generator.py:753-757 | the reference box is emptied |
| Session.BlogGeneratorApp.AnalyzeReference | blog_generator.py:777-795 | the analysis check's verdict; on success the analysis box shows the placeholder, otherwise nothing changes |
| Session.BlogGeneratorApp.OnAnalysisFinished | blog_generator.py:797-801 | the result is kept for generation and shown |
| Session.BlogGeneratorApp.OnAnalysisError | blog_generator.py:803-807 | only the analysis box is cleared; the kept result is outside its frame and stays |
| Session.BlogGeneratorApp.GenerateContent | blog_generator.py:809-843 | the generation check's verdict; on success the output box shows the placeholder, otherwise nothing changes |
| Session.BlogGeneratorApp.SaveToStorage | blog_generator.py:909-935 | with storage, the record built from the current URL, reference, topic, keywords and requirements boxes, the kept analysis and the generated text is inserted and a returned id becomes the project id; a failed insert keeps the old id |
| Session.BlogGeneratorApp.OnGenerationFinished | blog_generator.py:845-852 | the result is shown; exactly one insert is attempted when storage is configured and none otherwise; the project id changes only on a returned id |
| Session.BlogGeneratorApp.OnGenerationError | blog_generator.py:854-858 | the output box is emptied |
| Session.BlogGeneratorApp.SaveContent | blog_generator.py:860-899 | what is saved is `Export.Plan` of the output box, refused exactly when the box is blank; the window is not changed |
| Session.BlogGeneratorApp.ResetAll | blog_generator.py:951-986 | when confirmed, every box, the kept analysis and the project id are cleared; when declined, nothing changes |
| Session.GenerationWaitsForAnalysis | blog_generator.py:827-829 | on a fresh window with reference and topic filled in, generation is refused until an analysis has finished |
| Session.StaleAnalysisIsStillUsed | blog_generator.py:797-807 | after a success and then a failed analysis, the box is empty but generation starts with the earlier result |
| Session.SavedOnceWithStorage | blog_generator.py:845-852 | with storage, a finished generation saves a record with missing URL and requirements for blank boxes, keeps the returned id, and a reset clears it |
| Session.NoSaveWithoutStorage | blog_generator.py:845-852 | for any window in a valid state without storage, a finished generation shows the text, attempts no save and leaves no project id |

## Left out

- Browser I/O is not modelled: the Playwright launch, user agent, `goto` with its 30-second network-idle wait, the 10-second `wait_for_selector` timeouts and the frame enumeration. The page is given as data, and a wait is either finished or timed out.
- `browser.close()` raising after a successful extraction is not modelled. It would turn the outcome into a crawl error.
- The text of an element is read once. The paragraph filter calls `inner_text()` twice per paragraph, and the model assumes both calls give the same text.
- CSS selector semantics are not modelled. A comma-separated selector is one key of the page's lookup map, as written in the source, and the page decides which element it finds.
- The error-logging `print` calls in the extractors and the storage save are not modelled.
- The BeautifulSoup helpers `extract_naver_blog`, `extract_tistory_blog` and `extract_general_content` (blog_generator.py:182-253) are left out. Nothing calls them.
- The language-model workers `AnalyzeThread` and `GenerateThread` are left out: their prompts, model names and API calls. Their results enter as arguments of the `On…Finished` / `On…Error` methods.
- The storage service's `execute`, the id read from its reply, and `load_project_history` are left out. The reply enters as `insertReply`.
- Threads, signals and the fact that a second button press can start a second worker are left out.
- The Qt widgets, styles, theme, status-bar messages and dialog texts are left out. Only the boxes' contents are modelled.
- `load_reference_file` is left out because it is file I/O. Its only effect on the state is to set the reference box, which `OnCrawlFinished` already models.
- Opening and writing the output file are left out, and so is the error dialog when that fails. `Export.Plan` stops at the path and the contents.
- `adjust_color_brightness` is left out because it is floating-point colour arithmetic for the style sheets.
- Reading the API keys from the environment is left out. Whether each client exists is a constructor argument.
