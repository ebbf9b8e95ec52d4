# Lead generation pipeline — a Dafny model

The system is a command-line lead generator. It asks for four search parameters, then:

1. searches a company directory (Apollo's organization search) once;
2. for each company found, fetches the company website, extracts its description, its
   paragraphs, its contact strings and its news snippets, and asks a language model for key
   points;
3. asks the language model for a personalised outreach e-mail, with a subject and a body;
4. writes one row per company to `final_leads.csv`, under a fixed nine-column header.

The model covers the deterministic logic between the external calls. The network, the HTML
parser, the regular-expression engine, the language model and the JSON decoder are foreign
code, so each of their results is an input:

- the fetched HTML, as an `Option<string>`;
- a parsed `Page`, holding the meta tag, the paragraph texts, the elements and the regex
  match lists;
- a `Completion`, which is the model's reply, a reply without content, or a service failure;
- a `Json` parse outcome: `Object(map)`, `NonObject` or `DecodeError`;
- an `HttpReply` from the directory.

Whether an API key is configured is a `bool`.

Python values are modelled explicitly in module `Python`:

- dicts are `map<string, Value>`;
- truthiness, `dict.get`, `a or b`, `str()`/`repr()`, `str.strip`, `str.splitlines`, `join`,
  `isdigit`/`int` and `list(set(...))` are each defined once;
- an exception is an `Outcome<T> = Returned(value) | Raised(kind)`.

Each source file is one module:

| module | file | form |
|---|---|---|
| `WebScraping` | `web_scraping.dfy` | a method with a loop for the news collection, and a method for the scrape step that runs the fetch check, the extraction and the summary; the rest is functions |
| `AiMessageGeneration` | `ai_message_generation.dfy` | functions |
| `ApolloIntegration` | `apollo_integration.dfy` | methods that build the payload by conditional updates and append the records in a loop; `SearchCompanies` is proved equal to the `Search` function |
| `Utils` | `utils.dfy` | a `FileSystem` class whose `files` map is written row by row by `SaveToCsv` |
| `Pipeline` | `main.dfy` | methods for prompting, the per-company loop and `Run` (the driver), proved against the functions `LeadRow` and `Leads` |

Two places where the code does not do what its own comments describe. The model follows
the code in both.

- **Fields the driver never receives.** The exporter's docstring (`Module/utils.py:13`)
  describes `id` as the company name or a unique id. The driver reads the company's `id`,
  `linkedin_url`, `twitter_url` and `phone_number` (`main.py:84-89`). The directory search
  emits those values under `company_id`, `linkedin`, `twitter` and `phone`
  (`Module/apollo_integration.py:73-80`). So in the real flow every row's `id` is the company
  name and the three contact columns are empty. `Pipeline.SearchedLeadsLoseContacts` proves
  this.
- **When the composer raises.** The comments at `Module/AI_message_generation.py:61` and
  `:68` present the JSON parse as safe, with a plain-text fallback. The `except` catches only
  `JSONDecodeError`, so two cases still raise:
  - JSON that is not an object;
  - a `subject` or `body` that is not a string.

  Likewise, an organization entry that is not a dict makes `org.get` raise at
  `Module/apollo_integration.py:73`. See `AiMessageGeneration.OutreachRaises` and
  `ApolloIntegration.Normalise`.

## Model

| member | source | states |
|---|---|---|
| Python.FalsyValues | Module/apollo_integration.py:53-56 | a value is falsy exactly when it is `None`, `False`, `0`, or the empty string, list or dict |
| Python.Get | main.py:54-55 | `d.get(key, default)` is the stored value when the key is present and the default otherwise |
| Python.Or | main.py:84 | `a or b` is `a` when `a` is truthy and `b` otherwise, so it is truthy exactly when either operand is |
| Python.Strip | Module/web_scraping.py:115-116 | neither end of the result is in the stripped set; the result is empty exactly when every character of the input is in the set |
| Python.StripIsSlice | Module/web_scraping.py:115-116 | the result is a slice `s[i..j]` of the input, and every character before `i` and from `j` on is in the set: only leading and trailing set characters are removed |
| Python.ReplyText | Module/web_scraping.py:115 | reading a reply's text succeeds exactly when the reply has content, and gives that content whitespace-stripped; a service failure raises `APIError` and missing content raises `AttributeError` |
| Python.SplitLines | Module/web_scraping.py:116 | no line contains a line-break character; a non-empty text has at least one line and the empty text has none |
| Python.JoinSplitLines | Module/web_scraping.py:116 | for a text that breaks lines only with `\n` and has no trailing `\n`, joining its lines with `\n` gives the text back |
| Python.Take | Module/web_scraping.py:49 | `s[:n]` is the prefix of length `min(n, len(s))` |
| Python.DecimalString | main.py:27-28 | the inverse that `int()` (`ParseDecimal`) is checked against: a count's decimal digits form a non-empty ASCII digit string with no leading zero unless the count is 0 |
| Python.ParseDecimalString | main.py:27-28 | `int` of the decimal rendering of `n` is `n` |
| Python.JoinLength | main.py:64 | the length of a join is the parts' total length plus one separator per gap |
| Python.JoinAt | main.py:64 | a join splits at every gap into the join of the parts before it, one separator, and the join of the parts after it |
| Python.Render | Module/web_scraping.py:86-88 | `str()` is empty exactly for the empty string, and `repr()` is never empty |
| Python.PyStr | Module/AI_message_generation.py:24-25 | `str()` of a string is the string itself, and `str()` is empty exactly for the empty string |
| Python.ParseDecimalLeadingZero | main.py:28 | leading zeros do not change the value `int()` reads |
| Python.IsAsciiDigitsRejectsSigns | main.py:27 | `isdigit()` rejects the empty answer and a signed one, so such an answer keeps the default limit |
| Python.StripNoLineBreak | Module/web_scraping.py:116 | stripping adds no line break |
| Python.Distinct | Module/web_scraping.py:63-64 | `list(set(s))` has no duplicates and holds exactly the elements of `s` |
| WebScraping.NewsSections | Module/web_scraping.py:56-58 | every collected text is the text of a `section`/`div` element whose own string mentions "news" or "update" in any case; there are never more texts than elements |
| WebScraping.NewsSectionsComplete | Module/web_scraping.py:56-58 | every matching element's text is collected, so with `NewsSections` the collection holds exactly the matching elements' texts |
| WebScraping.NewsSectionsAppend | Module/web_scraping.py:56-58 | collecting over two consecutive runs of elements gives the two collections in document order |
| WebScraping.ExtractTextAndContacts | Module/web_scraping.py:38-66 | the record meets `ExtractionOf`: `meta_description` is "" without the meta tag and otherwise its `content` (default ""); `main_text` is the meta description, a newline, and the first at most 20 paragraphs joined by newlines; emails and phones have no duplicates and hold exactly the matched strings; `news_updates` is the first at most 3 collected section texts, in document order |
| WebScraping.CleanLines | Module/web_scraping.py:116 | there are no more key points than lines, and no key point begins or ends with `•`, `-` or space |
| WebScraping.CleanLinesAppend | Module/web_scraping.py:116 | cleaning is line by line: the key points of two runs of lines are the two runs' key points, in order |
| WebScraping.CleanLinesNoLineBreak | Module/web_scraping.py:116 | cleaning lines gives key points that are lines too: none holds a line break |
| WebScraping.KeyPointsOfText | Module/web_scraping.py:115-116 | a stripped reply gives no more key points than it has lines, and each key point is a single line with no bullet marker at either end |
| WebScraping.CleanLine | Module/web_scraping.py:116 | a whitespace-only line gives no key point; any other line gives exactly one, its marker-stripped text; a line of markers only, such as "- ", gives the empty key point |
| WebScraping.GenerateKeyPoints | Module/web_scraping.py:74-118 | without a key, the three fixed placeholder points, whatever the reply; with a key, it raises exactly when reading the reply raises, and otherwise gives the cleaned lines of the stripped reply |
| WebScraping.ContactClause | Module/web_scraping.py:86-88 | the contact clause is non-empty exactly when emails or phones were found |
| WebScraping.NewsClause | Module/web_scraping.py:90-92 | the news clause is non-empty exactly when news snippets were found |
| WebScraping.HtmlMissingIsFalsy | Module/web_scraping.py:129 | the fetch counts as failed exactly when the fetched text is falsy: no page, or an empty one |
| WebScraping.ScrapeWebsiteAndSummarize | Module/web_scraping.py:121-140 | missing or empty HTML gives only the "Could not fetch" error record, which depends on the URL alone; otherwise it raises exactly when key-point generation raises, and the result carries the given name and URL unchanged, the generated key points, and an extraction of the page as `ExtractionOf` states: the meta description, the main text, each matched contact once, and the first news texts |
| AiMessageGeneration.StubMessage | Module/AI_message_generation.py:23-26 | the stub subject is "Introduction to our solutions for " followed by the company name, and the stub body begins "Hello Team " followed by the name |
| AiMessageGeneration.FallbackSubject | Module/AI_message_generation.py:70 | the fallback subject is "Introducing our solutions for " followed by the company name, and it never equals the stub subject |
| AiMessageGeneration.StrippedField | Module/AI_message_generation.py:65-66 | `result.get(key, "").strip()` succeeds exactly when the field is absent or a string; it gives "" when absent and the stripped string when present; otherwise it raises `AttributeError` |
| AiMessageGeneration.GenerateOutreach | Module/AI_message_generation.py:16-73 | without a key, the stub message; on a JSON decode error, the synthesised "Introducing our solutions for" subject and the stripped reply as body; for a JSON object that it does not raise on, each present `subject` or `body` is a string and is given stripped, and each absent one gives "" |
| AiMessageGeneration.OutreachRaises | Module/AI_message_generation.py:60-67 | the composer raises exactly when a key is set and one of these holds: reading the reply failed, the JSON is not an object, or a subject or body is not a string; a decode error never raises |
| AiMessageGeneration.OutreachTrimmed | Module/AI_message_generation.py:60-71 | with a key, the body has no surrounding whitespace, and neither does a subject taken from a JSON object |
| AiMessageGeneration.StubIgnoresReply | Module/AI_message_generation.py:21-26 | without a key, the message depends on the company name only, and its subject is "Introduction to our solutions for " and the name |
| ApolloIntegration.OrgRecord | Module/apollo_integration.py:72-81 | a normalised record has exactly the eight emitted keys |
| ApolloIntegration.OrganizationsOf | Module/apollo_integration.py:68 | the organization list is `organizations` when that is truthy, and otherwise `data`, defaulting to `[]` |
| ApolloIntegration.Iteration | Module/apollo_integration.py:71 | a list is iterated over its items; a string yields its characters as one-character strings; an empty dict yields nothing and any other dict raises `AttributeError`; `None`, booleans and numbers are not iterable and raise `TypeError` |
| ApolloIntegration.Normalise | Module/apollo_integration.py:70-81 | it succeeds exactly when every entry is a dict, giving one record per entry in order; otherwise it raises `AttributeError` |
| ApolloIntegration.BuildPayload | Module/apollo_integration.py:47-56 | the payload holds the keyword tags, page 1 and `per_page = limit`, holds the size and location filters exactly when they are truthy, and holds no other key |
| ApolloIntegration.NormaliseOrganizations | Module/apollo_integration.py:70-81 | the appending loop gives `Normalise`'s outcome: one record per organization in order, or `AttributeError` at the first entry that is not a dict |
| ApolloIntegration.Search | Module/apollo_integration.py:37-84 | `RuntimeError` without a key; a failed request re-raised as `RequestException`; a body that is not JSON raises `JSONDecodeError`, and JSON that is not an object raises `AttributeError`; for an object body, an error from iterating its `organizations` is re-raised and otherwise the result is exactly `Normalise`'s records for the iterated organizations; a result comes only from an object body, with one record per iterated organization |
| ApolloIntegration.SearchCompanies | Module/apollo_integration.py:37-84 | the result is `Search`'s outcome: `RuntimeError` without a key, before anything is built or sent; the request's failure re-raised; a decode failure as `JSONDecodeError`; for an object body, the iteration's error or otherwise `Normalise`'s records; a payload as `BuildPayload` describes is sent exactly when the key is set |
| ApolloIntegration.SearchRecords | Module/apollo_integration.py:67-81 | a successful search gives one record per organization, in order, and in each, `company_id`, `company_name`, `employee_count`, `website`, `linkedin`, `twitter` and `phone` are the organization's `id`, `name`, `estimated_num_employees`, `website_url`, `linkedin_url`, `twitter_url` and `sanitized_phone` (`None` when absent), and `industry` is the organization's when truthy and the keyword otherwise |
| Utils.CsvRow | Module/utils.py:44-54 | a data row has nine cells; the first is the row's `id` if truthy, else its `company_name`; every other cell is the row's value under that column, or "" when absent |
| Utils.CellEmpty | Module/utils.py:44-54 | a cell is written empty exactly for `None` and the empty string, and a string is written as it is |
| Utils.CsvRecords | Module/utils.py:42-54 | K rows give K+1 CSV records: the fixed header, then one record per row in order |
| Utils.Saved | Module/utils.py:23-57 | no rows, or a file that cannot be opened, leaves the files unchanged; a clean write replaces the named file with the header and the rows |
| Utils.SavedStopsAt | Module/utils.py:39-57 | a write failing at record `n` leaves exactly the first `n` records of the file, and the failure is swallowed |
| Utils.SavedTouchesOnlyItsFile | Module/utils.py:40 | saving changes no file but the one named |
| Utils.SaveToCsv | Module/utils.py:23-57 | after the record-by-record write, the files are as `Saved` describes for the fault that occurred, and no exception propagates |
| Pipeline.AnswerOrIsOr | main.py:21-23 | an answer is `input().strip() or default`, and a parameter with a non-empty default is never empty |
| Pipeline.PromptUserParameters | main.py:13-35 | a blank answer gives the default keyword, size or location, and any other answer its stripped text; the limit is the decimal value of a stripped all-ASCII-digit answer, including "0", and 10 otherwise |
| Pipeline.Description | main.py:58-70 | the description is "" when there is no website, the page was not fetched, or summarising raised; otherwise it is the generated key points joined by "\n" |
| Pipeline.OutreachFields | main.py:73-80 | a composing failure gives an empty subject and body; otherwise they are the composed message's; without a key the subject is the stub's |
| Pipeline.LeadRowCells | main.py:83-93 | the name, website and three contact cells are read from the company ("" when absent); the description cell is `Description`; the subject and body cells are `OutreachFields`, composed whatever the description is, "" included |
| Pipeline.LeadRow | main.py:83-93 | a row has exactly the nine export keys, and its `id` is the company's `id` if truthy, else its name |
| Pipeline.SummarizeCompany | main.py:58-70 | the scrape step gives the company's `Description`: the key points joined by newlines, or "" for no website, an error record or an exception |
| Pipeline.ProcessCompany | main.py:53-93 | the loop body produces the company's `LeadRow` |
| Pipeline.NoWebsiteNoScrape | main.py:59-80 | without a website, nothing the fetch or the summary would have produced affects the row; the description is "", and the subject and body are still the composed outreach's |
| Pipeline.FailuresStayLocal | main.py:58-93 | a failed summary empties the description while subject and body stay the composed outreach's; a failed outreach empties subject and body while the description stays `Description`; name and website are always kept |
| Pipeline.Companies | main.py:42-46 | the companies are the search's result, and none when the search raised, in particular without a key or when the request failed |
| Pipeline.SearchedRecordKeys | main.py:43 | every company the driver receives has exactly the eight keys the search emits |
| Pipeline.SearchedContactFieldsAreLost | main.py:84-89 | for a record as the search emits it, the row's `id` is the company name and the LinkedIn, Twitter and phone columns are "" |
| Pipeline.SearchedLeadsLoseContacts | main.py:84-89 | for every searched company, the row's `id` is its name and its three contact columns are "" |
| Pipeline.MapIndexed | main.py:53 | enumerating gives one result per element |
| Pipeline.MapIndexedAt | main.py:53 | the result at position `i` is the function applied to element `i` and position `i` |
| Pipeline.LeadsAt | main.py:53-93 | there is one row per company, and row `i` is the `LeadRow` of company `i` with world `i`, so rows keep the input order and no company's failure touches another's row |
| Pipeline.ProcessCompanies | main.py:51-93 | the appending loop gives `Leads`, the rows of all companies in order |
| Pipeline.Run | main.py:38-96 | the companies are the search's result, or none if it raised; with none, no file changes; otherwise the rows `Leads` of all companies are exported exactly once, as `Saved` describes |

## Left out

- HTTP fetches and the directory POST are inputs to the model: success or failure, body, timeouts, `raise_for_status` and the 1.5-second delay are not modelled.
- The language-model calls are inputs to the model: a reply, a reply without content, or a service failure. The prompt wording, the model name and the temperature are not modelled.
- WebScraping.ContactClause, WebScraping.NewsClause: these model only the two conditional clauses, not the whole prompt. The prompt is never observable, so `GenerateKeyPoints` does not depend on them.
- AiMessageGeneration.GenerateOutreach: has no description parameter, because the description only shapes the prompt.
- HTML parsing is not modelled: the meta tag, the paragraph texts and the elements are given as a `Page`. The `.string` of an element is an input.
- Regular-expression matching is not modelled: the match lists are inputs. The patterns at `Module/web_scraping.py:52-53` are double-escaped, so they match literal backslashes; the model takes whatever the matcher found.
- JSON decoding is not modelled: its outcome is an input.
- CSV quoting, escaping, line endings and encoding: a file is modelled as its rows of cells.
- Buffered writes are not modelled: a write failure is modelled as stopping after a given number of CSV records (`IoFault.WriteFailsAt`).
- Utils.CsvRecords: counts CSV records, not physical lines. A cell holding a newline, such as a description of several key points, is quoted by the writer across several physical lines.
- Logging, `.env` loading, environment reads (key presence is a `bool`), `print` and `input` (the answers are string parameters) are not modelled.
- Python.Distinct: states no order, because the order of `list(set(...))` is unspecified in Python.
- Python.Render: does not model `repr` escaping of quotes and control characters. A non-empty dict renders as `{...}`, because its key order is not modelled.
- Floats are not modelled: Python values are `None`, booleans, integers, strings, lists and dicts.
- WebScraping.LowerAscii: case folding for `re.I` uses ASCII letters only.
- Python.IsAsciiDigits: `str.isdigit` also accepts other Unicode digits, on which `int()` may then raise. Only ASCII digits are modelled.
- `resp.choices[0]` always exists in the model: a reply either has content, has none (`AttributeError`), or the service failed.
- ApolloIntegration.Iteration: a non-empty dict is folded into `AttributeError`, without iterating its keys.
- The default arguments of `search_companies` at `Module/apollo_integration.py:21-24` are not modelled, because the driver always passes all four.
- WebScraping.ExtractTextAndContacts: only the contents of `emails` and `phones` are stated, not their order.
