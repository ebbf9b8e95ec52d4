/** The pipeline driver: reads the four search parameters, runs the directory search once,
    builds one lead row per company (scrape and summarize, then compose the outreach), and
    exports all rows once. Console input, the external services and the file system are
    inputs: the four answers, the search reply, one `CompanyWorld` per company position,
    and the file system the export writes to. */
module Pipeline {
  import opened Python
  import WebScraping
  import AiMessageGeneration
  import ApolloIntegration
  import Utils

  /** The parameters `prompt_user_parameters` returns. */
  datatype SearchParams = SearchParams(keyword: Value, size: Value, location: Value, limit: int)

  /** What the outside world does for one company: the page fetch and what was parsed from
      it, the summary reply, and the outreach reply with its JSON parse. */
  datatype CompanyWorld = CompanyWorld(
    html: Option<string>,
    page: WebScraping.Page,
    summaryReply: Completion,
    outreachReply: Completion,
    outreachJson: Json)

  const DefaultKeyword: Value := List([Str("software")])
  const DefaultSize: Value := List([Str("50,200")])
  const DefaultLocation: Value := List([Str("Bangalore")])
  const DefaultLimit: nat := 10
  const OutputFile: string := "final_leads.csv"

  /** The keys of a lead row, which are the export's columns. */
  const LeadKeys: set<string> := {
    "id", "company_name", "website", "linkedin_url", "twitter_url",
    "phone_number", "description", "outreach_subject", "outreach_body"
  }

  // ---------------------------------------------------------------- parameters

  /** `input(...).strip() or default`. */
  function AnswerOr(answer: string, default: Value): Value {
    var stripped := Strip(answer, Whitespace);
    if stripped != "" then Str(stripped) else default
  }

  /** An answer is Python's `input(...).strip() or default`, and a parameter whose default
      is not empty is never empty. */
  lemma AnswerOrIsOr(answer: string, default: Value)
    ensures AnswerOr(answer, default) == Or(Str(Strip(answer, Whitespace)), default)
    ensures Truthy(default) ==> Truthy(AnswerOr(answer, default))
  {
  }

  /** `prompt_user_parameters`, with the four answers typed at the console given. */
  method PromptUserParameters(keywordAnswer: string, sizeAnswer: string, locationAnswer: string,
                              limitAnswer: string)
    returns (params: SearchParams)
    ensures params.keyword == AnswerOr(keywordAnswer, DefaultKeyword)
    ensures params.size == AnswerOr(sizeAnswer, DefaultSize)
    ensures params.location == AnswerOr(locationAnswer, DefaultLocation)
    ensures params.limit >= 0
    ensures !IsAsciiDigits(Strip(limitAnswer, Whitespace)) ==> params.limit == DefaultLimit
    ensures IsAsciiDigits(Strip(limitAnswer, Whitespace)) ==> params.limit == ParseDecimal(Strip(limitAnswer, Whitespace))
  {
    var keyword := AnswerOr(keywordAnswer, DefaultKeyword);
    var size := AnswerOr(sizeAnswer, DefaultSize);
    var location := AnswerOr(locationAnswer, DefaultLocation);
    var limitInput := Strip(limitAnswer, Whitespace);

    var limit: int := DefaultLimit;
    if IsAsciiDigits(limitInput) {
      limit := ParseDecimal(limitInput);
    }
    params := SearchParams(keyword, size, location, limit);
  }

  // ---------------------------------------------------------------- one company

  function CompanyName(company: Record): Value {
    Get(company, "company_name", Str(""))
  }

  function Website(company: Record): Value {
    Get(company, "website", Str(""))
  }

  /** The description kept for a company: the key points joined by newlines, or empty when
      there is no website, the page could not be fetched, or summarizing raised. */
  function Description(company: Record, world: CompanyWorld, openAiKey: bool): (d: string)
    ensures !Truthy(Website(company)) || WebScraping.HtmlMissing(world.html) ==> d == ""
    ensures WebScraping.GenerateKeyPoints(openAiKey, world.summaryReply).Raised? ==> d == ""
    ensures Truthy(Website(company)) && !WebScraping.HtmlMissing(world.html) &&
            WebScraping.GenerateKeyPoints(openAiKey, world.summaryReply).Returned? ==>
      d == Join("\n", WebScraping.GenerateKeyPoints(openAiKey, world.summaryReply).value)
  {
    if !Truthy(Website(company)) || WebScraping.HtmlMissing(world.html) then ""
    else
      match WebScraping.GenerateKeyPoints(openAiKey, world.summaryReply)
      case Raised(_) => ""
      case Returned(points) => Join("\n", points)
  }

  /** The outreach subject and body kept for a company: empty when composing raised. */
  function OutreachFields(company: Record, world: CompanyWorld, openAiKey: bool): (fields: (string, string))
    ensures var outreach := AiMessageGeneration.GenerateOutreach(CompanyName(company), openAiKey,
                                                                 world.outreachReply, world.outreachJson);
      outreach.Raised? ==> fields == ("", "")
    ensures var outreach := AiMessageGeneration.GenerateOutreach(CompanyName(company), openAiKey,
                                                                 world.outreachReply, world.outreachJson);
      outreach.Returned? ==> fields.0 == outreach.value.subject && fields.1 == outreach.value.body
    ensures !openAiKey ==> fields.0 == AiMessageGeneration.StubMessage(CompanyName(company)).subject
  {
    match AiMessageGeneration.GenerateOutreach(CompanyName(company), openAiKey, world.outreachReply, world.outreachJson)
    case Raised(_) => ("", "")
    case Returned(message) => (message.subject, message.body)
  }

  /** A lead row from its nine column values. */
  function LeadFields(id: Value, companyName: Value, website: Value, linkedin: Value, twitter: Value,
                      phone: Value, description: string, subject: string, body: string): (row: Record)
    ensures row.Keys == LeadKeys
    ensures row["id"] == id && row["company_name"] == companyName && row["website"] == website
    ensures row["linkedin_url"] == linkedin && row["twitter_url"] == twitter && row["phone_number"] == phone
    ensures row["description"] == Str(description)
    ensures row["outreach_subject"] == Str(subject) && row["outreach_body"] == Str(body)
  {
    map[
      "id" := id,
      "company_name" := companyName,
      "website" := website,
      "linkedin_url" := linkedin,
      "twitter_url" := twitter,
      "phone_number" := phone,
      "description" := Str(description),
      "outreach_subject" := Str(subject),
      "outreach_body" := Str(body)
    ]
  }

  /** The row merged for a company at main.py:83-93. */
  function LeadRow(company: Record, world: CompanyWorld, openAiKey: bool): (row: Record)
    ensures row.Keys == LeadKeys
    ensures row["id"] == (if Truthy(Get(company, "id", Null)) then company["id"] else CompanyName(company))
  {
    var outreach := OutreachFields(company, world, openAiKey);
    LeadFields(Or(Get(company, "id", Null), CompanyName(company)), CompanyName(company), Website(company),
               Get(company, "linkedin_url", Str("")), Get(company, "twitter_url", Str("")),
               Get(company, "phone_number", Str("")), Description(company, world, openAiKey),
               outreach.0, outreach.1)
  }

  /** Every cell of a company's row: the name, website and three contact cells read from the
      company, the description, and the outreach, which is composed whatever the description
      is, the empty one included. */
  lemma LeadRowCells(company: Record, world: CompanyWorld, openAiKey: bool)
    ensures var row := LeadRow(company, world, openAiKey);
      && row["company_name"] == CompanyName(company)
      && row["website"] == Website(company)
      && row["linkedin_url"] == Get(company, "linkedin_url", Str(""))
      && row["twitter_url"] == Get(company, "twitter_url", Str(""))
      && row["phone_number"] == Get(company, "phone_number", Str(""))
      && row["description"] == Str(Description(company, world, openAiKey))
      && row["outreach_subject"] == Str(OutreachFields(company, world, openAiKey).0)
      && row["outreach_body"] == Str(OutreachFields(company, world, openAiKey).1)
  {
  }

  /** The scrape-and-summarize step at main.py:58-70: a company without a website is not
      scraped, and an error record or an exception leaves the description empty. */
  method SummarizeCompany(company: Record, world: CompanyWorld, openAiKey: bool) returns (description: string)
    ensures description == Description(company, world, openAiKey)
  {
    var companyName := Get(company, "company_name", Str(""));
    var website := Get(company, "website", Str(""));
    description := "";
    if Truthy(website) {
      var scraped := WebScraping.ScrapeWebsiteAndSummarize(website, companyName, world.html, world.page,
                                                           openAiKey, world.summaryReply);
      if scraped.Returned? && scraped.value.Scraped? {
        description := Join("\n", scraped.value.keyPoints);
      } else {
        description := "";
      }
    }
  }

  /** The body of the loop at main.py:53-93 for one company. A scraping failure empties
      only the description and a composing failure only the two outreach fields. */
  method ProcessCompany(company: Record, world: CompanyWorld, openAiKey: bool) returns (row: Record)
    ensures row == LeadRow(company, world, openAiKey)
  {
    var companyName := Get(company, "company_name", Str(""));
    var website := Get(company, "website", Str(""));
    var description := SummarizeCompany(company, world, openAiKey);

    var outreachSubject := "";
    var outreachBody := "";
    var outreach := AiMessageGeneration.GenerateOutreach(companyName, openAiKey, world.outreachReply,
                                                         world.outreachJson);
    if outreach.Returned? {
      outreachSubject := outreach.value.subject;
      outreachBody := outreach.value.body;
    }

    row := LeadFields(Or(Get(company, "id", Null), companyName), companyName, website,
                      Get(company, "linkedin_url", Str("")), Get(company, "twitter_url", Str("")),
                      Get(company, "phone_number", Str("")), description, outreachSubject, outreachBody);
  }

  /** A company without a website is never scraped: its row has an empty description and
      does not depend on anything the fetch or the summary would have produced, while the
      outreach is still composed. */
  lemma NoWebsiteNoScrape(company: Record, world1: CompanyWorld, world2: CompanyWorld, openAiKey: bool)
    requires !Truthy(Website(company))
    requires world1.outreachReply == world2.outreachReply && world1.outreachJson == world2.outreachJson
    ensures LeadRow(company, world1, openAiKey) == LeadRow(company, world2, openAiKey)
    ensures LeadRow(company, world1, openAiKey)["description"] == Str("")
    ensures LeadRow(company, world1, openAiKey)["outreach_subject"] == Str(OutreachFields(company, world1, openAiKey).0)
    ensures LeadRow(company, world1, openAiKey)["outreach_body"] == Str(OutreachFields(company, world1, openAiKey).1)
    ensures !openAiKey ==> LeadRow(company, world1, openAiKey)["outreach_subject"]
                           == Str("Introduction to our solutions for " + PyStr(CompanyName(company)))
  {
    LeadRowCells(company, world1, openAiKey);
  }

  /** Failures stay local to their fields: a failed summary empties only the description,
      leaving the outreach as composed, and a failed outreach empties only the subject and
      the body, leaving the description; the other cells never depend on either. */
  lemma FailuresStayLocal(company: Record, world: CompanyWorld, openAiKey: bool)
    ensures var row := LeadRow(company, world, openAiKey);
      var outreach := AiMessageGeneration.GenerateOutreach(CompanyName(company), openAiKey, world.outreachReply,
                                                           world.outreachJson);
      && row["company_name"] == CompanyName(company)
      && row["website"] == Website(company)
      && (WebScraping.GenerateKeyPoints(openAiKey, world.summaryReply).Raised? ==>
            && row["description"] == Str("")
            && (outreach.Returned? ==>
                  row["outreach_subject"] == Str(outreach.value.subject) && row["outreach_body"] == Str(outreach.value.body)))
      && (outreach.Raised? ==>
            && row["outreach_subject"] == Str("") && row["outreach_body"] == Str("")
            && row["description"] == Str(Description(company, world, openAiKey)))
  {
    LeadRowCells(company, world, openAiKey);
  }

  // ---------------------------------------------------------------- the run

  /** The companies the driver works on: what the search returned, or none if it raised. */
  function Companies(apolloKey: bool, keyword: Value, reply: ApolloIntegration.HttpReply): (companies: seq<Record>)
    ensures !apolloKey || reply.RequestFailed? ==> companies == []
    ensures ApolloIntegration.Search(apolloKey, keyword, reply).Raised? ==> companies == []
    ensures ApolloIntegration.Search(apolloKey, keyword, reply).Returned? ==>
      companies == ApolloIntegration.Search(apolloKey, keyword, reply).value
  {
    match ApolloIntegration.Search(apolloKey, keyword, reply)
    case Returned(companies) => companies
    case Raised(_) => []
  }

  /** Every company the driver works on is a record as the search emits it. */
  lemma SearchedRecordKeys(apolloKey: bool, keyword: Value, reply: ApolloIntegration.HttpReply, k: nat)
    requires k < |Companies(apolloKey, keyword, reply)|
    ensures Companies(apolloKey, keyword, reply)[k].Keys == ApolloIntegration.RecordKeys
  {
    var items := ApolloIntegration.Iteration(ApolloIntegration.OrganizationsOf(reply.body.fields)).value;
    assert Companies(apolloKey, keyword, reply)[k] == ApolloIntegration.OrgRecord(items[k].fields, keyword);
  }

  /** The search emits `company_id`, `linkedin`, `twitter` and `phone`, but the driver reads
      `id`, `linkedin_url`, `twitter_url` and `phone_number`: for a searched company the row's
      id is the company name and the three contact columns are empty. */
  lemma SearchedContactFieldsAreLost(company: Record, world: CompanyWorld, openAiKey: bool)
    requires company.Keys == ApolloIntegration.RecordKeys
    ensures var row := LeadRow(company, world, openAiKey);
      && row["id"] == company["company_name"]
      && row["linkedin_url"] == Str("")
      && row["twitter_url"] == Str("")
      && row["phone_number"] == Str("")
  {
    assert "id" !in company && "linkedin_url" !in company;
    assert "twitter_url" !in company && "phone_number" !in company;
  }

  /** In the real flow the contact fields the search found never reach the export: the row
      of every searched company has its name as id and three empty contact columns. */
  lemma SearchedLeadsLoseContacts(apolloKey: bool, keyword: Value, reply: ApolloIntegration.HttpReply,
                                  worlds: nat -> CompanyWorld, openAiKey: bool, k: nat)
    requires k < |Companies(apolloKey, keyword, reply)|
    ensures var company := Companies(apolloKey, keyword, reply)[k];
      var row := LeadRow(company, worlds(k), openAiKey);
      && row["id"] == company["company_name"]
      && row["linkedin_url"] == Str("") && row["twitter_url"] == Str("") && row["phone_number"] == Str("")
  {
    SearchedRecordKeys(apolloKey, keyword, reply, k);
    SearchedContactFieldsAreLost(Companies(apolloKey, keyword, reply)[k], worlds(k), openAiKey);
  }

  /** `[f(x, i) for i, x in enumerate(s)]`, built by appending. */
  function MapIndexed(s: seq<Record>, f: (Record, nat) -> Record): (r: seq<Record>)
    ensures |r| == |s|
  {
    if s == [] then [] else MapIndexed(s[..|s| - 1], f) + [f(s[|s| - 1], |s| - 1)]
  }

  /** Element `i` of the map is `f` applied to element `i` and its position. */
  lemma {:induction false} MapIndexedAt(s: seq<Record>, f: (Record, nat) -> Record, i: nat)
    requires i < |s|
    ensures MapIndexed(s, f)[i] == f(s[i], i)
  {
    var init := s[..|s| - 1];
    if i < |init| {
      MapIndexedAt(init, f, i);
      assert init[i] == s[i];
    }
  }

  /** The row of the company at position `i`, which meets world `i`. */
  function RowAt(worlds: nat -> CompanyWorld, openAiKey: bool): (Record, nat) -> Record {
    (company: Record, i: nat) => LeadRow(company, worlds(i), openAiKey)
  }

  /** The rows of `companies` in order. */
  function Leads(companies: seq<Record>, worlds: nat -> CompanyWorld, openAiKey: bool): seq<Record> {
    MapIndexed(companies, RowAt(worlds, openAiKey))
  }

  /** One row per company, in input order: row `i` is built from company `i` and world `i` alone. */
  lemma LeadsAt(companies: seq<Record>, worlds: nat -> CompanyWorld, openAiKey: bool, i: nat)
    requires i < |companies|
    ensures |Leads(companies, worlds, openAiKey)| == |companies|
    ensures Leads(companies, worlds, openAiKey)[i] == LeadRow(companies[i], worlds(i), openAiKey)
  {
    MapIndexedAt(companies, RowAt(worlds, openAiKey), i);
  }

  /** The loop at main.py:53-93, which appends one row per company. */
  method ProcessCompanies(companies: seq<Record>, worlds: nat -> CompanyWorld, openAiKey: bool)
    returns (rows: seq<Record>)
    ensures rows == Leads(companies, worlds, openAiKey)
  {
    rows := [];
    for idx := 0 to |companies|
      invariant rows == Leads(companies[..idx], worlds, openAiKey)
    {
      var row := ProcessCompany(companies[idx], worlds(idx), openAiKey);
      assert companies[..idx + 1][..idx] == companies[..idx];
      rows := rows + [row];
    }
    assert companies[..|companies|] == companies;
  }

  /** `main()`: the search runs once with the prompted parameters; nothing is exported when
      it raised or found nothing, and otherwise the rows of all companies are exported once. */
  method Run(keywordAnswer: string, sizeAnswer: string, locationAnswer: string, limitAnswer: string,
             apolloKey: bool, apolloReply: ApolloIntegration.HttpReply, openAiKey: bool,
             worlds: nat -> CompanyWorld, fs: Utils.FileSystem, fault: Utils.IoFault)
    returns (ghost companies: seq<Record>, ghost leads: seq<Record>)
    modifies fs
    ensures companies == Companies(apolloKey, AnswerOr(keywordAnswer, DefaultKeyword), apolloReply)
    ensures leads == Leads(companies, worlds, openAiKey)
    ensures companies == [] ==> fs.files == old(fs.files)
    ensures companies != [] ==> fs.files == Utils.Saved(old(fs.files), OutputFile, leads, fault)
  {
    var params := PromptUserParameters(keywordAnswer, sizeAnswer, locationAnswer, limitAnswer);
    var outcome, sent := ApolloIntegration.SearchCompanies(apolloKey, params.keyword, params.size,
                                                          params.location, params.limit, apolloReply);
    var found: seq<Record> := if outcome.Returned? then outcome.value else [];
    companies := found;
    if found == [] {
      leads := [];
      return;
    }
    var finalData := ProcessCompanies(found, worlds, openAiKey);
    Utils.SaveToCsv(fs, OutputFile, finalData, fault);
    leads := finalData;
  }
}
