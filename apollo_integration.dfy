/** The company directory client: one search request to the organization-search service,
    and the normalisation of its answer into flat company records. The HTTP exchange is
    an input: whether the POST failed, and otherwise what `resp.json()` makes of the body. */
module ApolloIntegration {
  import opened Python

  /** What the one POST to the search endpoint yields. */
  datatype HttpReply = RequestFailed | Responded(body: Json)

  /** The keys of a normalised company record, as `search_companies` emits them. */
  const RecordKeys: set<string> := {
    "company_id", "company_name", "industry", "employee_count",
    "website", "linkedin", "twitter", "phone"
  }

  /** The keys a request payload may carry. */
  const PayloadKeys: set<string> := {
    "q_organization_keyword_tags", "page", "per_page",
    "organization_num_employees_ranges", "organization_locations"
  }

  /** One organization of the answer mapped to a company record. */
  function OrgRecord(org: Record, keyword: Value): (r: Record)
    ensures r.Keys == RecordKeys
  {
    map[
      "company_id" := Get(org, "id", Null),
      "company_name" := Get(org, "name", Null),
      "industry" := Or(Get(org, "industry", Null), keyword),
      "employee_count" := Get(org, "estimated_num_employees", Null),
      "website" := Get(org, "website_url", Null),
      "linkedin" := Get(org, "linkedin_url", Null),
      "twitter" := Get(org, "twitter_url", Null),
      "phone" := Get(org, "sanitized_phone", Null)
    ]
  }

  /** `data.get("organizations", []) or data.get("data", [])`. */
  function OrganizationsOf(data: Record): (v: Value)
    ensures Truthy(Get(data, "organizations", List([]))) ==> v == data["organizations"]
    ensures !Truthy(Get(data, "organizations", List([]))) ==> v == Get(data, "data", List([]))
  {
    Or(Get(data, "organizations", List([])), Get(data, "data", List([])))
  }

  /** What `for org in v` iterates over. Iterating a non-empty dict yields its keys, which
      are strings, so the first `org.get` raises; that case is folded into the outcome. */
  function Iteration(v: Value): (r: Outcome<seq<Value>>)
    ensures v.List? ==> r == Returned(v.items)
    ensures v.Null? || v.Bool? || v.Int? ==> r == Raised(TypeError)
    ensures v.Str? ==>
      && r.Returned? && |r.value| == |v.s|
      && forall k :: 0 <= k < |v.s| ==> r.value[k] == Str([v.s[k]])
    ensures v.Dict? ==> r == (if v.fields == map[] then Returned([]) else Raised(AttributeError))
  {
    match v
    case List(items) => Returned(items)
    case Str(s) => Returned(seq(|s|, k requires 0 <= k < |s| => Str([s[k]])))
    case Dict(fields) => if fields == map[] then Returned([]) else Raised(AttributeError)
    case _ => Raised(TypeError)
  }

  /** The results the loop at apollo_integration.py:70-81 would produce for `items`: one
      record per organization, or `AttributeError` if one of them is not a dict. */
  function Normalise(items: seq<Value>, keyword: Value): (r: Outcome<seq<Record>>)
    ensures r.Returned? <==> forall k :: 0 <= k < |items| ==> items[k].Dict?
    ensures r.Returned? ==>
      && |r.value| == |items|
      && forall k :: 0 <= k < |items| ==> r.value[k] == OrgRecord(items[k].fields, keyword)
    ensures r.Raised? ==> r.error == AttributeError
  {
    if items == [] then Returned([])
    else if !items[0].Dict? then Raised(AttributeError)
    else
      match Normalise(items[1..], keyword)
      case Raised(err) => Raised(err)
      case Returned(rest) => Returned([OrgRecord(items[0].fields, keyword)] + rest)
  }

  /** What `search_companies` returns or raises, given whether the API key is set and what
      the service answered. */
  function Search(apiKey: bool, keyword: Value, reply: HttpReply): (r: Outcome<seq<Record>>)
    ensures !apiKey ==> r == Raised(RuntimeError)
    ensures apiKey && reply.RequestFailed? ==> r == Raised(RequestException)
    ensures apiKey && reply == Responded(DecodeError) ==> r == Raised(JSONDecodeError)
    ensures apiKey && reply == Responded(NonObject) ==> r == Raised(AttributeError)
    ensures r.Returned? ==>
      && apiKey && reply.Responded? && reply.body.Object?
      && Iteration(OrganizationsOf(reply.body.fields)).Returned?
      && |r.value| == |Iteration(OrganizationsOf(reply.body.fields)).value|
    ensures apiKey && reply.Responded? && reply.body.Object? ==>
      var it := Iteration(OrganizationsOf(reply.body.fields));
      && (it.Raised? ==> r == Raised(it.error))
      && (it.Returned? ==> r == Normalise(it.value, keyword))
  {
    if !apiKey then Raised(RuntimeError)
    else
      match reply
      case RequestFailed => Raised(RequestException)
      case Responded(DecodeError) => Raised(JSONDecodeError)
      case Responded(NonObject) => Raised(AttributeError)
      case Responded(Object(data)) =>
        match Iteration(OrganizationsOf(data))
        case Raised(err) => Raised(err)
        case Returned(items) => Normalise(items, keyword)
  }

  /** What the payload of a search for these arguments holds: the keyword tags, page 1 and
      the limit always, and the size and location filters exactly when they are truthy. */
  predicate PayloadFor(payload: Record, keyword: Value, size: Value, location: Value, limit: int) {
    && payload.Keys <= PayloadKeys
    && "q_organization_keyword_tags" in payload && payload["q_organization_keyword_tags"] == keyword
    && "page" in payload && payload["page"] == Int(1)
    && "per_page" in payload && payload["per_page"] == Int(limit)
    && ("organization_num_employees_ranges" in payload <==> Truthy(size))
    && ("organization_locations" in payload <==> Truthy(location))
    && (Truthy(size) ==> payload["organization_num_employees_ranges"] == size)
    && (Truthy(location) ==> payload["organization_locations"] == location)
  }

  /** The payload built at apollo_integration.py:47-56. */
  method BuildPayload(keyword: Value, size: Value, location: Value, limit: int) returns (payload: Record)
    ensures PayloadFor(payload, keyword, size, location, limit)
  {
    payload := map[
      "q_organization_keyword_tags" := keyword,
      "page" := Int(1),
      "per_page" := Int(limit)
    ];
    if Truthy(size) {
      payload := payload["organization_num_employees_ranges" := size];
    }
    if Truthy(location) {
      payload := payload["organization_locations" := location];
    }
  }

  /** The loop at apollo_integration.py:70-81, appending one record per organization. */
  method NormaliseOrganizations(items: seq<Value>, keyword: Value) returns (r: Outcome<seq<Record>>)
    ensures r == Normalise(items, keyword)
  {
    var results: seq<Record> := [];
    var i := 0;
    while i < |items|
      invariant 0 <= i <= |items|
      invariant |results| == i
      invariant forall k :: 0 <= k < i ==> items[k].Dict? && results[k] == OrgRecord(items[k].fields, keyword)
    {
      if !items[i].Dict? {
        return Raised(AttributeError);
      }
      results := results + [OrgRecord(items[i].fields, keyword)];
      i := i + 1;
    }
    assert Normalise(items, keyword).value == results;
    r := Returned(results);
  }

  /** The one request the client can send: a missing key means no payload is built and
      nothing is sent; otherwise the payload of `PayloadFor` is sent. */
  method SearchCompanies(apiKey: bool, keyword: Value, size: Value, location: Value, limit: int,
                         reply: HttpReply)
    returns (r: Outcome<seq<Record>>, sent: Option<Record>)
    ensures r == Search(apiKey, keyword, reply)
    ensures sent.Some? <==> apiKey
    ensures sent.Some? ==> PayloadFor(sent.value, keyword, size, location, limit)
  {
    if !apiKey {
      return Raised(RuntimeError), None;
    }
    var payload := BuildPayload(keyword, size, location, limit);
    sent := Some(payload);

    if reply.RequestFailed? {
      return Raised(RequestException), sent;
    }
    match reply.body
    case DecodeError => return Raised(JSONDecodeError), sent;
    case NonObject => return Raised(AttributeError), sent;
    case Object(data) =>
      var organizations := Iteration(OrganizationsOf(data));
      if organizations.Raised? {
        return Raised(organizations.error), sent;
      }
      r := NormaliseOrganizations(organizations.value, keyword);
  }

  /** One record per organization, in order, each copying its source fields (`None` when
      absent), with the industry falling back to the keyword. */
  lemma {:induction false} SearchRecords(keyword: Value, data: Record, k: nat)
    requires Search(true, keyword, Responded(Object(data))).Returned?
    requires OrganizationsOf(data).List?
    ensures var results := Search(true, keyword, Responded(Object(data))).value;
      var orgs := OrganizationsOf(data).items;
      && |results| == |orgs|
      && (k < |orgs| ==>
          && orgs[k].Dict?
          && results[k]["company_id"] == Get(orgs[k].fields, "id", Null)
          && results[k]["company_name"] == Get(orgs[k].fields, "name", Null)
          && results[k]["website"] == Get(orgs[k].fields, "website_url", Null)
          && results[k]["employee_count"] == Get(orgs[k].fields, "estimated_num_employees", Null)
          && results[k]["linkedin"] == Get(orgs[k].fields, "linkedin_url", Null)
          && results[k]["twitter"] == Get(orgs[k].fields, "twitter_url", Null)
          && results[k]["phone"] == Get(orgs[k].fields, "sanitized_phone", Null)
          && results[k]["industry"] == (if Truthy(Get(orgs[k].fields, "industry", Null))
                                        then orgs[k].fields["industry"] else keyword))
  {
    var orgs := OrganizationsOf(data).items;
    assert Iteration(OrganizationsOf(data)) == Returned(orgs);
  }
}
