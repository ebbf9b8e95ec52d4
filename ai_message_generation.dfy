/** The outreach composer: a stub message when no language-model key is configured, and
    otherwise the model's reply read as a JSON object with a subject and a body, falling
    back to the raw reply when it is not JSON. The model's reply and what `json.loads`
    makes of it are inputs. */
module AiMessageGeneration {
  import opened Python

  /** The two-key record `generate_outreach` returns. */
  datatype Message = Message(subject: string, body: string)

  /** The message returned when no language-model key is configured. */
  function StubMessage(companyName: Value): (m: Message)
    ensures |m.subject| == |StubSubject| + |PyStr(companyName)|
    ensures m.subject[..|StubSubject|] == StubSubject && m.subject[|StubSubject|..] == PyStr(companyName)
    ensures |m.body| > |Greeting| + |PyStr(companyName)|
    ensures m.body[..|Greeting|] == Greeting
    ensures m.body[|Greeting|..|Greeting| + |PyStr(companyName)|] == PyStr(companyName)
  {
    Message(StubSubject + PyStr(companyName),
            Greeting + PyStr(companyName) + ",\n\nWe wanted to introduce our solutions...")
  }

  /** The fixed beginning of the stub body. */
  const Greeting: string := "Hello Team "

  /** The fixed beginning of the stub subject. */
  const StubSubject: string := "Introduction to our solutions for "

  /** The fixed beginning of the subject made up when the reply is not JSON. */
  const FallbackPrefix: string := "Introducing our solutions for "

  /** The subject made up locally when the reply is not JSON. It names the company, and it
      never equals the stub subject, so the two paths can be told apart in the export. */
  function FallbackSubject(companyName: Value): (subject: string)
    ensures |subject| == |FallbackPrefix| + |PyStr(companyName)|
    ensures subject[..|FallbackPrefix|] == FallbackPrefix && subject[|FallbackPrefix|..] == PyStr(companyName)
    ensures subject != StubMessage(companyName).subject
  {
    var subject := FallbackPrefix + PyStr(companyName);
    assert subject[8] != StubMessage(companyName).subject[8];
    subject
  }

  /** `result.get(key, "")` is a string, so `.strip()` on it does not raise. */
  predicate StringOrAbsent(fields: map<string, Value>, key: string) {
    Get(fields, key, Str("")).Str?
  }

  /** `result.get(key, "").strip()`. */
  function StrippedField(fields: map<string, Value>, key: string): (r: Outcome<string>)
    ensures r.Returned? <==> StringOrAbsent(fields, key)
    ensures r.Returned? && key !in fields ==> r.value == ""
    ensures r.Returned? && key in fields ==> r.value == Strip(fields[key].s, Whitespace)
    ensures r.Raised? ==> r.error == AttributeError
  {
    match Get(fields, key, Str(""))
    case Str(s) => Returned(Strip(s, Whitespace))
    case _ => Raised(AttributeError)
  }

  /** No whitespace at either end. */
  predicate Trimmed(s: string) {
    s != [] ==> s[0] !in Whitespace && s[|s| - 1] !in Whitespace
  }

  /** `generate_outreach(company_name, description)`, with the model's reply and the JSON
      parse of its stripped text given. The description only shapes the prompt, which is
      not modelled. */
  function GenerateOutreach(companyName: Value, openAiKey: bool, reply: Completion, parsed: Json)
    : (r: Outcome<Message>)
    ensures !openAiKey ==> r == Returned(StubMessage(companyName))
    ensures openAiKey && ReplyText(reply).Returned? && parsed.DecodeError? ==>
      r == Returned(Message(FallbackSubject(companyName), ReplyText(reply).value))
    ensures openAiKey && ReplyText(reply).Returned? && parsed.Object? && r.Returned? ==>
      && ("subject" !in parsed.fields ==> r.value.subject == "")
      && ("body" !in parsed.fields ==> r.value.body == "")
      && ("subject" in parsed.fields ==>
            parsed.fields["subject"].Str? && r.value.subject == Strip(parsed.fields["subject"].s, Whitespace))
      && ("body" in parsed.fields ==>
            parsed.fields["body"].Str? && r.value.body == Strip(parsed.fields["body"].s, Whitespace))
  {
    if !openAiKey then Returned(StubMessage(companyName))
    else
      match ReplyText(reply)
      case Raised(err) => Raised(err)
      case Returned(content) =>
        match parsed
        case DecodeError => Returned(Message(FallbackSubject(companyName), content))
        case NonObject => Raised(AttributeError)
        case Object(fields) =>
          match StrippedField(fields, "subject")
          case Raised(err) => Raised(err)
          case Returned(subject) =>
            match StrippedField(fields, "body")
            case Raised(err) => Raised(err)
            case Returned(body) => Returned(Message(subject, body))
  }

  /** Only a failed reply, JSON that is not an object, or a subject or body that is not a
      string make the composer raise; a reply that is not JSON at all is recovered. */
  lemma OutreachRaises(companyName: Value, openAiKey: bool, reply: Completion, parsed: Json)
    ensures GenerateOutreach(companyName, openAiKey, reply, parsed).Raised? <==>
      && openAiKey
      && (|| ReplyText(reply).Raised?
          || parsed.NonObject?
          || (parsed.Object? && !(StringOrAbsent(parsed.fields, "subject") && StringOrAbsent(parsed.fields, "body"))))
  {
  }

  /** A stripped text has no whitespace at either end. */
  lemma StripTrimmed(s: string)
    ensures Trimmed(Strip(s, Whitespace))
  {
  }

  /** With a key, the body never has whitespace at either end, and a subject read from the
      JSON object has none either. */
  lemma OutreachTrimmed(companyName: Value, reply: Completion, parsed: Json)
    requires GenerateOutreach(companyName, true, reply, parsed).Returned?
    ensures Trimmed(GenerateOutreach(companyName, true, reply, parsed).value.body)
    ensures parsed.Object? ==> Trimmed(GenerateOutreach(companyName, true, reply, parsed).value.subject)
  {
    var message := GenerateOutreach(companyName, true, reply, parsed).value;
    assert ReplyText(reply).Returned?;
    if parsed.Object? {
      var subject := StrippedField(parsed.fields, "subject");
      var body := StrippedField(parsed.fields, "body");
      assert subject.Returned? && body.Returned?;
      assert message == Message(subject.value, body.value);
      StripTrimmed(Get(parsed.fields, "subject", Str("")).s);
      StripTrimmed(Get(parsed.fields, "body", Str("")).s);
    } else {
      assert message.body == ReplyText(reply).value;
      StripTrimmed(reply.content.value);
    }
  }

  /** Without a key the message depends on the company name alone: replies, parses and
      anything else are ignored, so repeated calls agree. */
  lemma StubIgnoresReply(companyName: Value, reply1: Completion, parsed1: Json, reply2: Completion, parsed2: Json)
    ensures GenerateOutreach(companyName, false, reply1, parsed1) == GenerateOutreach(companyName, false, reply2, parsed2)
    ensures GenerateOutreach(companyName, false, reply1, parsed1).value.subject
         == StubSubject + PyStr(companyName)
  {
  }
}
