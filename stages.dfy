/** The five stage runners (`run_company_finder` ... `run_email_writer`):
    one call to a text-generation agent, JSON extraction of its reply, and
    one key read from the extracted object. Prompt wording is not modelled;
    a `Prompt` records which data the stage sends. */
module Stages {

  import opened Wrappers
  import opened Json
  import opened Text
  import opened Extraction

  /** What one agent call sends: the stage it is for and the prior outputs
      and settings its prompt (and, for the email writer, its instructions)
      is built from. */
  datatype Prompt =
    | FindCompanies(target: string, offering: string, maxCompanies: int)
    | FindContacts(companies: Json, target: string, offering: string)
    | FindPhones(contacts: Json)
    | Research(companies: Json)
    | WriteEmails(styleInstruction: string, contacts: Json, research: Json, offering: string,
                  senderName: string, senderCompany: string, calendarLink: Option<string>)

  /** The outcome of `agent.run(prompt)`: the reply's content as text, or an
      exception. */
  datatype Reply = Replied(content: string) | Raised(message: string)

  /** The agents of one pipeline run, as a function from prompts to their
      outcomes. */
  type Agents = Prompt -> Reply

  /** Send `prompt`, extract JSON from the reply and read `key` with
      `data.get(key, [])`. */
  function Ask(agents: Agents, parse: Parser, prompt: Prompt, key: string): (r: Result<Json, Failure>)
  {
    match agents(prompt)
    case Raised(m) => Err(ServiceRaised(m))
    case Replied(text) =>
      var data :- Extract(parse, text);
      GetOrEmpty(data, key)
  }

  /** `run_company_finder`: the "companies" list cut to `max_companies`. */
  function CompanyFinder(agents: Agents, parse: Parser, target: string, offering: string, maxCompanies: int): (r: Result<Json, Failure>)
  {
    var companies :- Ask(agents, parse, FindCompanies(target, offering, maxCompanies), "companies");
    SlicePrefix(companies, maxCompanies)
  }

  /** `run_contact_finder` */
  function ContactFinder(agents: Agents, parse: Parser, companies: Json, target: string, offering: string): (r: Result<Json, Failure>)
  {
    Ask(agents, parse, FindContacts(companies, target, offering), "companies")
  }

  /** `run_phone_finder` */
  function PhoneFinder(agents: Agents, parse: Parser, contacts: Json): (r: Result<Json, Failure>)
  {
    Ask(agents, parse, FindPhones(contacts), "companies")
  }

  /** `run_research` */
  function Researcher(agents: Agents, parse: Parser, companies: Json): (r: Result<Json, Failure>)
  {
    Ask(agents, parse, Research(companies), "companies")
  }

  /** `run_email_writer` */
  function EmailWriter(agents: Agents, parse: Parser, styleInstruction: string, contacts: Json, research: Json,
                       offering: string, senderName: string, senderCompany: string, calendarLink: Option<string>): (r: Result<Json, Failure>)
  {
    Ask(agents, parse, WriteEmails(styleInstruction, contacts, research, offering, senderName, senderCompany, calendarLink), "emails")
  }

  /** The reply to `prompt` is text whose extracted JSON is a dict. */
  predicate RepliesWithObject(agents: Agents, parse: Parser, prompt: Prompt) {
    agents(prompt).Replied? && Extract(parse, agents(prompt).content).Ok?
    && Extract(parse, agents(prompt).content).value.JObj?
  }

  /** The dict the reply to `prompt` yields. */
  function ReplyObject(agents: Agents, parse: Parser, prompt: Prompt): map<string, Json>
    requires RepliesWithObject(agents, parse, prompt)
  {
    Extract(parse, agents(prompt).content).value.fields
  }

  /** How a stage call ends: an agent exception and a failed extraction
      propagate unchanged, a reply that is JSON but not a dict raises
      AttributeError, and a dict yields its key's value, or the empty list
      when the key is missing. */
  lemma AskOutcome(agents: Agents, parse: Parser, prompt: Prompt, key: string)
    ensures agents(prompt).Raised? ==> Ask(agents, parse, prompt, key) == Err(ServiceRaised(agents(prompt).message))
    ensures agents(prompt).Replied? && Extract(parse, agents(prompt).content).Err? ==>
      Ask(agents, parse, prompt, key) == Err(Extract(parse, agents(prompt).content).error)
    ensures agents(prompt).Replied? && Extract(parse, agents(prompt).content).Ok? && !RepliesWithObject(agents, parse, prompt) ==>
      Ask(agents, parse, prompt, key) == Err(NoAttributeGet(TypeOf(Extract(parse, agents(prompt).content).value)))
    ensures RepliesWithObject(agents, parse, prompt) && key !in ReplyObject(agents, parse, prompt) ==>
      Ask(agents, parse, prompt, key) == Ok(JArr([]))
    ensures RepliesWithObject(agents, parse, prompt) && key in ReplyObject(agents, parse, prompt) ==>
      Ask(agents, parse, prompt, key) == Ok(ReplyObject(agents, parse, prompt)[key])
  {
  }

  /** Every stage treats a missing key as "nothing found": a reply object
      without "companies" (or, for the email writer, "emails") gives the
      empty list instead of an error. */
  lemma MissingKeyMeansEmpty(agents: Agents, parse: Parser, target: string, offering: string, maxCompanies: int,
                             companies: Json, contacts: Json, research: Json, style: string,
                             senderName: string, senderCompany: string, calendarLink: Option<string>)
    ensures var p := FindCompanies(target, offering, maxCompanies);
      RepliesWithObject(agents, parse, p) && "companies" !in ReplyObject(agents, parse, p) ==>
      CompanyFinder(agents, parse, target, offering, maxCompanies) == Ok(JArr([]))
    ensures var p := FindContacts(companies, target, offering);
      RepliesWithObject(agents, parse, p) && "companies" !in ReplyObject(agents, parse, p) ==>
      ContactFinder(agents, parse, companies, target, offering) == Ok(JArr([]))
    ensures var p := FindPhones(contacts);
      RepliesWithObject(agents, parse, p) && "companies" !in ReplyObject(agents, parse, p) ==>
      PhoneFinder(agents, parse, contacts) == Ok(JArr([]))
    ensures var p := Research(companies);
      RepliesWithObject(agents, parse, p) && "companies" !in ReplyObject(agents, parse, p) ==>
      Researcher(agents, parse, companies) == Ok(JArr([]))
    ensures var p := WriteEmails(style, contacts, research, offering, senderName, senderCompany, calendarLink);
      RepliesWithObject(agents, parse, p) && "emails" !in ReplyObject(agents, parse, p) ==>
      EmailWriter(agents, parse, style, contacts, research, offering, senderName, senderCompany, calendarLink) == Ok(JArr([]))
  {
    AskOutcome(agents, parse, FindCompanies(target, offering, maxCompanies), "companies");
    AskOutcome(agents, parse, FindContacts(companies, target, offering), "companies");
    AskOutcome(agents, parse, FindPhones(contacts), "companies");
    AskOutcome(agents, parse, Research(companies), "companies");
    AskOutcome(agents, parse, WriteEmails(style, contacts, research, offering, senderName, senderCompany, calendarLink), "emails");
  }

  /** Company discovery keeps an order-preserving prefix of what the agent
      listed: exactly the first min(max, |companies|) entries for a
      non-negative maximum, extra entries dropped without error. */
  lemma CompanyFinderTruncates(agents: Agents, parse: Parser, target: string, offering: string, maxCompanies: int, listed: seq<Json>)
    requires maxCompanies >= 0
    requires var p := FindCompanies(target, offering, maxCompanies);
      RepliesWithObject(agents, parse, p) && "companies" in ReplyObject(agents, parse, p)
      && ReplyObject(agents, parse, p)["companies"] == JArr(listed)
    ensures CompanyFinder(agents, parse, target, offering, maxCompanies) == Ok(JArr(listed[..Min(maxCompanies, |listed|)]))
    ensures |listed| > maxCompanies ==> |CompanyFinder(agents, parse, target, offering, maxCompanies).value.items| == maxCompanies
  {
    AskOutcome(agents, parse, FindCompanies(target, offering, maxCompanies), "companies");
    assert PyPrefix(listed, maxCompanies) == listed[..Min(maxCompanies, |listed|)];
  }

  // ----- Email style -----

  const ProfessionalLines: seq<string> := [
    "STYLE: Professional B2B communication",
    "- Formal but personable tone",
    "- Clear structure: opening hook → value proposition → social proof → CTA",
    "- Use industry-appropriate terminology",
    "- Respectful and consultative approach",
    "- Length: 120-180 words"]

  const CasualLines: seq<string> := [
    "STYLE: Casual but professional",
    "- Conversational, friendly tone",
    "- First-name basis, approachable language",
    "- Shorter paragraphs, easier to scan",
    "- Still maintain professional credibility",
    "- Length: 100-150 words"]

  const ColdLines: seq<string> := [
    "STYLE: High-impact cold email",
    "- Strong pattern interrupt in first 15 words",
    "- Specific, quantifiable value proposition",
    "- Social proof or credibility indicator",
    "- Clear, specific CTA with low friction",
    "- Length: 80-120 words (shorter is better)"]

  const ConsultativeLines: seq<string> := [
    "STYLE: Insight-led consultative approach",
    "- Lead with industry insight or trend observation",
    "- Frame potential challenges/opportunities",
    "- Position as thought partnership, not sales",
    "- Soft CTA focused on discussion/exchange",
    "- Length: 130-180 words"]

  /** The `styles` table: the instruction lines of each known style. */
  function StyleTable(style: string): Option<seq<string>> {
    if style == "Professional" then Some(ProfessionalLines)
    else if style == "Casual" then Some(CasualLines)
    else if style == "Cold" then Some(ColdLines)
    else if style == "Consultative" then Some(ConsultativeLines)
    else None
  }

  /** The lines `get_email_style_instruction` joins for a style. */
  function StyleLines(style: string): seq<string> {
    match StyleTable(style) case Some(lines) => lines case None => ProfessionalLines
  }

  /** `get_email_style_instruction`: the style's lines joined by newlines,
      the Professional lines for an unknown style. */
  function StyleInstruction(style: string): string {
    Join("\n", StyleLines(style))
  }

  /** An unknown style falls back to Professional, and no other known style
      gives the Professional text, so a style gets the Professional text
      exactly when it is not one of the other three. */
  lemma StyleFallsBackToProfessional(style: string)
    ensures StyleInstruction(style) == StyleInstruction("Professional")
      <==> style != "Casual" && style != "Cold" && style != "Consultative"
  {
    FirstLines();
    if style == "Casual" {
      DifferentHeadings(CasualLines, ProfessionalLines);
    } else if style == "Cold" {
      DifferentHeadings(ColdLines, ProfessionalLines);
    } else if style == "Consultative" {
      DifferentHeadings(ConsultativeLines, ProfessionalLines);
    }
  }

  /** Two line lists whose first lines differ at the first letter after
      "STYLE: " join to different instructions. */
  lemma DifferentHeadings(lines: seq<string>, other: seq<string>)
    requires lines != [] && |lines[0]| > 7
    requires other != [] && |other[0]| > 7
    requires lines[0][7] != other[0][7]
    ensures Join("\n", lines) != Join("\n", other)
  {
    JoinStartsWithFirst("\n", lines, 8);
    JoinStartsWithFirst("\n", other, 8);
    assert Join("\n", lines)[7] == Join("\n", lines)[..8][7] == lines[0][7];
    assert Join("\n", other)[7] == Join("\n", other)[..8][7] == other[0][7];
  }

  /** The four styles of the table give four different instructions. */
  lemma KnownStylesDiffer()
    ensures StyleInstruction("Professional") != StyleInstruction("Casual")
    ensures StyleInstruction("Professional") != StyleInstruction("Cold")
    ensures StyleInstruction("Professional") != StyleInstruction("Consultative")
    ensures StyleInstruction("Casual") != StyleInstruction("Cold")
    ensures StyleInstruction("Casual") != StyleInstruction("Consultative")
    ensures StyleInstruction("Cold") != StyleInstruction("Consultative")
  {
    FirstLines();
    DifferentHeadings(ProfessionalLines, CasualLines);
    DifferentHeadings(ProfessionalLines, ColdLines);
    DifferentHeadings(ProfessionalLines, ConsultativeLines);
    DifferentHeadings(CasualLines, ColdLines);
    DifferentHeadings(CasualLines, ConsultativeLines);
    DifferentHeadings(ColdLines, ConsultativeLines);
  }

  /** Each style's first line is "STYLE: " and then a distinct letter. */
  lemma FirstLines()
    ensures |ProfessionalLines[0]| > 7 && |CasualLines[0]| > 7 && |ColdLines[0]| > 7 && |ConsultativeLines[0]| > 7
    ensures ProfessionalLines[0][..7] == CasualLines[0][..7] == ColdLines[0][..7] == ConsultativeLines[0][..7] == "STYLE: "
    ensures ProfessionalLines[0][7] == 'P' && CasualLines[0][7] == 'C'
    ensures ColdLines[0][7] == 'H' && ConsultativeLines[0][7] == 'I'
  {
    StyleHeading(ProfessionalLines[0]);
    StyleHeading(CasualLines[0]);
    StyleHeading(ColdLines[0]);
    StyleHeading(ConsultativeLines[0]);
  }

  lemma StyleHeading(line: string)
    requires |line| > 7
    requires line[0] == 'S' && line[1] == 'T' && line[2] == 'Y' && line[3] == 'L'
    requires line[4] == 'E' && line[5] == ':' && line[6] == ' '
    ensures line[..7] == "STYLE: "
  {
  }

  /** The first `n` characters of a join are those of its first part. */
  lemma JoinStartsWithFirst(sep: string, parts: seq<string>, n: nat)
    requires parts != [] && n <= |parts[0]|
    ensures |Join(sep, parts)| >= n && Join(sep, parts)[..n] == parts[0][..n]
  {
    JoinShape(sep, parts);
    assert parts[0] <= Join(sep, parts);
  }
}
