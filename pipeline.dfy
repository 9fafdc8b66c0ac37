/** `run_pipeline`: the five stages in order, with the per-stage fault
    policy. Company and contact discovery stop the run early when they find
    nothing; a phone-stage failure becomes an empty phone list; any other
    stage failure propagates and the partial results are discarded. */
module Pipeline {

  import opened Wrappers
  import opened Json
  import opened Extraction
  import opened Stages

  /** The arguments of `run_pipeline`. */
  datatype Config = Config(
    target: string,
    offering: string,
    senderName: string,
    senderCompany: string,
    calendarLink: Option<string>,
    numCompanies: int,
    emailStyle: string)

  /** The `results` dict. */
  datatype Results = Results(companies: Json, contacts: Json, phones: Json, research: Json, emails: Json)

  /** `{"companies": [], "contacts": [], "phones": [], "research": [], "emails": []}` */
  const NoResults: Results := Results(EmptyList, EmptyList, EmptyList, EmptyList, EmptyList)

  /** The phone stage's list, or the empty list when it raised. */
  function PhonesOrEmpty(agents: Agents, parse: Parser, contacts: Json): Json {
    match PhoneFinder(agents, parse, contacts)
    case Ok(phones) => phones
    case Err(_) => EmptyList
  }

  /** What `run_pipeline` returns, or the exception it raises. */
  function Pipeline(agents: Agents, parse: Parser, cfg: Config): Result<Results, Failure> {
    var companies :- CompanyFinder(agents, parse, cfg.target, cfg.offering, cfg.numCompanies);
    if !Truthy(companies) then Ok(NoResults.(companies := companies))
    else
      var contacts :- ContactFinder(agents, parse, companies, cfg.target, cfg.offering);
      if !Truthy(contacts) then Ok(NoResults.(companies := companies, contacts := contacts))
      else
        var phones := PhonesOrEmpty(agents, parse, contacts);
        var research :- Researcher(agents, parse, companies);
        var emails :- EmailWriter(agents, parse, StyleInstruction(cfg.emailStyle), contacts, research,
                                  cfg.offering, cfg.senderName, cfg.senderCompany, cfg.calendarLink);
        Ok(Results(companies, contacts, phones, research, emails))
  }

  /** `run_pipeline`, filling `results` one stage at a time. */
  method RunPipeline(agents: Agents, parse: Parser, cfg: Config) returns (r: Result<Results, Failure>)
    ensures r == Pipeline(agents, parse, cfg)
  {
    var style := StyleInstruction(cfg.emailStyle);
    var results := NoResults;

    var companies :- CompanyFinder(agents, parse, cfg.target, cfg.offering, cfg.numCompanies);
    results := results.(companies := companies);
    if !Truthy(companies) {
      return Ok(results);
    }

    var contacts :- ContactFinder(agents, parse, companies, cfg.target, cfg.offering);
    results := results.(contacts := contacts);
    if !Truthy(contacts) {
      return Ok(results);
    }

    var phones;
    var found := PhoneFinder(agents, parse, contacts);
    if found.Ok? {
      phones := found.value;
    } else {
      phones := EmptyList;
    }
    results := results.(phones := phones);

    var research :- Researcher(agents, parse, companies);
    results := results.(research := research);

    var emails :- EmailWriter(agents, parse, style, contacts, research,
                              cfg.offering, cfg.senderName, cfg.senderCompany, cfg.calendarLink);
    results := results.(emails := emails);

    return Ok(results);
  }

  // ----- The fault policy -----

  /** No companies: the run ends successfully with everything else empty,
      and no later agent is consulted, so any other agents that answer the
      company prompt the same way give the same result. */
  lemma NoCompaniesStopsTheRun(agents: Agents, other: Agents, parse: Parser, cfg: Config, companies: Json)
    requires CompanyFinder(agents, parse, cfg.target, cfg.offering, cfg.numCompanies) == Ok(companies)
    requires !Truthy(companies)
    requires other(FindCompanies(cfg.target, cfg.offering, cfg.numCompanies))
          == agents(FindCompanies(cfg.target, cfg.offering, cfg.numCompanies))
    ensures Pipeline(agents, parse, cfg) == Ok(Results(companies, JArr([]), JArr([]), JArr([]), JArr([])))
    ensures Pipeline(other, parse, cfg) == Pipeline(agents, parse, cfg)
  {
  }

  /** Companies but no contacts: the run ends successfully with the
      companies kept and phones, research and emails empty, and neither the
      phone, research nor email agent is consulted. */
  lemma NoContactsStopsTheRun(agents: Agents, other: Agents, parse: Parser, cfg: Config, companies: Json, contacts: Json)
    requires CompanyFinder(agents, parse, cfg.target, cfg.offering, cfg.numCompanies) == Ok(companies)
    requires Truthy(companies)
    requires ContactFinder(agents, parse, companies, cfg.target, cfg.offering) == Ok(contacts)
    requires !Truthy(contacts)
    requires other(FindCompanies(cfg.target, cfg.offering, cfg.numCompanies))
          == agents(FindCompanies(cfg.target, cfg.offering, cfg.numCompanies))
    requires other(FindContacts(companies, cfg.target, cfg.offering))
          == agents(FindContacts(companies, cfg.target, cfg.offering))
    ensures Pipeline(agents, parse, cfg) == Ok(Results(companies, contacts, JArr([]), JArr([]), JArr([])))
    ensures Pipeline(other, parse, cfg) == Pipeline(agents, parse, cfg)
  {
  }

  /** A failing phone stage never fails the run: its list becomes empty and
      research and emails are still computed from companies and contacts. */
  lemma PhoneFailureIsTolerated(agents: Agents, parse: Parser, cfg: Config, companies: Json, contacts: Json,
                                research: Json, emails: Json)
    requires CompanyFinder(agents, parse, cfg.target, cfg.offering, cfg.numCompanies) == Ok(companies)
    requires ContactFinder(agents, parse, companies, cfg.target, cfg.offering) == Ok(contacts)
    requires Truthy(companies) && Truthy(contacts)
    requires PhoneFinder(agents, parse, contacts).Err?
    requires Researcher(agents, parse, companies) == Ok(research)
    requires EmailWriter(agents, parse, StyleInstruction(cfg.emailStyle), contacts, research,
                         cfg.offering, cfg.senderName, cfg.senderCompany, cfg.calendarLink) == Ok(emails)
    ensures Pipeline(agents, parse, cfg) == Ok(Results(companies, contacts, JArr([]), research, emails))
  {
  }

  /** Whatever the phone agent answers, the run succeeds or fails the same
      way and differs at most in its phone list: no later stage reads the
      phones, and a phone failure is never fatal. */
  lemma PhonesNeverDecideTheRun(agents: Agents, other: Agents, parse: Parser, cfg: Config)
    requires forall p: Prompt :: !p.FindPhones? ==> other(p) == agents(p)
    ensures Pipeline(other, parse, cfg).Ok? <==> Pipeline(agents, parse, cfg).Ok?
    ensures Pipeline(agents, parse, cfg).Err? ==> Pipeline(other, parse, cfg) == Pipeline(agents, parse, cfg)
    ensures Pipeline(agents, parse, cfg).Ok? ==>
      Pipeline(other, parse, cfg).value.(phones := EmptyList) == Pipeline(agents, parse, cfg).value.(phones := EmptyList)
  {
    var a := FindCompanies(cfg.target, cfg.offering, cfg.numCompanies);
    assert other(a) == agents(a);
    var companies := CompanyFinder(agents, parse, cfg.target, cfg.offering, cfg.numCompanies);
    if companies.Ok? && Truthy(companies.value) {
      var b := FindContacts(companies.value, cfg.target, cfg.offering);
      assert other(b) == agents(b);
      var contacts := ContactFinder(agents, parse, companies.value, cfg.target, cfg.offering);
      if contacts.Ok? && Truthy(contacts.value) {
        var c := Research(companies.value);
        assert other(c) == agents(c);
        var research := Researcher(agents, parse, companies.value);
        if research.Ok? {
          var d := WriteEmails(StyleInstruction(cfg.emailStyle), contacts.value, research.value,
                               cfg.offering, cfg.senderName, cfg.senderCompany, cfg.calendarLink);
          assert other(d) == agents(d);
        }
      }
    }
  }

  /** Every other stage failure propagates unchanged and no result is
      returned. */
  lemma FatalStagesPropagate(agents: Agents, parse: Parser, cfg: Config)
    ensures var companies := CompanyFinder(agents, parse, cfg.target, cfg.offering, cfg.numCompanies);
      companies.Err? ==> Pipeline(agents, parse, cfg) == Err(companies.error)
    ensures var companies := CompanyFinder(agents, parse, cfg.target, cfg.offering, cfg.numCompanies);
      companies.Ok? && Truthy(companies.value) ==>
      var contacts := ContactFinder(agents, parse, companies.value, cfg.target, cfg.offering);
      && (contacts.Err? ==> Pipeline(agents, parse, cfg) == Err(contacts.error))
      && (contacts.Ok? && Truthy(contacts.value) ==>
        var research := Researcher(agents, parse, companies.value);
        && (research.Err? ==> Pipeline(agents, parse, cfg) == Err(research.error))
        && (research.Ok? ==>
          var emails := EmailWriter(agents, parse, StyleInstruction(cfg.emailStyle), contacts.value, research.value,
                                    cfg.offering, cfg.senderName, cfg.senderCompany, cfg.calendarLink);
          emails.Err? ==> Pipeline(agents, parse, cfg) == Err(emails.error)))
  {
  }

  /** In every successful result the companies are the discovery stage's,
      and a later field is filled only when the stages before it found
      something: contacts only with companies, phones, research and emails
      only with contacts. */
  lemma ResultsFillInStageOrder(agents: Agents, parse: Parser, cfg: Config)
    requires Pipeline(agents, parse, cfg).Ok?
    ensures var res := Pipeline(agents, parse, cfg).value;
      && CompanyFinder(agents, parse, cfg.target, cfg.offering, cfg.numCompanies) == Ok(res.companies)
      && (res.contacts != EmptyList ==> Truthy(res.companies))
      && (res.phones != EmptyList || res.research != EmptyList || res.emails != EmptyList ==>
            Truthy(res.companies) && Truthy(res.contacts))
  {
  }
}
