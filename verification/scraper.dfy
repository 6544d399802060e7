/** `scrape_linkedin_profile`: the cookie guard, the browser session reduced to
    an outcome, and the assembly of the profile record from independent
    per-field extraction blocks. */
module Scraper {
  import opened Wrappers
  import opened Text
  import opened Extraction

  /** The outcome of one scalar field's block: `query_selector` found no node,
      the query or `inner_text()` raised, or the node's text was read. */
  datatype FieldQuery = Absent | ReadFails | Found(text: string)

  /** One `query_selector` step in the `about` chain. */
  datatype Lookup = Missing | Present | Raises

  /** The `about` block walks `#about`, then its parent, then the
      `.inline-show-more-text` container inside the parent. */
  datatype AboutQuery = AboutQuery(section: Lookup, parent: Lookup, container: FieldQuery)

  /** The rendered page, abstracted to what each field's block observes. */
  datatype Page = Page(
    name: FieldQuery,
    headline: FieldQuery,
    location: FieldQuery,
    about: AboutQuery,
    experience: ListQuery,
    education: ListQuery,
    skills: ListQuery)

  /** The returned dictionary: all eight keys, always. */
  datatype Profile = Profile(
    name: string,
    headline: string,
    location: string,
    about: string,
    experience: seq<string>,
    education: seq<string>,
    skills: seq<string>,
    url: string)

  /** What the browser work yields: a loaded page, or the message of the
      exception raised by the launch, `goto` (30 s network-idle timeout) or
      `wait_for_selector('h1')` (10 s timeout). */
  datatype Session = Ready(page: Page) | Fault(message: string)

  const CookieMissing := "LINKEDIN_COOKIE not configured"

  /** The record the source starts from before any field block runs. */
  function Initial(url: string): (p: Profile)
    ensures p.url == url
    ensures p.name == p.headline == p.location == p.about == ""
    ensures p.experience == p.education == p.skills == []
  {
    Profile("", "", "", "", [], [], [], url)
  }

  /** Every repeating field is within its rule: bounded, stripped, long
      enough. */
  predicate WellFormed(p: Profile) {
    && |p.experience| <= 5 && |p.education| <= 3 && |p.skills| <= 10
    && (forall k | 0 <= k < |p.experience| :: Entry(ExperienceRule, p.experience[k]))
    && (forall k | 0 <= k < |p.education| :: Entry(EducationRule, p.education[k]))
    && (forall k | 0 <= k < |p.skills| :: Entry(SkillsRule, p.skills[k]))
    && IsStripped(p.name) && IsStripped(p.headline)
    && IsStripped(p.location) && IsStripped(p.about)
  }

  /** A scalar block: the field is overwritten with the stripped text only
      when the node was found and read; otherwise it keeps its value. */
  function Overwrite(query: FieldQuery, current: string): (r: string)
    ensures query.Found? ==> r == Strip(query.text)
    ensures !query.Found? ==> r == current
  {
    match query
    case Found(text) => Strip(text)
    case _ => current
  }

  /** The `about` chain collapsed to one scalar outcome: the text is read
      only when section, parent and container were all found. */
  function AboutOutcome(q: AboutQuery): (r: FieldQuery)
    ensures r.Found? <==> q.section.Present? && q.parent.Present? && q.container.Found?
    ensures r.Found? ==> r == q.container
  {
    match q.section
    case Missing => Absent
    case Raises => ReadFails
    case Present =>
      match q.parent
      case Missing => Absent
      case Raises => ReadFails
      case Present => q.container
  }

  /** `linkedin_scraper.py` lines 137-223: start from the empty record; each of the seven blocks
      catches its own failures and writes only its own key (a scalar block
      overwrites, a list block appends to the initial `[]`). */
  function Extract(url: string, page: Page): (p: Profile)
    ensures p.url == url
    ensures WellFormed(p)
    ensures p.name == (if page.name.Found? then Strip(page.name.text) else "")
    ensures p.headline == (if page.headline.Found? then Strip(page.headline.text) else "")
    ensures p.location == (if page.location.Found? then Strip(page.location.text) else "")
    ensures p.about == (if AboutOutcome(page.about).Found? then Strip(page.about.container.text) else "")
    ensures page.experience.QueryFails? ==> p.experience == []
    ensures page.education.QueryFails? ==> p.education == []
    ensures page.skills.QueryFails? ==> p.skills == []
    ensures page.experience.Matched? ==> p.experience == Collect(ExperienceRule, page.experience.nodes)
    ensures page.education.Matched? ==> p.education == Collect(EducationRule, page.education.nodes)
    ensures page.skills.Matched? ==> p.skills == Collect(SkillsRule, page.skills.nodes)
  {
    var init := Initial(url);
    var name := Overwrite(page.name, init.name);
    var headline := Overwrite(page.headline, init.headline);
    var location := Overwrite(page.location, init.location);
    var about := Overwrite(AboutOutcome(page.about), init.about);
    var experience := Gather(ExperienceRule, page.experience);
    var education := Gather(EducationRule, page.education);
    var skills := Gather(SkillsRule, page.skills);
    assert init.experience + experience == experience;
    assert init.education + education == education;
    assert init.skills + skills == skills;
    var p := Profile(name, headline, location, about,
                     init.experience + experience, init.education + education,
                     init.skills + skills, init.url);
    assert WellFormed(p);
    p
  }

  /** `linkedin_scraper.py` lines 94-134 and 223: the cookie guard, then the browser session, then
      extraction. */
  function Scrape(cookie: string, url: string, session: Session): (r: Result<Profile>)
    ensures cookie == "" ==> r == Failure(CookieMissing)
    ensures r.Success? <==> cookie != "" && session.Ready?
    ensures cookie != "" && session.Fault? ==> r == Failure(session.message)
    ensures r.Success? ==> r.value.url == url && WellFormed(r.value)
    ensures cookie != "" && session.Ready? ==> r == Success(Extract(url, session.page))
  {
    if cookie == "" then Failure(CookieMissing)
    else match session
      case Fault(message) => Failure(message)
      case Ready(page) => Success(Extract(url, page))
  }

  /** Each field of the record depends only on its own block's outcome, so a
      failure (or any change) in one block leaves every other field alone. */
  lemma FieldsIndependent(url: string, p1: Page, p2: Page)
    ensures p1.name == p2.name ==> Extract(url, p1).name == Extract(url, p2).name
    ensures p1.headline == p2.headline ==> Extract(url, p1).headline == Extract(url, p2).headline
    ensures p1.location == p2.location ==> Extract(url, p1).location == Extract(url, p2).location
    ensures p1.about == p2.about ==> Extract(url, p1).about == Extract(url, p2).about
    ensures p1.experience == p2.experience ==> Extract(url, p1).experience == Extract(url, p2).experience
    ensures p1.education == p2.education ==> Extract(url, p1).education == Extract(url, p2).education
    ensures p1.skills == p2.skills ==> Extract(url, p1).skills == Extract(url, p2).skills
    ensures Extract(url, p1).url == Extract(url, p2).url == url
  {
  }

  /** Replacing the outcome of the name block changes the name field and
      nothing else; likewise for the experience block. */
  lemma OneFieldChanges(url: string, page: Page, q: FieldQuery, nodes: ListQuery)
    ensures Extract(url, page.(name := q)) == Extract(url, page).(name := Overwrite(q, ""))
    ensures Extract(url, page.(experience := nodes))
         == Extract(url, page).(experience := Gather(ExperienceRule, nodes))
  {
  }

  /** With an empty cookie the browser is never consulted: the outcome is the
      same whatever the session would have produced. */
  lemma CookieGuardFirst(url: string, s1: Session, s2: Session)
    ensures Scrape("", url, s1) == Scrape("", url, s2) == Failure(CookieMissing)
  {
  }

  /** A scalar or `about` block that leaves its field `""`. */
  predicate ScalarFails(q: FieldQuery) {
    !q.Found?
  }

  /** Any page on which every scalar block is absent or fails and every list
      block raises or yields nothing gives the fully keyed empty record, with
      `url` echoed. */
  lemma AllBlocksFail(url: string, page: Page)
    requires ScalarFails(page.name) && ScalarFails(page.headline) && ScalarFails(page.location)
    requires ScalarFails(AboutOutcome(page.about))
    requires YieldsNothing(ExperienceRule, page.experience)
    requires YieldsNothing(EducationRule, page.education)
    requires YieldsNothing(SkillsRule, page.skills)
    ensures Extract(url, page) == Initial(url)
  {
    GatherNothing(ExperienceRule, page.experience);
    GatherNothing(EducationRule, page.education);
    GatherNothing(SkillsRule, page.skills);
  }

  /** At the record level: an experience entry is exactly a text one of the
      first five matched nodes yields; likewise for the first three education
      nodes and the first ten skill nodes. */
  lemma ListFieldsFromWindow(url: string, page: Page, e: string)
    ensures e in Extract(url, page).experience <==>
              page.experience.Matched? &&
              exists i | 0 <= i < |page.experience.nodes| && i < 5 ::
                Yields(ExperienceRule, page.experience.nodes[i], e)
    ensures e in Extract(url, page).education <==>
              page.education.Matched? &&
              exists i | 0 <= i < |page.education.nodes| && i < 3 ::
                Yields(EducationRule, page.education.nodes[i], e)
    ensures e in Extract(url, page).skills <==>
              page.skills.Matched? &&
              exists i | 0 <= i < |page.skills.nodes| && i < 10 ::
                Yields(SkillsRule, page.skills.nodes[i], e)
  {
    if page.experience.Matched? { CollectMember(ExperienceRule, page.experience.nodes, e); }
    if page.education.Matched? { CollectMember(EducationRule, page.education.nodes, e); }
    if page.skills.Matched? { CollectMember(SkillsRule, page.skills.nodes, e); }
  }
}
