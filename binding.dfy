/**
 * The data path of the page script (js/app.js): `loadData` with its
 * fallback, the section binders and `init`. A mount point is a section
 * element together with the list element it fills; the binders clear it,
 * toggle its `hidden` flag and append one child per input item.
 */
module Binding {
  import opened Wrappers
  import opened Seqs
  import opened Render

  const DataUrl := "http://localhost:5000/api/db"
  const FallbackUrl := "data/resume.json"
  const LoadErrorMessage := "Error loading data. Please check if the Flask API is running or the JSON file exists."

  /** An error banner appended to the site header. */
  datatype Banner = Banner(message: string)

  /** A mount point: the children of its list, and whether its section is hidden. */
  class Mount<T> {
    var children: seq<T>
    var hidden: bool

    constructor (children: seq<T>, hidden: bool)
      ensures this.children == children && this.hidden == hidden
    {
      this.children := children;
      this.hidden := hidden;
    }

    /** `innerHTML = ""`. */
    method Clear()
      modifies this
      ensures children == [] && hidden == old(hidden)
    {
      children := [];
    }

    /** `append(child)`. */
    method Append(child: T)
      modifies this
      ensures children == old(children) + [child] && hidden == old(hidden)
    {
      children := children + [child];
    }
  }

  /** Appends one rendered child per item, in input order: the `forEach` of every binder. */
  method AppendEach<A, B>(box: Mount<B>, items: seq<A>, render: A -> B)
    modifies box
    ensures box.children == old(box.children) + MapSeq(render, items)
    ensures box.hidden == old(box.hidden)
  {
    for i := 0 to |items|
      invariant box.children == old(box.children) + MapSeq(render, items[..i])
      invariant box.hidden == old(box.hidden)
    {
      MapSeqSnoc(render, items[..i], items[i]);
      assert items[..i + 1] == items[..i] + [items[i]];
      box.Append(render(items[i]));
    }
    assert items[..|items|] == items;
  }

  /** The personal block: the text of its name, title and summary, the avatar `src` and the contact list. */
  class PersonalBlock {
    var fullName: string
    var title: string
    var summary: string
    var avatar: string
    const contacts: Mount<ContactRow>

    constructor (contacts: Mount<ContactRow>)
      ensures this.contacts == contacts
      ensures fullName == "" && title == "" && summary == "" && avatar == ""
    {
      this.contacts := contacts;
      fullName, title, summary, avatar := "", "", "", "";
    }
  }

  /**
   * The block shows `p`: name and title default to the placeholder, the
   * summary to "", the avatar is set when there is one, and there is one
   * contact row per contact, in order.
   */
  ghost predicate ShowsPersonal(block: PersonalBlock, p: Personal)
    reads block, block.contacts
  {
    && block.fullName == (if p.fullName != "" then p.fullName else Placeholder)
    && block.title == (if p.title != "" then p.title else Placeholder)
    && block.summary == p.summary
    && (p.avatar != "" ==> block.avatar == p.avatar)
    && block.contacts.children == MapSeq(ContactRowOf, p.contacts)
  }

  /** `fillPersonal`: an absent record changes nothing. */
  method FillPersonal(block: PersonalBlock, personal: Option<Personal>)
    modifies block, block.contacts
    ensures personal.None? ==> unchanged(block, block.contacts)
    ensures personal.Some? ==> ShowsPersonal(block, personal.value)
    ensures personal.Some? && personal.value.avatar == "" ==> block.avatar == old(block.avatar)
    ensures block.contacts.hidden == old(block.contacts.hidden)
  {
    if personal.None? {
      return;
    }
    var p := personal.value;
    FirstNonEmptyPair(p.fullName, Placeholder);
    FirstNonEmptyPair(p.title, Placeholder);
    block.fullName := FirstNonEmpty([p.fullName, Placeholder]);
    block.title := FirstNonEmpty([p.title, Placeholder]);
    block.summary := p.summary;
    if p.avatar != "" {
      block.avatar := p.avatar;
    }
    block.contacts.Clear();
    AppendEach(block.contacts, p.contacts, ContactRowOf);
  }

  /** `fillSkills`: one row per skill, in order; the section is never hidden or shown here. */
  method FillSkills(box: Mount<SkillRow>, skills: seq<Skill>)
    modifies box
    ensures box.children == MapSeq(SkillRowOf, skills)
    ensures box.hidden == old(box.hidden)
  {
    box.Clear();
    AppendEach(box, skills, SkillRowOf);
  }

  /** `fillTimeline`, for education and experience alike. */
  method FillTimeline(box: Mount<TimelineRow>, list: seq<Entry>)
    modifies box
    ensures box.children == MapSeq(TimelineRowOf, list)
    ensures box.hidden == old(box.hidden)
  {
    box.Clear();
    AppendEach(box, list, TimelineRowOf);
  }

  /** `fillCertificates`: cleared first; hidden with no cards when there are none, else one card per certificate. */
  method FillCertificates(box: Mount<Card>, certs: seq<Certificate>)
    modifies box
    ensures box.hidden <==> certs == []
    ensures box.children == MapSeq(CertificateCard, certs)
  {
    box.Clear();
    if certs == [] {
      box.hidden := true;
      return;
    }
    box.hidden := false;
    AppendEach(box, certs, CertificateCard);
  }

  /** `fillAchievements`: the same hiding rule, one card per achievement. */
  method FillAchievements(box: Mount<Card>, achievements: seq<Achievement>)
    modifies box
    ensures box.hidden <==> achievements == []
    ensures box.children == MapSeq(AchievementCard, achievements)
  {
    box.Clear();
    if achievements == [] {
      box.hidden := true;
      return;
    }
    box.hidden := false;
    AppendEach(box, achievements, AchievementCard);
  }

  /** `fillInterests`: the same hiding rule, one chip per interest. */
  method FillInterests(box: Mount<Chip>, interests: seq<string>)
    modifies box
    ensures box.hidden <==> interests == []
    ensures box.children == MapSeq(ChipOf, interests)
  {
    box.Clear();
    if interests == [] {
      box.hidden := true;
      return;
    }
    box.hidden := false;
    AppendEach(box, interests, ChipOf);
  }

  // -----------------------------------------------------------------------
  // Loading

  /** A response body as `res.json()` reads it: not JSON, or a JSON value; `Json(None)` is a value JavaScript treats as false (null, false, 0, ""). */
  datatype Body = Malformed | Json(data: Option<Resume>)

  /** The outcome of one `fetch`: a transport error, or a response with its `ok` flag and body. */
  datatype Outcome = Unreachable | Response(ok: bool, body: Body)

  /** A source yields data when its response is ok and its body parses. */
  predicate Usable(o: Outcome) {
    o.Response? && o.ok && o.body.Json?
  }

  /** What `loadData` resolves to: the primary's data, else the fallback's, else `null`. */
  function Loaded(primary: Outcome, fallback: Outcome): Option<Resume> {
    if Usable(primary) then primary.body.data
    else if Usable(fallback) then fallback.body.data
    else None
  }

  /** The network as the script sees it: how each URL answers, and the URLs fetched so far. */
  class Network {
    const answers: map<string, Outcome>
    var requests: seq<string>

    constructor (answers: map<string, Outcome>)
      ensures this.answers == answers && requests == []
    {
      this.answers := answers;
      requests := [];
    }

    /** A URL the map does not list is unreachable. */
    function Answer(url: string): Outcome {
      if url in answers then answers[url] else Unreachable
    }

    method Fetch(url: string) returns (o: Outcome)
      modifies this
      ensures o == Answer(url) && requests == old(requests) + [url]
    {
      requests := requests + [url];
      o := Answer(url);
    }
  }

  /**
   * `loadData`: the primary source is fetched first; the fallback is
   * fetched exactly once, and only when the primary is not ok, is
   * unreachable or does not parse; when both fail one error banner is
   * appended and the result is `null`.
   */
  method LoadData(header: Mount<Banner>, net: Network) returns (data: Option<Resume>)
    modifies header, net
    ensures data == Loaded(net.Answer(DataUrl), net.Answer(FallbackUrl))
    ensures Usable(net.Answer(DataUrl)) ==> net.requests == old(net.requests) + [DataUrl]
    ensures !Usable(net.Answer(DataUrl)) ==> net.requests == old(net.requests) + [DataUrl, FallbackUrl]
    ensures header.children ==
      if Usable(net.Answer(DataUrl)) || Usable(net.Answer(FallbackUrl)) then old(header.children)
      else old(header.children) + [Banner(LoadErrorMessage)]
    ensures header.hidden == old(header.hidden)
  {
    var primary := net.Fetch(DataUrl);
    if Usable(primary) {
      return primary.body.data;
    }
    var fallback := net.Fetch(FallbackUrl);
    if Usable(fallback) {
      return fallback.body.data;
    }
    header.Append(Banner(LoadErrorMessage));
    return None;
  }

  /** The mount points of the page template. */
  class Page {
    const header: Mount<Banner>
    const personal: PersonalBlock
    const skills: Mount<SkillRow>
    const education: Mount<TimelineRow>
    const experience: Mount<TimelineRow>
    const certificates: Mount<Card>
    const achievements: Mount<Card>
    const interests: Mount<Chip>

    constructor (header: Mount<Banner>, personal: PersonalBlock, skills: Mount<SkillRow>,
                 education: Mount<TimelineRow>, experience: Mount<TimelineRow>,
                 certificates: Mount<Card>, achievements: Mount<Card>, interests: Mount<Chip>)
      ensures this.header == header && this.personal == personal && this.skills == skills
      ensures this.education == education && this.experience == experience
      ensures this.certificates == certificates && this.achievements == achievements
      ensures this.interests == interests
    {
      this.header, this.personal, this.skills := header, personal, skills;
      this.education, this.experience := education, experience;
      this.certificates, this.achievements, this.interests := certificates, achievements, interests;
    }

    /** Two sections never share a mount point. */
    predicate Valid() {
      education != experience && certificates != achievements
    }
  }

  /**
   * `init`: load, and stop when there is no data, with every section as
   * it was. The header gets one error banner exactly when neither source is
   * usable; a usable source whose JSON body is falsy stops `init` with no
   * banner at all. Otherwise bind personal,
   * skills, education, experience, achievements and interests. The
   * certificates section is never bound, and the contacts, skills and
   * timeline sections keep their visibility.
   */
  method Init(page: Page, net: Network)
    requires page.Valid()
    modifies page.header, page.personal, page.personal.contacts, page.skills, page.education,
             page.experience, page.achievements, page.interests, net
    ensures var d := Loaded(net.Answer(DataUrl), net.Answer(FallbackUrl));
      if d.None? then
        unchanged(page.personal, page.personal.contacts, page.skills, page.education,
                  page.experience, page.achievements, page.interests)
      else
        && (d.value.personal.None? ==> unchanged(page.personal, page.personal.contacts))
        && (d.value.personal.Some? ==> ShowsPersonal(page.personal, d.value.personal.value))
        && (d.value.personal.Some? && d.value.personal.value.avatar == "" ==>
              page.personal.avatar == old(page.personal.avatar))
        && page.skills.children == MapSeq(SkillRowOf, d.value.skills)
        && page.education.children == MapSeq(TimelineRowOf, d.value.education)
        && page.experience.children == MapSeq(TimelineRowOf, d.value.experience)
        && (page.achievements.hidden <==> d.value.achievements == [])
        && page.achievements.children == MapSeq(AchievementCard, d.value.achievements)
        && (page.interests.hidden <==> d.value.interests == [])
        && page.interests.children == MapSeq(ChipOf, d.value.interests)
    ensures page.header.children ==
      if Usable(net.Answer(DataUrl)) || Usable(net.Answer(FallbackUrl)) then old(page.header.children)
      else old(page.header.children) + [Banner(LoadErrorMessage)]
    ensures page.header.hidden == old(page.header.hidden)
    ensures page.personal.contacts.hidden == old(page.personal.contacts.hidden)
    ensures page.skills.hidden == old(page.skills.hidden)
    ensures page.education.hidden == old(page.education.hidden)
    ensures page.experience.hidden == old(page.experience.hidden)
    ensures Usable(net.Answer(DataUrl)) ==> net.requests == old(net.requests) + [DataUrl]
    ensures !Usable(net.Answer(DataUrl)) ==> net.requests == old(net.requests) + [DataUrl, FallbackUrl]
    ensures unchanged(page.certificates)
  {
    var data := LoadData(page.header, net);
    if data.None? {
      return;
    }
    var d := data.value;
    FillPersonal(page.personal, d.personal);
    FillSkills(page.skills, d.skills);
    FillTimeline(page.education, d.education);
    FillTimeline(page.experience, d.experience);
    FillAchievements(page.achievements, d.achievements);
    FillInterests(page.interests, d.interests);
  }
}
