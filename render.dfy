/**
 * The resume document as the page script (js/app.js) reads it, and the
 * pure text derivations of each rendered item. A text field that the
 * document leaves out is the empty string: the script reads every such
 * field through `||`, which treats a missing field and "" alike.
 */
module Render {
  import opened Wrappers
  import opened Seqs

  datatype Contact = Contact(labelText: string, value: string, href: string)

  datatype Personal = Personal(
    fullName: string,
    title: string,
    summary: string,
    avatar: string,
    contacts: seq<Contact>)

  /** A skill; `level` is `Number(s.level || 0)`, so a missing level is 0. */
  datatype Skill = Skill(name: string, level: int)

  /** An education or experience entry. */
  datatype Entry = Entry(
    institution: string,
    company: string,
    project: string,
    degree: string,
    role: string,
    start: string,
    finish: string,
    description: string)

  datatype Certificate = Certificate(title: string, issuer: string, date: string, link: string)

  datatype Achievement = Achievement(title: string, description: string, link: string)

  /**
   * The fetched document. An absent list and an empty one are handled alike
   * (`list || []`, `!list || list.length === 0`), so both are `[]`.
   */
  datatype Resume = Resume(
    personal: Option<Personal>,
    skills: seq<Skill>,
    education: seq<Entry>,
    experience: seq<Entry>,
    certificates: seq<Certificate>,
    achievements: seq<Achievement>,
    interests: seq<string>)

  // The children the binders append.

  datatype Anchor = Anchor(href: string, text: string)

  /** The value cell of a contact row: a link, or plain text. */
  datatype ContactValue = Link(anchor: Anchor) | Text(text: string)

  datatype ContactRow = ContactRow(caption: string, value: ContactValue)

  /** A skill row: its name and the width of its progress bar, in percent. */
  datatype SkillRow = SkillRow(name: string, width: int)

  datatype TimelineRow = TimelineRow(title: string, meta: string, description: string)

  /** An interest chip (`li.chip`). */
  datatype Chip = Chip(text: string)

  /** A certificate or achievement card, with an optional outbound link. */
  datatype Card = Card(title: string, meta: string, link: Option<Anchor>)

  /** The placeholder shown for a missing name or title (an em dash). */
  const Placeholder := "\U{2014}"
  const OpenEnd := "Present"
  const TimelineSeparator := " | "
  const CertificateSeparator := " \U{2022} "
  const AchievementLinkText := "View Profile"

  /**
   * A contact row: the label followed by ":", then a link when the contact
   * has an href (showing the value, or the href when the value is empty),
   * else plain text. A link never has empty text.
   */
  function ContactRowOf(c: Contact): (r: ContactRow)
    ensures r.caption == c.labelText + ":"
    ensures r.value.Link? <==> c.href != ""
    ensures r.value.Link? ==> r.value.anchor.href == c.href && r.value.anchor.text != ""
    ensures r.value.Link? && c.value != "" ==> r.value.anchor.text == c.value
    ensures r.value.Link? && c.value == "" ==> r.value.anchor.text == c.href
    ensures r.value.Text? ==> r.value.text == c.value
  {
    var value :=
      if c.href != "" then
        var xs := [c.value, c.href];
        assert xs[1] == c.href && xs[1..] == [c.href];
        Link(Anchor(c.href, FirstNonEmpty(xs)))
      else Text(c.value);
    ContactRow(c.labelText + ":", value)
  }

  /** `Math.max(0, Math.min(100, level))`: the level clamped to [0, 100]. */
  function SkillWidth(level: int): (w: int)
    ensures 0 <= w <= 100
    ensures 0 <= level <= 100 ==> w == level
    ensures level < 0 ==> w == 0
    ensures level > 100 ==> w == 100
  {
    if level < 0 then 0 else if level > 100 then 100 else level
  }

  /** A skill row: the skill's name, and a bar as wide as its level, held within [0, 100]. */
  function SkillRowOf(s: Skill): (r: SkillRow)
    ensures r.name == s.name && 0 <= r.width <= 100
    ensures 0 <= s.level <= 100 ==> r.width == s.level
  {
    SkillRow(s.name, SkillWidth(s.level))
  }

  /** The date range `start - end`, the end defaulting to "Present". */
  function DateRange(e: Entry): string {
    e.start + " - " + FirstNonEmpty([e.finish, OpenEnd])
  }

  /** The meta line of a timeline entry: degree or role, and the date range, joined by " | ". */
  function TimelineMeta(e: Entry): string {
    Join(NonEmpty([FirstNonEmpty([e.degree, e.role]), DateRange(e)]), TimelineSeparator)
  }

  function TimelineRowOf(e: Entry): TimelineRow {
    TimelineRow(FirstNonEmpty([e.institution, e.company, e.project]), TimelineMeta(e), e.description)
  }

  /**
   * The title of a timeline row is the first non-empty of institution,
   * company and project, else "".
   */
  lemma TimelineTitle(e: Entry)
    ensures var t := TimelineRowOf(e).title;
      && (e.institution != "" ==> t == e.institution)
      && (e.institution == "" && e.company != "" ==> t == e.company)
      && (e.institution == "" && e.company == "" ==> t == e.project)
  {
    var xs := [e.institution, e.company, e.project];
    if e.institution != "" {
      FirstNonEmptyAt(xs, 0);
    } else if e.company != "" {
      FirstNonEmptyAt(xs, 1);
    } else if e.project != "" {
      FirstNonEmptyAt(xs, 2);
    } else {
      assert forall i | 0 <= i < |xs| :: xs[i] == "";
    }
  }

  /**
   * The meta line of a timeline row: the date range alone when degree and
   * role are both empty, else degree (or role) + " | " + range; the range
   * is never empty and ends with the end date, or "Present" without one.
   */
  lemma TimelineMetaParts(e: Entry)
    ensures var lead := FirstNonEmpty([e.degree, e.role]);
      TimelineRowOf(e).meta == if lead == "" then DateRange(e) else lead + TimelineSeparator + DateRange(e)
    ensures e.finish == "" ==> DateRange(e) == e.start + " - " + OpenEnd
    ensures e.finish != "" ==> DateRange(e) == e.start + " - " + e.finish
    ensures DateRange(e) != ""
  {
    JoinNonEmptyPair(FirstNonEmpty([e.degree, e.role]), DateRange(e), TimelineSeparator);
    var ends := [e.finish, OpenEnd];
    if e.finish == "" {
      FirstNonEmptyAt(ends, 1);
    } else {
      FirstNonEmptyAt(ends, 0);
    }
    assert |DateRange(e)| >= 3;
  }

  /** The meta line of a certificate: issuer and date, whichever are present, joined by " • ". */
  function CertificateMeta(c: Certificate): (m: string)
    ensures c.issuer == "" ==> m == c.date
    ensures c.date == "" ==> m == c.issuer
    ensures c.issuer != "" && c.date != "" ==> m == c.issuer + CertificateSeparator + c.date
  {
    JoinNonEmptyPair(c.issuer, c.date, CertificateSeparator);
    Join(NonEmpty([c.issuer, c.date]), CertificateSeparator)
  }

  /** A certificate card: its link, shown as itself, only when it has one. */
  function CertificateCard(c: Certificate): (r: Card)
    ensures r.link.Some? <==> c.link != ""
    ensures r.link.Some? ==> r.link.value == Anchor(c.link, c.link)
  {
    Card(c.title, CertificateMeta(c), if c.link != "" then Some(Anchor(c.link, c.link)) else None)
  }

  /** An achievement card: its link, labelled "View Profile", only when it has one. */
  function AchievementCard(a: Achievement): (r: Card)
    ensures r.link.Some? <==> a.link != ""
    ensures r.link.Some? ==> r.link.value == Anchor(a.link, AchievementLinkText)
  {
    Card(a.title, a.description, if a.link != "" then Some(Anchor(a.link, AchievementLinkText)) else None)
  }

  /** An interest chip shows the interest as it is. */
  function ChipOf(name: string): Chip {
    Chip(name)
  }
}
