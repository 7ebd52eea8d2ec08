/**
 * The details card of components/CustomerJourneyTab.tsx (`renderDetails`):
 * which panel is shown for the selected touchpoint. The panels' own text is
 * presentation and is named here, not reproduced.
 */
module JourneyDetails {
  import opened Wrappers
  import opened JourneyLayout

  /** The channel variant of the shared day-four follow-up panel. */
  datatype Channel = Email | LinkedIn

  /** The bespoke detail components, one per stage that has one. */
  datatype Component =
    | InitialGreeting | MainPitch | ResponseQualification | SendOverviewEmail | ConfirmEmailSent
    | DayFourFollowup(variant: Channel) | ConfirmFollowupSent | HighValueRescue
    | DiscoveryMeeting | SponsorshipProposalMeeting

  /**
   * What goes under the header: a bespoke component, or the generic template
   * card with a title, a body, whether it has a copy button and whether the
   * body is shown preformatted.
   */
  datatype Content =
    | Bespoke(component: Component)
    | Template(title: string, body: string, copyButton: bool, preformatted: bool)

  /** The card: the introduction when nothing is selected, else the header and the content. */
  datatype Panel =
    | Intro
    | Details(name: string, timing: string, objective: string, content: Content)

  const ComingSoon: string := "Template coming soon..."

  /** The ids that have a bespoke component. */
  const BespokeIds: set<int> := {1, 2, 3, 4, 5, 6, 7, 8, 9, 11, 12}

  /** The ids whose card shows their description in the template. */
  const DescriptionIds: set<int> := {10, 13}

  /** The `switch (point.id)`: total, with a placeholder for every unknown id. */
  function SpecificContent(id: int, description: string): (c: Content)
    ensures c.Bespoke? <==> id in BespokeIds
    ensures c.Bespoke? && c.component.DayFourFollowup? <==> id == 6 || id == 8
    ensures id == 1 ==> c == Bespoke(InitialGreeting)
    ensures id == 2 ==> c == Bespoke(MainPitch)
    ensures id == 3 ==> c == Bespoke(ResponseQualification)
    ensures id == 4 ==> c == Bespoke(SendOverviewEmail)
    ensures id == 5 ==> c == Bespoke(ConfirmEmailSent)
    ensures id == 6 ==> c == Bespoke(DayFourFollowup(Email))
    ensures id == 7 ==> c == Bespoke(ConfirmFollowupSent)
    ensures id == 8 ==> c == Bespoke(DayFourFollowup(LinkedIn))
    ensures id == 9 ==> c == Bespoke(HighValueRescue)
    ensures id == 11 ==> c == Bespoke(DiscoveryMeeting)
    ensures id == 12 ==> c == Bespoke(SponsorshipProposalMeeting)
    ensures id in DescriptionIds ==> c == Template("Details", description, true, false)
    ensures id !in BespokeIds + DescriptionIds ==> c == Template("Example Message", ComingSoon, false, true)
  {
    match id
    case 1 => Bespoke(InitialGreeting)
    case 2 => Bespoke(MainPitch)
    case 3 => Bespoke(ResponseQualification)
    case 4 => Bespoke(SendOverviewEmail)
    case 5 => Bespoke(ConfirmEmailSent)
    case 6 => Bespoke(DayFourFollowup(Email))
    case 7 => Bespoke(ConfirmFollowupSent)
    case 8 => Bespoke(DayFourFollowup(LinkedIn))
    case 9 => Bespoke(HighValueRescue)
    case 11 => Bespoke(DiscoveryMeeting)
    case 12 => Bespoke(SponsorshipProposalMeeting)
    case 10 => Template("Details", description, true, false)
    case 13 => Template("Details", description, true, false)
    case _ => Template("Example Message", ComingSoon, false, true)
  }

  /**
   * `renderDetails`: the introduction when nothing is selected; otherwise a
   * header with the point's name, timing and description above the content
   * its id selects.
   */
  function RenderDetails(selected: Option<Touchpoint>): (panel: Panel)
    ensures panel.Intro? <==> selected.None?
    ensures selected.Some? ==>
      && panel.name == selected.value.name
      && panel.timing == selected.value.timing
      && panel.objective == selected.value.description
      && panel.content == SpecificContent(selected.value.id, selected.value.description)
  {
    match selected
    case None => Intro
    case Some(p) => Details(p.name, p.timing, p.description, SpecificContent(p.id, p.description))
  }

  /** Different bespoke ids show different components. */
  lemma BespokeDistinct(a: int, b: int, da: string, db: string)
    requires a in BespokeIds && b in BespokeIds && a != b
    ensures SpecificContent(a, da) != SpecificContent(b, db)
  {
  }

  /** No touchpoint of the table shows the placeholder: every stage has real content. */
  lemma TableHasContent(objectives: seq<string>, i: int)
    requires |objectives| == 13 && 0 <= i < 13
    ensures var p := Table(objectives)[i];
      RenderDetails(Some(p)).content != Template("Example Message", ComingSoon, false, true)
  {
    var p := Table(objectives)[i];
    assert p.id in BespokeIds + DescriptionIds;
  }
}
