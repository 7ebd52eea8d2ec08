/**
 * The journey map of components/CustomerJourneyTab.tsx: the constant table of
 * thirteen touchpoints, the height each one is drawn at, the cubic segments
 * that join them into four branches, and the arrow that reconnects the
 * LinkedIn branch to the email branch.
 *
 * Coordinates are exact reals; the page computes them as JavaScript doubles.
 */
module JourneyLayout {
  import opened Wrappers

  /** One stage of the outreach journey, as the table lists it; the mood is the table's string. */
  datatype Touchpoint = Touchpoint(id: int, name: string, timing: string, day: int, x: int,
                                   mood: string, description: string)

  /**
   * The moods the height switch tells apart: the five strings it names, and
   * `Other` for every string it does not.
   */
  datatype Mood = Peak | Positive | PositiveAlt | Neutral | Urgent | Other

  /** The mood a mood string stands for. */
  function MoodOf(s: string): (m: Mood)
    ensures m == Peak <==> s == "peak"
    ensures m == Positive <==> s == "positive"
    ensures m == PositiveAlt <==> s == "positive-alt"
    ensures m == Neutral <==> s == "neutral"
    ensures m == Urgent <==> s == "urgent"
  {
    match s
    case "peak" => Peak
    case "positive" => Positive
    case "positive-alt" => PositiveAlt
    case "neutral" => Neutral
    case "urgent" => Urgent
    case _ => Other
  }

  /**
   * The table, given the thirteen descriptions; nothing the map computes
   * depends on them. It lists ids 1 to 13 once each, in ascending order, each
   * with its own description.
   */
  function Table(objectives: seq<string>): (t: seq<Touchpoint>)
    requires |objectives| == 13
    ensures |t| == 13
    ensures forall i :: 0 <= i < 13 ==> t[i].id == i + 1 && t[i].description == objectives[i]
  {
    [
      Touchpoint(1, "Initial Greeting", "0-1 min", 0, 50, "positive", objectives[0]),
      Touchpoint(2, "Main Pitch", "2-3 min", 0, 120, "peak", objectives[1]),
      Touchpoint(3, "Response Qualification", "5-10 min", 0, 200, "neutral", objectives[2]),
      Touchpoint(4, "Send Overview Email", "Day 0", 0, 300, "positive", objectives[3]),
      Touchpoint(5, "Confirm Email Sent via Chat", "Day 0", 0, 370, "peak", objectives[4]),
      Touchpoint(6, "Email Content Follow-up", "Day 4", 4, 460, "positive-alt", objectives[5]),
      Touchpoint(7, "Confirm Follow-up Sent via Chat", "Day 4", 4, 530, "peak", objectives[6]),
      Touchpoint(8, "LinkedIn Email Ask", "Day 4", 4, 460, "neutral", objectives[7]),
      Touchpoint(9, "High-Value Rescue #1", "Day 7", 7, 630, "neutral", objectives[8]),
      Touchpoint(10, "Social Proof", "Day 10", 10, 720, "peak", objectives[9]),
      Touchpoint(11, "Discovery Meeting Held", "Variable", 15, 850, "neutral", objectives[10]),
      Touchpoint(12, "Sponsorship Proposal Meeting", "+2 days", 17, 980, "positive", objectives[11]),
      Touchpoint(13, "Deal Closed", "+7 days", 24, 1100, "peak", objectives[12])
    ]
  }

  /** The descriptions, in table order (split into phrases). */
  const Objectives: seq<string> := [
    "Warm, personal greeting to establish human "
    + "connection. The key is to take your time and "
    + "not rush.",
    "The complete value proposition: Authority + "
    + "Event USPs + Social Proof. Delivered 2-3 "
    + "minutes after the initial greeting.",
    "Qualify responses and provide specific "
    + "answers. Move interested prospects to the "
    + "email and meeting process.",
    "Send the comprehensive overview email with "
    + "all event details, sponsorship "
    + "opportunities, and social proof.",
    "Close the loop on the original chat platform "
    + "to confirm the email was sent and prompt the "
    + "prospect to check their inbox.",
    "Follow up on the overview email with new, "
    + "valuable information to re-engage the "
    + "prospect.",
    "A second, quick 'close the loop' action on "
    + "the original chat platform to notify the "
    + "prospect of the follow-up email.",
    "For prospects who showed interest but "
    + "haven't provided an email yet. A second "
    + "attempt to get their email to bring them "
    + "into the main flow.",
    "A strategic, high-value follow-up for "
    + "important prospects who have gone silent "
    + "after the first follow-up.",
    "Leverage new high-profile sponsors, "
    + "speakers, or media partnerships to create "
    + "FOMO and re-engage prospects.",
    "The first major goal: a successful discovery "
    + "call to understand the prospect's needs and "
    + "present the event's core value.",
    "Present tailored sponsorship packages based "
    + "on the discovery call, addressing specific "
    + "needs and budget.",
    "Successful conversion to sponsor, contract "
    + "signed, and onboarding begins."
  ]

  /** The journey, in the order the table lists it. */
  const Touchpoints: seq<Touchpoint> := Table(Objectives)

  // ---------------------------------------------------------------------------
  // Heights
  // ---------------------------------------------------------------------------

  const Height: real := 300.0
  const CenterY: real := Height / 2.0
  const Amplitude: real := 60.0
  const BifurcationOffsetY: real := 70.0

  /** The id of the one point drawn on the lower, LinkedIn branch. */
  const LinkedInAskId: int := 8

  /** The height a mood puts a point at; an unknown mood stays on the centre line. */
  function MoodY(mood: Mood): (y: real)
    ensures mood == Peak ==> y == 90.0
    ensures mood == Positive ==> y == 114.0
    ensures mood == PositiveAlt ==> y == 126.0
    ensures mood == Urgent ==> y == 180.0
    ensures mood == Neutral || mood == Other ==> y == 150.0
    ensures CenterY - Amplitude <= y <= CenterY + Amplitude
  {
    match mood
    case Peak => CenterY - Amplitude
    case Positive => CenterY - Amplitude * 0.6
    case PositiveAlt => CenterY - Amplitude * 0.4
    case Neutral => CenterY
    case Urgent => CenterY + Amplitude * 0.5
    case Other => CenterY
  }

  /** A touchpoint with the height the map draws it at. */
  datatype Placed = Placed(point: Touchpoint, y: real)

  /** The point keeps all its fields; only id 8 leaves its mood's height, 70 lower. */
  function Place(p: Touchpoint): (r: Placed)
    ensures r.point == p
    ensures r.y >= MoodY(MoodOf(p.mood))
    ensures r.y != MoodY(MoodOf(p.mood)) <==> p.id == LinkedInAskId
    ensures p.id == LinkedInAskId ==> r.y == MoodY(MoodOf(p.mood)) + 70.0
  {
    var y := MoodY(MoodOf(p.mood));
    Placed(p, if p.id == LinkedInAskId then y + BifurcationOffsetY else y)
  }

  /**
   * The derived point list: every entry of the table, in the table's order,
   * with all its fields, at its mood's height, and 70 lower for id 8 alone.
   */
  function Layout(ps: seq<Touchpoint>): (r: seq<Placed>)
    ensures |r| == |ps|
    ensures forall i :: 0 <= i < |ps| ==> r[i].point == ps[i]
    ensures forall i :: 0 <= i < |ps| ==>
      r[i].y == MoodY(MoodOf(ps[i].mood)) + (if ps[i].id == 8 then 70.0 else 0.0)
  {
    if ps == [] then [] else [Place(ps[0])] + Layout(ps[1..])
  }

  /** Only the point with id 8 leaves its mood's height. */
  lemma OnlyLinkedInAskOffset(ps: seq<Touchpoint>, i: int)
    requires 0 <= i < |ps|
    ensures Layout(ps)[i].y != MoodY(MoodOf(ps[i].mood)) <==> ps[i].id == 8
    ensures Layout(ps)[i].y >= MoodY(MoodOf(ps[i].mood))
  {
  }

  /** The heights of the thirteen points, in table order. */
  lemma LayoutHeights(objectives: seq<string>)
    requires |objectives| == 13
    ensures var l := Layout(Table(objectives));
      && l[0].y == 114.0 && l[1].y == 90.0 && l[2].y == 150.0 && l[3].y == 114.0
      && l[4].y == 90.0 && l[5].y == 126.0 && l[6].y == 90.0 && l[7].y == 220.0
      && l[8].y == 150.0 && l[9].y == 90.0 && l[10].y == 150.0 && l[11].y == 114.0
      && l[12].y == 90.0
  {
  }

  // ---------------------------------------------------------------------------
  // Looking a point up by id
  // ---------------------------------------------------------------------------

  /** `findIndex` by id: the first position holding that id, or -1. */
  function FindIndex(ps: seq<Placed>, id: int): (k: int)
    ensures -1 <= k < |ps|
    ensures k == -1 <==> forall j :: 0 <= j < |ps| ==> ps[j].point.id != id
    ensures k >= 0 ==> ps[k].point.id == id && forall j :: 0 <= j < k ==> ps[j].point.id != id
  {
    if ps == [] then -1
    else if ps[0].point.id == id then 0
    else
      var k := FindIndex(ps[1..], id);
      if k == -1 then -1 else k + 1
  }

  /** `find` by id: the first point with that id, if there is one. */
  function Find(ps: seq<Placed>, id: int): (r: Option<Placed>)
    ensures r.None? <==> forall j :: 0 <= j < |ps| ==> ps[j].point.id != id
    ensures r.Some? ==>
      exists k :: 0 <= k < |ps| && ps[k] == r.value && r.value.point.id == id
                  && (forall j :: 0 <= j < k ==> ps[j].point.id != id)
  {
    var k := FindIndex(ps, id);
    if k == -1 then None else Some(ps[k])
  }

  /** In a list whose i-th entry has id i + 1, id k is found at position k - 1. */
  lemma FindInOrderedList(ps: seq<Placed>)
    requires forall i :: 0 <= i < |ps| ==> ps[i].point.id == i + 1
    ensures forall id :: 1 <= id <= |ps| ==> FindIndex(ps, id) == id - 1 && Find(ps, id) == Some(ps[id - 1])
  {
    forall id | 1 <= id <= |ps|
      ensures FindIndex(ps, id) == id - 1
    {
      assert ps[id - 1].point.id == id;
    }
  }

  // ---------------------------------------------------------------------------
  // Curves, paths and the arrow
  // ---------------------------------------------------------------------------

  datatype Coord = Coord(x: real, y: real)

  /** Where a placed point sits on the map. */
  function Position(p: Placed): Coord {
    Coord(p.point.x as real, p.y)
  }

  /** One cubic piece of a path: two control points and the end point. */
  datatype Curve = Curve(c1: Coord, c2: Coord, end: Coord)

  predicate Between(a: real, v: real, b: real) {
    (a <= v <= b) || (b <= v <= a)
  }

  /**
   * `getPathSegment`: the curve leaves `start` level and arrives at `end`
   * level; its control points divide the horizontal run 3:7 and 7:3.
   */
  function Segment(start: Coord, end: Coord): (c: Curve)
    ensures c.end == end
    ensures c.c1.y == start.y && c.c2.y == end.y
    ensures 7.0 * (c.c1.x - start.x) == 3.0 * (end.x - c.c1.x)
    ensures 3.0 * (c.c2.x - start.x) == 7.0 * (end.x - c.c2.x)
    ensures Between(start.x, c.c1.x, end.x) && Between(start.x, c.c2.x, end.x)
    ensures start.x <= end.x ==> c.c1.x <= c.c2.x
  {
    var dx := end.x - start.x;
    Curve(Coord(start.x + dx * 0.3, start.y), Coord(start.x + dx * 0.7, end.y), end)
  }

  /** `cs` are the segments from each point of `pts` to the next. */
  predicate Joins(cs: seq<Curve>, pts: seq<Coord>) {
    |cs| + 1 == |pts| && forall i :: 0 <= i < |cs| ==> cs[i] == Segment(pts[i], pts[i + 1])
  }

  function Ends(cs: seq<Curve>): seq<Coord> {
    if cs == [] then [] else [cs[0].end] + Ends(cs[1..])
  }

  /** The segments through a list of points; the curves end at the points after the first. */
  function Chain(pts: seq<Coord>): (cs: seq<Curve>)
    requires pts != []
    ensures Joins(cs, pts)
    ensures Ends(cs) == pts[1..]
  {
    if |pts| == 1 then [] else [Segment(pts[0], pts[1])] + Chain(pts[1..])
  }

  /** An SVG path: a move, an optional straight line, then cubic curves. */
  datatype Path = Path(moveTo: Coord, lineTo: Option<Coord>, curves: seq<Curve>)

  /** `p` moves to `moveTo`, draws the line `lineTo` if any, then curves from each of `pts` to the next. */
  predicate Through(p: Path, moveTo: Coord, lineTo: Option<Coord>, pts: seq<Coord>) {
    p.moveTo == moveTo && p.lineTo == lineTo && Joins(p.curves, pts)
  }

  /** The path that moves to `moveTo`, draws `lineTo` if any, then one segment from each of `pts` to the next. */
  function PathThrough(moveTo: Coord, lineTo: Option<Coord>, pts: seq<Coord>): (p: Path)
    requires pts != []
    ensures Through(p, moveTo, lineTo, pts)
    ensures Ends(p.curves) == pts[1..]
  {
    Path(moveTo, lineTo, Chain(pts))
  }

  /** A straight line from (x1, y1) to (x2, y2) ending in an arrowhead. */
  datatype Arrow = Arrow(x1: real, y1: real, x2: real, y2: real)

  datatype WaveData = WaveData(points: seq<Placed>, mainPath1: Path, emailPath: Path,
                               linkedinPath: Path, mainPath2: Path, arrow: Arrow)

  /** Every id the paths use is in the list. */
  predicate HasJourneyIds(ps: seq<Placed>) {
    forall id :: 1 <= id <= 13 ==> FindIndex(ps, id) >= 0
  }

  /** The position of the point with id `id`. */
  function At(ps: seq<Placed>, id: int): Coord
    requires FindIndex(ps, id) >= 0
  {
    Position(ps[FindIndex(ps, id)])
  }

  /**
   * `waveData` for a placed point list: the points as given, the four
   * branches, and the arrow from 10 above point 8 to 10 right of point 4.
   */
  function Wave(ps: seq<Placed>): (w: WaveData)
    requires HasJourneyIds(ps)
    ensures w.points == ps
    ensures w.arrow == Arrow(At(ps, 8).x, At(ps, 8).y - 10.0, At(ps, 4).x + 10.0, At(ps, 4).y)
  {
    WaveData(
      ps,
      PathThrough(Coord(0.0, CenterY), Some(At(ps, 1)), [At(ps, 1), At(ps, 2), At(ps, 3)]),
      PathThrough(At(ps, 3), None, [At(ps, 3), At(ps, 4), At(ps, 5), At(ps, 6), At(ps, 7), At(ps, 9)]),
      PathThrough(At(ps, 3), None, [At(ps, 3), At(ps, 8)]),
      PathThrough(At(ps, 9), None, [At(ps, 9), At(ps, 10), At(ps, 11), At(ps, 12), At(ps, 13)]),
      Arrow(At(ps, 8).x, At(ps, 8).y - 10.0, At(ps, 4).x + 10.0, At(ps, 4).y))
  }

  /**
   * The branches: the entry path runs from the left edge at mid-height
   * through 1, 2 and 3; the email branch 3, 4, 5, 6, 7, 9; the LinkedIn branch
   * 3 to 8; the tail 9 to 13.
   */
  lemma WaveTopology(ps: seq<Placed>)
    requires HasJourneyIds(ps)
    ensures var w := Wave(ps);
      && Through(w.mainPath1, Coord(0.0, 150.0), Some(At(ps, 1)), [At(ps, 1), At(ps, 2), At(ps, 3)])
      && Through(w.emailPath, At(ps, 3), None, [At(ps, 3), At(ps, 4), At(ps, 5), At(ps, 6), At(ps, 7), At(ps, 9)])
      && Ends(w.emailPath.curves) == [At(ps, 4), At(ps, 5), At(ps, 6), At(ps, 7), At(ps, 9)]
      && Through(w.linkedinPath, At(ps, 3), None, [At(ps, 3), At(ps, 8)])
      && Through(w.mainPath2, At(ps, 9), None, [At(ps, 9), At(ps, 10), At(ps, 11), At(ps, 12), At(ps, 13)])
  {
  }

  /** A list whose i-th entry has id i + 1 keeps that order once placed. */
  lemma LayoutFinds(ps: seq<Touchpoint>)
    requires forall i :: 0 <= i < |ps| ==> ps[i].id == i + 1
    ensures forall id :: 1 <= id <= |ps| ==> FindIndex(Layout(ps), id) == id - 1
  {
    FindInOrderedList(Layout(ps));
  }

  /** Where the map puts the thirteen points. */
  lemma JourneyCoordinates(objectives: seq<string>)
    requires |objectives| == 13
    ensures var l := Layout(Table(objectives));
      && HasJourneyIds(l)
      && At(l, 1) == Coord(50.0, 114.0) && At(l, 2) == Coord(120.0, 90.0)
      && At(l, 3) == Coord(200.0, 150.0) && At(l, 4) == Coord(300.0, 114.0)
      && At(l, 5) == Coord(370.0, 90.0) && At(l, 6) == Coord(460.0, 126.0)
      && At(l, 7) == Coord(530.0, 90.0) && At(l, 8) == Coord(460.0, 220.0)
      && At(l, 9) == Coord(630.0, 150.0) && At(l, 10) == Coord(720.0, 90.0)
      && At(l, 11) == Coord(850.0, 150.0) && At(l, 12) == Coord(980.0, 114.0)
      && At(l, 13) == Coord(1100.0, 90.0)
  {
    LayoutFinds(Table(objectives));
    LayoutHeights(objectives);
  }

  /**
   * The map the page draws, from the constant table: the placed table, with
   * the reconnect arrow from (460, 210), above point 8, to (310, 114), right
   * of point 4.
   */
  function JourneyWave(): (w: WaveData)
    ensures w.points == Layout(Touchpoints)
    ensures w.arrow == Arrow(460.0, 210.0, 310.0, 114.0)
  {
    JourneyCoordinates(Objectives);
    Wave(Layout(Touchpoints))
  }
}
