/**
 Building a car park from a description: a site, entrances and exits, obstacles, and regions of parking
 bays, checked against each other as they come.
 */
module ParkingLayouts {
  import opened Outcomes
  import opened Points
  import opened ParkingGeometry

  // --- Spot identifiers --------------------------------------------------------------

  function Digit(n: nat): char
    requires n < 10
  {
    '0' + n as char
  }

  function Digits(n: nat): string {
    if n < 10 then [Digit(n)] else Digits(n / 10) + [Digit(n % 10)]
  }

  function Zeros(n: nat): string {
    if n == 0 then "" else Zeros(n - 1) + "0"
  }

  /** At least three places, filled with zeros. */
  function SpotIdentifier(prefix: string, serial: nat): string {
    var digits := Digits(serial);
    prefix + Zeros(if |digits| < 3 then 3 - |digits| else 0) + digits
  }

  function Value(s: string): int {
    if s == "" then 0 else 10 * Value(s[..|s| - 1]) + (s[|s| - 1] as int - '0' as int)
  }

  lemma {:induction false} ValueOfDigits(n: nat)
    ensures Value(Digits(n)) == n
  {
    if n >= 10 {
      ValueOfDigits(n / 10);
      assert Digits(n)[..|Digits(n)| - 1] == Digits(n / 10);
    }
  }

  lemma {:induction false} ValueOfZeros(n: nat)
    ensures Value(Zeros(n)) == 0
  {
    if n > 0 {
      ValueOfZeros(n - 1);
      assert Zeros(n)[..|Zeros(n)| - 1] == Zeros(n - 1);
    }
  }

  lemma {:induction false} ValueAfterZeros(n: nat, s: string)
    ensures Value(Zeros(n) + s) == Value(s)
    decreases |s|
  {
    if s == "" {
      ValueOfZeros(n);
      assert Zeros(n) + s == Zeros(n);
    } else {
      var all := Zeros(n) + s;
      assert all[..|all| - 1] == Zeros(n) + s[..|s| - 1];
      ValueAfterZeros(n, s[..|s| - 1]);
    }
  }

  /** Different serial numbers give different identifiers, whatever the prefix. */
  lemma IdentifiersDistinct(prefix: string, a: nat, b: nat)
    requires SpotIdentifier(prefix, a) == SpotIdentifier(prefix, b)
    ensures a == b
  {
    var padA, padB := if |Digits(a)| < 3 then 3 - |Digits(a)| else 0, if |Digits(b)| < 3 then 3 - |Digits(b)| else 0;
    var restA, restB := Zeros(padA) + Digits(a), Zeros(padB) + Digits(b);
    assert SpotIdentifier(prefix, a) == prefix + restA && SpotIdentifier(prefix, b) == prefix + restB;
    assert restA == (prefix + restA)[|prefix|..] == (prefix + restB)[|prefix|..] == restB;
    ValueAfterZeros(padA, Digits(a));
    ValueAfterZeros(padB, Digits(b));
    ValueOfDigits(a);
    ValueOfDigits(b);
  }

  // --- Layouts ----------------------------------------------------------------------

  datatype Spot = Spot(id: string, zone: string, row: int, column: int, bounds: Rectangle, access: Point, spotType: int)

  datatype Obstacle = Obstacle(name: string, bounds: Rectangle)

  /** History variables: `plans`, the descriptions of the regions in order, and `homes`, each spot's region. */
  datatype Layout = Layout(siteWidth: real, siteHeight: real, spots: seq<Spot>, regions: seq<Rectangle>,
                           obstacles: seq<Obstacle>, entrances: seq<Point>, exits: seq<Point>, prefix: string,
                           plans: seq<Region>, homes: seq<nat>)

  function SpotAt(r: Region, prefix: string, serial: nat, row: int, column: int): Spot {
    Spot(SpotIdentifier(prefix, serial), r.name, row, column, SpotBounds(r, row, column), AccessPoint(r, row, column), r.spotType)
  }

  /** The spots of a region row by row, up to a column of a row; `start` spots come before them. */
  function SpotsUpTo(r: Region, prefix: string, start: nat, row: nat, column: nat): seq<Spot>
    requires r.columns >= 0
    decreases row, column
  {
    if column > 0 then
      var earlier := SpotsUpTo(r, prefix, start, row, column - 1);
      earlier + [SpotAt(r, prefix, start + |earlier| + 1, row, column - 1)]
    else if row > 0 then SpotsUpTo(r, prefix, start, row - 1, r.columns)
    else []
  }

  function SpotsOf(r: Region, prefix: string, start: nat): seq<Spot>
    requires r.columns >= 0 && r.rows >= 0
  {
    SpotsUpTo(r, prefix, start, r.rows, 0)
  }

  predicate InSite(l: Layout, b: Rectangle) {
    && b.x >= -TOLERANCE && b.y >= -TOLERANCE
    && b.x + b.width <= l.siteWidth + TOLERANCE && b.y + b.height <= l.siteHeight + TOLERANCE
  }

  predicate Free(l: Layout, b: Rectangle) {
    && (forall i :: 0 <= i < |l.regions| ==> !Overlap(b, l.regions[i]))
    && (forall i :: 0 <= i < |l.obstacles| ==> !Overlap(b, l.obstacles[i].bounds))
  }

  function WithRegion(l: Layout, r: Region): Option<Layout>
    requires r.columns > 0 && r.rows > 0
  {
    var prefix := if l.regions == [] then r.name else l.prefix;
    var bounds := RegionBounds(r);
    if !InSite(l, bounds) || !Free(l, bounds) || r.aisleWidth < MIN_AISLE then None
    else
      var spots := SpotsOf(r, prefix, |l.spots|);
      Some(l.(spots := l.spots + spots, regions := l.regions + [bounds], prefix := prefix,
              plans := l.plans + [r], homes := l.homes + seq(|spots|, i => |l.plans|)))
  }

  function WithObstacle(l: Layout, name: string, b: Rectangle): Option<Layout> {
    if !InSite(l, b) || !Free(l, b) then None
    else Some(l.(obstacles := l.obstacles + [Obstacle(if name == "" then "room" else name, b)]))
  }

  // --- Descriptions -------------------------------------------------------------------

  /** A line of a description, cut into tokens; a missing or unreadable one is None. */
  datatype Command =
    | Comment
    | Site(width: Option<real>, height: Option<real>)
    | Entrance(x: Option<real>, y: Option<real>)
    | Exit(x: Option<real>, y: Option<real>)
    | Block(name: string, x: Option<real>, y: Option<real>, width: Option<real>, height: Option<real>)
    | Bays(name: string, x: Option<real>, y: Option<real>, rows: Option<int>, columns: Option<int>,
           spotWidth: Option<real>, spotLength: Option<real>, aisleWidth: Option<real>,
           side: Option<AisleSide>, spotType: Option<int>)
    | Unknown

  predicate Positive(x: Option<real>) { x.Some? && x.value > 0.0 }

  predicate NonNegative(x: Option<real>) { x.Some? && x.value >= 0.0 }

  predicate PositiveInt(x: Option<int>) { x.Some? && x.value > 0 }

  function GateAt(l: Layout, x: Option<real>, y: Option<real>): Option<Point> {
    if NonNegative(x) && NonNegative(y) && Contains(Rectangle(0.0, 0.0, l.siteWidth, l.siteHeight), Point(x.value, y.value))
    then Some(Point(x.value, y.value)) else None
  }

  function RegionIn(c: Command): Option<Region>
    requires c.Bays?
  {
    if c.name != "" && NonNegative(c.x) && NonNegative(c.y) && PositiveInt(c.rows) && PositiveInt(c.columns)
       && Positive(c.spotWidth) && Positive(c.spotLength) && Positive(c.aisleWidth) && c.side.Some? && c.spotType.Some?
    then Some(Region(c.name, c.x.value, c.y.value, c.rows.value, c.columns.value, c.spotWidth.value, c.spotLength.value,
                     c.aisleWidth.value, c.side.value, c.spotType.value))
    else None
  }

  const NOWHERE := Layout(1.0, 1.0, [], [], [], [], [], "", [], [])

  /** No layout before the site line. */
  datatype Progress = Progress(hasSite: bool, layout: Layout)

  function Apply(p: Progress, c: Command): Option<Progress> {
    if c.Comment? then Some(p)
    else if c.Site? then
      if !p.hasSite && Positive(c.width) && Positive(c.height) && c.width.value >= 10.0 && c.height.value >= 10.0
      then Some(Progress(true, NOWHERE.(siteWidth := c.width.value, siteHeight := c.height.value))) else None
    else if !p.hasSite then None
    else
      match c
      case Entrance(x, y) =>
        var gate := GateAt(p.layout, x, y);
        if gate.None? then None else Some(p.(layout := p.layout.(entrances := p.layout.entrances + [gate.value])))
      case Exit(x, y) =>
        var gate := GateAt(p.layout, x, y);
        if gate.None? then None else Some(p.(layout := p.layout.(exits := p.layout.exits + [gate.value])))
      case Block(name, x, y, width, height) =>
        if !NonNegative(x) || !NonNegative(y) || !Positive(width) || !Positive(height) then None
        else Updated(p, WithObstacle(p.layout, name, Rectangle(x.value, y.value, width.value, height.value)))
      case Bays(_, _, _, _, _, _, _, _, _, _) =>
        var region := RegionIn(c);
        if region.None? then None else Updated(p, WithRegion(p.layout, region.value))
      case _ => None
  }

  function Updated(p: Progress, layout: Option<Layout>): Option<Progress> {
    if layout.None? then None else Some(p.(layout := layout.value))
  }

  function ApplyAll(commands: seq<Command>): Option<Progress>
    decreases |commands|
  {
    if commands == [] then Some(Progress(false, NOWHERE))
    else
      var before := ApplyAll(commands[..|commands| - 1]);
      if before.None? then None else Apply(before.value, commands[|commands| - 1])
  }

  function FromDescription(commands: seq<Command>): Option<Layout> {
    var done := ApplyAll(commands);
    if done.None? || !done.value.hasSite || done.value.layout.entrances == [] || done.value.layout.exits == []
       || done.value.layout.spots == [] then None
    else Some(done.value.layout)
  }

  // --- The invariant ---------------------------------------------------------------------

  ghost predicate CellBefore(s: Spot, row: nat, column: nat) {
    0 <= s.row && 0 <= s.column && (s.row < row || (s.row == row && s.column < column))
  }

  /** Spots of one region: in its grid, each cell once, numbered on from `start`. */
  ghost predicate Laid(r: Region, prefix: string, start: nat, spots: seq<Spot>) {
    forall k :: 0 <= k < |spots| ==>
      && spots[k] == SpotAt(r, prefix, start + k + 1, spots[k].row, spots[k].column) && spots[k].column < r.columns
  }

  ghost predicate AllBefore(spots: seq<Spot>, row: nat, column: nat) {
    forall k :: 0 <= k < |spots| ==> CellBefore(spots[k], row, column)
  }

  ghost predicate CellsDiffer(spots: seq<Spot>) {
    forall k, m :: 0 <= k < m < |spots| ==> (spots[k].row, spots[k].column) != (spots[m].row, spots[m].column)
  }

  lemma SpotsAreLaidStep(r: Region, prefix: string, start: nat, row: nat, column: nat)
    requires column < r.columns
    requires var spots := SpotsUpTo(r, prefix, start, row, column);
             Laid(r, prefix, start, spots) && AllBefore(spots, row, column) && CellsDiffer(spots)
    ensures var spots := SpotsUpTo(r, prefix, start, row, column + 1);
            Laid(r, prefix, start, spots) && AllBefore(spots, row, column + 1) && CellsDiffer(spots)
  {
    NextCell(r, prefix, start, SpotsUpTo(r, prefix, start, row, column), row, column);
    hide Laid, AllBefore, CellsDiffer, SpotAt;
  }

  lemma {:induction false} SpotsAreLaid(r: Region, prefix: string, start: nat, row: nat, column: nat)
    requires 0 <= column <= r.columns
    ensures var spots := SpotsUpTo(r, prefix, start, row, column);
            Laid(r, prefix, start, spots) && AllBefore(spots, row, column) && CellsDiffer(spots)
    decreases row, column
  {
    if column > 0 {
      SpotsAreLaid(r, prefix, start, row, column - 1);
      hide SpotsUpTo, Laid, AllBefore, CellsDiffer;
      SpotsAreLaidStep(r, prefix, start, row, column - 1);
    } else if row > 0 {
      SpotsAreLaid(r, prefix, start, row - 1, r.columns);
      NextRow(r, prefix, start, SpotsUpTo(r, prefix, start, row - 1, r.columns), row - 1);
    }
  }

  lemma NextCell(r: Region, prefix: string, start: nat, spots: seq<Spot>, row: nat, column: nat)
    requires Laid(r, prefix, start, spots) && AllBefore(spots, row, column) && CellsDiffer(spots) && column < r.columns
    ensures var more := spots + [SpotAt(r, prefix, start + |spots| + 1, row, column)];
            Laid(r, prefix, start, more) && AllBefore(more, row, column + 1) && CellsDiffer(more)
  {
    hide SpotIdentifier, SpotBounds, AccessPoint;
    assert forall k :: 0 <= k < |spots| ==> CellBefore(spots[k], row, column);
  }

  lemma NextRow(r: Region, prefix: string, start: nat, spots: seq<Spot>, row: nat)
    requires r.columns >= 0 && AllBefore(spots, row, r.columns)
    ensures AllBefore(spots, row + 1, 0)
  {
    assert forall k :: 0 <= k < |spots| ==> CellBefore(spots[k], row, r.columns);
  }

  ghost predicate PlansMatch(l: Layout) {
    && |l.plans| == |l.regions|
    && forall i :: 0 <= i < |l.plans| ==> Proper(l.plans[i]) && l.regions[i] == RegionBounds(l.plans[i])
  }

  ghost predicate Apart(l: Layout) {
    && (forall i, j :: 0 <= i < j < |l.regions| ==> !Overlap(l.regions[i], l.regions[j]))
    && (forall i, j :: 0 <= i < j < |l.obstacles| ==> !Overlap(l.obstacles[i].bounds, l.obstacles[j].bounds))
    && (forall i, j :: 0 <= i < |l.regions| && 0 <= j < |l.obstacles| ==> !Overlap(l.regions[i], l.obstacles[j].bounds))
  }

  ghost predicate AllInSite(l: Layout) {
    && (forall i :: 0 <= i < |l.regions| ==> InSite(l, l.regions[i]))
    && (forall i :: 0 <= i < |l.obstacles| ==> InSite(l, l.obstacles[i].bounds))
  }

  ghost predicate SpotsMatch(l: Layout) {
    && |l.homes| == |l.spots|
    && (forall k :: 0 <= k < |l.spots| ==>
          && l.homes[k] < |l.plans| && InGrid(l.plans[l.homes[k]], l.spots[k].row, l.spots[k].column)
          && l.spots[k] == SpotAt(l.plans[l.homes[k]], l.prefix, k + 1, l.spots[k].row, l.spots[k].column))
    && (forall k, m :: 0 <= k < m < |l.spots| && l.homes[k] == l.homes[m] ==>
          (l.spots[k].row, l.spots[k].column) != (l.spots[m].row, l.spots[m].column))
  }

  ghost predicate Sound(l: Layout) {
    && PlansMatch(l) && Apart(l) && AllInSite(l) && SpotsMatch(l) && (l.regions == [] ==> l.spots == [])
  }

  lemma SymmetricFree(l: Layout, b: Rectangle)
    requires Free(l, b)
    ensures forall i :: 0 <= i < |l.regions| ==> !Overlap(l.regions[i], b)
    ensures forall i :: 0 <= i < |l.obstacles| ==> !Overlap(l.obstacles[i].bounds, b)
  {
    forall i | 0 <= i < |l.regions| ensures !Overlap(l.regions[i], b) {
      OverlapIsSymmetric(b, l.regions[i]);
    }
    forall i | 0 <= i < |l.obstacles| ensures !Overlap(l.obstacles[i].bounds, b) {
      OverlapIsSymmetric(b, l.obstacles[i].bounds);
    }
  }

  lemma NewSpotsMatch(l: Layout, r: Region, t: Layout)
    requires Sound(l) && Proper(r) && WithRegion(l, r) == Some(t)
    ensures SpotsMatch(t)
  {
    var spots := SpotsOf(r, t.prefix, |l.spots|);
    SpotsAreLaid(r, t.prefix, |l.spots|, r.rows, 0);
    assert t.spots == l.spots + spots;
    hide SpotsUpTo, SpotIdentifier, SpotBounds, AccessPoint, Overlap, Apart, AllInSite;
    forall k | 0 <= k < |t.spots|
      ensures t.homes[k] < |t.plans| && InGrid(t.plans[t.homes[k]], t.spots[k].row, t.spots[k].column)
      ensures t.spots[k] == SpotAt(t.plans[t.homes[k]], t.prefix, k + 1, t.spots[k].row, t.spots[k].column)
    {
      if k >= |l.spots| {
        assert CellBefore(spots[k - |l.spots|], r.rows, 0);
      }
    }
  }

  lemma AddRegionKeepsSound(l: Layout, r: Region)
    requires Sound(l) && Proper(r.(aisleWidth := MIN_AISLE)) && WithRegion(l, r).Some?
    ensures Sound(WithRegion(l, r).value)
  {
    var t, b := WithRegion(l, r).value, RegionBounds(r);
    NewSpotsMatch(l, r, t);
    SymmetricFree(l, b);
    hide SpotsMatch, SpotsOf, Overlap, RegionBounds;
    assert PlansMatch(t) && Apart(t) && AllInSite(t);
    hide Apart, AllInSite;
  }

  lemma AddObstacleKeepsSound(l: Layout, name: string, b: Rectangle)
    requires Sound(l) && WithObstacle(l, name, b).Some?
    ensures Sound(WithObstacle(l, name, b).value)
  {
    var t := WithObstacle(l, name, b).value;
    SymmetricFree(l, b);
    assert SpotsMatch(t) && PlansMatch(t);
    hide SpotsMatch, PlansMatch, Overlap;
  }

  lemma ApplyKeepsSound(p: Progress, c: Command)
    requires Sound(p.layout) && Apply(p, c).Some?
    ensures Sound(Apply(p, c).value.layout)
  {
    if c.Bays? && p.hasSite {
      AddRegionKeepsSound(p.layout, RegionIn(c).value);
    } else if c.Block? && p.hasSite {
      AddObstacleKeepsSound(p.layout, c.name, Rectangle(c.x.value, c.y.value, c.width.value, c.height.value));
    } else {
      hide Overlap, SpotAt;
    }
  }

  lemma {:induction false} ApplyAllIsSound(commands: seq<Command>)
    requires ApplyAll(commands).Some?
    ensures Sound(ApplyAll(commands).value.layout)
    decreases |commands|
  {
    if commands != [] {
      ApplyAllIsSound(commands[..|commands| - 1]);
      ApplyKeepsSound(ApplyAll(commands[..|commands| - 1]).value, commands[|commands| - 1]);
    }
  }

  // --- What an accepted description guarantees ---------------------------------------------------

  /** Every accepted description, with its regions and obstacles in any order, gives regions and obstacles that
      lie on the site and apart from each other. */
  lemma AcceptedIsApart(commands: seq<Command>)
    requires FromDescription(commands).Some?
    ensures var l := FromDescription(commands).value; Sound(l) && Apart(l) && AllInSite(l)
  {
    ApplyAllIsSound(commands);
  }

  /** No two of its spots overlap, and none overlaps an obstacle. */
  lemma AcceptedSpotsApart(commands: seq<Command>, k: nat, m: nat, o: nat)
    requires FromDescription(commands).Some?
    ensures var l := FromDescription(commands).value;
            && (k < m < |l.spots| ==> !Overlap(l.spots[k].bounds, l.spots[m].bounds))
            && (k < |l.spots| && o < |l.obstacles| ==> !Overlap(l.spots[k].bounds, l.obstacles[o].bounds))
  {
    AcceptedIsApart(commands);
    SoundSpotsApart(FromDescription(commands).value, k, m, o);
  }

  lemma SpotInRegion(l: Layout, k: nat)
    requires Sound(l) && k < |l.spots|
    ensures l.homes[k] < |l.regions| == |l.plans| && Within(l.spots[k].bounds, l.regions[l.homes[k]])
    ensures l.spots[k].bounds == SpotBounds(l.plans[l.homes[k]], l.spots[k].row, l.spots[k].column)
  {
    SpotWithinRegion(l.plans[l.homes[k]], l.spots[k].row, l.spots[k].column);
  }

  lemma SoundSpotsApart(l: Layout, k: nat, m: nat, o: nat)
    requires Sound(l)
    ensures k < m < |l.spots| ==> !Overlap(l.spots[k].bounds, l.spots[m].bounds)
    ensures k < |l.spots| && o < |l.obstacles| ==> !Overlap(l.spots[k].bounds, l.obstacles[o].bounds)
  {
    if k < |l.spots| {
      SpotInRegion(l, k);
      if o < |l.obstacles| {
        InnerApart(l.spots[k].bounds, l.obstacles[o].bounds, l.regions[l.homes[k]], l.obstacles[o].bounds);
      }
      if k < m < |l.spots| {
        SpotInRegion(l, m);
        if l.homes[k] == l.homes[m] {
          SpotsOfRegionApart(l.plans[l.homes[k]], l.spots[k].row, l.spots[k].column, l.spots[m].row, l.spots[m].column);
        } else {
          OverlapIsSymmetric(l.regions[l.homes[k]], l.regions[l.homes[m]]);
          InnerApart(l.spots[k].bounds, l.spots[m].bounds, l.regions[l.homes[k]], l.regions[l.homes[m]]);
        }
      }
    }
  }

  /** Every access point lies in the aisle of its own bay and in no spot of its region. */
  lemma AcceptedAccess(commands: seq<Command>, k: nat, m: nat)
    requires FromDescription(commands).Some?
    ensures var l := FromDescription(commands).value;
            k < |l.spots| ==>
              && |l.homes| == |l.spots| && l.homes[k] < |l.plans| == |l.regions|
              && Contains(AisleStrip(l.plans[l.homes[k]], l.spots[k].row, l.spots[k].column), l.spots[k].access)
              && Within(AisleStrip(l.plans[l.homes[k]], l.spots[k].row, l.spots[k].column), l.regions[l.homes[k]])
              && (m < |l.spots| && l.homes[m] == l.homes[k] ==> !Contains(l.spots[m].bounds, l.spots[k].access))
  {
    AcceptedIsApart(commands);
    if k < |FromDescription(commands).value.spots| {
      SoundAccess(FromDescription(commands).value, k, m);
    }
  }

  lemma SoundAccess(l: Layout, k: nat, m: nat)
    requires Sound(l) && k < |l.spots|
    ensures |l.homes| == |l.spots| && l.homes[k] < |l.plans| == |l.regions|
    ensures Contains(AisleStrip(l.plans[l.homes[k]], l.spots[k].row, l.spots[k].column), l.spots[k].access)
    ensures Within(AisleStrip(l.plans[l.homes[k]], l.spots[k].row, l.spots[k].column), l.regions[l.homes[k]])
    ensures m < |l.spots| && l.homes[m] == l.homes[k] ==> !Contains(l.spots[m].bounds, l.spots[k].access)
  {
    var r, s := l.plans[l.homes[k]], l.spots[k];
    SpotWithinRegion(r, s.row, s.column);
    AccessIsInAisle(r, s.row, s.column, s.row, s.column);
    if m < |l.spots| && l.homes[m] == l.homes[k] {
      AccessIsInAisle(r, s.row, s.column, l.spots[m].row, l.spots[m].column);
    }
    hide AisleStrip, AccessPoint, SpotBounds, Contains;
  }

  /** No two spots share an identifier. */
  lemma AcceptedIdentifiers(commands: seq<Command>, k: nat, m: nat)
    requires FromDescription(commands).Some?
    ensures var l := FromDescription(commands).value; k < m < |l.spots| ==> l.spots[k].id != l.spots[m].id
  {
    AcceptedIsApart(commands);
    var l := FromDescription(commands).value;
    if k < m < |l.spots| && l.spots[k].id == l.spots[m].id {
      IdentifiersDistinct(l.prefix, k + 1, m + 1);
    }
  }

  // --- The layout object ------------------------------------------------------------------

  class ParkingLayout {
    var siteWidth: real
    var siteHeight: real
    var spots: seq<Spot>
    var regions: seq<Rectangle>
    var obstacles: seq<Obstacle>
    var entrances: seq<Point>
    var exits: seq<Point>
    var prefix: string
    ghost var plans: seq<Region>
    ghost var homes: seq<nat>

    ghost function Model(): Layout
      reads this
    {
      Layout(siteWidth, siteHeight, spots, regions, obstacles, entrances, exits, prefix, plans, homes)
    }

    constructor (width: real, height: real)
      ensures Model() == NOWHERE.(siteWidth := width, siteHeight := height)
    {
      siteWidth, siteHeight, spots, regions, obstacles := width, height, [], [], [];
      entrances, exits, prefix, plans, homes := [], [], "", [], [];
    }

    method IsFree(bounds: Rectangle) returns (free: bool)
      ensures free == Free(Model(), bounds)
    {
      for i := 0 to |regions|
        invariant forall k :: 0 <= k < i ==> !Overlap(bounds, regions[k])
      {
        if Overlap(bounds, regions[i]) {
          return false;
        }
      }
      for i := 0 to |obstacles|
        invariant forall k :: 0 <= k < i ==> !Overlap(bounds, obstacles[k].bounds)
      {
        if Overlap(bounds, obstacles[i].bounds) {
          return false;
        }
      }
      free := true;
    }

    method IsInSite(b: Rectangle) returns (inside: bool)
      ensures inside == InSite(Model(), b)
    {
      inside := !(b.x < -TOLERANCE || b.y < -TOLERANCE
                  || b.x + b.width > siteWidth + TOLERANCE || b.y + b.height > siteHeight + TOLERANCE);
    }

    /** Refusing leaves nothing but the prefix changed, and the description is abandoned. */
    method AddRegion(r: Region) returns (ok: bool)
      requires r.columns > 0 && r.rows > 0
      modifies this
      ensures ok <==> WithRegion(old(Model()), r).Some?
      ensures ok ==> Model() == WithRegion(old(Model()), r).value
    {
      if regions == [] {
        prefix := r.name;
      }
      var bounds := RegionBounds(r);
      var inside := IsInSite(bounds);
      var free := IsFree(bounds);
      if !inside || !free || r.aisleWidth < MIN_AISLE {
        return false;
      }
      ghost var before := spots;
      PlaceSpots(r);
      regions := regions + [bounds];
      ghost var home := |plans|;
      homes := homes + seq(|spots| - |before|, i => home);
      plans := plans + [r];
      ok := true;
    }

    method PlaceSpots(r: Region)
      requires r.columns >= 0 && r.rows >= 0
      modifies this`spots
      ensures spots == old(spots) + SpotsOf(r, prefix, |old(spots)|)
    {
      ghost var start := |spots|;
      for row := 0 to r.rows
        invariant spots == old(spots) + SpotsUpTo(r, prefix, start, row, 0)
      {
        for column := 0 to r.columns
          invariant spots == old(spots) + SpotsUpTo(r, prefix, start, row, column)
        {
          var bounds := SpotBounds(r, row, column);
          spots := spots + [Spot(SpotIdentifier(prefix, |spots| + 1), r.name, row, column, bounds, AccessPoint(r, row, column), r.spotType)];
        }
      }
    }

    method AddObstacle(name: string, bounds: Rectangle) returns (ok: bool)
      modifies this
      ensures ok <==> WithObstacle(old(Model()), name, bounds).Some?
      ensures ok ==> Model() == WithObstacle(old(Model()), name, bounds).value
    {
      var inside := IsInSite(bounds);
      var free := IsFree(bounds);
      if !inside || !free {
        return false;
      }
      obstacles := obstacles + [Obstacle(if name == "" then "room" else name, bounds)];
      ok := true;
    }
  }

  /** The command loop; an unacceptable line ends it. */
  method ReadDescription(commands: seq<Command>) returns (layout: ParkingLayout, ok: bool)
    ensures ok <==> FromDescription(commands).Some?
    ensures ok ==> layout.Model() == FromDescription(commands).value
  {
    layout := new ParkingLayout(1.0, 1.0);
    var hasSite := false;
    for i := 0 to |commands|
      invariant fresh(layout)
      invariant ApplyAll(commands[..i]) == Some(Progress(hasSite, layout.Model()))
    {
      assert commands[..i + 1][..i] == commands[..i];
      var c, accepted := commands[i], true;
      if c.Comment? {
        continue;
      }
      if c.Site? {
        accepted := !hasSite && Positive(c.width) && Positive(c.height) && c.width.value >= 10.0 && c.height.value >= 10.0;
        if accepted {
          layout := new ParkingLayout(c.width.value, c.height.value);
          hasSite := true;
        }
      } else {
        accepted := hasSite;
        if accepted {
          accepted := ReadItem(layout, c);
        }
      }
      if !accepted {
        assert ApplyAll(commands[..i + 1]).None?;
        NeverAgain(commands, i + 1);
        return layout, false;
      }
    }
    assert commands[..|commands|] == commands;
    ok := hasSite && layout.entrances != [] && layout.exits != [] && layout.spots != [];
  }

  method ReadItem(layout: ParkingLayout, c: Command) returns (ok: bool)
    requires !c.Comment? && !c.Site?
    modifies layout
    ensures ok <==> Apply(Progress(true, old(layout.Model())), c).Some?
    ensures ok ==> Apply(Progress(true, old(layout.Model())), c) == Some(Progress(true, layout.Model()))
  {
    ok := false;
    match c {
      case Entrance(x, y) =>
        if NonNegative(x) && NonNegative(y) && Contains(Rectangle(0.0, 0.0, layout.siteWidth, layout.siteHeight), Point(x.value, y.value)) {
          layout.entrances := layout.entrances + [Point(x.value, y.value)];
          ok := true;
        }
      case Exit(x, y) =>
        if NonNegative(x) && NonNegative(y) && Contains(Rectangle(0.0, 0.0, layout.siteWidth, layout.siteHeight), Point(x.value, y.value)) {
          layout.exits := layout.exits + [Point(x.value, y.value)];
          ok := true;
        }
      case Block(name, x, y, width, height) =>
        if NonNegative(x) && NonNegative(y) && Positive(width) && Positive(height) {
          ok := layout.AddObstacle(name, Rectangle(x.value, y.value, width.value, height.value));
        }
      case Bays(_, _, _, _, _, _, _, _, _, _) =>
        var region := RegionIn(c);
        if region.Some? {
          ok := layout.AddRegion(region.value);
        }
      case _ =>
    }
  }

  lemma {:induction false} NeverAgain(commands: seq<Command>, i: nat)
    requires i <= |commands| && ApplyAll(commands[..i]).None?
    ensures ApplyAll(commands).None?
    decreases |commands|
  {
    if i == |commands| {
      assert commands[..i] == commands;
    } else {
      var shorter := commands[..|commands| - 1];
      assert shorter[..i] == commands[..i];
      NeverAgain(shorter, i);
    }
  }
}
