/**
 What a description means: which lines are accepted, what an accepted description contains, how a region is
 filled with spots, and what the tolerance between rectangles amounts to.
 */
module LayoutMeaning {
  import opened Outcomes
  import opened Points
  import opened ParkingGeometry
  import opened ParkingLayouts

  // --- Rectangles -----------------------------------------------------------------------------

  /** A rectangle lies in both that is wider and higher than a billionth of a metre. */
  ghost predicate ShareArea(a: Rectangle, b: Rectangle) {
    exists left, right, low, high :: SharedArea(a, b, left, right, low, high)
  }

  ghost predicate SharedArea(a: Rectangle, b: Rectangle, left: real, right: real, low: real, high: real) {
    && right - left > 0.000000001 && high - low > 0.000000001
    && a.x <= left && right <= a.x + a.width && a.y <= low && high <= a.y + a.height
    && b.x <= left && right <= b.x + b.width && b.y <= low && high <= b.y + b.height
  }

  lemma OverlapMeans(a: Rectangle, b: Rectangle)
    ensures Overlap(a, b) <==> ShareArea(a, b)
  {
    if Overlap(a, b) {
      assert SharedArea(a, b, Max(a.x, b.x), Min(a.x + a.width, b.x + b.width),
                        Max(a.y, b.y), Min(a.y + a.height, b.y + b.height));
    }
  }

  /** Inside the site up to the same tolerance. */
  ghost predicate OnSite(l: Layout, b: Rectangle) {
    && b.x >= -0.000000001 && b.x + b.width <= l.siteWidth + 0.000000001
    && b.y >= -0.000000001 && b.y + b.height <= l.siteHeight + 0.000000001
  }

  /** It shares area with nothing placed before. */
  ghost predicate Clear(l: Layout, b: Rectangle) {
    && (forall i :: 0 <= i < |l.regions| ==> !ShareArea(b, l.regions[i]))
    && (forall i :: 0 <= i < |l.obstacles| ==> !ShareArea(b, l.obstacles[i].bounds))
  }

  lemma ClearIs(l: Layout, b: Rectangle)
    ensures InSite(l, b) <==> OnSite(l, b)
    ensures Free(l, b) <==> Clear(l, b)
  {
    forall i | 0 <= i < |l.regions| ensures Overlap(b, l.regions[i]) <==> ShareArea(b, l.regions[i]) {
      OverlapMeans(b, l.regions[i]);
    }
    forall i | 0 <= i < |l.obstacles| ensures Overlap(b, l.obstacles[i].bounds) <==> ShareArea(b, l.obstacles[i].bounds) {
      OverlapMeans(b, l.obstacles[i].bounds);
    }
    hide Overlap, ShareArea;
  }

  // --- A region and its spots -----------------------------------------------------------------

  /** Length of a region along and across its aisles. */
  lemma RegionMeasures(r: Region)
    ensures var b := RegionBounds(r);
            && b.x == r.x && b.y == r.y
            && (r.side == Up || r.side == Down ==>
                  b.width == r.columns as real * r.spotWidth && b.height == r.rows as real * (r.spotLength + r.aisleWidth))
            && (r.side == Left || r.side == Right ==>
                  b.width == r.columns as real * (r.spotLength + r.aisleWidth) && b.height == r.rows as real * r.spotWidth)
  {
  }

  /** A spot measures its width across and its length along the way in. */
  lemma SpotMeasures(r: Region, row: int, column: int)
    ensures var b := SpotBounds(r, row, column);
            if r.side == Up || r.side == Down then b.width == r.spotWidth && b.height == r.spotLength
            else b.width == r.spotLength && b.height == r.spotWidth
  {
  }

  /** Spots of a row stand side by side, and the next row, or column, begins a spot and an aisle further. */
  lemma SpotsInLine(r: Region, row: int, column: int)
    ensures var b, right, below := SpotBounds(r, row, column), SpotBounds(r, row, column + 1), SpotBounds(r, row + 1, column);
            var pitch := r.spotLength + r.aisleWidth;
            && right.y == b.y && right.x - b.x == (if r.side == Up || r.side == Down then r.spotWidth else pitch)
            && below.x == b.x && below.y - b.y == (if r.side == Up || r.side == Down then pitch else r.spotWidth)
  {
    SpanNext(column, r.spotWidth);
    SpanNext(column, BayDepth(r));
    SpanNext(row, r.spotWidth);
    SpanNext(row, BayDepth(r));
    hide Span;
  }

  /** The first spot stands in the corner of the region, behind its aisle if that is above or to the left. */
  lemma FirstSpot(r: Region)
    ensures var b := SpotBounds(r, 0, 0);
            && b.x == r.x + (if r.side == Left then r.aisleWidth else 0.0)
            && b.y == r.y + (if r.side == Up then r.aisleWidth else 0.0)
  {
  }

  /** Vehicles reach a spot in front of the middle of its aisle side, a quarter of a metre away. */
  lemma AccessInFront(r: Region, row: int, column: int)
    ensures var b, p := SpotBounds(r, row, column), AccessPoint(r, row, column);
            match r.side
            case Up => p.x - b.x == b.x + b.width - p.x && b.y - p.y == 0.25
            case Down => p.x - b.x == b.x + b.width - p.x && p.y - (b.y + b.height) == 0.25
            case Left => p.y - b.y == b.y + b.height - p.y && b.x - p.x == 0.25
            case Right => p.y - b.y == b.y + b.height - p.y && p.x - (b.x + b.width) == 0.25
  {
    var b := SpotBounds(r, row, column);
    hide SpotBounds;
  }

  /** rows * columns, by addition. */
  function Count(rows: nat, columns: nat): nat {
    if rows == 0 then 0 else columns + Count(rows - 1, columns)
  }

  lemma {:induction false} CountIsProduct(rows: nat, columns: nat)
    ensures Count(rows, columns) == rows * columns
  {
    if rows > 0 {
      CountIsProduct(rows - 1, columns);
      assert rows * columns == columns + (rows - 1) * columns;
    }
  }

  lemma {:induction false} SpotsCounted(r: Region, prefix: string, start: nat, row: nat, column: nat)
    requires 0 <= column <= r.columns
    ensures |SpotsUpTo(r, prefix, start, row, column)| == Count(row, r.columns) + column
    decreases row, column
  {
    hide SpotAt;
    if column > 0 {
      SpotsCounted(r, prefix, start, row, column - 1);
    } else if row > 0 {
      SpotsCounted(r, prefix, start, row - 1, r.columns);
    }
  }

  lemma {:induction false} CountGrows(rows: nat, more: nat, columns: nat)
    requires rows < more
    ensures Count(rows, columns) + columns <= Count(more, columns)
    decreases more
  {
    if rows < more - 1 {
      CountGrows(rows, more - 1, columns);
    }
  }

  /** The spot of each cell, in its place: row by row, numbered on from `start`. */
  lemma {:induction false} SpotInPlace(r: Region, prefix: string, start: nat, row: nat, column: nat, i: nat, j: nat)
    requires 0 <= column <= r.columns && j < r.columns && (i < row || (i == row && j < column))
    ensures var spots, k := SpotsUpTo(r, prefix, start, row, column), Count(i, r.columns) + j;
            k < |spots| && spots[k] == SpotAt(r, prefix, start + k + 1, i, j)
    decreases row, column
  {
    SpotsCounted(r, prefix, start, row, column);
    if i < row {
      CountGrows(i, row, r.columns);
    }
    hide SpotAt, Count;
    if column > 0 {
      SpotsCounted(r, prefix, start, row, column - 1);
      if i < row || j < column - 1 {
        SpotInPlace(r, prefix, start, row, column - 1, i, j);
      }
    } else {
      SpotInPlace(r, prefix, start, row - 1, r.columns, i, j);
    }
  }

  /** A region is filled with rows * columns spots, one for each cell of its grid, row by row, with its name and type and
      the serial numbers following those before. */
  lemma RegionIsFilled(r: Region, prefix: string, start: nat, row: nat, column: nat)
    requires InGrid(r, row, column)
    ensures var spots, k := SpotsOf(r, prefix, start), row * r.columns + column;
            && |spots| == r.rows * r.columns && k < |spots|
            && spots[k] == Spot(SpotIdentifier(prefix, start + k + 1), r.name, row, column,
                                SpotBounds(r, row, column), AccessPoint(r, row, column), r.spotType)
  {
    SpotsCounted(r, prefix, start, r.rows, 0);
    SpotInPlace(r, prefix, start, r.rows, 0, row, column);
    CountIsProduct(r.rows, r.columns);
    CountIsProduct(row, r.columns);
    hide SpotsUpTo, Count, SpotIdentifier, SpotBounds, AccessPoint;
  }

  // --- Identifiers ------------------------------------------------------------------------------

  ghost predicate AllDigits(s: string) {
    forall i :: 0 <= i < |s| ==> '0' <= s[i] <= '9'
  }

  lemma {:induction false} DigitsAreDigits(n: nat)
    ensures AllDigits(Digits(n)) && |Digits(n)| >= 1
    ensures n >= 10 ==> |Digits(n)| >= 2
    ensures n > 0 ==> Digits(n)[0] != '0'
    ensures |Digits(n)| > 1 ==> n > 0
  {
    if n >= 10 {
      DigitsAreDigits(n / 10);
    }
  }

  lemma {:induction false} ZerosAreDigits(n: nat)
    ensures AllDigits(Zeros(n)) && |Zeros(n)| == n
  {
    if n > 0 {
      ZerosAreDigits(n - 1);
    }
  }

  /** How many zeros fill up to three places. */
  function Padding(digits: string): nat {
    if |digits| < 3 then 3 - |digits| else 0
  }

  /** An identifier is the prefix and the serial number in decimal digits: three of them, or more if it needs more. */
  lemma IdentifierMeans(prefix: string, serial: nat) returns (digits: string)
    ensures SpotIdentifier(prefix, serial) == prefix + digits && AllDigits(digits) && Value(digits) == serial
    ensures |digits| >= 3 && (|digits| > 3 ==> digits[0] != '0')
  {
    var tail := Digits(serial);
    var pad := Zeros(Padding(tail));
    digits := pad + tail;
    DigitsAreDigits(serial);
    DigitsOfZero();
    ZerosAreDigits(Padding(tail));
    ValueAfterZeros(Padding(tail), tail);
    ValueOfDigits(serial);
    IdentifierParts(prefix, serial);
    hide *;
    Joined(pad, tail);
    Filled(pad, tail);
  }

  lemma IdentifierParts(prefix: string, serial: nat)
    ensures SpotIdentifier(prefix, serial) == prefix + (Zeros(Padding(Digits(serial))) + Digits(serial))
  {
    hide Digits, Zeros;
    assert prefix + (Zeros(Padding(Digits(serial))) + Digits(serial)) == prefix + Zeros(Padding(Digits(serial))) + Digits(serial);
  }

  lemma Filled(pad: string, tail: string)
    requires |pad| == Padding(tail) && |tail| >= 1 && (|tail| > 1 ==> tail[0] != '0')
    ensures |pad + tail| >= 3 && (|pad + tail| > 3 ==> (pad + tail)[0] != '0')
  {
  }

  lemma DigitsOfZero()
    ensures |Digits(0)| == 1
  {
  }

  lemma Joined(pad: string, tail: string)
    requires AllDigits(pad) && AllDigits(tail)
    ensures AllDigits(pad + tail) && (pad == "" ==> pad + tail == tail)
  {
  }

  // --- Lines --------------------------------------------------------------------------------------

  /** A region is accepted exactly if it is on the site, shares area with nothing and its aisles are at least 2.5 m wide;
      it then adds its spots, and the first region's name becomes the prefix of all identifiers. */
  lemma RegionAccepted(l: Layout, r: Region)
    requires r.columns > 0 && r.rows > 0
    ensures WithRegion(l, r).Some? <==> OnSite(l, RegionBounds(r)) && Clear(l, RegionBounds(r)) && r.aisleWidth >= 2.5
    ensures WithRegion(l, r).Some? ==>
              var t := WithRegion(l, r).value;
              && t.prefix == (if l.regions == [] then r.name else l.prefix)
              && t.spots == l.spots + SpotsOf(r, t.prefix, |l.spots|)
              && t.regions == l.regions + [RegionBounds(r)] && t.plans == l.plans + [r]
              && (t.siteWidth, t.siteHeight, t.obstacles, t.entrances, t.exits) == (l.siteWidth, l.siteHeight, l.obstacles, l.entrances, l.exits)
  {
    ClearIs(l, RegionBounds(r));
    hide SpotsOf, RegionBounds, InSite, Free, OnSite, Clear;
  }

  /** An obstacle is accepted exactly if it is on the site and shares area with nothing; one without a name is a room. */
  lemma ObstacleAccepted(l: Layout, name: string, b: Rectangle)
    ensures WithObstacle(l, name, b).Some? <==> OnSite(l, b) && Clear(l, b)
    ensures WithObstacle(l, name, b).Some? ==>
              WithObstacle(l, name, b).value == l.(obstacles := l.obstacles + [Obstacle(if name == "" then "room" else name, b)])
  {
    ClearIs(l, b);
    hide InSite, Free, OnSite, Clear;
  }

  ghost predicate AtLeast(x: Option<real>, limit: real) {
    x.Some? && x.value >= limit
  }

  ghost predicate Above(x: Option<real>, limit: real) {
    x.Some? && x.value > limit
  }

  /** Whether a line fits what came before it. */
  ghost predicate Fits(p: Progress, c: Command) {
    match c
    case Comment => true
    case Unknown => false
    case Site(width, height) => !p.hasSite && AtLeast(width, 10.0) && AtLeast(height, 10.0)
    case Entrance(x, y) => p.hasSite && GateFits(p.layout, x, y)
    case Exit(x, y) => p.hasSite && GateFits(p.layout, x, y)
    case Block(name, x, y, width, height) =>
      && p.hasSite && AtLeast(x, 0.0) && AtLeast(y, 0.0) && Above(width, 0.0) && Above(height, 0.0)
      && var b := Rectangle(x.value, y.value, width.value, height.value);
         OnSite(p.layout, b) && Clear(p.layout, b)
    case Bays(name, x, y, rows, columns, spotWidth, spotLength, aisleWidth, side, spotType) =>
      && p.hasSite && name != "" && AtLeast(x, 0.0) && AtLeast(y, 0.0)
      && rows.Some? && rows.value >= 1 && columns.Some? && columns.value >= 1
      && Above(spotWidth, 0.0) && Above(spotLength, 0.0) && AtLeast(aisleWidth, 2.5) && side.Some? && spotType.Some?
      && var b := RegionBounds(Plan(c));
         OnSite(p.layout, b) && Clear(p.layout, b)
  }

  /** A gate may be anywhere on the site, its border included. */
  ghost predicate GateFits(l: Layout, x: Option<real>, y: Option<real>) {
    AtLeast(x, 0.0) && AtLeast(y, 0.0) && x.value <= l.siteWidth && y.value <= l.siteHeight
  }

  /** The region a complete line describes. */
  ghost function Plan(c: Command): Region
    requires c.Bays? && c.x.Some? && c.y.Some? && c.rows.Some? && c.columns.Some? && c.spotWidth.Some?
    requires c.spotLength.Some? && c.aisleWidth.Some? && c.side.Some? && c.spotType.Some?
  {
    Region(c.name, c.x.value, c.y.value, c.rows.value, c.columns.value, c.spotWidth.value, c.spotLength.value,
           c.aisleWidth.value, c.side.value, c.spotType.value)
  }

  /** A line is accepted exactly if it fits. */
  lemma AcceptedIffFits(p: Progress, c: Command)
    ensures Apply(p, c).Some? <==> Fits(p, c)
  {
    match c {
      case Block(name, x, y, width, height) =>
        if AtLeast(x, 0.0) && AtLeast(y, 0.0) && Above(width, 0.0) && Above(height, 0.0) {
          ObstacleAccepted(p.layout, name, Rectangle(x.value, y.value, width.value, height.value));
        }
        hide WithObstacle, OnSite, Clear;
      case Bays(_, _, _, _, _, _, _, _, _, _) =>
        if RegionIn(c).Some? {
          RegionAccepted(p.layout, RegionIn(c).value);
        }
        hide WithRegion, OnSite, Clear, RegionBounds;
      case _ =>
    }
  }

  // --- Contents -----------------------------------------------------------------------------------

  /** The points of all entrance lines, in order. */
  ghost function Entrances(commands: seq<Command>): seq<Point>
    decreases |commands|
  {
    if commands == [] then []
    else
      var c, before := commands[|commands| - 1], Entrances(commands[..|commands| - 1]);
      if c.Entrance? && c.x.Some? && c.y.Some? then before + [Point(c.x.value, c.y.value)] else before
  }

  ghost function Exits(commands: seq<Command>): seq<Point>
    decreases |commands|
  {
    if commands == [] then []
    else
      var c, before := commands[|commands| - 1], Exits(commands[..|commands| - 1]);
      if c.Exit? && c.x.Some? && c.y.Some? then before + [Point(c.x.value, c.y.value)] else before
  }

  ghost function Blocks(commands: seq<Command>): seq<Obstacle>
    decreases |commands|
  {
    if commands == [] then []
    else
      var c, before := commands[|commands| - 1], Blocks(commands[..|commands| - 1]);
      if c.Block? && c.x.Some? && c.y.Some? && c.width.Some? && c.height.Some?
      then before + [Obstacle(if c.name == "" then "room" else c.name, Rectangle(c.x.value, c.y.value, c.width.value, c.height.value))]
      else before
  }

  ghost function Plans(commands: seq<Command>): seq<Region>
    decreases |commands|
  {
    if commands == [] then []
    else
      var c, before := commands[|commands| - 1], Plans(commands[..|commands| - 1]);
      if c.Bays? && c.x.Some? && c.y.Some? && c.rows.Some? && c.columns.Some? && c.spotWidth.Some? && c.spotLength.Some?
         && c.aisleWidth.Some? && c.side.Some? && c.spotType.Some?
      then before + [Plan(c)] else before
  }

  /** The spots of regions one after another, numbered through. */
  ghost function AllSpots(plans: seq<Region>, prefix: string): seq<Spot>
    requires forall i :: 0 <= i < |plans| ==> plans[i].rows > 0 && plans[i].columns > 0
    decreases |plans|
  {
    if plans == [] then []
    else
      var before := AllSpots(plans[..|plans| - 1], prefix);
      before + SpotsOf(plans[|plans| - 1], prefix, |before|)
  }

  ghost predicate Holds(commands: seq<Command>, l: Layout) {
    && l.entrances == Entrances(commands) && l.exits == Exits(commands) && l.obstacles == Blocks(commands)
    && l.plans == Plans(commands)
    && (forall i :: 0 <= i < |l.plans| ==> l.plans[i].rows > 0 && l.plans[i].columns > 0)
    && l.prefix == (if l.plans == [] then "" else l.plans[0].name)
    && l.spots == AllSpots(l.plans, l.prefix)
  }

  lemma OneMoreRegion(l: Layout, r: Region, commands: seq<Command>, more: seq<Command>)
    requires Holds(commands, l) && |l.plans| == |l.regions| && r.rows > 0 && r.columns > 0 && WithRegion(l, r).Some?
    requires Entrances(more) == Entrances(commands) && Exits(more) == Exits(commands) && Blocks(more) == Blocks(commands)
    requires Plans(more) == Plans(commands) + [r]
    ensures Holds(more, WithRegion(l, r).value)
  {
    RegionAccepted(l, r);
    var t := WithRegion(l, r).value;
    hide WithRegion, SpotsOf, Entrances, Exits, Blocks, Plans, OnSite, Clear, RegionBounds;
    assert t.plans == l.plans + [r];
    assert t.plans[..|t.plans| - 1] == l.plans && t.plans[|t.plans| - 1] == r;
    assert t.prefix == t.plans[0].name;
    assert forall i :: 0 <= i < |t.plans| ==> t.plans[i].rows > 0 && t.plans[i].columns > 0;
    if l.plans == [] {
      hide Holds;
      OnlyRegion(t.plans, t.prefix);
    }
  }

  lemma OnlyRegion(plans: seq<Region>, prefix: string)
    requires |plans| == 1 && plans[0].rows > 0 && plans[0].columns > 0
    ensures AllSpots(plans, prefix) == SpotsOf(plans[0], prefix, 0)
  {
    assert AllSpots(plans[..0], prefix) == [];
    hide SpotsOf;
  }

  lemma {:induction false} ContentsHold(commands: seq<Command>)
    requires ApplyAll(commands).Some?
    ensures Holds(commands, ApplyAll(commands).value.layout)
    ensures |ApplyAll(commands).value.layout.plans| == |ApplyAll(commands).value.layout.regions|
    ensures !ApplyAll(commands).value.hasSite ==> ApplyAll(commands).value.layout == NOWHERE
    decreases |commands|
  {
    if commands != [] {
      var before, c := commands[..|commands| - 1], commands[|commands| - 1];
      ContentsHold(before);
      assert before + [c] == commands;
      hide Holds, Apply;
      LineHolds(ApplyAll(before).value, before, c);
    }
  }

  lemma LineHolds(p: Progress, before: seq<Command>, c: Command)
    requires Apply(p, c).Some? && Holds(before, p.layout) && |p.layout.plans| == |p.layout.regions|
    requires !p.hasSite ==> p.layout == NOWHERE
    ensures var t := Apply(p, c).value;
            && Holds(before + [c], t.layout) && |t.layout.plans| == |t.layout.regions| && (!t.hasSite ==> t.layout == NOWHERE)
  {
    assert (before + [c])[..|before|] == before;
    match c {
      case Bays(_, _, _, _, _, _, _, _, _, _) =>
        RegionAccepted(p.layout, RegionIn(c).value);
        OneMoreRegion(p.layout, RegionIn(c).value, before, before + [c]);
        hide WithRegion, Holds, RegionBounds, SpotsOf;
      case Block(name, x, y, width, height) =>
        ObstacleAccepted(p.layout, name, Rectangle(x.value, y.value, width.value, height.value));
        hide WithObstacle, SpotsOf, AllSpots;
      case _ => hide SpotsOf, AllSpots;
    }
  }

  /** An accepted description holds exactly the gates, obstacles and regions of its lines, in their order, and the spots of
      its regions, numbered through; and it has a gate of each kind and a spot. */
  lemma AcceptedContents(commands: seq<Command>)
    requires FromDescription(commands).Some?
    ensures Holds(commands, FromDescription(commands).value)
    ensures Entrances(commands) != [] && Exits(commands) != [] && Plans(commands) != []
  {
    ContentsHold(commands);
    hide ApplyAll;
  }

  /** A description is accepted exactly if every line fits what the lines before it built, one is a site line, and there
      is a gate of each kind and a region. */
  lemma AcceptedIff(commands: seq<Command>)
    ensures FromDescription(commands).Some? <==>
            && (forall i :: 0 <= i < |commands| ==> FitsAt(commands, i))
            && (exists i :: 0 <= i < |commands| && commands[i].Site?)
            && Entrances(commands) != [] && Exits(commands) != [] && Plans(commands) != []
  {
    AllFit(commands);
    if ApplyAll(commands).Some? {
      ContentsHold(commands);
      SiteSeen(commands);
      var l := ApplyAll(commands).value.layout;
      if l.plans != [] {
        var last := |l.plans| - 1;
        SpotsCounted(l.plans[last], l.prefix, |AllSpots(l.plans[..last], l.prefix)|, l.plans[last].rows, 0);
        CountIsProduct(l.plans[last].rows, l.plans[last].columns);
        assert Count(l.plans[last].rows, l.plans[last].columns) >= 1;
        hide SpotsUpTo, ApplyAll, Entrances, Exits, Blocks, Plans, Fits;
        assert |l.spots| >= 1;
      }
    }
    hide ApplyAll, Fits, AllSpots;
  }

  /** The lines before line i are accepted, and it fits what they built. */
  ghost predicate FitsAt(commands: seq<Command>, i: nat)
    requires i < |commands|
  {
    ApplyAll(commands[..i]).Some? && Fits(ApplyAll(commands[..i]).value, commands[i])
  }

  lemma {:induction false} AllFit(commands: seq<Command>)
    ensures ApplyAll(commands).Some? <==> forall i :: 0 <= i < |commands| ==> FitsAt(commands, i)
    decreases |commands|
  {
    if commands != [] {
      var last := |commands| - 1;
      var before := commands[..last];
      AllFit(before);
      forall i | 0 <= i < last ensures FitsAt(before, i) == FitsAt(commands, i) {
        assert before[..i] == commands[..i];
      }
      LastFits(commands);
      hide FitsAt, ApplyAll;
    }
  }

  lemma LastFits(commands: seq<Command>)
    requires commands != []
    ensures ApplyAll(commands).Some? <==> FitsAt(commands, |commands| - 1)
    ensures ApplyAll(commands).Some? ==> ApplyAll(commands[..|commands| - 1]).Some?
  {
    var last := |commands| - 1;
    if ApplyAll(commands[..last]).Some? {
      AcceptedIffFits(ApplyAll(commands[..last]).value, commands[last]);
    }
    hide Apply, Fits;
  }

  lemma {:induction false} SiteSeen(commands: seq<Command>)
    requires ApplyAll(commands).Some?
    ensures ApplyAll(commands).value.hasSite <==> exists i :: 0 <= i < |commands| && commands[i].Site?
    decreases |commands|
  {
    if commands != [] {
      var last := |commands| - 1;
      SiteSeen(commands[..last]);
      assert commands == commands[..last] + [commands[last]];
      hide WithRegion, WithObstacle, GateAt;
    }
  }

  /** The site has the size its line gives. */
  lemma {:induction false} SiteSize(commands: seq<Command>, i: nat)
    requires ApplyAll(commands).Some? && i < |commands| && commands[i].Site?
    ensures var l := ApplyAll(commands).value.layout;
            commands[i].width == Some(l.siteWidth) && commands[i].height == Some(l.siteHeight)
    decreases |commands|
  {
    var last := |commands| - 1;
    SiteSeen(commands[..last]);
    if i < last {
      SiteSize(commands[..last], i);
      assert commands[..last][i].Site?;
    }
    hide GateAt, InSite, Free, SpotsOf;
  }
}
