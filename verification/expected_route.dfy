/**
 The text form of the route shown with a reservation: a version word, indexes, figures and points,
 separated by white space.  How single numbers are printed and parsed is given from outside.
 */
module ExpectedRoutes {
  import opened Outcomes
  import opened TextUtil
  import opened Points
  import opened GridRoute

  const MAX_POINTS := 100_000

  datatype ExpectedRoute = ExpectedRoute(entranceIndex: nat, exitIndex: nat, entryRoute: Route, exitRoute: Route)

  const DEFAULT := ExpectedRoute(0, 0, NO_ROUTE, NO_ROUTE)

  datatype Numbers = Numbers(printReal: real -> string, parseReal: string -> Option<real>,
                             printInt: int -> string, parseInt: string -> Option<int>,
                             printNat: nat -> string, parseNat: string -> Option<nat>)

  predicate IsWord(w: string) {
    w != "" && forall i :: 0 <= i < |w| ==> !IsSpace(w[i])
  }

  /** The printed number is a word and is read back as it was. */
  ghost predicate PrintsReal(n: Numbers, x: real) {
    IsWord(n.printReal(x)) && n.parseReal(n.printReal(x)) == Some(x)
  }

  ghost predicate PrintsWhole(n: Numbers) {
    && (forall x {:trigger n.printInt(x)} :: IsWord(n.printInt(x)) && n.parseInt(n.printInt(x)) == Some(x))
    && (forall x: nat {:trigger n.printNat(x)} :: IsWord(n.printNat(x)) && n.parseNat(n.printNat(x)) == Some(x))
  }

  ghost predicate PrintsPoints(n: Numbers, points: seq<Point>) {
    forall i :: 0 <= i < |points| ==> PrintsReal(n, points[i].x) && PrintsReal(n, points[i].y)
  }

  ghost predicate PrintsRoute(n: Numbers, r: Route) {
    PrintsReal(n, r.distance) && PrintsReal(n, r.cost) && PrintsPoints(n, r.points)
  }

  /** Whole numbers and the figures and points of the two legs are printed so that they can be read back.  Nothing is
      asked of other reals: no text form could tell all of them apart. */
  ghost predicate Faithful(n: Numbers, r: ExpectedRoute) {
    PrintsWhole(n) && PrintsRoute(n, r.entryRoute) && PrintsRoute(n, r.exitRoute)
  }

  // --- Words in a text ----------------------------------------------------------------

  function Word(text: string): (w: string)
    ensures w <= text && forall i :: 0 <= i < |w| ==> !IsSpace(w[i])
    ensures |w| < |text| ==> IsSpace(text[|w|])
  {
    if text == "" || IsSpace(text[0]) then "" else [text[0]] + Word(text[1..])
  }

  function Words(text: string): seq<string>
    decreases |text|
  {
    if text == "" then []
    else if IsSpace(text[0]) then Words(text[1..])
    else [Word(text)] + Words(text[|Word(text)|..])
  }

  function SpaceJoin(words: seq<string>): string
    requires words != []
  {
    if |words| == 1 then words[0] else SpaceJoin(words[..|words| - 1]) + " " + words[|words| - 1]
  }

  predicate Ends(rest: string) {
    rest == "" || IsSpace(rest[0])
  }

  lemma FirstWord(w: string, rest: string)
    requires IsWord(w) && Ends(rest)
    ensures Words(w + rest) == [w] + Words(rest)
  {
    WordIsFirst(w, rest);
    assert (w + rest)[|w|..] == rest && (w + rest)[0] == w[0];
  }

  lemma {:induction false} WordIsFirst(w: string, rest: string)
    requires Ends(rest) && forall i :: 0 <= i < |w| ==> !IsSpace(w[i])
    ensures Word(w + rest) == w
  {
    if w == "" {
      assert w + rest == rest;
    } else {
      assert (w + rest)[1..] == w[1..] + rest;
      WordIsFirst(w[1..], rest);
    }
  }

  ghost predicate AreWords(words: seq<string>) {
    words != [] && forall i :: 0 <= i < |words| ==> IsWord(words[i])
  }

  lemma {:induction false} WordsOfLine(words: seq<string>, rest: string)
    requires AreWords(words) && Ends(rest)
    ensures Words(SpaceJoin(words) + rest) == words + Words(rest)
    decreases |words|
  {
    var last := |words| - 1;
    if last == 0 {
      FirstWord(words[0], rest);
    } else {
      var tail := " " + (words[last] + rest);
      assert SpaceJoin(words) + rest == SpaceJoin(words[..last]) + tail;
      WordsOfLine(words[..last], tail);
      assert tail[1..] == words[last] + rest;
      FirstWord(words[last], rest);
      assert words[..last] + ([words[last]] + Words(rest)) == words + Words(rest);
    }
  }

  // --- Encoding ---------------------------------------------------------------------

  predicate IsEmpty(r: ExpectedRoute) {
    r.entryRoute.points == [] && r.exitRoute.points == []
  }

  function Heading(n: Numbers, r: ExpectedRoute): seq<string> {
    ["v1", n.printNat(r.entranceIndex), n.printNat(r.exitIndex)]
  }

  function Figures(n: Numbers, r: Route): seq<string> {
    [n.printReal(r.distance), n.printReal(r.cost), n.printInt(r.turnCount)]
  }

  function PointWords(n: Numbers, points: seq<Point>): seq<string> {
    if points == [] then []
    else
      var last := points[|points| - 1];
      PointWords(n, points[..|points| - 1]) + [n.printReal(last.x), n.printReal(last.y)]
  }

  function PointLine(n: Numbers, points: seq<Point>): seq<string> {
    [n.printNat(|points|)] + PointWords(n, points)
  }

  function Encode(n: Numbers, r: ExpectedRoute): string {
    if IsEmpty(r) then ""
    else
      SpaceJoin(Heading(n, r)) + ("\n" + (SpaceJoin(Figures(n, r.entryRoute)) + ("\n" + (SpaceJoin(Figures(n, r.exitRoute)) + ("\n"
      + (SpaceJoin(PointLine(n, r.entryRoute.points)) + ("\n" + SpaceJoin(PointLine(n, r.exitRoute.points)))))))))
  }

  function AllWords(n: Numbers, r: ExpectedRoute): seq<string> {
    Heading(n, r) + (Figures(n, r.entryRoute) + (Figures(n, r.exitRoute)
    + (PointLine(n, r.entryRoute.points) + PointLine(n, r.exitRoute.points))))
  }

  lemma {:induction false} PointLineIsWords(n: Numbers, points: seq<Point>)
    requires PrintsWhole(n) && PrintsPoints(n, points)
    ensures forall i :: 0 <= i < |PointLine(n, points)| ==> IsWord(PointLine(n, points)[i])
    decreases |points|
  {
    if points != [] {
      PointLineIsWords(n, points[..|points| - 1]);
      var shorter := PointLine(n, points[..|points| - 1]);
      assert shorter[1..] == PointWords(n, points[..|points| - 1]);
    }
  }

  lemma LinesAreWords(n: Numbers, r: ExpectedRoute)
    requires Faithful(n, r)
    ensures AreWords(Heading(n, r)) && AreWords(Figures(n, r.entryRoute)) && AreWords(Figures(n, r.exitRoute))
    ensures AreWords(PointLine(n, r.entryRoute.points)) && AreWords(PointLine(n, r.exitRoute.points))
  {
    assert IsWord("v1");
    PointLineIsWords(n, r.entryRoute.points);
    PointLineIsWords(n, r.exitRoute.points);
  }

  lemma NextLine(words: seq<string>, rest: string)
    requires AreWords(words)
    ensures Words(SpaceJoin(words) + ("\n" + rest)) == words + Words(rest)
  {
    WordsOfLine(words, "\n" + rest);
    assert ("\n" + rest)[1..] == rest;
  }

  lemma LastLine(words: seq<string>)
    requires AreWords(words)
    ensures Words(SpaceJoin(words)) == words
  {
    WordsOfLine(words, "");
    assert SpaceJoin(words) + "" == SpaceJoin(words) && words + [] == words;
  }

  /** The words of the text are what was written. */
  lemma EncodedWords(n: Numbers, r: ExpectedRoute)
    requires Faithful(n, r) && !IsEmpty(r)
    ensures Words(Encode(n, r)) == AllWords(n, r)
  {
    LinesAreWords(n, r);
    var a, b, c, d, e := Heading(n, r), Figures(n, r.entryRoute), Figures(n, r.exitRoute), PointLine(n, r.entryRoute.points), PointLine(n, r.exitRoute.points);
    hide Heading, Figures, PointLine, SpaceJoin, Words, AreWords, Faithful;
    var t4 := SpaceJoin(d) + ("\n" + SpaceJoin(e));
    var t3 := SpaceJoin(c) + ("\n" + t4);
    var t2 := SpaceJoin(b) + ("\n" + t3);
    LastLine(e);
    NextLine(d, SpaceJoin(e));
    NextLine(c, t4);
    NextLine(b, t3);
    NextLine(a, t2);
  }

  // --- Decoding ---------------------------------------------------------------------

  datatype Read<T> = Failed | Got(value: T, rest: seq<string>)

  function ReadNat(n: Numbers, words: seq<string>): Read<nat> {
    if words == [] || n.parseNat(words[0]).None? then Failed else Got(n.parseNat(words[0]).value, words[1..])
  }

  function ReadFigures(n: Numbers, words: seq<string>): Read<Route> {
    if |words| < 3 || n.parseReal(words[0]).None? || n.parseReal(words[1]).None? || n.parseInt(words[2]).None? then Failed
    else Got(Route([], n.parseReal(words[0]).value, n.parseReal(words[1]).value, n.parseInt(words[2]).value), words[3..])
  }

  predicate PointHere(n: Numbers, words: seq<string>) {
    |words| >= 2 && n.parseReal(words[0]).Some? && n.parseReal(words[1]).Some?
  }

  function ReadPoints(n: Numbers, words: seq<string>, count: nat): Read<seq<Point>> {
    if count == 0 then Got([], words)
    else if !PointHere(n, words) then Failed
    else
      match ReadPoints(n, words[2..], count - 1)
      case Failed => Failed
      case Got(points, rest) => Got([Point(n.parseReal(words[0]).value, n.parseReal(words[1]).value)] + points, rest)
  }

  function ReadCounted(n: Numbers, words: seq<string>): Read<seq<Point>> {
    var count := ReadNat(n, words);
    if count.Failed? || count.value > MAX_POINTS then Failed else ReadPoints(n, count.rest, count.value)
  }

  function DecodeWords(n: Numbers, words: seq<string>): Option<ExpectedRoute> {
    if words == [] || words[0] != "v1" then None
    else
      var entrance := ReadNat(n, words[1..]);
      if entrance.Failed? then None
      else
        var exit := ReadNat(n, entrance.rest);
        if exit.Failed? then None
        else
          var inward := ReadFigures(n, exit.rest);
          if inward.Failed? then None
          else
            var outward := ReadFigures(n, inward.rest);
            if outward.Failed? then None
            else
              var first := ReadCounted(n, outward.rest);
              if first.Failed? then None
              else
                var second := ReadCounted(n, first.rest);
                if second.Failed? then None
                else Some(ExpectedRoute(entrance.value, exit.value, inward.value.(points := first.value),
                                        outward.value.(points := second.value)))
  }

  function Decode(n: Numbers, text: string): Option<ExpectedRoute> {
    if text == "" then Some(DEFAULT) else DecodeWords(n, Words(text))
  }

  /** The loop that fills the points in. */
  method FillPoints(n: Numbers, words: seq<string>, count: nat) returns (r: Read<seq<Point>>)
    ensures r == ReadPoints(n, words, count)
  {
    var points, rest := [], words;
    PrependNone(ReadPoints(n, words, count));
    for i := 0 to count
      invariant |points| == i
      invariant ReadPoints(n, words, count) == Prepend(points, ReadPoints(n, rest, count - i))
    {
      if !PointHere(n, rest) {
        return Failed;
      }
      var point := Point(n.parseReal(rest[0]).value, n.parseReal(rest[1]).value);
      PrependMore(points, point, ReadPoints(n, rest[2..], count - i - 1));
      points := points + [point];
      rest := rest[2..];
    }
    assert points + [] == points;
    r := Got(points, rest);
  }

  function Prepend(points: seq<Point>, r: Read<seq<Point>>): Read<seq<Point>> {
    if r.Failed? then Failed else Got(points + r.value, r.rest)
  }

  lemma PrependNone(r: Read<seq<Point>>)
    ensures Prepend([], r) == r
  {
    if r.Got? {
      assert [] + r.value == r.value;
    }
  }

  lemma PrependMore(points: seq<Point>, point: Point, r: Read<seq<Point>>)
    ensures Prepend(points, Prepend([point], r)) == Prepend(points + [point], r)
  {
    if r.Got? {
      assert points + ([point] + r.value) == points + [point] + r.value;
    }
  }

  // --- The round trip -----------------------------------------------------------------

  lemma {:induction false} PointWordsConcat(n: Numbers, first: Point, points: seq<Point>)
    ensures PointWords(n, [first] + points) == [n.printReal(first.x), n.printReal(first.y)] + PointWords(n, points)
    decreases |points|
  {
    if points == [] {
      assert [first] + points == [first];
    } else {
      var shorter := points[..|points| - 1];
      assert ([first] + points)[..|points|] == [first] + shorter;
      PointWordsConcat(n, first, shorter);
    }
  }

  lemma {:induction false} PointsRoundTrip(n: Numbers, points: seq<Point>, rest: seq<string>)
    requires PrintsPoints(n, points)
    ensures ReadPoints(n, PointWords(n, points) + rest, |points|) == Got(points, rest)
    decreases |points|
  {
    if points == [] {
      assert PointWords(n, points) + rest == rest;
    } else {
      assert points == [points[0]] + points[1..];
      PointWordsConcat(n, points[0], points[1..]);
      var words := PointWords(n, points) + rest;
      assert words[2..] == PointWords(n, points[1..]) + rest;
      PointsRoundTrip(n, points[1..], rest);
    }
  }

  lemma CountedRoundTrip(n: Numbers, points: seq<Point>, rest: seq<string>)
    requires PrintsWhole(n) && PrintsPoints(n, points)
    ensures ReadCounted(n, PointLine(n, points) + rest) == if |points| <= MAX_POINTS then Got(points, rest) else Failed
  {
    var words := PointLine(n, points) + rest;
    assert words[0] == n.printNat(|points|);
    assert words[1..] == PointWords(n, points) + rest;
    PointsRoundTrip(n, points, rest);
  }

  lemma FiguresRoundTrip(n: Numbers, r: Route, rest: seq<string>)
    requires PrintsWhole(n) && PrintsReal(n, r.distance) && PrintsReal(n, r.cost)
    ensures ReadFigures(n, Figures(n, r) + rest) == Got(r.(points := []), rest)
  {
    assert (Figures(n, r) + rest)[3..] == rest;
  }

  lemma WordsRoundTrip(n: Numbers, r: ExpectedRoute)
    requires Faithful(n, r)
    ensures DecodeWords(n, AllWords(n, r))
         == if |r.entryRoute.points| <= MAX_POINTS && |r.exitRoute.points| <= MAX_POINTS then Some(r) else None
  {
    var e := PointLine(n, r.exitRoute.points);
    var d := PointLine(n, r.entryRoute.points) + e;
    var c := Figures(n, r.exitRoute) + d;
    var b := Figures(n, r.entryRoute) + c;
    var all := AllWords(n, r);
    assert all == Heading(n, r) + b;
    assert all[1..][1..][1..] == b;
    FiguresRoundTrip(n, r.entryRoute, c);
    FiguresRoundTrip(n, r.exitRoute, d);
    CountedRoundTrip(n, r.entryRoute.points, e);
    CountedRoundTrip(n, r.exitRoute.points, []);
    assert e + [] == e;
    hide ReadFigures, ReadCounted;
  }

  /** Decoding the encoded route gives it back if and only if it has a point and no leg has more than the
      limit, or it is the default.  A route without points loses whatever else it carried. */
  lemma RoundTrip(n: Numbers, r: ExpectedRoute)
    requires Faithful(n, r)
    ensures Decode(n, Encode(n, r)) == Some(r) <==>
            (|| r == DEFAULT
             || (!IsEmpty(r) && |r.entryRoute.points| <= MAX_POINTS && |r.exitRoute.points| <= MAX_POINTS))
    ensures IsEmpty(r) ==> Decode(n, Encode(n, r)) == Some(DEFAULT)
  {
    if !IsEmpty(r) {
      EncodedWords(n, r);
      WordsRoundTrip(n, r);
      assert Words("") == [] && AllWords(n, r) != [];
      hide DecodeWords, AllWords, Words;
    }
  }

  // --- What is accepted -----------------------------------------------------------------------

  /** The words from `at` on are a count of at most 100000 and that many pairs of coordinates. */
  ghost predicate PointsAt(n: Numbers, words: seq<string>, at: nat, points: seq<Point>) {
    && at < |words| && n.parseNat(words[at]) == Some(|points|) && |points| <= 100_000
    && at + 1 + 2 * |points| <= |words|
    && forall i :: 0 <= i < |points| ==> PairAt(n, words, at + 1 + 2 * i, points[i])
  }

  ghost predicate PairAt(n: Numbers, words: seq<string>, at: nat, p: Point) {
    at + 1 < |words| && n.parseReal(words[at]) == Some(p.x) && n.parseReal(words[at + 1]) == Some(p.y)
  }

  /** The words from `at` on are the distance, the cost and the turns of a route. */
  ghost predicate FiguresAt(n: Numbers, words: seq<string>, at: nat, r: Route) {
    && at + 2 < |words| && n.parseReal(words[at]) == Some(r.distance) && n.parseReal(words[at + 1]) == Some(r.cost)
    && n.parseInt(words[at + 2]) == Some(r.turnCount)
  }

  /** A text of version 1: the two indexes, the figures in and out, the points in and out, each in its place; what follows
      does not matter. */
  ghost predicate Describes(n: Numbers, words: seq<string>, r: ExpectedRoute) {
    && |words| >= 10 && words[0] == "v1"
    && n.parseNat(words[1]) == Some(r.entranceIndex) && n.parseNat(words[2]) == Some(r.exitIndex)
    && FiguresAt(n, words, 3, r.entryRoute) && FiguresAt(n, words, 6, r.exitRoute)
    && PointsAt(n, words, 9, r.entryRoute.points) && PointsAt(n, words, 10 + 2 * |r.entryRoute.points|, r.exitRoute.points)
  }

  lemma {:induction false} ReadPointsIs(n: Numbers, words: seq<string>, at: nat, count: nat)
    requires at <= |words|
    ensures var read := ReadPoints(n, words[at..], count);
            && (read.Got? ==>
                  && |read.value| == count && at + 2 * count <= |words| && read.rest == words[at + 2 * count..]
                  && forall i :: 0 <= i < count ==> PairAt(n, words, at + 2 * i, read.value[i]))
            && (read.Failed? ==>
                  forall points: seq<Point> :: |points| == count ==> exists i :: 0 <= i < count && !PairAt(n, words, at + 2 * i, points[i]))
    decreases count
  {
    if count > 0 {
      if PointHere(n, words[at..]) {
        assert words[at..][2..] == words[at + 2..];
        ReadPointsIs(n, words, at + 2, count - 1);
        var read, later := ReadPoints(n, words[at..], count), ReadPoints(n, words[at + 2..], count - 1);
        if read.Got? {
          forall i | 0 <= i < count ensures PairAt(n, words, at + 2 * i, read.value[i]) {
            if i > 0 {
              assert PairAt(n, words, at + 2 + 2 * (i - 1), later.value[i - 1]);
            }
          }
        } else {
          forall points: seq<Point> | |points| == count ensures exists i :: 0 <= i < count && !PairAt(n, words, at + 2 * i, points[i]) {
            var i :| 0 <= i < count - 1 && !PairAt(n, words, at + 2 + 2 * i, points[1..][i]);
            assert !PairAt(n, words, at + 2 * (i + 1), points[i + 1]);
          }
        }
      } else {
        forall points: seq<Point> | |points| == count ensures exists i :: 0 <= i < count && !PairAt(n, words, at + 2 * i, points[i]) {
          assert !PairAt(n, words, at + 2 * 0, points[0]);
        }
      }
    }
  }

  lemma ReadCountedIs(n: Numbers, words: seq<string>, at: nat)
    requires at <= |words|
    ensures var read := ReadCounted(n, words[at..]);
            && (read.Got? ==> PointsAt(n, words, at, read.value) && read.rest == words[at + 1 + 2 * |read.value|..])
            && (read.Failed? ==> forall points :: !PointsAt(n, words, at, points))
  {
    if at < |words| && n.parseNat(words[at]).Some? {
      var count := n.parseNat(words[at]).value;
      assert words[at..][1..] == words[at + 1..];
      ReadPointsIs(n, words, at + 1, count);
      if ReadCounted(n, words[at..]).Failed? && count <= MAX_POINTS {
        forall points ensures !PointsAt(n, words, at, points) {
          if |points| == count {
            var i :| 0 <= i < count && !PairAt(n, words, at + 1 + 2 * i, points[i]);
          }
        }
      }
    }
  }

  /** A text is read as exactly the route it describes, and refused if it describes none; the empty text is the default. */
  lemma DecodeIff(n: Numbers, text: string, r: ExpectedRoute)
    ensures Decode(n, text) == Some(r) <==> if text == "" then r == DEFAULT else Describes(n, Words(text), r)
  {
    if text != "" {
      if DecodeWords(n, Words(text)) == Some(r) {
        DecodedIsDescribed(n, Words(text), r);
      }
      if Describes(n, Words(text), r) {
        DescribedIsDecoded(n, Words(text), r);
      }
    }
  }

  lemma PointsOnce(n: Numbers, words: seq<string>, at: nat, a: seq<Point>, b: seq<Point>)
    requires PointsAt(n, words, at, a) && PointsAt(n, words, at, b)
    ensures a == b
  {
    forall i | 0 <= i < |a| ensures a[i] == b[i] {
      assert PairAt(n, words, at + 1 + 2 * i, a[i]) && PairAt(n, words, at + 1 + 2 * i, b[i]);
    }
  }

  /** Everything before the points can be read. */
  predicate HeadReads(n: Numbers, words: seq<string>) {
    && |words| >= 9 && words[0] == "v1" && n.parseNat(words[1]).Some? && n.parseNat(words[2]).Some?
    && n.parseReal(words[3]).Some? && n.parseReal(words[4]).Some? && n.parseInt(words[5]).Some?
    && n.parseReal(words[6]).Some? && n.parseReal(words[7]).Some? && n.parseInt(words[8]).Some?
  }

  function Head(n: Numbers, words: seq<string>, first: seq<Point>, second: seq<Point>): ExpectedRoute
    requires HeadReads(n, words)
  {
    ExpectedRoute(n.parseNat(words[1]).value, n.parseNat(words[2]).value,
                  Route(first, n.parseReal(words[3]).value, n.parseReal(words[4]).value, n.parseInt(words[5]).value),
                  Route(second, n.parseReal(words[6]).value, n.parseReal(words[7]).value, n.parseInt(words[8]).value))
  }

  lemma DecodeInTurn(n: Numbers, words: seq<string>)
    ensures DecodeWords(n, words)
         == if !HeadReads(n, words) then None
            else
              var first := ReadCounted(n, words[9..]);
              if first.Failed? || ReadCounted(n, first.rest).Failed? then None
              else Some(Head(n, words, first.value, ReadCounted(n, first.rest).value))
  {
    if |words| >= 9 {
      assert words[1..][1..] == words[2..] && words[2..][1..] == words[3..];
      assert words[3..][3..] == words[6..] && words[6..][3..] == words[9..];
    }
    hide ReadCounted;
  }

  /** Counted points are read exactly if they are there. */
  lemma ReadsWhatIsThere(n: Numbers, words: seq<string>, at: nat, points: seq<Point>)
    requires at <= |words|
    ensures ReadCounted(n, words[at..]).Got? && ReadCounted(n, words[at..]).value == points <==> PointsAt(n, words, at, points)
    ensures PointsAt(n, words, at, points) ==> ReadCounted(n, words[at..]).rest == words[at + 1 + 2 * |points|..]
  {
    ReadCountedIs(n, words, at);
    if PointsAt(n, words, at, points) {
      PointsOnce(n, words, at, ReadCounted(n, words[at..]).value, points);
    }
    hide ReadCounted;
  }

  lemma DecodedIsDescribed(n: Numbers, words: seq<string>, r: ExpectedRoute)
    requires DecodeWords(n, words) == Some(r)
    ensures Describes(n, words, r)
  {
    DecodeInTurn(n, words);
    hide DecodeWords, ReadCounted, PointsAt;
    var first := r.entryRoute.points;
    ReadsWhatIsThere(n, words, 9, first);
    assert PointsAt(n, words, 9, first) && 10 + 2 * |first| <= |words| by { PointsFit(n, words, 9, first); }
    ReadsWhatIsThere(n, words, 10 + 2 * |first|, r.exitRoute.points);
  }

  lemma PointsFit(n: Numbers, words: seq<string>, at: nat, points: seq<Point>)
    ensures PointsAt(n, words, at, points) ==> at + 1 + 2 * |points| <= |words|
  {
  }

  lemma DescribedIsDecoded(n: Numbers, words: seq<string>, r: ExpectedRoute)
    requires Describes(n, words, r)
    ensures DecodeWords(n, words) == Some(r)
  {
    DecodeInTurn(n, words);
    var first := r.entryRoute.points;
    PointsFit(n, words, 9, first);
    hide DecodeWords, ReadCounted, PointsAt;
    ReadsWhatIsThere(n, words, 9, first);
    ReadsWhatIsThere(n, words, 10 + 2 * |first|, r.exitRoute.points);
  }

  // --- Numbers that can be printed ----------------------------------------------------------

  function PointFigures(points: seq<Point>): (xs: seq<real>)
    ensures forall i :: 0 <= i < |points| ==> points[i].x in xs && points[i].y in xs
  {
    if points == [] then []
    else
      var last := points[|points| - 1];
      PointFigures(points[..|points| - 1]) + [last.x, last.y]
  }

  function RouteFigures(r: Route): seq<real> {
    [r.distance, r.cost] + PointFigures(r.points)
  }

  /** The first place of x, or the number of places. */
  function Place(xs: seq<real>, x: real): (i: nat)
    ensures i <= |xs| && (x in xs ==> i < |xs| && xs[i] == x)
  {
    if xs == [] || xs[0] == x then 0 else 1 + Place(xs[1..], x)
  }

  function Strokes(k: nat): (w: string)
    ensures |w| == k + 1 && IsWord(w) && w[0] == '|'
  {
    seq(k + 1, i => '|')
  }

  /** Whole numbers as strokes, with a sign if they are negative, and listed reals as their places. */
  function Tally(xs: seq<real>): Numbers {
    Numbers(x => Strokes(Place(xs, x)),
            w => if 1 <= |w| <= |xs| then Some(xs[|w| - 1]) else None,
            x => if x < 0 then "-" + Strokes(-x) else Strokes(x),
            w => if w == "" then None else if w[0] == '-' then (if |w| < 3 then None else Some(2 - |w|)) else Some(|w| - 1),
            (x: nat) => Strokes(x),
            w => if w == "" then None else Some(|w| - 1))
  }

  lemma TallyPrintsWhole(xs: seq<real>)
    ensures PrintsWhole(Tally(xs))
  {
    hide Place;
  }

  lemma TallyPrintsReal(xs: seq<real>, x: real)
    requires x in xs
    ensures PrintsReal(Tally(xs), x)
  {
  }

  lemma TallyPrintsRoute(xs: seq<real>, r: Route)
    requires forall x :: x in RouteFigures(r) ==> x in xs
    ensures PrintsRoute(Tally(xs), r)
  {
    var figures := PointFigures(r.points);
    assert RouteFigures(r) == [r.distance, r.cost] + figures;
    hide PrintsReal, PointFigures, RouteFigures, Tally;
    forall x | x in xs ensures PrintsReal(Tally(xs), x) {
      TallyPrintsReal(xs, x);
    }
    assert r.distance in RouteFigures(r) && r.cost in RouteFigures(r);
    assert forall x :: x in figures ==> x in RouteFigures(r);
  }

  /** For every route there are numbers that print faithfully. */
  lemma NumbersExist(r: ExpectedRoute) returns (n: Numbers)
    ensures Faithful(n, r)
  {
    var xs := RouteFigures(r.entryRoute) + RouteFigures(r.exitRoute);
    n := Tally(xs);
    hide PrintsWhole, PrintsRoute, RouteFigures, Tally;
    TallyPrintsWhole(xs);
    TallyPrintsRoute(xs, r.entryRoute);
    TallyPrintsRoute(xs, r.exitRoute);
  }
}
