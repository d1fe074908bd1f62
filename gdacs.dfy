/** GdacsTool.gs.js: the disaster alerts of the GDACS feed near the user, filtered by
    level and radius, nearest first, at most three. */
module Gdacs {
  import opened Wrappers
  import opened Text
  import opened ToolResults

  const DefaultRssUrl: string := "https://www.gdacs.org/xml/rss.xml"
  const DefaultRadiusKm: int := 500
  const DefaultMinLevel: string := "Orange"
  const MaxTitleLength: nat := 100
  const MaxAlertLines: nat := 3

  /** `GdacsConfig(rssUrl, alertRadiusKm, minAlertLevel)` after its defaults; "" and
      0 stand for falsy arguments. */
  datatype Config = Config(rssUrl: string, alertRadiusKm: int, minAlertLevel: string)

  function MakeConfig(rssUrl: string, alertRadiusKm: int, minAlertLevel: string): (c: Config)
    ensures alertRadiusKm != 0 ==> c.alertRadiusKm == alertRadiusKm
    ensures alertRadiusKm == 0 ==> c.alertRadiusKm == 500
    ensures minAlertLevel != "" ==> c.minAlertLevel == minAlertLevel
    ensures minAlertLevel == "" ==> c.minAlertLevel == "Orange"
  {
    Config(if rssUrl == "" then DefaultRssUrl else rssUrl,
           if alertRadiusKm == 0 then DefaultRadiusKm else alertRadiusKm,
           if minAlertLevel == "" then DefaultMinLevel else minAlertLevel)
  }

  /** An item of the parsed feed; where it is, is known only through the distance
      function the tool is given. */
  datatype Item = Item(level: string, title: string, kind: string)

  /** An alert kept for the reply, with its distance rounded to whole kilometres. */
  datatype Alert = Alert(kind: string, level: string, distance: int, title: string)

  /** The level test: a minimum of Red keeps only Red, a minimum of Orange drops Green,
      any other minimum keeps everything. */
  predicate PassesLevel(minAlertLevel: string, level: string) {
    !(minAlertLevel == "Red" && level != "Red") && !(minAlertLevel == "Orange" && level == "Green")
  }

  /** `Math.round`: halves round up. */
  function Round(x: real): int {
    (x + 0.5).Floor
  }

  predicate Kept(config: Config, item: Item, distanceKm: real) {
    PassesLevel(config.minAlertLevel, item.level) && distanceKm <= config.alertRadiusKm as real
  }

  function ToAlert(item: Item, distanceKm: real): Alert {
    Alert(item.kind, item.level, Round(distanceKm), Take(item.title, MaxTitleLength))
  }

  /** The alerts `filterNearbyAlerts` keeps, in feed order. */
  function NearbyAlerts(config: Config, items: seq<Item>, distanceTo: Item -> real): seq<Alert> {
    if items == [] then []
    else
      var last := items[|items| - 1];
      NearbyAlerts(config, items[..|items| - 1], distanceTo)
      + (if Kept(config, last, distanceTo(last)) then [ToAlert(last, distanceTo(last))] else [])
  }

  /** Every kept alert comes from an item that passes the level test and lies within
      the radius, and its title is at most 100 characters. */
  lemma {:induction false} NearbyAlertsKept(config: Config, items: seq<Item>, distanceTo: Item -> real)
    ensures forall a :: a in NearbyAlerts(config, items, distanceTo) ==>
      exists i :: (0 <= i < |items| && Kept(config, items[i], distanceTo(items[i]))
        && a == ToAlert(items[i], distanceTo(items[i])))
    ensures forall a :: a in NearbyAlerts(config, items, distanceTo) ==>
      PassesLevel(config.minAlertLevel, a.level) && |a.title| <= MaxTitleLength
  {
    if items != [] {
      var init := items[..|items| - 1];
      NearbyAlertsKept(config, init, distanceTo);
      forall a | a in NearbyAlerts(config, items, distanceTo)
        ensures exists i :: (0 <= i < |items| && Kept(config, items[i], distanceTo(items[i]))
          && a == ToAlert(items[i], distanceTo(items[i])))
      {
        if a in NearbyAlerts(config, init, distanceTo) {
          var i :| 0 <= i < |init| && Kept(config, init[i], distanceTo(init[i])) && a == ToAlert(init[i], distanceTo(init[i]));
          assert items[i] == init[i];
        } else {
          assert a == ToAlert(items[|items| - 1], distanceTo(items[|items| - 1]));
        }
      }
    }
  }

  /** A minimum of Red leaves only Red alerts; a minimum of Orange leaves no Green
      ones. */
  lemma LevelFilter(config: Config, items: seq<Item>, distanceTo: Item -> real)
    ensures config.minAlertLevel == "Red" ==> forall a :: a in NearbyAlerts(config, items, distanceTo) ==> a.level == "Red"
    ensures config.minAlertLevel == "Orange" ==> forall a :: a in NearbyAlerts(config, items, distanceTo) ==> a.level != "Green"
  {
    NearbyAlertsKept(config, items, distanceTo);
  }

  /** `filterNearbyAlerts(items, lat, lon)`, with `distanceTo` as the great-circle
      distance from the user to an item. */
  method FilterNearbyAlerts(config: Config, items: seq<Item>, distanceTo: Item -> real)
    returns (nearbyAlerts: seq<Alert>)
    ensures nearbyAlerts == NearbyAlerts(config, items, distanceTo)
  {
    nearbyAlerts := [];
    for i := 0 to |items|
      invariant nearbyAlerts == NearbyAlerts(config, items[..i], distanceTo)
    {
      var item := items[i];
      assert items[..i + 1][..i] == items[..i];
      if config.minAlertLevel == "Red" && item.level != "Red" {
        continue;
      }
      if config.minAlertLevel == "Orange" && item.level == "Green" {
        continue;
      }
      var distance := distanceTo(item);
      if distance <= config.alertRadiusKm as real {
        nearbyAlerts := nearbyAlerts + [Alert(item.kind, item.level, Round(distance), Take(item.title, 100))];
      }
    }
    assert items[..|items|] == items;
  }

  // ---------------------------------------------------------------------------
  // the sort by distance

  predicate SortedByDistance(s: seq<Alert>) {
    forall i, j :: 0 <= i < j < |s| ==> s[i].distance <= s[j].distance
  }

  /** `x` placed after every alert that is no farther than it. */
  function Insert(x: Alert, s: seq<Alert>): (r: seq<Alert>)
    ensures |r| == |s| + 1
  {
    if s == [] then [x]
    else if s[0].distance <= x.distance then [s[0]] + Insert(x, s[1..])
    else [x] + s
  }

  /** `nearbyAlerts.sort((a, b) => a.distance - b.distance)`, which is stable: an
      insertion sort that keeps equal distances in their order. */
  function SortByDistance(s: seq<Alert>): (r: seq<Alert>)
    ensures |r| == |s|
  {
    if s == [] then [] else Insert(s[|s| - 1], SortByDistance(s[..|s| - 1]))
  }

  lemma {:induction false} InsertSorted(x: Alert, s: seq<Alert>)
    requires SortedByDistance(s)
    ensures SortedByDistance(Insert(x, s))
    ensures multiset(Insert(x, s)) == multiset(s) + multiset{x}
  {
    InsertPermutes(x, s);
    InsertOrders(x, s);
  }

  lemma {:induction false} InsertPermutes(x: Alert, s: seq<Alert>)
    ensures multiset(Insert(x, s)) == multiset(s) + multiset{x}
  {
    if s != [] && s[0].distance <= x.distance {
      InsertPermutes(x, s[1..]);
      assert s == [s[0]] + s[1..];
    }
  }

  lemma {:induction false} InsertOrders(x: Alert, s: seq<Alert>)
    requires SortedByDistance(s)
    ensures SortedByDistance(Insert(x, s))
  {
    if s != [] && s[0].distance <= x.distance {
      InsertOrders(x, s[1..]);
      InsertPermutes(x, s[1..]);
      var r := Insert(x, s[1..]);
      forall k | 0 <= k < |r| ensures s[0].distance <= r[k].distance {
        assert r[k] in multiset(r);
        if r[k] != x {
          assert r[k] in multiset(s[1..]);
          var m :| 0 <= m < |s[1..]| && s[1..][m] == r[k];
          assert s[m + 1] == r[k];
        }
      }
      ConsSorted(s[0], r);
    }
  }

  lemma ConsSorted(a: Alert, r: seq<Alert>)
    requires SortedByDistance(r)
    requires forall k :: 0 <= k < |r| ==> a.distance <= r[k].distance
    ensures SortedByDistance([a] + r)
  {
    forall i, j | 0 <= i < j < |[a] + r| ensures ([a] + r)[i].distance <= ([a] + r)[j].distance {
      if i > 0 {
        assert ([a] + r)[i] == r[i - 1];
      }
      assert ([a] + r)[j] == r[j - 1];
    }
  }

  /** The sort orders by distance and neither loses nor adds an alert. */
  lemma {:induction false} SortSortsAndPermutes(s: seq<Alert>)
    ensures SortedByDistance(SortByDistance(s))
    ensures multiset(SortByDistance(s)) == multiset(s)
  {
    SortSorts(s);
    SortPermutes(s);
  }

  lemma {:induction false} SortSorts(s: seq<Alert>)
    ensures SortedByDistance(SortByDistance(s))
  {
    if s != [] {
      SortSorts(s[..|s| - 1]);
      InsertOrders(s[|s| - 1], SortByDistance(s[..|s| - 1]));
    }
  }

  lemma {:induction false} SortPermutes(s: seq<Alert>)
    ensures multiset(SortByDistance(s)) == multiset(s)
  {
    if s != [] {
      var init := s[..|s| - 1];
      SortPermutes(init);
      InsertPermutes(s[|s| - 1], SortByDistance(init));
      assert s == init + [s[|s| - 1]];
    }
  }

  /** The alerts at distance `d`, in order. */
  function AtDistance(s: seq<Alert>, d: int): seq<Alert> {
    if s == [] then [] else (if s[0].distance == d then [s[0]] else []) + AtDistance(s[1..], d)
  }

  lemma {:induction false} AtDistanceSnoc(s: seq<Alert>, x: Alert, d: int)
    ensures AtDistance(s + [x], d) == AtDistance(s, d) + (if x.distance == d then [x] else [])
  {
    if s != [] {
      assert (s + [x])[1..] == s[1..] + [x];
      AtDistanceSnoc(s[1..], x, d);
    } else {
      assert [x][1..] == [];
    }
  }

  lemma {:induction false} AtDistanceFar(s: seq<Alert>, d: int)
    requires SortedByDistance(s) && s != [] && s[0].distance > d
    ensures AtDistance(s, d) == []
  {
    if |s| > 1 {
      AtDistanceFar(s[1..], d);
    }
  }

  lemma {:induction false} InsertStable(x: Alert, s: seq<Alert>, d: int)
    requires SortedByDistance(s)
    ensures AtDistance(Insert(x, s), d) == AtDistance(s, d) + (if x.distance == d then [x] else [])
  {
    if s == [] {
      assert AtDistance([x], d) == (if x.distance == d then [x] else []) + AtDistance([], d);
    } else if s[0].distance <= x.distance {
      var rest := Insert(x, s[1..]);
      assert SortedByDistance(s[1..]) by {
        forall i, j | 0 <= i < j < |s| - 1 ensures s[1..][i].distance <= s[1..][j].distance {
          assert s[1..][i] == s[i + 1] && s[1..][j] == s[j + 1];
        }
      }
      InsertStable(x, s[1..], d);
      assert ([s[0]] + rest)[1..] == rest;
      assert AtDistance(s, d) == (if s[0].distance == d then [s[0]] else []) + AtDistance(s[1..], d);
    } else {
      assert ([x] + s)[1..] == s;
      if x.distance == d {
        AtDistanceFar(s, d);
      }
    }
  }

  /** The sort is stable: the alerts at any one distance keep their order. */
  lemma {:induction false} SortIsStable(s: seq<Alert>, d: int)
    ensures AtDistance(SortByDistance(s), d) == AtDistance(s, d)
  {
    if s != [] {
      var init := s[..|s| - 1];
      SortIsStable(init, d);
      SortSortsAndPermutes(init);
      InsertStable(s[|s| - 1], SortByDistance(init), d);
      assert s == init + [s[|s| - 1]];
      AtDistanceSnoc(init, s[|s| - 1], d);
    }
  }

  // ---------------------------------------------------------------------------
  // fetchNearby

  function AlertLine(a: Alert): string {
    "⚠️ " + Upper(a.level) + " " + a.kind + ": " + IntToString(a.distance) + "km away - " + a.title
  }

  /** The lines for the nearest three alerts. */
  function TopLines(nearby: seq<Alert>): (lines: seq<string>)
    ensures |lines| <= MaxAlertLines && |lines| <= |nearby|
  {
    var sorted := SortByDistance(nearby);
    var n := if |sorted| < 3 then |sorted| else 3;
    seq(n, i requires 0 <= i < n => AlertLine(sorted[i]))
  }

  /** The lines are those of the nearest alerts: no alert left out is nearer than one
      shown, and at most three are shown. */
  lemma TopLinesNearest(nearby: seq<Alert>)
    ensures var sorted := SortByDistance(nearby);
      var n := |TopLines(nearby)|;
      n == (if |nearby| < 3 then |nearby| else 3)
      && (forall i :: 0 <= i < n ==> TopLines(nearby)[i] == AlertLine(sorted[i]))
      && (forall i, j :: 0 <= i < n <= j < |sorted| ==> sorted[i].distance <= sorted[j].distance)
      && multiset(sorted) == multiset(nearby)
  {
    SortSortsAndPermutes(nearby);
  }

  /** `fetchNearby(lat, lon)` once the feed is answered and parsed (a parser failure
      is `Malformed` with the parser's error): a thrown exception gives `EXCEPTION:`,
      a code other than 200 gives `HTTP_<code>`, a parser failure passes its error
      on, no nearby alert gives success without data, and otherwise the nearest three
      make the data. */
  method FetchNearby(config: Config, reply: Reply<seq<Item>>, distanceTo: Item -> real)
    returns (result: ToolResult)
    ensures WellFormed(result)
    ensures reply.Threw? ==> result == Fail(ExceptionError(reply.message))
    ensures reply.Replied? && reply.code != 200 ==> result == Fail(HttpError(reply.code))
    ensures reply.Replied? && reply.code == 200 && reply.body.Malformed? ==> result == Fail(reply.body.message)
    ensures reply.Replied? && reply.code == 200 && reply.body.Parsed? ==>
      var nearby := NearbyAlerts(config, reply.body.value, distanceTo);
      result == if nearby == [] then ToolResult(true, None, None) else Ok(Join(TopLines(nearby), "\n"))
  {
    match reply
    case Threw(message) =>
      return Fail(ExceptionError(message));
    case Replied(code, body) =>
      if code != 200 {
        return Fail(HttpError(code));
      }
      match body
      case Malformed(error) =>
        return Fail(error);
      case Parsed(items) =>
        var nearbyAlerts := FilterNearbyAlerts(config, items, distanceTo);
        if |nearbyAlerts| == 0 {
          return ToolResult(true, None, None);
        }
        var sorted := SortByDistance(nearbyAlerts);
        var n := if |sorted| < 3 then |sorted| else 3;
        var alertLines := seq(n, i requires 0 <= i < n => AlertLine(sorted[i]));
        return Ok(Join(alertLines, "\n"));
  }
}
