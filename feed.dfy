/**
 * The measurement feed and the selection of one lake's rows: the
 * case-insensitive name filter and the "latest" row, which is simply the
 * last row of the selection in feed order.
 */
module Feed {
  import opened Wrappers
  import Text

  /** The five measured parameters. */
  datatype Feature = Temperature | DissolvedOxygen | PH | Conductivity | BOD

  /** A yearly minimum and maximum, each already passed through `parseFloat`. */
  datatype MinMax = MinMax(min: Option<real>, max: Option<real>)

  /** One feed record: a lake, a year label, a source and five parameter pairs. */
  datatype Row = Row(
    name: string,
    year: string,
    source: string,
    temperature: MinMax,
    dissolvedOxygen: MinMax,
    pH: MinMax,
    conductivity: MinMax,
    bod: MinMax)
  {
    /** The pair the row holds for a parameter. */
    function Reading(f: Feature): MinMax
    {
      match f
      case Temperature => temperature
      case DissolvedOxygen => dissolvedOxygen
      case PH => pH
      case Conductivity => conductivity
      case BOD => bod
    }
  }

  /** A row belongs to a lake when the names agree after lower-casing both. */
  predicate NameMatches(row: Row, lakeName: string)
  {
    Text.Lower(row.name) == Text.Lower(lakeName)
  }

  /** `lakeData.filter(...)`: the rows of one lake, in feed order. */
  function SelectLake(rows: seq<Row>, lakeName: string): (r: seq<Row>)
    ensures |r| <= |rows|
    ensures forall i :: 0 <= i < |r| ==> NameMatches(r[i], lakeName)
  {
    if rows == [] then []
    else (if NameMatches(rows[0], lakeName) then [rows[0]] else []) + SelectLake(rows[1..], lakeName)
  }

  /** `lakeRows[lakeRows.length - 1]`, or nothing for an empty selection. */
  function Latest(selection: seq<Row>): (r: Option<Row>)
    ensures r.None? <==> selection == []
    ensures r.Some? ==> r.value in selection
  {
    if selection == [] then None else Some(selection[|selection| - 1])
  }

  /** The filter keeps exactly the matching rows (both directions). */
  lemma {:induction false} SelectLakeMembership(rows: seq<Row>, lakeName: string, row: Row)
    ensures row in SelectLake(rows, lakeName) <==> row in rows && NameMatches(row, lakeName)
  {
    if rows != [] {
      SelectLakeMembership(rows[1..], lakeName, row);
      assert rows == [rows[0]] + rows[1..];
    }
  }

  /** The filter keeps every matching row as often as the feed holds it. */
  lemma {:induction false} SelectLakeCount(rows: seq<Row>, lakeName: string, row: Row)
    ensures multiset(SelectLake(rows, lakeName))[row] ==
      if NameMatches(row, lakeName) then multiset(rows)[row] else 0
  {
    if rows != [] {
      SelectLakeCount(rows[1..], lakeName, row);
      assert rows == [rows[0]] + rows[1..];
    }
  }

  /** The filter works piecewise, so it preserves feed order. */
  lemma {:induction false} SelectLakeAppend(a: seq<Row>, b: seq<Row>, lakeName: string)
    ensures SelectLake(a + b, lakeName) == SelectLake(a, lakeName) + SelectLake(b, lakeName)
  {
    if a == [] {
      assert a + b == b;
    } else {
      assert (a + b)[0] == a[0];
      assert (a + b)[1..] == a[1..] + b;
      SelectLakeAppend(a[1..], b, lakeName);
    }
  }

  /** The selection does not depend on the letter case of the requested name. */
  lemma {:induction false} SelectLakeIgnoresCase(rows: seq<Row>, a: string, b: string)
    requires Text.SameIgnoringCase(a, b)
    ensures SelectLake(rows, a) == SelectLake(rows, b)
  {
    if rows != [] {
      SelectLakeIgnoresCase(rows[1..], a, b);
    }
  }

  /** Requesting the lower-cased name selects the same rows. */
  lemma SelectLakeLowered(rows: seq<Row>, lakeName: string)
    ensures SelectLake(rows, Text.Lower(lakeName)) == SelectLake(rows, lakeName)
  {
    Text.LowerIdempotent(lakeName);
    SelectLakeIgnoresCase(rows, Text.Lower(lakeName), lakeName);
  }

  /** The selection is empty exactly when no feed row matches (an empty feed included). */
  lemma {:induction false} SelectLakeEmpty(rows: seq<Row>, lakeName: string)
    ensures SelectLake(rows, lakeName) == [] <==>
      forall i :: 0 <= i < |rows| ==> !NameMatches(rows[i], lakeName)
  {
    if rows != [] {
      SelectLakeEmpty(rows[1..], lakeName);
      assert forall i :: 1 <= i < |rows| ==> rows[i] == rows[1..][i - 1];
    }
  }

  /** Row `k` matches the lake and no later row of the feed does. */
  predicate IsLastMatch(rows: seq<Row>, lakeName: string, k: int)
  {
    0 <= k < |rows| && NameMatches(rows[k], lakeName) &&
    forall j :: k < j < |rows| ==> !NameMatches(rows[j], lakeName)
  }

  /** The latest row of a lake is the last matching row of the feed. */
  lemma {:induction false} LatestIsLastMatch(rows: seq<Row>, lakeName: string)
    requires Latest(SelectLake(rows, lakeName)).Some?
    ensures exists k :: IsLastMatch(rows, lakeName, k) && rows[k] == Latest(SelectLake(rows, lakeName)).value
  {
    var n := |rows|;
    var init := rows[..n - 1];
    assert rows == init + [rows[n - 1]];
    SelectLakeAppend(init, [rows[n - 1]], lakeName);
    assert [rows[n - 1]][1..] == [];
    if NameMatches(rows[n - 1], lakeName) {
      assert IsLastMatch(rows, lakeName, n - 1);
    } else {
      assert SelectLake(rows, lakeName) == SelectLake(init, lakeName);
      LatestIsLastMatch(init, lakeName);
      var k :| IsLastMatch(init, lakeName, k) && init[k] == Latest(SelectLake(init, lakeName)).value;
      assert IsLastMatch(rows, lakeName, k) by {
        forall j | k < j < n
          ensures !NameMatches(rows[j], lakeName)
        {
          if j < n - 1 {
            assert rows[j] == init[j];
          }
        }
      }
    }
  }

  /** Selecting and taking the latest row twice over the same feed gives the same answer. */
  lemma SelectionIsRepeatable(rows: seq<Row>, a: string, b: string)
    requires Text.SameIgnoringCase(a, b)
    ensures Latest(SelectLake(rows, a)) == Latest(SelectLake(rows, b))
  {
    SelectLakeIgnoresCase(rows, a, b);
  }
}
