/** The frame contract of candle series: ascending times, one row per time. */
module CandleFrames {
  import opened Strategies

  predicate Ascending(frame: seq<Candle>) {
    forall j, k :: 0 <= j < k < |frame| ==> frame[j].ts < frame[k].ts
  }

  /** Put a row where its time belongs, in place of the row of the same time if there is one. */
  function Placed(frame: seq<Candle>, c: Candle): seq<Candle> {
    if frame == [] then [c]
    else
      var n := |frame| - 1;
      if frame[n].ts < c.ts then frame + [c]
      else if frame[n].ts == c.ts then frame[..n] + [c]
      else Placed(frame[..n], c) + [frame[n]]
  }

  /** Drop all but the last row of each time and sort by time. */
  function Normalized(rows: seq<Candle>): seq<Candle> {
    if rows == [] then [] else Placed(Normalized(rows[..|rows|-1]), rows[|rows|-1])
  }

  lemma {:induction false} PlacedKeeps(frame: seq<Candle>, c: Candle)
    requires Ascending(frame)
    ensures Ascending(Placed(frame, c))
    ensures forall x :: x in Placed(frame, c) <==> x == c || (x in frame && x.ts != c.ts)
  {
    if frame != [] {
      var n := |frame| - 1;
      if frame[n].ts > c.ts {
        PlacedKeeps(frame[..n], c);
        var rest := Placed(frame[..n], c);
        forall k | 0 <= k < |rest| ensures rest[k].ts < frame[n].ts {
          assert rest[k] in rest;
        }
      }
    }
  }

  /** The last row of its time. */
  ghost predicate IsLastOfItsTime(rows: seq<Candle>, x: Candle) {
    exists k :: 0 <= k < |rows| && rows[k] == x && forall j :: k < j < |rows| ==> rows[j].ts != x.ts
  }

  lemma LastOfItsTimeAppend(rows: seq<Candle>, c: Candle, x: Candle)
    ensures IsLastOfItsTime(rows + [c], x) <==> x == c || (IsLastOfItsTime(rows, x) && x.ts != c.ts)
  {
    var all := rows + [c];
    if x == c {
      assert all[|rows|] == x;
    } else if IsLastOfItsTime(rows, x) && x.ts != c.ts {
      var k :| 0 <= k < |rows| && rows[k] == x && forall j :: k < j < |rows| ==> rows[j].ts != x.ts;
      assert all[k] == x;
    } else if IsLastOfItsTime(all, x) {
      var k :| 0 <= k < |all| && all[k] == x && forall j :: k < j < |all| ==> all[j].ts != x.ts;
      assert rows[k] == x && all[|rows|].ts != x.ts;
      forall j | k < j < |rows| ensures rows[j].ts != x.ts { assert all[j] == rows[j]; }
    }
  }

  /** The normalized frame ascends, and its rows are exactly the last rows of their times. */
  lemma {:induction false} NormalizedIsFrame(rows: seq<Candle>)
    ensures Ascending(Normalized(rows))
    ensures forall x :: x in Normalized(rows) <==> IsLastOfItsTime(rows, x)
  {
    hide Placed, IsLastOfItsTime;
    if rows == [] {
      NothingIsLast();
    } else {
      var before, c := rows[..|rows|-1], rows[|rows|-1];
      assert rows == before + [c];
      NormalizedIsFrame(before);
      PlacedKeeps(Normalized(before), c);
      forall x ensures x in Normalized(rows) <==> IsLastOfItsTime(rows, x) {
        LastOfItsTimeAppend(before, c, x);
      }
    }
  }

  lemma NothingIsLast()
    ensures forall x :: !IsLastOfItsTime([], x)
  {
  }

  /** A series that already keeps the contract is left alone. */
  lemma {:induction false} FrameIsKept(rows: seq<Candle>)
    requires Ascending(rows)
    ensures Normalized(rows) == rows
  {
    if rows != [] { FrameIsKept(rows[..|rows|-1]); }
  }
}
