/** The location list of AttendanceService.getLocationHistory: a reduce that
    keeps a history record only when no kept record has its LocationNameC,
    then a map that numbers the kept records from 1. */
module Locations {

  /** One attendance record of the provider's history (the fields used). */
  datatype HistoryRecord = HistoryRecord(locationNameC: string, latN: string, lngN: string)

  /** An element of the returned location list. */
  datatype LocationItem = LocationItem(id: int, locationName: string, latitude: string, longitude: string)

  /** acc.some((obj) => obj.LocationNameC === name) */
  predicate HasLocation(acc: seq<HistoryRecord>, name: string)
  {
    exists k :: 0 <= k < |acc| && acc[k].locationNameC == name
  }

  /** The reduce: `rest` folded into the accumulator `acc`, left to right. */
  function KeepFirstByLocation(acc: seq<HistoryRecord>, rest: seq<HistoryRecord>): seq<HistoryRecord>
    decreases |rest|
  {
    if |rest| == 0 then acc
    else
      var acc' := if HasLocation(acc, rest[0].locationNameC) then acc else acc + [rest[0]];
      KeepFirstByLocation(acc', rest[1..])
  }

  /** The map: the kept records numbered 1, 2, ... */
  function Numbered(kept: seq<HistoryRecord>): (r: seq<LocationItem>)
    ensures |r| == |kept|
    ensures forall i :: 0 <= i < |r| ==>
      r[i] == LocationItem(i + 1, kept[i].locationNameC, kept[i].latN, kept[i].lngN)
  {
    seq(|kept|, i requires 0 <= i < |kept| =>
      LocationItem(i + 1, kept[i].locationNameC, kept[i].latN, kept[i].lngN))
  }

  /** history.reduce(...).map(...) */
  function LocationHistory(history: seq<HistoryRecord>): seq<LocationItem>
  {
    Numbered(KeepFirstByLocation([], history))
  }

  // ---- An independent description of the result: the first occurrences ----

  /** Position i holds the first record of the history with its location name. */
  predicate IsFirst(h: seq<HistoryRecord>, i: nat)
    requires i < |h|
  {
    forall j :: 0 <= j < i ==> h[j].locationNameC != h[i].locationNameC
  }

  /** The positions below n that hold first occurrences, in increasing order. */
  function FirstPositions(h: seq<HistoryRecord>, n: nat): (ps: seq<nat>)
    requires n <= |h|
    ensures forall t :: 0 <= t < |ps| ==> ps[t] < n && IsFirst(h, ps[t])
    ensures forall t, u :: 0 <= t < u < |ps| ==> ps[t] < ps[u]
    ensures forall i :: 0 <= i < n && IsFirst(h, i) ==> i in ps
  {
    if n == 0 then []
    else FirstPositions(h, n - 1) + (if IsFirst(h, n - 1) then [n - 1] else [])
  }

  /** The records at those positions. */
  function FirstOccurrences(h: seq<HistoryRecord>, n: nat): seq<HistoryRecord>
    requires n <= |h|
  {
    var ps := FirstPositions(h, n);
    seq(|ps|, t requires 0 <= t < |ps| => h[ps[t]])
  }

  /** The set of location names in a list of records. */
  function Names(s: seq<HistoryRecord>): set<string>
  {
    set k | 0 <= k < |s| :: s[k].locationNameC
  }

  lemma {:induction false} FirstOccurrencesNames(h: seq<HistoryRecord>, n: nat)
    requires n <= |h|
    ensures Names(FirstOccurrences(h, n)) == Names(h[..n])
  {
    if n > 0 {
      FirstOccurrencesNames(h, n - 1);
      var prev := FirstOccurrences(h, n - 1);
      var cur := FirstOccurrences(h, n);
      var name := h[n - 1].locationNameC;
      assert h[..n] == h[..n - 1] + [h[n - 1]];
      assert Names(h[..n]) == Names(h[..n - 1]) + {name} by {
        forall x | x in Names(h[..n]) ensures x in Names(h[..n - 1]) + {name} {
          var k :| 0 <= k < n && h[..n][k].locationNameC == x;
          if k < n - 1 { assert h[..n - 1][k].locationNameC == x; }
        }
        forall x | x in Names(h[..n - 1]) + {name} ensures x in Names(h[..n]) {
          if x == name { assert h[..n][n - 1].locationNameC == x; }
          else {
            var k :| 0 <= k < n - 1 && h[..n - 1][k].locationNameC == x;
            assert h[..n][k].locationNameC == x;
          }
        }
      }
      if IsFirst(h, n - 1) {
        assert cur == prev + [h[n - 1]];
        NamesAppend(prev, h[n - 1]);
      } else {
        assert cur == prev;
        var j :| 0 <= j < n - 1 && h[j].locationNameC == name;
        assert h[..n - 1][j].locationNameC == name;
      }
    }
  }

  lemma NamesAppend(s: seq<HistoryRecord>, x: HistoryRecord)
    ensures Names(s + [x]) == Names(s) + {x.locationNameC}
  {
    var t := s + [x];
    forall y | y in Names(t) ensures y in Names(s) + {x.locationNameC} {
      var k :| 0 <= k < |t| && t[k].locationNameC == y;
      if k < |s| { assert s[k].locationNameC == y; }
    }
    forall y | y in Names(s) + {x.locationNameC} ensures y in Names(t) {
      if y == x.locationNameC { assert t[|s|].locationNameC == y; }
      else {
        var k :| 0 <= k < |s| && s[k].locationNameC == y;
        assert t[k].locationNameC == y;
      }
    }
  }

  lemma HasLocationIsNames(acc: seq<HistoryRecord>, name: string)
    ensures HasLocation(acc, name) <==> name in Names(acc)
  {
    if name in Names(acc) {
      var k :| 0 <= k < |acc| && acc[k].locationNameC == name;
    }
  }

  /** Record k is already represented among the first occurrences before it
      exactly when it is not a first occurrence itself. */
  lemma {:induction false} SeenIffNotFirst(h: seq<HistoryRecord>, k: nat)
    requires k < |h|
    ensures HasLocation(FirstOccurrences(h, k), h[k].locationNameC) <==> !IsFirst(h, k)
  {
    var x := h[k];
    FirstOccurrencesNames(h, k);
    HasLocationIsNames(FirstOccurrences(h, k), x.locationNameC);
    if !IsFirst(h, k) {
      var j :| 0 <= j < k && h[j].locationNameC == x.locationNameC;
      assert h[..k][j].locationNameC == x.locationNameC;
    }
    if x.locationNameC in Names(h[..k]) {
      var j :| 0 <= j < k && h[..k][j].locationNameC == x.locationNameC;
      assert h[j].locationNameC == x.locationNameC;
    }
  }

  /** One more record extends the first occurrences exactly when it is one. */
  lemma FirstOccurrencesStep(h: seq<HistoryRecord>, k: nat)
    requires k < |h|
    ensures FirstOccurrences(h, k + 1) == if IsFirst(h, k) then FirstOccurrences(h, k) + [h[k]] else FirstOccurrences(h, k)
  {
  }

  /** One step of the reduce over first occurrences: folding record k into
      the first occurrences before it gives those up to and including k. */
  lemma ReduceStep(h: seq<HistoryRecord>, k: nat)
    requires k < |h|
    ensures (if HasLocation(FirstOccurrences(h, k), h[k].locationNameC) then FirstOccurrences(h, k)
             else FirstOccurrences(h, k) + [h[k]]) == FirstOccurrences(h, k + 1)
  {
    SeenIffNotFirst(h, k);
    FirstOccurrencesStep(h, k);
  }

  /** The reduce unfolds by one record. */
  lemma KeepFirstUnfold(acc: seq<HistoryRecord>, rest: seq<HistoryRecord>)
    requires |rest| > 0
    ensures KeepFirstByLocation(acc, rest)
         == KeepFirstByLocation(if HasLocation(acc, rest[0].locationNameC) then acc else acc + [rest[0]], rest[1..])
  {
  }

  /** After k records, the reduce's accumulator holds the first occurrences
      among those k records. */
  lemma {:induction false} ReducePrefix(h: seq<HistoryRecord>, k: nat)
    requires k <= |h|
    ensures KeepFirstByLocation(FirstOccurrences(h, k), h[k..]) == FirstOccurrences(h, |h|)
    decreases |h| - k
  {
    if k < |h| {
      KeepFirstUnfold(FirstOccurrences(h, k), h[k..]);
      assert h[k..][0] == h[k] && h[k..][1..] == h[k + 1..];
      ReduceStep(h, k);
      ReducePrefix(h, k + 1);
    }
  }

  /** The reduce computes exactly the first occurrences, in history order. */
  lemma KeepFirstIsFirstOccurrences(h: seq<HistoryRecord>)
    ensures KeepFirstByLocation([], h) == FirstOccurrences(h, |h|)
  {
    assert FirstOccurrences(h, 0) == [];
    assert h[0..] == h;
    ReducePrefix(h, 0);
  }

  /** What getLocationHistory promises of its list: ids 1..k; pairwise
      distinct names; every name of the history present; and item t is, with
      its coordinates, the record at the t-th first-occurrence position, so the
      order of first occurrence is kept. */
  lemma LocationHistoryProperties(h: seq<HistoryRecord>)
    ensures var r := LocationHistory(h);
      && (forall t :: 0 <= t < |r| ==> r[t].id == t + 1)
      && (forall t, u :: 0 <= t < u < |r| ==> r[t].locationName != r[u].locationName)
      && (forall i :: 0 <= i < |h| ==> exists t :: 0 <= t < |r| && r[t].locationName == h[i].locationNameC)
      && |r| == |FirstPositions(h, |h|)|
      && (forall t :: 0 <= t < |r| ==>
            var p := FirstPositions(h, |h|)[t];
            IsFirst(h, p) &&
            r[t] == LocationItem(t + 1, h[p].locationNameC, h[p].latN, h[p].lngN))
  {
    KeepFirstIsFirstOccurrences(h);
    var ps := FirstPositions(h, |h|);
    var kept := FirstOccurrences(h, |h|);
    var r := LocationHistory(h);
    forall t, u | 0 <= t < u < |r| ensures r[t].locationName != r[u].locationName {
      assert ps[t] < ps[u];
      assert IsFirst(h, ps[u]);
    }
    forall i | 0 <= i < |h| ensures exists t :: 0 <= t < |r| && r[t].locationName == h[i].locationNameC {
      FirstOccurrencesNames(h, |h|);
      assert h[..|h|] == h;
      assert h[i].locationNameC in Names(h);
      var t :| 0 <= t < |kept| && kept[t].locationNameC == h[i].locationNameC;
      assert r[t].locationName == h[i].locationNameC;
    }
  }
}
