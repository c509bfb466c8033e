/**
 Where a start resumes, from the page marker and the partition markers in the database.
 A partition marker is named by its writer count and its index.
 */
module Markers {

  type PartKey = (nat, nat)
  type PartMarkers = map<PartKey, nat>

  function Own(markers: PartMarkers, n: nat, i: nat): nat {
    if (n, i) in markers then markers[(n, i)] else 0
  }

  /** Every partition of this writer count has a marker. */
  ghost predicate Complete(markers: PartMarkers, count: nat) {
    count >= 1 && forall i: nat :: i < count ==> (count, i) in markers
  }

  /** floor is the smallest marker of a complete set of another writer count than n. */
  ghost predicate OtherFloor(markers: PartMarkers, n: nat, count: nat, floor: nat) {
    && count != n && Complete(markers, count)
    && (forall i: nat :: i < count ==> floor <= markers[(count, i)])
    && (exists i: nat :: i < count && floor == markers[(count, i)])
  }

  /** The resume point: the largest of the page marker and the floors of the complete sets. */
  ghost predicate ResumesAt(page: nat, markers: PartMarkers, n: nat, applied: nat) {
    && applied >= page
    && (forall count: nat, floor: nat :: OtherFloor(markers, n, count, floor) ==> floor <= applied)
    && (applied == page || exists count: nat :: OtherFloor(markers, n, count, applied))
  }

  function Below(n: nat): (s: set<nat>)
    ensures forall i: nat :: i in s <==> i < n
    ensures |s| == n
  {
    if n == 0 then {} else Below(n - 1) + {n - 1}
  }

  lemma {:induction false} SubsetOfSameSize(a: set<nat>, b: set<nat>)
    requires a <= b && |a| == |b|
    ensures a == b
  {
    if a != {} {
      var x :| x in a;
      SubsetOfSameSize(a - {x}, b - {x});
    }
  }

  /** The markers of the other writer counts, by count and index. */
  ghost predicate Grouped(markers: PartMarkers, n: nat, sets: map<nat, map<nat, nat>>, todo: set<PartKey>) {
    && (forall k :: k in markers && k !in todo && k.1 < k.0 && k.0 != n ==>
          k.0 in sets && k.1 in sets[k.0] && sets[k.0][k.1] == markers[k])
    && (forall c, i :: c in sets && i in sets[c] ==>
          i < c && c != n && (c, i) in markers && (c, i) !in todo && markers[(c, i)] == sets[c][i])
  }

  method GroupMarkers(markers: PartMarkers, n: nat) returns (own: seq<nat>, sets: map<nat, map<nat, nat>>)
    ensures |own| == n && forall i: nat :: i < n ==> own[i] == Own(markers, n, i)
    ensures Grouped(markers, n, sets, {})
  {
    own, sets := seq(n, i => 0), map[];
    var todo := markers.Keys;
    while todo != {}
      invariant todo <= markers.Keys && |own| == n
      invariant forall i: nat :: i < n ==> own[i] == if (n, i) in todo then 0 else Own(markers, n, i)
      invariant Grouped(markers, n, sets, todo)
      decreases todo
    {
      var k :| k in todo;
      if k.1 < k.0 {
        if k.0 == n {
          own := own[k.1 := markers[k]];
        } else {
          sets := sets[k.0 := (if k.0 in sets then sets[k.0] else map[])[k.1 := markers[k]]];
        }
      }
      todo := todo - {k};
    }
  }

  method Smallest(offsets: map<nat, nat>) returns (floor: nat)
    requires offsets != map[]
    ensures exists i :: i in offsets && floor == offsets[i]
    ensures forall i :: i in offsets ==> floor <= offsets[i]
  {
    var i :| i in offsets;
    floor := offsets[i];
    var todo := offsets.Keys - {i};
    while todo != {}
      invariant todo <= offsets.Keys
      invariant exists j :: j in offsets && floor == offsets[j]
      invariant forall j :: j in offsets && j !in todo ==> floor <= offsets[j]
      decreases todo
    {
      var j :| j in todo;
      if offsets[j] < floor {
        floor := offsets[j];
      }
      todo := todo - {j};
    }
  }

  /** A group is as long as its count exactly when every partition of it has a marker. */
  lemma {:induction false} GroupComplete(markers: PartMarkers, n: nat, sets: map<nat, map<nat, nat>>, count: nat)
    requires Grouped(markers, n, sets, {}) && count != n && count >= 1
    ensures Complete(markers, count) <==> count in sets && |sets[count]| == count
    ensures Complete(markers, count) ==> sets[count].Keys == Below(count)
  {
    if count in sets {
      assert sets[count].Keys <= Below(count);
      if |sets[count]| == count {
        SubsetOfSameSize(sets[count].Keys, Below(count));
        forall i: nat | i < count ensures (count, i) in markers {
          assert i in Below(count);
        }
      }
    }
    if Complete(markers, count) {
      forall i: nat | i < count ensures count in sets && i in sets[count] {
        assert (count, i) in markers;
      }
      assert (count, 0) in markers;
      assert sets[count].Keys == Below(count);
    }
  }

  /** startMarkers: n is 0 when a one-page-at-a-time run asks. */
  method StartMarkers(page: nat, markers: PartMarkers, n: nat) returns (applied: nat, own: seq<nat>)
    ensures ResumesAt(page, markers, n, applied)
    ensures |own| == n && forall i: nat :: i < n ==> own[i] == Own(markers, n, i)
  {
    var sets;
    own, sets := GroupMarkers(markers, n);
    applied := page;
    var todo := sets.Keys;
    while todo != {}
      invariant todo <= sets.Keys && applied >= page
      invariant forall count: nat, floor: nat :: OtherFloor(markers, n, count, floor) && count !in todo ==>
                floor <= applied
      invariant applied == page || exists count: nat :: OtherFloor(markers, n, count, applied)
      decreases todo
    {
      var count :| count in todo;
      todo := todo - {count};
      if |sets[count]| == count && count >= 1 && count != n {
        GroupComplete(markers, n, sets, count);
        var floor := Smallest(sets[count]);
        assert OtherFloor(markers, n, count, floor) by {
          forall i: nat | i < count ensures floor <= markers[(count, i)] {
            assert i in sets[count];
          }
        }
        forall other: nat | OtherFloor(markers, n, count, other) ensures other == floor {
        }
        applied := if applied < floor then floor else applied;
      } else if count >= 1 && count != n {
        GroupComplete(markers, n, sets, count);
      }
    }
    forall count: nat, floor: nat | OtherFloor(markers, n, count, floor) ensures floor <= applied {
      GroupComplete(markers, n, sets, count);
    }
  }

  /** The resume point and the own markers are determined: a start is a function of the database. */
  lemma {:induction false} ResumeUnique(page: nat, markers: PartMarkers, n: nat, a: nat, b: nat)
    requires ResumesAt(page, markers, n, a) && ResumesAt(page, markers, n, b)
    ensures a == b
  {
    if a != page {
      var c: nat :| OtherFloor(markers, n, c, a);
    }
    if b != page {
      var c: nat :| OtherFloor(markers, n, c, b);
    }
  }
}
