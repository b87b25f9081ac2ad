/** The filter dialog of the projects page: two lists of selected values,
    one for status and one for priority, edited by toggling. */
module ProjectFilters {
  import Seqs

  datatype Filters = Filters(status: seq<string>, priority: seq<string>)

  /** Which list a toggle edits: `toggleFilter('status', …)` or
      `toggleFilter('priority', …)`. */
  datatype Dimension = Status | Priority

  function Get(f: Filters, d: Dimension): seq<string> {
    match d
    case Status => f.status
    case Priority => f.priority
  }

  /** The predicate `item => item !== value`. */
  function Differs(value: string): string -> bool {
    (item: string) => item != value
  }

  /** `list.filter(item => item !== value)`. */
  function Without(list: seq<string>, value: string): (r: seq<string>)
    ensures forall k :: 0 <= k < |r| ==> r[k] in list && r[k] != value
    ensures forall k :: 0 <= k < |list| && list[k] != value ==> list[k] in r
  {
    Seqs.Filter(list, Differs(value))
  }

  /** One list under `toggleFilter`: the value is removed (every occurrence)
      when present, appended otherwise. */
  function ToggleList(list: seq<string>, value: string): (r: seq<string>)
    ensures value in list ==> value !in r && forall x :: x in r <==> x in list && x != value
    ensures value !in list ==> r == list + [value]
  {
    if value in list then
      var w := Without(list, value);
      assert forall x :: x in w <==> x in list && x != value by {
        forall x | x in list && x != value ensures x in w {
          var k :| 0 <= k < |list| && list[k] == x;
        }
      }
      w
    else list + [value]
  }

  /** `toggleFilter(type, value)`: only the chosen list changes. */
  function ToggleFilter(f: Filters, d: Dimension, value: string): (r: Filters)
    ensures Get(r, d) == ToggleList(Get(f, d), value)
    ensures d == Status ==> r.priority == f.priority
    ensures d == Priority ==> r.status == f.status
  {
    match d
    case Status => f.(status := ToggleList(f.status, value))
    case Priority => f.(priority := ToggleList(f.priority, value))
  }

  /** `clearAllFilters`. */
  function ClearAll(): (r: Filters)
    ensures r.status == [] && r.priority == []
    ensures !HasActiveFilters(r)
  {
    Filters([], [])
  }

  /** `hasActiveFilters`. */
  predicate HasActiveFilters(f: Filters) {
    |f.status| > 0 || |f.priority| > 0
  }

  /** The "n filter(s) applied" count and the badge of the projects page. */
  function AppliedCount(f: Filters): (r: nat)
    ensures r > 0 <==> HasActiveFilters(f)
  {
    |f.status| + |f.priority|
  }

  lemma {:induction false} WithoutAbsent(list: seq<string>, value: string)
    requires value !in list
    ensures Without(list, value) == list
  {
    if list != [] {
      WithoutAbsent(list[1..], value);
      assert list == [list[0]] + list[1..];
    }
  }

  lemma {:induction false} WithoutSnoc(list: seq<string>, value: string)
    ensures Without(list + [value], value) == Without(list, value)
  {
    if list == [] {
      assert [] + [value] == [value];
      assert [value][1..] == [];
    } else {
      assert (list + [value])[1..] == list[1..] + [value];
      WithoutSnoc(list[1..], value);
    }
  }

  /** Toggling the same value twice gives back a duplicate-free list exactly
      when the value was absent or last: a value toggled off and on again
      moves to the end. */
  lemma ToggleTwiceRestoresIff(list: seq<string>, value: string)
    requires Seqs.NoDuplicates(list)
    ensures ToggleList(ToggleList(list, value), value) == list <==>
      value !in list || list[|list| - 1] == value
  {
    if value !in list {
      assert value in list + [value];
      WithoutSnoc(list, value);
      WithoutAbsent(list, value);
    } else {
      var w := Without(list, value);
      assert ToggleList(w, value) == w + [value];
      if list[|list| - 1] == value {
        var front := list[..|list| - 1];
        assert list == front + [value];
        assert value !in front by {
          forall k | 0 <= k < |front| ensures front[k] != value {
            assert list[k] == front[k];
          }
        }
        WithoutSnoc(front, value);
        WithoutAbsent(front, value);
      }
    }
  }

  /** As a set of selected values, toggling twice always restores the list. */
  lemma ToggleTwiceSameValues(list: seq<string>, value: string)
    ensures forall x :: x in ToggleList(ToggleList(list, value), value) <==> x in list
  {
  }

  /** The concrete case: with ["low", "high"] selected, toggling "low" twice
      gives ["high", "low"]. */
  lemma ToggleTwiceReorders()
    ensures ToggleList(ToggleList(["low", "high"], "low"), "low") == ["high", "low"]
  {
    var l := ["low", "high"];
    assert "low" in l;
    assert Without(l, "low") == ["high"] by {
      assert l[1..] == ["high"];
      assert ["high"][1..] == [];
    }
    assert "low" !in ["high"];
  }

  /** Toggling a value changes the applied count by one when the list has no
      duplicates. */
  lemma ToggleChangesCountByOne(f: Filters, d: Dimension, value: string)
    requires Seqs.NoDuplicates(Get(f, d))
    ensures value in Get(f, d) ==> AppliedCount(ToggleFilter(f, d, value)) + 1 == AppliedCount(f)
    ensures value !in Get(f, d) ==> AppliedCount(ToggleFilter(f, d, value)) == AppliedCount(f) + 1
  {
    var l := Get(f, d);
    if value in l {
      var k :| 0 <= k < |l| && l[k] == value;
      WithoutOnce(l, value, k);
    }
  }

  /** Without duplicates, removing a present value shortens the list by one. */
  lemma {:induction false} WithoutOnce(list: seq<string>, value: string, k: nat)
    requires Seqs.NoDuplicates(list) && k < |list| && list[k] == value
    ensures |Without(list, value)| == |list| - 1
  {
    if k == 0 {
      assert value !in list[1..] by {
        forall j | 0 <= j < |list[1..]| ensures list[1..][j] != value {
          assert list[1..][j] == list[j + 1];
        }
      }
      WithoutAbsent(list[1..], value);
    } else {
      assert Seqs.NoDuplicates(list[1..]) by {
        forall a, b | 0 <= a < b < |list[1..]| ensures list[1..][a] != list[1..][b] {
          assert list[1..][a] == list[a + 1] && list[1..][b] == list[b + 1];
        }
      }
      assert list[1..][k - 1] == value;
      WithoutOnce(list[1..], value, k - 1);
    }
  }
}
