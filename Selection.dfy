/**
 * Needed-band selection: the sorted, de-duplicated union of the band indices of
 * the categories whose output is still missing (`sorted(set(...))`).
 */
module Selection {
  import opened Catalog

  predicate StrictlyIncreasing(s: seq<nat>)
  {
    forall i, j :: 0 <= i < j < |s| ==> s[i] < s[j]
  }

  /** Inserts x into an ascending duplicate-free sequence, keeping it so. */
  function Insert(x: nat, s: seq<nat>): (r: seq<nat>)
    requires StrictlyIncreasing(s)
    ensures StrictlyIncreasing(r)
    ensures forall y :: y in r <==> y == x || y in s
  {
    if s == [] then [x]
    else if x < s[0] then [x] + s
    else if x == s[0] then s
    else
      var t := Insert(x, s[1..]);
      assert forall k :: 0 <= k < |t| ==> s[0] < t[k] by {
        forall k | 0 <= k < |t| ensures s[0] < t[k] {
          assert t[k] in t;
        }
      }
      [s[0]] + t
  }

  /** `sorted(set(xs))`: the elements of xs in ascending order, each once. */
  function SortedSet(xs: seq<nat>): (r: seq<nat>)
    ensures StrictlyIncreasing(r)
    ensures forall y :: y in r <==> y in xs
  {
    if xs == [] then []
    else
      var init := xs[..|xs| - 1];
      var r := Insert(xs[|xs| - 1], SortedSet(init));
      assert xs == init + [xs[|xs| - 1]];
      r
  }

  /**
   * An ascending duplicate-free sequence is determined by its elements, so
   * SortedSet(xs) is the only such sequence over the elements of xs.
   */
  lemma {:induction false} IncreasingSequenceUnique(a: seq<nat>, b: seq<nat>)
    requires StrictlyIncreasing(a) && StrictlyIncreasing(b)
    requires forall y :: y in a <==> y in b
    ensures a == b
  {
    assert a != [] ==> a[0] in a;
    assert b != [] ==> b[0] in b;
    if a != [] && b != [] {
      HeadsAgree(a, b);
      TailsAgree(a, b);
      IncreasingSequenceUnique(a[1..], b[1..]);
      assert a == [a[0]] + a[1..];
      assert b == [b[0]] + b[1..];
    }
  }

  /** Two ascending sequences with the same elements start with the same, smallest one. */
  lemma HeadsAgree(a: seq<nat>, b: seq<nat>)
    requires StrictlyIncreasing(a) && StrictlyIncreasing(b) && a != [] && b != []
    requires forall y :: y in a <==> y in b
    ensures a[0] == b[0]
  {
    assert a[0] in a && b[0] in b;
    var i :| 0 <= i < |b| && b[i] == a[0];
    var j :| 0 <= j < |a| && a[j] == b[0];
    assert b[0] <= b[i] && a[0] <= a[j];
  }

  /** Removing the common head leaves two sequences with the same elements. */
  lemma TailsAgree(a: seq<nat>, b: seq<nat>)
    requires StrictlyIncreasing(a) && StrictlyIncreasing(b) && a != [] && b != [] && a[0] == b[0]
    requires forall y :: y in a <==> y in b
    ensures forall y :: y in a[1..] <==> y in b[1..]
  {
    forall y ensures y in a[1..] <==> y in b[1..] {
      if y in a[1..] {
        var k :| 1 <= k < |a| && a[k] == y;
        assert y in b && y != b[0];
      }
      if y in b[1..] {
        var k :| 1 <= k < |b| && b[k] == y;
        assert y in a && y != a[0];
      }
    }
  }

  /**
   * `bands_by_cat`: the tables of the needed categories among cs, concatenated
   * in the order of cs.
   */
  function BandsFrom(cs: seq<Category>, needed: set<Category>): (r: seq<BandSpec>)
    ensures forall b :: b in r <==> exists c :: c in cs && c in needed && b in Bands(c)
  {
    if cs == [] then []
    else
      var rest := BandsFrom(cs[1..], needed);
      assert forall c :: c in cs <==> c == cs[0] || c in cs[1..];
      (if cs[0] in needed then Bands(cs[0]) else []) + rest
  }

  /** The bands the needed categories require, in the day loop's order. */
  function NeededBands(needed: set<Category>): seq<BandSpec>
  {
    BandsFrom(Categories, needed)
  }

  /**
   * `needed_indices`: ascending, without duplicates, and exactly the union of
   * the index sets of the needed categories.
   */
  function NeededIndices(needed: set<Category>): (r: seq<nat>)
    ensures StrictlyIncreasing(r)
    ensures forall i :: i in r <==> exists c :: c in needed && i in IndexSet(c)
  {
    var bands := NeededBands(needed);
    var r := SortedSet(Indices(bands));
    forall c ensures c in Categories {
      CategoryListed(c);
    }
    forall i ensures i in Indices(bands) <==> exists c :: c in needed && i in IndexSet(c) {
      if i in Indices(bands) {
        var k :| 0 <= k < |bands| && Indices(bands)[k] == i;
        assert bands[k] in bands;
      }
      if exists c :: c in needed && i in IndexSet(c) {
        var c :| c in needed && i in IndexSet(c);
        var b :| b in Bands(c) && b.index == i;
        assert b in bands;
        var k :| 0 <= k < |bands| && bands[k] == b;
        assert Indices(bands)[k] == i;
      }
    }
    r
  }
}
