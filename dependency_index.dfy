/**
 * The dependency search index of the multi-select prompt: the catalog's
 * dependency groups flattened into one list of choices whose names carry
 * their group's name as a prefix, and the filter the prompt applies to it
 * as the user types.
 */
module DependencyIndex {
  import opened Js
  import opened Catalog

  /** The values of one group, each renamed to `groupName + " " + name`. */
  function Prefixed(g: Group): (r: seq<Item>)
    ensures |r| == |g.values|
    ensures forall m :: 0 <= m < |g.values| ==>
              r[m] == Item(g.values[m].id, g.name + " " + g.values[m].name)
  {
    seq(|g.values|, m requires 0 <= m < |g.values| => Item(g.values[m].id, g.name + " " + g.values[m].name))
  }

  /** The `map` over the groups: each group's renamed values. */
  function PrefixAll(groups: seq<Group>): (r: seq<seq<Item>>)
    ensures |r| == |groups|
    ensures forall g :: 0 <= g < |groups| ==> r[g] == Prefixed(groups[g])
  {
    seq(|groups|, g requires 0 <= g < |groups| => Prefixed(groups[g]))
  }

  /** The groups after line 59 has run: every value's `name` overwritten with
      its prefixed name. */
  function RenamedGroups(groups: seq<Group>): (r: seq<Group>)
    ensures |r| == |groups|
    ensures forall g :: 0 <= g < |groups| ==> r[g] == Group(groups[g].name, Prefixed(groups[g]))
  {
    seq(|groups|, g requires 0 <= g < |groups| => Group(groups[g].name, Prefixed(groups[g])))
  }

  /** The catalog after the flattening step, whose assignment at line 59
      renames the values of `catalog.dependencies` in place. Every other
      entry is left as it was. */
  function RenameDependencies(c: Catalog): (r: Catalog)
    ensures |r| == |c|
    ensures forall j :: 0 <= j < |c| ==> r[j].key == c[j].key
    ensures forall j :: 0 <= j < |c| && r[j] != c[j] ==>
              c[j].key == "dependencies" && c[j].field.HierarchicalMultiSelect?
              && r[j].field == HierarchicalMultiSelect(RenamedGroups(c[j].field.groups))
    ensures Lookup(c, "dependencies").Some? && Lookup(c, "dependencies").value.HierarchicalMultiSelect? ==>
              Lookup(r, "dependencies") == Some(HierarchicalMultiSelect(RenamedGroups(Lookup(c, "dependencies").value.groups)))
    ensures !(Lookup(c, "dependencies").Some? && Lookup(c, "dependencies").value.HierarchicalMultiSelect?) ==> r == c
  {
    if c == [] then []
    else if c[0].key == "dependencies" then
      var renamed := match c[0].field
        case HierarchicalMultiSelect(groups) => Entry(c[0].key, HierarchicalMultiSelect(RenamedGroups(groups)))
        case _ => c[0];
      [renamed] + c[1..]
    else [c[0]] + RenameDependencies(c[1..])
  }

  /** The `values` list of each group. */
  function ValuesOf(groups: seq<Group>): (r: seq<seq<Item>>)
    ensures |r| == |groups|
    ensures forall g :: 0 <= g < |groups| ==> r[g] == groups[g].values
  {
    seq(|groups|, g requires 0 <= g < |groups| => groups[g].values)
  }

  /** `reduce((acc, it) => acc.concat(it), [])`, folding from the left. */
  function Concat(xss: seq<seq<Item>>): seq<Item>
  {
    if xss == [] then [] else Concat(xss[..|xss| - 1]) + xss[|xss| - 1]
  }

  /** Total number of elements of the lists in `xss`. */
  function Sizes(xss: seq<seq<Item>>): nat
  {
    if xss == [] then 0 else Sizes(xss[..|xss| - 1]) + |xss[|xss| - 1]|
  }

  /** Total number of values in the groups. */
  function TotalSize(groups: seq<Group>): nat
  {
    if groups == [] then 0 else TotalSize(groups[..|groups| - 1]) + |groups[|groups| - 1].values|
  }

  /** Lines 56-69: the flattened dependency index. */
  function Flatten(groups: seq<Group>): seq<Choice>
  {
    ToChoices(Concat(PrefixAll(groups)))
  }

  /** Lines 64-69 read the names that line 59 wrote: concatenating the values
      of the renamed groups and mapping them to choices gives the index. */
  lemma RenamedValuesGiveIndex(groups: seq<Group>)
    ensures ToChoices(Concat(ValuesOf(RenamedGroups(groups)))) == Flatten(groups)
  {
    assert ValuesOf(RenamedGroups(groups)) == PrefixAll(groups);
  }

  /** The name and value under which value `m` of group `g` is offered. */
  function IndexEntry(g: Group, m: nat): Choice
    requires m < |g.values|
  {
    Choice(g.name + " " + g.values[m].name, g.values[m].id)
  }

  lemma {:induction false} ConcatLength(xss: seq<seq<Item>>)
    ensures |Concat(xss)| == Sizes(xss)
  {
    if xss != [] {
      ConcatLength(xss[..|xss| - 1]);
    }
  }

  lemma {:induction false} SizesPrefixAll(groups: seq<Group>)
    ensures Sizes(PrefixAll(groups)) == TotalSize(groups)
  {
    if groups != [] {
      var init := groups[..|groups| - 1];
      assert PrefixAll(groups)[..|groups| - 1] == PrefixAll(init);
      SizesPrefixAll(init);
    }
  }

  /** Element `m` of list `g` sits after all elements of the earlier lists. */
  lemma {:induction false} ConcatAt(xss: seq<seq<Item>>, g: nat, m: nat)
    requires g < |xss| && m < |xss[g]|
    ensures Sizes(xss[..g]) + m < |Concat(xss)|
    ensures Concat(xss)[Sizes(xss[..g]) + m] == xss[g][m]
  {
    var n := |xss| - 1;
    var init := xss[..n];
    ConcatLength(xss);
    ConcatLength(init);
    if g == n {
      assert xss[..g] == init;
    } else {
      assert init[..g] == xss[..g];
      ConcatAt(init, g, m);
      SizesMonotone(init, g + 1);
      assert init[..g + 1][..g] == init[..g];
      assert Sizes(init[..g + 1]) == Sizes(init[..g]) + |init[g]|;
    }
  }

  lemma {:induction false} SizesMonotone(xss: seq<seq<Item>>, k: nat)
    requires k <= |xss|
    ensures Sizes(xss[..k]) <= Sizes(xss)
  {
    if k < |xss| {
      var init := xss[..|xss| - 1];
      assert xss[..k] == init[..k];
      SizesMonotone(init, k);
    } else {
      assert xss[..k] == xss;
    }
  }

  lemma {:induction false} TotalSizeOfPrefix(groups: seq<Group>, g: nat)
    requires g <= |groups|
    ensures Sizes(PrefixAll(groups)[..g]) == TotalSize(groups[..g])
  {
    assert PrefixAll(groups)[..g] == PrefixAll(groups[..g]);
    SizesPrefixAll(groups[..g]);
  }

  /** The index has one entry per dependency, over all groups. */
  lemma FlattenLength(groups: seq<Group>)
    ensures |Flatten(groups)| == TotalSize(groups)
  {
    ConcatLength(PrefixAll(groups));
    SizesPrefixAll(groups);
  }

  /** Value `m` of group `g` is entry `TotalSize(groups[..g]) + m`: entries
      come in group order, then in member order, named `group + " " + member`
      and carrying the member's id unchanged. */
  lemma FlattenAt(groups: seq<Group>, g: nat, m: nat)
    requires g < |groups| && m < |groups[g].values|
    ensures TotalSize(groups[..g]) + m < |Flatten(groups)|
    ensures Flatten(groups)[TotalSize(groups[..g]) + m] == IndexEntry(groups[g], m)
  {
    var xss := PrefixAll(groups);
    ConcatAt(xss, g, m);
    TotalSizeOfPrefix(groups, g);
  }

  /** The group and member position of entry `k` of the index. */
  lemma {:induction false} Locate(groups: seq<Group>, k: nat) returns (g: nat, m: nat)
    requires k < TotalSize(groups)
    ensures g < |groups| && m < |groups[g].values| && k == TotalSize(groups[..g]) + m
  {
    var n := |groups| - 1;
    var init := groups[..n];
    if k < TotalSize(init) {
      g, m := Locate(init, k);
      assert init[..g] == groups[..g];
    } else {
      g, m := n, k - TotalSize(init);
    }
  }

  /** Every entry of the index comes from some value of some group. */
  lemma FlattenCovers(groups: seq<Group>, k: nat)
    requires k < |Flatten(groups)|
    ensures exists g: nat, m: nat :: g < |groups| && m < |groups[g].values| &&
              k == TotalSize(groups[..g]) + m && Flatten(groups)[k] == IndexEntry(groups[g], m)
  {
    FlattenLength(groups);
    var g, m := Locate(groups, k);
    FlattenAt(groups, g, m);
  }

  /** The index of groups `a + b` is the index of `a` followed by that of `b`. */
  lemma {:induction false} FlattenAppend(a: seq<Group>, b: seq<Group>)
    ensures Flatten(a + b) == Flatten(a) + Flatten(b)
  {
    assert PrefixAll(a + b) == PrefixAll(a) + PrefixAll(b);
    ConcatAppend(PrefixAll(a), PrefixAll(b));
    ToChoicesAppend(Concat(PrefixAll(a)), Concat(PrefixAll(b)));
  }

  lemma {:induction false} ConcatAppend(xss: seq<seq<Item>>, yss: seq<seq<Item>>)
    ensures Concat(xss + yss) == Concat(xss) + Concat(yss)
  {
    if yss != [] {
      var n := |yss| - 1;
      assert (xss + yss)[..|xss + yss| - 1] == xss + yss[..n];
      ConcatAppend(xss, yss[..n]);
    } else {
      assert xss + yss == xss;
    }
  }

  /** The two-group example: `Web/Starter` and `Data/JPA`. */
  lemma FlattenTwoGroups()
    ensures Flatten([Group("Web", [Item("web", "Starter")]), Group("Data", [Item("jpa", "JPA")])])
            == [Choice("Web Starter", "web"), Choice("Data JPA", "jpa")]
  {
    var web := Group("Web", [Item("web", "Starter")]);
    var data := Group("Data", [Item("jpa", "JPA")]);
    var gs := [web, data];
    var f := Flatten(gs);
    FlattenLength(gs);
    assert gs[..|gs| - 1] == [web];
    assert [web][..0] == [];
    assert TotalSize([web]) == 1;
    assert TotalSize(gs) == 2;
    assert gs[..0] == [];
    FlattenAt(gs, 0, 0);
    assert f[0] == Choice("Web" + " " + "Starter", "web");
    assert gs[..1] == [web];
    FlattenAt(gs, 1, 0);
    assert f[1] == Choice("Data" + " " + "JPA", "jpa");
    assert "Web" + " " + "Starter" == "Web Starter";
    assert "Data" + " " + "JPA" == "Data JPA";
  }

  // ---------------------------------------------------------------------
  // Searching the index (line 133). The fuzzy matcher is a library whose
  // matching rule is not modelled: it is the parameter `matches`, asked of
  // the filter text and an entry's name.

  /** The entries whose name `matches` accepts, in index order. */
  function Keep(index: seq<Choice>, filter: string, matches: (string, string) -> bool): (r: seq<Choice>)
    ensures |r| <= |index|
  {
    if index == [] then []
    else
      var rest := Keep(index[..|index| - 1], filter, matches);
      var last := index[|index| - 1];
      if matches(filter, last.name) then rest + [last] else rest
  }

  /** `new FuzzySearch(index, ['name']).search(filter)`: the whole index for
      an empty filter, otherwise the matching entries in index order. */
  function Search(index: seq<Choice>, filter: string, matches: (string, string) -> bool): (r: seq<Choice>)
    ensures filter == "" ==> r == index
  {
    if filter == "" then index else Keep(index, filter, matches)
  }

  /** `s` is obtained from `t` by deleting elements (order is kept). */
  predicate IsSubsequence(s: seq<Choice>, t: seq<Choice>)
  {
    if s == [] then true
    else if t == [] then false
    else if s[|s| - 1] == t[|t| - 1] then IsSubsequence(s[..|s| - 1], t[..|t| - 1])
    else IsSubsequence(s, t[..|t| - 1])
  }

  lemma {:induction false} SubsequenceOfSelf(t: seq<Choice>)
    ensures IsSubsequence(t, t)
  {
    if t != [] {
      SubsequenceOfSelf(t[..|t| - 1]);
    }
  }

  /** The number of index entries `matches` accepts. */
  function CountMatches(index: seq<Choice>, filter: string, matches: (string, string) -> bool): nat
  {
    if index == [] then 0
    else CountMatches(index[..|index| - 1], filter, matches)
         + (if matches(filter, index[|index| - 1].name) then 1 else 0)
  }

  /** A search result keeps index order, holds only matching entries when the
      filter is not empty, and holds all of them. */
  lemma {:induction false} SearchIsOrderedFilter(index: seq<Choice>, filter: string, matches: (string, string) -> bool)
    requires filter != ""
    ensures IsSubsequence(Search(index, filter, matches), index)
    ensures forall e :: e in Search(index, filter, matches) ==> matches(filter, e.name)
    ensures |Search(index, filter, matches)| == CountMatches(index, filter, matches)
  {
    if index != [] {
      var init := index[..|index| - 1];
      SearchIsOrderedFilter(init, filter, matches);
      var rest := Keep(init, filter, matches);
      var last := index[|index| - 1];
      if matches(filter, last.name) {
        assert (rest + [last])[..|rest|] == rest;
      } else {
        KeepSubsequenceShrink(rest, init, last);
      }
    }
  }

  lemma {:induction false} KeepSubsequenceShrink(s: seq<Choice>, t: seq<Choice>, x: Choice)
    requires IsSubsequence(s, t)
    ensures IsSubsequence(s, t + [x])
    decreases |t|, 1
  {
    if s != [] {
      var tx := t + [x];
      assert tx[..|tx| - 1] == t;
      if s[|s| - 1] == x {
        assert t != [];
        SubsequenceDropLast(s, t);
      }
    }
  }

  /** A subsequence without its last element is a subsequence of the same list. */
  lemma {:induction false} SubsequenceDropLast(s: seq<Choice>, t: seq<Choice>)
    requires s != [] && IsSubsequence(s, t)
    ensures IsSubsequence(s[..|s| - 1], t)
    decreases |t|, 0
  {
    if t != [] {
      var ti := t[..|t| - 1];
      if s[|s| - 1] == t[|t| - 1] {
        KeepSubsequenceShrink(s[..|s| - 1], ti, t[|t| - 1]);
        assert ti + [t[|t| - 1]] == t;
      } else {
        SubsequenceDropLast(s, ti);
        KeepSubsequenceShrink(s[..|s| - 1], ti, t[|t| - 1]);
        assert ti + [t[|t| - 1]] == t;
      }
    }
  }

  lemma {:induction false} KeepAllMatch(index: seq<Choice>, filter: string, matches: (string, string) -> bool)
    requires forall e :: e in index ==> matches(filter, e.name)
    ensures Keep(index, filter, matches) == index
  {
    if index != [] {
      var init := index[..|index| - 1];
      assert forall e :: e in init ==> e in index;
      KeepAllMatch(init, filter, matches);
      assert init + [index[|index| - 1]] == index;
    }
  }

  /** Searching twice with the same filter gives the same result as searching once. */
  lemma SearchIdempotent(index: seq<Choice>, filter: string, matches: (string, string) -> bool)
    ensures Search(Search(index, filter, matches), filter, matches) == Search(index, filter, matches)
  {
    if filter != "" {
      SearchIsOrderedFilter(index, filter, matches);
      KeepAllMatch(Search(index, filter, matches), filter, matches);
    }
  }
}
