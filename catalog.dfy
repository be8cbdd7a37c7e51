/**
 * The option catalog served by Spring Initializr: an object whose entries
 * are option fields, each tagged by its `type` attribute.
 */
module Catalog {
  import opened Js

  /** A catalog value `{id, name}`. */
  datatype Item = Item(id: string, name: string)

  /** A named group of values inside a hierarchical multi-select field. */
  datatype Group = Group(name: string, values: seq<Item>)

  /** An option field, by its `type` tag. A field of any other tag is kept
      as `Other`: the generator never turns it into a prompt. */
  datatype Field =
    | Text(default: Value)
    | SingleSelect(default: Value, values: seq<Item>)
    | HierarchicalMultiSelect(groups: seq<Group>)
    | Other(tag: string)

  /** One `[key, field]` pair of `Object.entries(catalog)`. */
  datatype Entry = Entry(key: string, field: Field)

  /** The catalog, as `Object.entries` lists it. */
  type Catalog = seq<Entry>

  /** A list-prompt choice `{name, value}`. */
  datatype Choice = Choice(name: string, value: string)

  /** `items.map(it => ({name: it.name, value: it.id}))`: an order-preserving
      copy of the values, renaming `id` to `value`. */
  function ToChoices(items: seq<Item>): (r: seq<Choice>)
    ensures |r| == |items|
    ensures forall i :: 0 <= i < |items| ==> r[i] == Choice(items[i].name, items[i].id)
  {
    if items == [] then []
    else ToChoices(items[..|items| - 1]) + [Choice(items[|items| - 1].name, items[|items| - 1].id)]
  }

  lemma ToChoicesAppend(a: seq<Item>, b: seq<Item>)
    ensures ToChoices(a + b) == ToChoices(a) + ToChoices(b)
  {
  }

  /** `catalog[key]`: the field stored under `key`, if any. */
  function Lookup(c: Catalog, key: string): (r: Option<Field>)
    ensures r.Some? <==> exists j :: 0 <= j < |c| && c[j].key == key
    ensures r.Some? ==> exists j :: 0 <= j < |c| && c[j] == Entry(key, r.value)
  {
    if c == [] then None
    else if c[0].key == key then Some(c[0].field)
    else
      var r := Lookup(c[1..], key);
      assert forall j :: 0 < j < |c| ==> c[j] == c[1..][j - 1];
      r
  }

  /** `catalog.dependencies.values`, the groups from which the dependency
      index is built. The property access fails (a TypeError in the
      source) unless `dependencies` holds a field with a `values` array of
      groups; a single-select field whose `values` list is empty maps to no
      group without failing. */
  function DependencyGroups(c: Catalog): (r: Option<seq<Group>>)
    ensures r.Some? ==> Lookup(c, "dependencies").Some?
    ensures (Lookup(c, "dependencies").Some? && Lookup(c, "dependencies").value.HierarchicalMultiSelect?)
            ==> r == Some(Lookup(c, "dependencies").value.groups)
  {
    match Lookup(c, "dependencies")
    case Some(HierarchicalMultiSelect(groups)) => Some(groups)
    case Some(SingleSelect(_, values)) => if values == [] then Some([]) else None
    case _ => None
  }
}
