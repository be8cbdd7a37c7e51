/**
 * The prompts the generator asks (generators/app/index.js, `prompting()`):
 * one per handled catalog field, text fields first, then single-select
 * fields, then hierarchical multi-select fields, each group in catalog
 * order, followed by the fixed toolchain, format and extract prompts.
 *
 * A prompt's message, default and `when` predicate are functions of the
 * saved configuration and of the answers given so far. `chalk` colouring
 * is the identity on strings here.
 */
module Prompts {
  import opened Js
  import opened Catalog
  import DependencyIndex

  /** One inquirer question. `SelectPrompt` carries its default already
      resolved, because the source computes it when the list is built
      (line 109) rather than when the question is asked. */
  datatype Prompt =
    | TextPrompt(name: string, catalogDefault: Value)
    | SelectPrompt(name: string, choices: seq<Choice>, default: Value)
    | MultiSelectPrompt(name: string, index: seq<Choice>)
    | ToolchainPrompt
    | FormatPrompt
    | ExtractPrompt

  /** The fixed human-readable labels of the known catalog keys (lines 42-54). */
  const OptionMapping: map<string, string> := map[
    "packaging" := "How do you want your app to be packaged?",
    "javaVersion" := "Which Java version do you want to use?",
    "language" := "Which language do you want to use?",
    "bootVersion" := "Which Spring Boot version do you want to use?",
    "groupId" := "What's your group ID?",
    "artifactId" := "What's your artifact ID?",
    "version" := "What version do you want to start at?",
    "name" := "What's the name of your app?",
    "description" := "Describe your app in a few words:",
    "packageName" := "Your app's package name will be as follows:",
    "dependencies" := "Pick and choose the dependencies you want to use:"
  ]

  /** `optionMapping[key] || `${key}``. */
  function CatalogMessage(key: string): string
  {
    ToText(Or(if key in OptionMapping then Str(OptionMapping[key]) else Undefined, Str(key)))
  }

  function Message(p: Prompt): string
  {
    match p
    case TextPrompt(name, _) => CatalogMessage(name)
    case SelectPrompt(name, _, _) => CatalogMessage(name)
    case MultiSelectPrompt(name, _) => CatalogMessage(name)
    case ToolchainPrompt => "Which toolchain do you want to use?"
    case FormatPrompt => "In which format do you want to download your app?"
    case ExtractPrompt => "Do you want to extract/initialise the project after downloading?"
  }

  /** The choices a list prompt offers. */
  function Choices(p: Prompt): seq<Choice>
  {
    match p
    case SelectPrompt(_, choices, _) => choices
    case ToolchainPrompt => [Choice("Gradle", "gradle"), Choice("Maven", "maven")]
    case FormatPrompt => [Choice("Project archive file (ZIP)", "project"), Choice("Build descriptor file", "build")]
    case _ => []
  }

  /** The default offered when the question is asked, given the saved
      configuration and the answers so far. */
  function Default(p: Prompt, config: Object, answers: Object): Value
  {
    match p
    case TextPrompt(name, catalogDefault) =>
      if name == "packageName" && Truthy(Or(Get(answers, "groupId"), Get(answers, "artifactId"))) then
        Or(Get(config, name), Str(ToText(Get(answers, "groupId")) + "." + ToText(Get(answers, "artifactId"))))
      else
        Or(Get(config, name), catalogDefault)
    case SelectPrompt(_, _, default) => default
    case MultiSelectPrompt(name, _) => Or(Get(config, name), Strs([]))
    case ToolchainPrompt => Get(config, "toolchain")
    case FormatPrompt => Get(config, "format")
    case ExtractPrompt => Get(config, "format")
  }

  /** Whether the question is asked at all. */
  predicate When(p: Prompt, answers: Object)
  {
    match p
    case ExtractPrompt => Get(answers, "format") == Str("project")
    case _ => true
  }

  /** The `source` of a multi-select prompt: the dependency index searched
      with the filter typed so far. */
  function Source(p: Prompt, filter: string, matches: (string, string) -> bool): seq<Choice>
    requires p.MultiSelectPrompt?
  {
    DependencyIndex.Search(p.index, filter, matches)
  }

  // ---------------------------------------------------------------------
  // The prompt list

  /** The field tags that produce a prompt. */
  predicate Handled(f: Field)
  {
    f.Text? || f.SingleSelect? || f.HierarchicalMultiSelect?
  }

  /** The group a handled field's prompt belongs to. */
  function Rank(f: Field): nat
    requires Handled(f)
  {
    match f
    case Text(_) => 0
    case SingleSelect(_, _) => 1
    case HierarchicalMultiSelect(_) => 2
  }

  /** The position of a prompt's group in the list. */
  function Order(p: Prompt): nat
  {
    match p
    case TextPrompt(_, _) => 0
    case SelectPrompt(_, _, _) => 1
    case MultiSelectPrompt(_, _) => 2
    case ToolchainPrompt => 3
    case FormatPrompt => 4
    case ExtractPrompt => 5
  }

  /** The prompt pushed for a handled catalog entry (lines 77-93, 99-113, 119-134). */
  function PromptOf(e: Entry, config: Object, index: seq<Choice>): Prompt
    requires Handled(e.field)
  {
    match e.field
    case Text(default) => TextPrompt(e.key, default)
    case SingleSelect(default, values) => SelectPrompt(e.key, ToChoices(values), Or(Get(config, e.key), default))
    case HierarchicalMultiSelect(_) => MultiSelectPrompt(e.key, index)
  }

  /** `Object.entries(catalog).filter(rank r).forEach(push)`: the prompts of
      the entries of one group, in catalog order. */
  function GroupPrompts(c: Catalog, r: nat, config: Object, index: seq<Choice>): seq<Prompt>
  {
    if c == [] then []
    else
      var rest := GroupPrompts(c[..|c| - 1], r, config, index);
      var e := c[|c| - 1];
      if Handled(e.field) && Rank(e.field) == r then rest + [PromptOf(e, config, index)] else rest
  }

  /** The number of entries of group `r`. */
  function Count(c: Catalog, r: nat): nat
  {
    if c == [] then 0
    else Count(c[..|c| - 1], r) + (if Handled(c[|c| - 1].field) && Rank(c[|c| - 1].field) == r then 1 else 0)
  }

  const Fixed: seq<Prompt> := [ToolchainPrompt, FormatPrompt, ExtractPrompt]

  /** Lines 71-185: the whole list, in the order it is pushed. */
  function PromptList(c: Catalog, config: Object, index: seq<Choice>): seq<Prompt>
  {
    GroupPrompts(c, 0, config, index) + GroupPrompts(c, 1, config, index) + GroupPrompts(c, 2, config, index) + Fixed
  }

  /** Where the prompt of group-`r` entry `j` sits inside the whole list. */
  function Position(c: Catalog, j: nat): nat
    requires j < |c| && Handled(c[j].field)
  {
    var r := Rank(c[j].field);
    (if r >= 1 then Count(c, 0) else 0) + (if r == 2 then Count(c, 1) else 0) + Count(c[..j], r)
  }

  // ---------------------------------------------------------------------
  // Group lemmas

  lemma {:induction false} GroupLength(c: Catalog, r: nat, config: Object, index: seq<Choice>)
    ensures |GroupPrompts(c, r, config, index)| == Count(c, r)
  {
    if c != [] {
      GroupLength(c[..|c| - 1], r, config, index);
    }
  }

  lemma {:induction false} CountPrefix(c: Catalog, r: nat, j: nat)
    requires j <= |c|
    ensures Count(c[..j], r) <= Count(c, r)
    ensures j < |c| && Handled(c[j].field) && Rank(c[j].field) == r ==> Count(c[..j], r) < Count(c, r)
  {
    if j < |c| {
      var init := c[..|c| - 1];
      assert c[..j] == init[..j];
      if j < |init| {
        CountPrefix(init, r, j);
        assert init[..j + 1][..j] == init[..j];
        CountPrefix(init, r, j + 1);
      } else {
        assert init[..j] == init;
      }
    } else {
      assert c[..j] == c;
    }
  }

  /** Entry `j` of group `r` yields prompt number `Count(c[..j], r)` of that group. */
  lemma {:induction false} GroupAt(c: Catalog, r: nat, config: Object, index: seq<Choice>, j: nat)
    requires j < |c| && Handled(c[j].field) && Rank(c[j].field) == r
    ensures Count(c[..j], r) < |GroupPrompts(c, r, config, index)|
    ensures GroupPrompts(c, r, config, index)[Count(c[..j], r)] == PromptOf(c[j], config, index)
  {
    var n := |c| - 1;
    var init := c[..n];
    GroupLength(c, r, config, index);
    GroupLength(init, r, config, index);
    CountPrefix(c, r, j);
    if j == n {
      assert c[..j] == init;
    } else {
      assert init[..j] == c[..j];
      GroupAt(init, r, config, index, j);
    }
  }

  /** Every prompt of group `r` is the prompt of some group-`r` entry. */
  lemma {:induction false} GroupSound(c: Catalog, r: nat, config: Object, index: seq<Choice>, k: nat)
    requires k < |GroupPrompts(c, r, config, index)|
    ensures exists j :: 0 <= j < |c| && Handled(c[j].field) && Rank(c[j].field) == r
                        && GroupPrompts(c, r, config, index)[k] == PromptOf(c[j], config, index)
  {
    var n := |c| - 1;
    var init := c[..n];
    var rest := GroupPrompts(init, r, config, index);
    if k < |rest| {
      GroupSound(init, r, config, index, k);
      var j :| 0 <= j < |init| && Handled(init[j].field) && Rank(init[j].field) == r
               && rest[k] == PromptOf(init[j], config, index);
      assert init[j] == c[j];
    } else {
      assert GroupPrompts(c, r, config, index)[k] == PromptOf(c[n], config, index);
    }
  }

  lemma GroupOrder(c: Catalog, r: nat, config: Object, index: seq<Choice>, k: nat)
    requires k < |GroupPrompts(c, r, config, index)|
    ensures Order(GroupPrompts(c, r, config, index)[k]) == r
  {
  }

  // ---------------------------------------------------------------------
  // Properties of the prompt list

  /** One prompt per handled entry, then exactly the toolchain, format and
      extract prompts. */
  lemma PromptListShape(c: Catalog, config: Object, index: seq<Choice>)
    ensures |PromptList(c, config, index)| == Count(c, 0) + Count(c, 1) + Count(c, 2) + 3
    ensures PromptList(c, config, index)[|PromptList(c, config, index)| - 3..] == [ToolchainPrompt, FormatPrompt, ExtractPrompt]
  {
  }

  /** Text prompts precede single-select prompts, which precede multi-select
      prompts, which precede toolchain, format and extract. */
  lemma PromptListOrdered(c: Catalog, config: Object, index: seq<Choice>)
    ensures forall i, j :: 0 <= i < j < |PromptList(c, config, index)| ==>
              Order(PromptList(c, config, index)[i]) <= Order(PromptList(c, config, index)[j])
  {
    var g0, g1, g2 := GroupPrompts(c, 0, config, index), GroupPrompts(c, 1, config, index), GroupPrompts(c, 2, config, index);
    var p := PromptList(c, config, index);
    forall i | 0 <= i < |p|
      ensures Order(p[i]) == if i < |g0| then 0 else if i < |g0| + |g1| then 1
                             else if i < |g0| + |g1| + |g2| then 2 else i - |g0| - |g1| - |g2| + 3
    {
      if i < |g0| {
        GroupOrder(c, 0, config, index, i);
      } else if i < |g0| + |g1| {
        GroupOrder(c, 1, config, index, i - |g0|);
      } else if i < |g0| + |g1| + |g2| {
        GroupOrder(c, 2, config, index, i - |g0| - |g1|);
      }
    }
  }

  /** The prompt of every handled entry appears at `Position(c, j)`: within its
      group, entries keep their catalog order. */
  lemma PromptListAt(c: Catalog, config: Object, index: seq<Choice>, j: nat)
    requires j < |c| && Handled(c[j].field)
    ensures Position(c, j) < |PromptList(c, config, index)| - 3
    ensures PromptList(c, config, index)[Position(c, j)] == PromptOf(c[j], config, index)
  {
    var r := Rank(c[j].field);
    GroupLength(c, 0, config, index);
    GroupLength(c, 1, config, index);
    GroupLength(c, 2, config, index);
    GroupAt(c, r, config, index, j);
  }

  /** Every prompt before the fixed three comes from a handled catalog entry. */
  lemma PromptListFromCatalog(c: Catalog, config: Object, index: seq<Choice>, k: nat)
    requires k < |PromptList(c, config, index)| - 3
    ensures exists j :: 0 <= j < |c| && Handled(c[j].field) && PromptList(c, config, index)[k] == PromptOf(c[j], config, index)
  {
    var g0, g1 := GroupPrompts(c, 0, config, index), GroupPrompts(c, 1, config, index);
    if k < |g0| {
      GroupSound(c, 0, config, index, k);
    } else if k < |g0| + |g1| {
      GroupSound(c, 1, config, index, k - |g0|);
    } else {
      GroupSound(c, 2, config, index, k - |g0| - |g1|);
    }
  }

  /** Only the last prompt, `extract`, is conditional: it is asked exactly when
      the `format` answer is `"project"`. */
  lemma PromptListWhen(c: Catalog, config: Object, index: seq<Choice>, answers: Object)
    ensures forall k :: 0 <= k < |PromptList(c, config, index)| ==>
              (When(PromptList(c, config, index)[k], answers) <==>
               (k < |PromptList(c, config, index)| - 1 || Get(answers, "format") == Str("project")))
  {
    var p := PromptList(c, config, index);
    PromptListShape(c, config, index);
    forall k | 0 <= k < |p| - 3 ensures p[k] != ExtractPrompt {
      PromptListFromCatalog(c, config, index, k);
    }
    assert p[|p| - 1] == p[|p| - 3..][2];
    assert p[|p| - 2] == p[|p| - 3..][1];
    assert p[|p| - 3] == p[|p| - 3..][0];
  }

  /** Every multi-select prompt's `source` searches the one index built from
      `catalog.dependencies`, whatever its own key. */
  lemma PromptListSharedIndex(c: Catalog, config: Object, index: seq<Choice>, filter: string, matches: (string, string) -> bool)
    ensures forall k :: 0 <= k < |PromptList(c, config, index)| && PromptList(c, config, index)[k].MultiSelectPrompt? ==>
              Source(PromptList(c, config, index)[k], filter, matches) == DependencyIndex.Search(index, filter, matches)
  {
    var p := PromptList(c, config, index);
    PromptListShape(c, config, index);
    forall k | 0 <= k < |p| - 3 && p[k].MultiSelectPrompt? ensures p[k].index == index {
      PromptListFromCatalog(c, config, index, k);
    }
    assert p[|p| - 3..] == Fixed;
    assert forall k :: |p| - 3 <= k < |p| ==> p[k] == p[|p| - 3..][k - (|p| - 3)];
  }

  /** Two entries that give the same prompt: same key, and equal unless both
      are multi-select fields (whose prompt ignores the field's values). */
  predicate SamePrompt(a: Entry, b: Entry)
  {
    a.key == b.key && (a == b || (a.field.HierarchicalMultiSelect? && b.field.HierarchicalMultiSelect?))
  }

  lemma {:induction false} GroupPromptsAlike(c: Catalog, d: Catalog, r: nat, config: Object, index: seq<Choice>)
    requires |c| == |d| && forall j :: 0 <= j < |c| ==> SamePrompt(c[j], d[j])
    ensures GroupPrompts(c, r, config, index) == GroupPrompts(d, r, config, index)
  {
    if c != [] {
      var n := |c| - 1;
      GroupPromptsAlike(c[..n], d[..n], r, config, index);
    }
  }

  /** The in-place renaming of the dependency values (line 59) happens before
      the prompts are pushed, and leaves the prompt list unchanged. */
  lemma RenamingKeepsPrompts(c: Catalog, config: Object, index: seq<Choice>)
    ensures PromptList(DependencyIndex.RenameDependencies(c), config, index) == PromptList(c, config, index)
  {
    var d := DependencyIndex.RenameDependencies(c);
    GroupPromptsAlike(d, c, 0, config, index);
    GroupPromptsAlike(d, c, 1, config, index);
    GroupPromptsAlike(d, c, 2, config, index);
  }

  // ---------------------------------------------------------------------
  // Properties of single prompts

  /** A catalog prompt's message is the fixed label of its key when there is
      one, otherwise the key itself. */
  lemma CatalogPromptMessage(e: Entry, config: Object, index: seq<Choice>)
    requires Handled(e.field)
    ensures Message(PromptOf(e, config, index)) == if e.key in OptionMapping then OptionMapping[e.key] else e.key
  {
  }

  /** A single-select prompt offers the catalog values in catalog order, each
      `{id, name}` as `{name, value: id}`. */
  lemma SelectChoicesCopy(e: Entry, config: Object, index: seq<Choice>)
    requires e.field.SingleSelect?
    ensures |Choices(PromptOf(e, config, index))| == |e.field.values|
    ensures forall i :: 0 <= i < |e.field.values| ==>
              Choices(PromptOf(e, config, index))[i] == Choice(e.field.values[i].name, e.field.values[i].id)
  {
  }

  /** A saved (truthy) configuration value is the default of the catalog prompt
      for that key, whatever its kind. */
  lemma SavedValueFirst(e: Entry, config: Object, index: seq<Choice>, answers: Object)
    requires Handled(e.field) && Truthy(Get(config, e.key))
    ensures Default(PromptOf(e, config, index), config, answers) == config[e.key]
  {
  }

  /** Without a saved value, a text or single-select prompt falls back on the
      catalog default (except `packageName` once a group or artifact id is
      answered), and a multi-select prompt on the empty selection. */
  lemma CatalogDefaultFallback(e: Entry, config: Object, index: seq<Choice>, answers: Object)
    requires Handled(e.field) && !Truthy(Get(config, e.key))
    requires !(e.key == "packageName" && (Truthy(Get(answers, "groupId")) || Truthy(Get(answers, "artifactId"))))
    ensures Default(PromptOf(e, config, index), config, answers)
            == if e.field.HierarchicalMultiSelect? then Strs([]) else e.field.default
  {
  }

  /** Without a saved `packageName`, once a group or artifact id is answered
      the package name defaults to `groupId + "." + artifactId`. */
  lemma PackageNameFromIds(default: Value, config: Object, index: seq<Choice>, answers: Object)
    requires !Truthy(Get(config, "packageName"))
    requires Truthy(Get(answers, "groupId")) || Truthy(Get(answers, "artifactId"))
    ensures Default(PromptOf(Entry("packageName", Text(default)), config, index), config, answers)
            == Str(ToText(Get(answers, "groupId")) + "." + ToText(Get(answers, "artifactId")))
  {
  }

  /** The worked case: `com.example` and `demo` give `com.example.demo`. */
  lemma PackageNameExample(default: Value, index: seq<Choice>)
    ensures Default(PromptOf(Entry("packageName", Text(default)), map[], index), map[],
                    map["groupId" := Str("com.example"), "artifactId" := Str("demo")])
            == Str("com.example.demo")
  {
  }

  /** The fixed prompts read their defaults from the saved configuration, and
      the `extract` confirmation reads the saved `format` value. */
  lemma FixedDefaults(config: Object, answers: Object)
    ensures Default(ToolchainPrompt, config, answers) == Get(config, "toolchain")
    ensures Default(FormatPrompt, config, answers) == Get(config, "format")
    ensures Default(ExtractPrompt, config, answers) == Get(config, "format")
  {
  }
}
