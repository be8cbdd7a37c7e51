/**
 * The generator object: its saved per-project configuration (`this.config`)
 * and the answers of the last run (`this.props`), with the two steps of
 * `prompting()` that work step by step: pushing the prompts onto a list,
 * and writing the answers into the configuration key by key.
 */
module App {
  import opened Js
  import opened Catalog
  import opened Prompts
  import DependencyIndex

  class Generator {
    /** The saved configuration, read for defaults and written after prompting. */
    var config: Object
    /** The answers of the last prompting run. */
    var props: Object

    constructor (saved: Object)
      ensures config == saved && props == map[]
    {
      config := saved;
      props := map[];
    }

    /** One `Object.entries(catalog).filter(...).forEach(push)` pass (lines
        74-94, 96-114, 116-135): appends the prompts of the group-`r` entries. */
    method PushGroup(prompts: seq<Prompt>, c: Catalog, r: nat, index: seq<Choice>) returns (result: seq<Prompt>)
      ensures result == prompts + GroupPrompts(c, r, config, index)
    {
      result := prompts;
      var i := 0;
      while i < |c|
        invariant 0 <= i <= |c|
        invariant result == prompts + GroupPrompts(c[..i], r, config, index)
      {
        var e := c[i];
        assert c[..i + 1][..i] == c[..i];
        if Handled(e.field) && Rank(e.field) == r {
          result := result + [PromptOf(e, config, index)];
        }
        i := i + 1;
      }
      assert c[..i] == c;
    }

    /** Lines 71-185: the prompt list, built by pushing. */
    method BuildPrompts(c: Catalog, index: seq<Choice>) returns (prompts: seq<Prompt>)
      ensures prompts == PromptList(c, config, index)
    {
      prompts := [];
      prompts := PushGroup(prompts, c, 0, index);
      prompts := PushGroup(prompts, c, 1, index);
      prompts := PushGroup(prompts, c, 2, index);
      prompts := prompts + [ToolchainPrompt];
      prompts := prompts + [FormatPrompt];
      prompts := prompts + [ExtractPrompt];
    }

    /** Lines 40-185 once the catalog is at hand: the dependency index is
        built from `catalog.dependencies.values` first, renaming those values
        in the catalog as it goes, and the prompts are then pushed from the
        renamed catalog. The whole step fails (`None`) when the property
        access fails. */
    method Prompting(c: Catalog) returns (r: Option<seq<Prompt>>)
      ensures r.None? <==> DependencyGroups(c).None?
      ensures r.Some? ==> r.value == PromptList(c, config, DependencyIndex.Flatten(DependencyGroups(c).value))
    {
      match DependencyGroups(c)
      case None =>
        r := None;
      case Some(groups) =>
        var index := DependencyIndex.Flatten(groups);
        var renamed := DependencyIndex.RenameDependencies(c);
        var prompts := BuildPrompts(renamed, index);
        RenamingKeepsPrompts(c, config, index);
        r := Some(prompts);
    }

    /** Lines 189-192: keep the answers and write each one into the
        configuration. Every answered key then holds its answer, and no
        other key changes. */
    method StoreAnswers(answers: Object)
      modifies this
      ensures props == answers
      ensures config == old(config) + answers
      ensures forall k :: k in answers ==> k in config && config[k] == answers[k]
      ensures forall k :: k !in answers ==> (k in config <==> k in old(config))
      ensures forall k :: k !in answers && k in old(config) ==> config[k] == old(config)[k]
    {
      props := answers;
      var pending := answers.Keys;
      while pending != {}
        invariant props == answers
        invariant pending <= answers.Keys
        invariant config == old(config) + (answers - pending)
        decreases pending
      {
        var k :| k in pending;
        config := config[k := answers[k]];
        pending := pending - {k};
      }
      assert answers - {} == answers;
    }
  }
}
