/**
 * generateFrontmatter and generateSkill
 * (skills/skill-builder/scripts/generate-skill.js) as the source writes them:
 * an accumulator string extended by `+=`, one `forEach` loop per list, with
 * the same guards between the appends. The source's single generateSkill
 * body is cut here into one method per section, each taking the accumulator
 * and returning it extended; every method is proved to append exactly the
 * text that module SkillRender gives for its part of the document.
 *
 * `content += a + b` evaluates `a + b` first, so each append is written
 * `out := out + (a + b)`.
 */
module Generator {
  import opened Optional
  import opened Text
  import opened SkillDefinition
  import opened SkillRender

  /** Lines 95-113: the header block. */
  method GenerateFrontmatter(metadata: Metadata) returns (fm: string)
    ensures fm == Frontmatter(metadata)
  {
    fm := "---\n";
    fm := fm + ("name: " + metadata.name + "\n");
    fm := fm + ("description: " + metadata.description + "\n");
    fm := fm + ("version: " + OrDefault(metadata.version, "1.0.0") + "\n");
    fm := fm + ("author: " + OrDefault(metadata.author, "") + "\n");
    fm := fm + "type: skill\n";
    fm := fm + ("category: " + OrDefault(metadata.category, "general") + "\n");
    fm := fm + "tags:\n";
    ghost var before := fm;
    if metadata.tags.Some? && |metadata.tags.value| > 0 {
      var tags := metadata.tags.value;
      for i := 0 to |tags|
        invariant fm == before + ConcatMap(tags[..i], TagLine)
      {
        ConcatMapSnoc(tags, TagLine, i);
        AppendAssoc(before, ConcatMap(tags[..i], TagLine), TagLine(tags[i]));
        fm := fm + ("  - " + tags[i] + "\n");
      }
      assert tags[..|tags|] == tags;
    } else {
      fm := fm + ("  - " + metadata.name + "\n");
    }
    assert fm == before + TagLines(metadata);
    fm := fm + "---\n\n";
  }

  /** Lines 20-28: the placeholder table, when the list has items. */
  method AppendPlaceholders(content: string, placeholders: Option<seq<Placeholder>>) returns (out: string)
    ensures out == content + PlaceholdersSection(placeholders)
  {
    out := content;
    if placeholders.Some? && |placeholders.value| > 0 {
      var ps := placeholders.value;
      out := out + "## Placeholders\n\n";
      out := out + "| Placeholder | Description | Type | Required |\n";
      out := out + "|-------------|-------------|------|----------|\n";
      ghost var before := out;
      for i := 0 to |ps|
        invariant out == before + ConcatMap(ps[..i], PlaceholderRow)
      {
        var p := ps[i];
        ConcatMapSnoc(ps, PlaceholderRow, i);
        AppendAssoc(before, ConcatMap(ps[..i], PlaceholderRow), PlaceholderRow(p));
        out := out + ("| `" + p.name + "` | " + p.description + " | " + p.kind + " | " + (if p.required then "Yes" else "No") + " |\n");
      }
      assert ps[..|ps|] == ps;
      out := out + "\n---\n\n";
      ghost var rows := ConcatMap(ps, PlaceholderRow);
      ghost var head := "## Placeholders\n\n";
      AppendAssoc(content, head + PlaceholderHeaderRow + PlaceholderSeparatorRow + rows, "\n---\n\n");
      AppendAssoc(content, head + PlaceholderHeaderRow + PlaceholderSeparatorRow, rows);
      AppendAssoc(content, head + PlaceholderHeaderRow, PlaceholderSeparatorRow);
      AppendAssoc(content, head, PlaceholderHeaderRow);
    }
  }

  /** Lines 32-38: the conditional paths, whenever the list is present. */
  method AppendConditionals(content: string, conditionals: Option<seq<Conditional>>) returns (out: string)
    ensures out == content + ConditionalPaths(conditionals)
  {
    out := content;
    if conditionals.Some? {
      var cs := conditionals.value;
      out := out + "### Conditional Paths\n\n";
      ghost var before := out;
      for i := 0 to |cs|
        invariant out == before + ConcatMap(cs[..i], ConditionalLine)
      {
        var c := cs[i];
        ConcatMapSnoc(cs, ConditionalLine, i);
        AppendAssoc(before, ConcatMap(cs[..i], ConditionalLine), ConditionalLine(c));
        out := out + ("- **" + c.condition + "**: " + c.action + "\n");
      }
      assert cs[..|cs|] == cs;
      out := out + "\n";
      ghost var lines := ConcatMap(cs, ConditionalLine);
      AppendAssoc(content, "### Conditional Paths\n\n" + lines, "\n");
      AppendAssoc(content, "### Conditional Paths\n\n", lines);
    }
  }

  /** Lines 43-53: the block of one step, numbered idx + 1. */
  method AppendStep(content: string, idx: nat, step: Step) returns (out: string)
    ensures out == content + StepBlock(idx + 1, step)
  {
    var heading := "#### Step " + NatToString(idx + 1) + ": " + step.title + "\n\n";
    out := content + heading;
    out := out + (step.description + "\n\n");
    ghost var described := out;
    if step.promptsFor.Some? {
      out := out + ("**Prompts for**: " + CodeList(step.promptsFor.value) + "\n\n");
    }
    assert out == described + PromptsLine(step);
    ghost var prompted := out;
    if step.offerSuggestion {
      out := out + "**Offer suggestion**: Yes - suggest draft for user review\n\n";
    }
    assert out == prompted + OfferLine(step);
    ghost var offered := out;
    if Truthy(step.validation) {
      out := out + ("**Validation**: " + step.validation.value + "\n\n");
    }
    assert out == offered + StepValidationLine(step);
    ghost var body := step.description + "\n\n";
    AppendAssoc(content, heading + body + PromptsLine(step) + OfferLine(step), StepValidationLine(step));
    AppendAssoc(content, heading + body + PromptsLine(step), OfferLine(step));
    AppendAssoc(content, heading + body, PromptsLine(step));
    AppendAssoc(content, heading, body);
  }

  /** Lines 40-55: the numbered steps, whenever the list is present. */
  method AppendSteps(content: string, steps: Option<seq<Step>>) returns (out: string)
    ensures out == content + StepsPart(steps)
  {
    out := content;
    if steps.Some? {
      var ss := steps.value;
      out := out + "### Steps\n\n";
      ghost var before := out;
      for idx := 0 to |ss|
        invariant out == before + StepBlocks(ss[..idx])
      {
        StepBlocksSnoc(ss, idx);
        AppendAssoc(before, StepBlocks(ss[..idx]), StepBlock(idx + 1, ss[idx]));
        out := AppendStep(out, idx, ss[idx]);
      }
      assert ss[..|ss|] == ss;
      AppendAssoc(content, "### Steps\n\n", StepBlocks(ss));
    }
  }

  /** Lines 30-57: the workflow, closed by a rule whichever parts were written. */
  method AppendWorkflow(content: string, workflow: Option<Workflow>) returns (out: string)
    ensures out == content + WorkflowSection(workflow)
  {
    out := content;
    if workflow.Some? {
      out := out + "## Workflow\n\n";
      out := AppendConditionals(out, workflow.value.conditionals);
      out := AppendSteps(out, workflow.value.steps);
      out := out + "---\n\n";
      ghost var conditionals := ConditionalPaths(workflow.value.conditionals);
      ghost var steps := StepsPart(workflow.value.steps);
      AppendAssoc(content, "## Workflow\n\n" + (conditionals + steps), "---\n\n");
      AppendAssoc("## Workflow\n\n", conditionals, steps);
      AppendAssoc(content, "## Workflow\n\n" + conditionals, steps);
      AppendAssoc(content, "## Workflow\n\n", conditionals);
    }
  }

  /** Lines 62-66: the block of one validation rule. */
  method AppendRule(content: string, v: ValidationRule) returns (out: string)
    ensures out == content + RuleBlock(v)
  {
    var heading := "### " + v.field + "\n\n";
    var typeLine := "- **Type**: " + v.kind + "\n";
    out := content + heading;
    out := out + typeLine;
    ghost var typed := out;
    if Truthy(v.pattern) {
      out := out + ("- **Pattern**: `" + v.pattern.value + "`\n");
    }
    assert out == typed + PatternLine(v);
    ghost var patterned := out;
    if Truthy(v.message) {
      out := out + ("- **Error**: " + v.message.value + "\n");
    }
    assert out == patterned + ErrorLine(v);
    out := out + "\n";
    AppendAssoc(content, heading + typeLine + PatternLine(v) + ErrorLine(v), "\n");
    AppendAssoc(content, heading + typeLine + PatternLine(v), ErrorLine(v));
    AppendAssoc(content, heading + typeLine, PatternLine(v));
    AppendAssoc(content, heading, typeLine);
  }

  /** Lines 59-69: the validation rules, when the list has items. */
  method AppendValidation(content: string, validation: Option<seq<ValidationRule>>) returns (out: string)
    ensures out == content + ValidationSection(validation)
  {
    out := content;
    if validation.Some? && |validation.value| > 0 {
      var rules := validation.value;
      out := out + "## Validation Rules\n\n";
      ghost var before := out;
      for i := 0 to |rules|
        invariant out == before + ConcatMap(rules[..i], RuleBlock)
      {
        ConcatMapSnoc(rules, RuleBlock, i);
        AppendAssoc(before, ConcatMap(rules[..i], RuleBlock), RuleBlock(rules[i]));
        out := AppendRule(out, rules[i]);
      }
      assert rules[..|rules|] == rules;
      out := out + "---\n\n";
      ghost var blocks := ConcatMap(rules, RuleBlock);
      AppendAssoc(content, "## Validation Rules\n\n" + blocks, "---\n\n");
      AppendAssoc(content, "## Validation Rules\n\n", blocks);
    }
  }

  /** Lines 71-78: the template list, whenever the list is present. */
  method AppendTemplates(content: string, templates: Option<seq<string>>) returns (out: string)
    ensures out == content + TemplatesSection(templates)
  {
    out := content;
    if templates.Some? {
      var ts := templates.value;
      out := out + "## Templates\n\n";
      out := out + "Reference these template files:\n\n";
      ghost var before := out;
      for i := 0 to |ts|
        invariant out == before + ConcatMap(ts[..i], TemplateLine)
      {
        ConcatMapSnoc(ts, TemplateLine, i);
        AppendAssoc(before, ConcatMap(ts[..i], TemplateLine), TemplateLine(ts[i]));
        out := out + ("- `" + ts[i] + "`\n");
      }
      assert ts[..|ts|] == ts;
      out := out + "\n---\n\n";
      ghost var lines := ConcatMap(ts, TemplateLine);
      ghost var intro := "Reference these template files:\n\n";
      AppendAssoc(content, "## Templates\n\n" + (intro + lines), "\n---\n\n");
      AppendAssoc("## Templates\n\n", intro, lines);
      AppendAssoc(content, "## Templates\n\n" + intro, lines);
      AppendAssoc(content, "## Templates\n\n", intro);
    }
  }

  /** Lines 83-87: the block of one example. */
  method AppendExample(content: string, ex: Example) returns (out: string)
    ensures out == content + ExampleBlock(ex)
  {
    var heading := "### " + ex.title + "\n\n";
    var body := ex.description + "\n\n";
    out := content + heading;
    out := out + body;
    ghost var described := out;
    if Truthy(ex.code) {
      out := out + ("```\n" + ex.code.value + "\n```\n\n");
    }
    assert out == described + CodeFence(ex);
    AppendAssoc(content, heading + body, CodeFence(ex));
    AppendAssoc(content, heading, body);
  }

  /** Lines 80-89: the examples, when the list has items; no closing rule. */
  method AppendExamples(content: string, examples: Option<seq<Example>>) returns (out: string)
    ensures out == content + ExamplesSection(examples)
  {
    out := content;
    if examples.Some? && |examples.value| > 0 {
      var es := examples.value;
      out := out + "## Examples\n\n";
      ghost var before := out;
      for i := 0 to |es|
        invariant out == before + ConcatMap(es[..i], ExampleBlock)
      {
        ConcatMapSnoc(es, ExampleBlock, i);
        AppendAssoc(before, ConcatMap(es[..i], ExampleBlock), ExampleBlock(es[i]));
        out := AppendExample(out, es[i]);
      }
      assert es[..|es|] == es;
      AppendAssoc(content, "## Examples\n\n", ConcatMap(es, ExampleBlock));
    }
  }

  /** Lines 6-89: the whole document, header first, then the sections in their fixed order. */
  method GenerateSkill(definition: Definition) returns (content: string)
    ensures content == Render(definition)
  {
    content := "";
    var fm := GenerateFrontmatter(definition.metadata);
    content := content + fm;
    assert content == fm;
    content := content + ("\n# " + definition.metadata.name + "\n\n");
    ghost var titled := content;
    if Truthy(definition.purpose) {
      content := content + ("> **Purpose**: " + definition.purpose.value + "\n\n---\n\n");
    }
    assert content == titled + PurposeSection(definition.purpose);
    ghost var purposed := content;
    if Truthy(definition.tone) {
      content := content + ("## Tone & Style\n\n" + definition.tone.value + "\n\n---\n\n");
    }
    assert content == purposed + ToneSection(definition.tone);
    content := AppendPlaceholders(content, definition.placeholders);
    content := AppendWorkflow(content, definition.workflow);
    content := AppendValidation(content, definition.validation);
    content := AppendTemplates(content, definition.templates);
    content := AppendExamples(content, definition.examples);
  }
}
