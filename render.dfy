/**
 * The document generateSkill builds
 * (skills/skill-builder/scripts/generate-skill.js), as pure functions: one
 * per section, in the order and with the guards the source checks, each
 * text exactly the chunks the source appends. The imperative builder in
 * module Generator is proved to produce the same text.
 */
module SkillRender {
  import opened Optional
  import opened Text
  import opened SkillDefinition

  /** The horizontal rule that closes every section except Examples. */
  const SectionBreak := "---\n\n"

  // ---------------------------------------------------------------------
  // Header (generateFrontmatter) and title

  function TagLine(tag: string): string {
    "  - " + tag + "\n"
  }

  /** One line per tag when tags are given, otherwise one line with the skill's name. */
  function TagLines(metadata: Metadata): string {
    if HasItems(metadata.tags) then ConcatMap(metadata.tags.value, TagLine)
    else TagLine(metadata.name)
  }

  function Frontmatter(metadata: Metadata): string {
    "---\n"
      + ("name: " + metadata.name + "\n")
      + ("description: " + metadata.description + "\n")
      + ("version: " + OrDefault(metadata.version, "1.0.0") + "\n")
      + ("author: " + OrDefault(metadata.author, "") + "\n")
      + "type: skill\n"
      + ("category: " + OrDefault(metadata.category, "general") + "\n")
      + "tags:\n"
      + TagLines(metadata)
      + "---\n\n"
  }

  function Title(name: string): string {
    "\n# " + name + "\n\n"
  }

  // ---------------------------------------------------------------------
  // Purpose and Tone & Style

  function PurposeSection(purpose: Option<string>): (r: string)
    ensures r != "" <==> Truthy(purpose)
    ensures r != "" ==> StartsWith(r, "> **Purpose**: " + purpose.value) && EndsWith(r, "\n\n" + SectionBreak)
  {
    if Truthy(purpose) then
      var r := "> **Purpose**: " + purpose.value + "\n\n---\n\n";
      AppendStartsEnds("> **Purpose**: " + purpose.value, "\n\n---\n\n");
      r
    else ""
  }

  function ToneSection(tone: Option<string>): (r: string)
    ensures r != "" <==> Truthy(tone)
    ensures r != "" ==> StartsWith(r, "## Tone & Style\n\n") && EndsWith(r, "\n\n" + SectionBreak)
  {
    if Truthy(tone) then
      var r := "## Tone & Style\n\n" + tone.value + "\n\n---\n\n";
      AppendStartsEnds("## Tone & Style\n\n", tone.value);
      StartsWithAppend("## Tone & Style\n\n" + tone.value, "## Tone & Style\n\n", "\n\n---\n\n");
      AppendStartsEnds("## Tone & Style\n\n" + tone.value, "\n\n---\n\n");
      r
    else ""
  }

  // ---------------------------------------------------------------------
  // Placeholders

  const PlaceholderHeaderRow := "| Placeholder | Description | Type | Required |\n"
  const PlaceholderSeparatorRow := "|-------------|-------------|------|----------|\n"

  function PlaceholderRow(p: Placeholder): string {
    "| `" + p.name + "` | " + p.description + " | " + p.kind + " | " + (if p.required then "Yes" else "No") + " |\n"
  }

  function PlaceholdersSection(placeholders: Option<seq<Placeholder>>): (r: string)
    ensures r != "" <==> HasItems(placeholders)
    ensures r != "" ==> StartsWith(r, "## Placeholders\n\n")
    ensures r != "" ==> EndsWith(r, "\n" + SectionBreak)
  {
    if HasItems(placeholders) then
      var head := "## Placeholders\n\n" + PlaceholderHeaderRow + PlaceholderSeparatorRow;
      var rows := ConcatMap(placeholders.value, PlaceholderRow);
      AppendStartsEnds("## Placeholders\n\n", PlaceholderHeaderRow);
      StartsWithAppend("## Placeholders\n\n" + PlaceholderHeaderRow, "## Placeholders\n\n", PlaceholderSeparatorRow);
      StartsWithAppend(head, "## Placeholders\n\n", rows);
      StartsWithAppend(head + rows, "## Placeholders\n\n", "\n---\n\n");
      AppendStartsEnds(head + rows, "\n---\n\n");
      head + rows + "\n---\n\n"
    else ""
  }

  // ---------------------------------------------------------------------
  // Workflow: Conditional Paths, then Steps

  function ConditionalLine(c: Conditional): string {
    "- **" + c.condition + "**: " + c.action + "\n"
  }

  /** Emitted whenever the list is present, even when it is empty. */
  function ConditionalPaths(conditionals: Option<seq<Conditional>>): (r: string)
    ensures r != "" <==> conditionals.Some?
  {
    if conditionals.Some? then
      "### Conditional Paths\n\n" + ConcatMap(conditionals.value, ConditionalLine) + "\n"
    else ""
  }

  const OfferSuggestionLine := "**Offer suggestion**: Yes - suggest draft for user review\n\n"

  function PromptsLine(step: Step): string {
    if step.promptsFor.Some? then "**Prompts for**: " + CodeList(step.promptsFor.value) + "\n\n" else ""
  }

  function OfferLine(step: Step): string {
    if step.offerSuggestion then OfferSuggestionLine else ""
  }

  function StepValidationLine(step: Step): string {
    if Truthy(step.validation) then "**Validation**: " + step.validation.value + "\n\n" else ""
  }

  /** The block of the step numbered n. */
  function StepBlock(n: nat, step: Step): string {
    ("#### Step " + NatToString(n) + ": " + step.title + "\n\n")
      + (step.description + "\n\n")
      + PromptsLine(step)
      + OfferLine(step)
      + StepValidationLine(step)
  }

  /** The blocks of the steps, the last one numbered by the count of steps. */
  function StepBlocks(steps: seq<Step>): string
    decreases |steps|
  {
    if steps == [] then ""
    else StepBlocks(steps[..|steps| - 1]) + StepBlock(|steps|, steps[|steps| - 1])
  }

  lemma StepBlocksSnoc(steps: seq<Step>, i: nat)
    requires i < |steps|
    ensures StepBlocks(steps[..i + 1]) == StepBlocks(steps[..i]) + StepBlock(i + 1, steps[i])
  {
    assert steps[..i + 1][..i] == steps[..i];
  }

  /** Emitted whenever the list is present, even when it is empty. */
  function StepsPart(steps: Option<seq<Step>>): (r: string)
    ensures r != "" <==> steps.Some?
  {
    if steps.Some? then "### Steps\n\n" + StepBlocks(steps.value) else ""
  }

  function WorkflowSection(workflow: Option<Workflow>): (r: string)
    ensures r != "" <==> workflow.Some?
    ensures r != "" ==> StartsWith(r, "## Workflow\n\n") && EndsWith(r, SectionBreak)
  {
    if workflow.Some? then
      var body := ConditionalPaths(workflow.value.conditionals) + StepsPart(workflow.value.steps);
      AppendStartsEnds("## Workflow\n\n", body);
      StartsWithAppend("## Workflow\n\n" + body, "## Workflow\n\n", "---\n\n");
      AppendStartsEnds("## Workflow\n\n" + body, "---\n\n");
      "## Workflow\n\n" + body + "---\n\n"
    else ""
  }

  // ---------------------------------------------------------------------
  // Validation Rules

  function PatternLine(rule: ValidationRule): string {
    if Truthy(rule.pattern) then "- **Pattern**: `" + rule.pattern.value + "`\n" else ""
  }

  function ErrorLine(rule: ValidationRule): string {
    if Truthy(rule.message) then "- **Error**: " + rule.message.value + "\n" else ""
  }

  function RuleBlock(rule: ValidationRule): string {
    ("### " + rule.field + "\n\n")
      + ("- **Type**: " + rule.kind + "\n")
      + PatternLine(rule)
      + ErrorLine(rule)
      + "\n"
  }

  function ValidationSection(rules: Option<seq<ValidationRule>>): (r: string)
    ensures r != "" <==> HasItems(rules)
    ensures r != "" ==> StartsWith(r, "## Validation Rules\n\n") && EndsWith(r, SectionBreak)
  {
    if HasItems(rules) then
      var blocks := ConcatMap(rules.value, RuleBlock);
      AppendStartsEnds("## Validation Rules\n\n", blocks);
      StartsWithAppend("## Validation Rules\n\n" + blocks, "## Validation Rules\n\n", "---\n\n");
      AppendStartsEnds("## Validation Rules\n\n" + blocks, "---\n\n");
      "## Validation Rules\n\n" + blocks + "---\n\n"
    else ""
  }

  // ---------------------------------------------------------------------
  // Templates

  function TemplateLine(template: string): string {
    "- `" + template + "`\n"
  }

  /** Emitted whenever the list is present, even when it is empty. */
  function TemplatesSection(templates: Option<seq<string>>): (r: string)
    ensures r != "" <==> templates.Some?
    ensures r != "" ==> StartsWith(r, "## Templates\n\n") && EndsWith(r, "\n" + SectionBreak)
  {
    if templates.Some? then
      var body := "Reference these template files:\n\n" + ConcatMap(templates.value, TemplateLine);
      AppendStartsEnds("## Templates\n\n", body);
      StartsWithAppend("## Templates\n\n" + body, "## Templates\n\n", "\n---\n\n");
      AppendStartsEnds("## Templates\n\n" + body, "\n---\n\n");
      "## Templates\n\n" + body + "\n---\n\n"
    else ""
  }

  // ---------------------------------------------------------------------
  // Examples (the last section, with no closing rule)

  function CodeFence(example: Example): string {
    if Truthy(example.code) then "```\n" + example.code.value + "\n```\n\n" else ""
  }

  function ExampleBlock(example: Example): string {
    ("### " + example.title + "\n\n")
      + (example.description + "\n\n")
      + CodeFence(example)
  }

  function ExamplesSection(examples: Option<seq<Example>>): (r: string)
    ensures r != "" <==> HasItems(examples)
    ensures r != "" ==> StartsWith(r, "## Examples\n\n")
  {
    if HasItems(examples) then
      AppendStartsEnds("## Examples\n\n", ConcatMap(examples.value, ExampleBlock));
      "## Examples\n\n" + ConcatMap(examples.value, ExampleBlock)
    else ""
  }

  // ---------------------------------------------------------------------
  // The whole document

  function Render(d: Definition): string {
    Frontmatter(d.metadata)
      + Title(d.metadata.name)
      + PurposeSection(d.purpose)
      + ToneSection(d.tone)
      + PlaceholdersSection(d.placeholders)
      + WorkflowSection(d.workflow)
      + ValidationSection(d.validation)
      + TemplatesSection(d.templates)
      + ExamplesSection(d.examples)
  }
}
