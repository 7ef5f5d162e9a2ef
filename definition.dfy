/**
 * The skill definition that the renderer reads: the shape of the parsed
 * definition document (skills/skill-builder/scripts/generate-skill.js, the
 * fields read by generateSkill and generateFrontmatter).
 *
 * A field the document may leave out is an Option. A boolean flag that is
 * left out is read by the source as `undefined`, which is falsy, so it is
 * modelled as `false`.
 */
module SkillDefinition {
  import opened Optional

  datatype Metadata = Metadata(
    name: string,
    description: string,
    version: Option<string>,
    author: Option<string>,
    category: Option<string>,
    tags: Option<seq<string>>)

  /** One row of the placeholder table; `kind` is the source's `type` field. */
  datatype Placeholder = Placeholder(name: string, description: string, kind: string, required: bool)

  datatype Conditional = Conditional(condition: string, action: string)

  datatype Step = Step(
    title: string,
    description: string,
    promptsFor: Option<seq<string>>,
    offerSuggestion: bool,
    validation: Option<string>)

  datatype Workflow = Workflow(conditionals: Option<seq<Conditional>>, steps: Option<seq<Step>>)

  /** A field validation rule; `kind` is the source's `type` field. */
  datatype ValidationRule = ValidationRule(
    field: string,
    kind: string,
    pattern: Option<string>,
    message: Option<string>)

  datatype Example = Example(title: string, description: string, code: Option<string>)

  datatype Definition = Definition(
    metadata: Metadata,
    purpose: Option<string>,
    tone: Option<string>,
    placeholders: Option<seq<Placeholder>>,
    workflow: Option<Workflow>,
    validation: Option<seq<ValidationRule>>,
    templates: Option<seq<string>>,
    examples: Option<seq<Example>>)

  /** JavaScript truthiness of a string field: present and not the empty string. */
  predicate Truthy(s: Option<string>) {
    s.Some? && s.value != ""
  }

  /** The guard `xs && xs.length > 0` on a list field. */
  predicate HasItems<T>(xs: Option<seq<T>>) {
    xs.Some? && |xs.value| > 0
  }

  /** The source's `s || default` on a string field. */
  function OrDefault(s: Option<string>, default: string): string {
    if Truthy(s) then s.value else default
  }
}
