# Skill definition renderer

A Dafny model of the renderer in `skills/skill-builder/scripts/generate-skill.js`.
The renderer turns a parsed skill definition into a Markdown skill document:
- a YAML-style header (`generateFrontmatter`);
- the title heading;
- then, in a fixed order, the Purpose, Tone & Style, Placeholders, Workflow
  (Conditional Paths, then Steps), Validation Rules, Templates and Examples
  sections.

Each section is written only when its guard in the source holds.

The project has six modules.
- `Optional` (`optional.dfy`): the option type.
- `SkillDefinition` (`definition.dfy`): the definition the renderer reads.
  - A field the document may leave out is an `Option`.
  - JavaScript truthiness of a string field is `Truthy`: present and not empty.
  - The `list && list.length > 0` guard is `HasItems`.
  - `s || default` is `OrDefault`.
  - The source's `type` fields are called `kind`.
- `Text` (`text.dfy`):
  - decimal numerals for step numbers;
  - the back-quoted, comma-separated list a step's `promptsFor` is written as, with a parser that reads it back;
  - a line view of text: `JoinLines` writes lines each ended by a newline, and `SplitLines` reads text as `split('\n')` does.
- `SkillRender` (`render.dfy`): the document as pure functions.
  - There is one function per section, with the source's guard and exactly the source's text.
  - `Render` is the whole document.
- `Generator` (`generator.dfy`): the source's own algorithm, imperative.
  - A string accumulator is extended by `+=`, with one `for` loop over the indices per `forEach`.
  - Each method is proved to append exactly the text its `SkillRender` function specifies.
- `SkillLayout` (`layout.dfy`): what the document looks like.
  - The header and title line by line.
  - Each section and block as the list of its lines.
  - Steps numbered by position.
  - The closing rule at the end of every section but Examples.
  - How omitted and empty fields show.

Empty lists and empty objects do not all render like omitted ones:
- `placeholders`, `validation` and `examples` are guarded by `list && list.length > 0`. An empty list renders like an omitted one.
- `templates`, `workflow`, `workflow.conditionals`, `workflow.steps` and a step's `promptsFor` are guarded by presence only (`if (x)`). An empty list, or an empty workflow object, still writes its heading or label line.
- The model follows the code. `SkillLayout.EmptyTemplatesStillRendered`, `SkillLayout.EmptyWorkflowStillRendered`, `SkillLayout.EmptyConditionalsStillRendered`, `SkillLayout.EmptyStepsStillRendered` and `SkillLayout.EmptyPromptsStillRendered` state this.
- `Some("")` and `None` render the same for these fields:
  - purpose and tone;
  - the header's version, author and category;
  - the tags (an empty tag list falls back to the name);
  - a step's validation;
  - a rule's pattern and message;
  - an example's code.
  They also render the same for the three `length > 0` lists. The `SkillLayout.Omitted…MatchesEmpty` lemmas state this.

## Model

| member | source | states |
|---|---|---|
| Generator.GenerateFrontmatter | skills/skill-builder/scripts/generate-skill.js:95-113 | the header the loop builds is `SkillRender.Frontmatter`: fixed field order, version/author/category defaults, one tag line per tag or the name |
| Generator.GenerateSkill | skills/skill-builder/scripts/generate-skill.js:6-89 | the accumulated document is `Render(definition)`: header, title, then the sections in their fixed order |
| Generator.AppendPlaceholders | skills/skill-builder/scripts/generate-skill.js:20-28 | appends exactly the placeholder table (rows in input order) when the list has items, nothing otherwise |
| Generator.AppendConditionals | skills/skill-builder/scripts/generate-skill.js:32-38 | appends the conditional paths whenever the list is present, one line per conditional in order |
| Generator.AppendStep | skills/skill-builder/scripts/generate-skill.js:43-53 | appends the block of one step numbered `idx + 1` |
| Generator.AppendSteps | skills/skill-builder/scripts/generate-skill.js:40-55 | appends the step blocks, the one at index i numbered i + 1, whenever the list is present |
| Generator.AppendWorkflow | skills/skill-builder/scripts/generate-skill.js:30-57 | appends the workflow heading, conditional paths, steps and the closing rule when a workflow is given |
| Generator.AppendRule | skills/skill-builder/scripts/generate-skill.js:62-66 | appends the block of one validation rule |
| Generator.AppendValidation | skills/skill-builder/scripts/generate-skill.js:59-69 | appends the rule blocks in order and the closing rule when the list has items |
| Generator.AppendTemplates | skills/skill-builder/scripts/generate-skill.js:71-78 | appends the template list whenever the list is present, even when empty |
| Generator.AppendExample | skills/skill-builder/scripts/generate-skill.js:83-87 | appends the block of one example, with a fenced code block only when code is truthy |
| Generator.AppendExamples | skills/skill-builder/scripts/generate-skill.js:80-89 | appends the examples when the list has items, with no closing rule |
| SkillRender.PurposeSection | skills/skill-builder/scripts/generate-skill.js:12-14 | written exactly when the purpose is truthy; starts with the bold Purpose label and the text, ends with a blank line and the rule |
| SkillRender.ToneSection | skills/skill-builder/scripts/generate-skill.js:16-18 | written exactly when the tone is truthy; starts with its heading, ends with a blank line and the rule |
| SkillRender.PlaceholdersSection | skills/skill-builder/scripts/generate-skill.js:20-28 | written exactly when the list has items; starts with its heading, ends with a blank line and the rule |
| SkillRender.ConditionalPaths | skills/skill-builder/scripts/generate-skill.js:32-38 | written exactly when the list is present (empty included) |
| SkillRender.StepsPart | skills/skill-builder/scripts/generate-skill.js:40-55 | written exactly when the list is present (empty included) |
| SkillRender.WorkflowSection | skills/skill-builder/scripts/generate-skill.js:30-57 | written exactly when a workflow is given; starts with its heading and always ends with the rule |
| SkillRender.ValidationSection | skills/skill-builder/scripts/generate-skill.js:59-69 | written exactly when the list has items; starts with its heading, ends with the rule |
| SkillRender.TemplatesSection | skills/skill-builder/scripts/generate-skill.js:71-78 | written exactly when the list is present (empty included); starts with its heading, ends with a blank line and the rule |
| SkillRender.ExamplesSection | skills/skill-builder/scripts/generate-skill.js:80-89 | written exactly when the list has items; starts with its heading |
| Text.NatToString | skills/skill-builder/scripts/generate-skill.js:43 | a step number is written as a non-empty run of digits, with no leading zero |
| Text.ParseNatToString | skills/skill-builder/scripts/generate-skill.js:43 | reading a written step number gives the number back |
| Text.NatToStringInjective | skills/skill-builder/scripts/generate-skill.js:43 | distinct steps get distinct numbers in their headings |
| Text.ParseCodeListRoundTrip | skills/skill-builder/scripts/generate-skill.js:46 | the `promptsFor` list written as back-quoted items joined by ", " reads back as exactly those items in order, when no item holds a backquote |
| Text.ParseCodeSpansRoundTrip | skills/skill-builder/scripts/generate-skill.js:46 | a non-empty `promptsFor` list, written as back-quoted items joined by ", ", reads back as exactly those items in order, when no item holds a backquote |
| SkillLayout.RenderBeginsWithHeader | skills/skill-builder/scripts/generate-skill.js:96-111 | read as lines, the document opens with the eight header lines, one line per tag (the name when there are none), the closing rule, and the title heading between blank lines |
| SkillLayout.HeaderDefaults | skills/skill-builder/scripts/generate-skill.js:99-110 | version defaults to 1.0.0, author to empty, category to general; with no tags or an empty tag list the one tag line is the name, otherwise one line per tag in order |
| SkillLayout.RenderIsPreambleThenSections | skills/skill-builder/scripts/generate-skill.js:9-10 | the document is the header and title lines followed by the sections |
| SkillLayout.PlaceholderTableLayout | skills/skill-builder/scripts/generate-skill.js:21-27 | the table is its heading, the column headers and separator, one row per placeholder in input order, then the rule |
| SkillLayout.RequiredColumn | skills/skill-builder/scripts/generate-skill.js:25 | a row's last column reads Yes exactly when the placeholder is required |
| SkillLayout.ConditionalPathsLayout | skills/skill-builder/scripts/generate-skill.js:33-37 | the sub-heading, one line per conditional in order, then a blank line |
| SkillLayout.StepBlockLayout | skills/skill-builder/scripts/generate-skill.js:43-53 | a step block is its numbered heading and description, then the Prompts for, Offer suggestion and Validation lines, each only under its own guard and in that order |
| SkillLayout.StepsNumberedByPosition | skills/skill-builder/scripts/generate-skill.js:42-43 | the step blocks are numbered 1..N in input order |
| SkillLayout.RuleBlockLayout | skills/skill-builder/scripts/generate-skill.js:62-66 | a rule block has the Type line always, the Pattern line exactly when the pattern is truthy and the Error line exactly when the message is truthy |
| SkillLayout.TemplatesLayout | skills/skill-builder/scripts/generate-skill.js:72-77 | the heading, the lead-in line, one code line per template in order, then the rule |
| SkillLayout.ExampleBlockLayout | skills/skill-builder/scripts/generate-skill.js:83-87 | an example block is its title and description, plus the fenced code exactly when code is truthy |
| SkillLayout.SectionsCloseWithRule | skills/skill-builder/scripts/generate-skill.js:13-77 | every section but Examples, when written, ends with the rule and a blank line |
| SkillLayout.EndsWithRuleWithoutExamples | skills/skill-builder/scripts/generate-skill.js:12-89 | without examples, a document with any section ends with the rule |
| SkillLayout.OmittedPurposeMatchesEmpty | skills/skill-builder/scripts/generate-skill.js:12-14 | an omitted purpose renders like an empty one |
| SkillLayout.OmittedToneMatchesEmpty | skills/skill-builder/scripts/generate-skill.js:16-18 | an omitted tone renders like an empty one |
| SkillLayout.OmittedListMatchesEmpty | skills/skill-builder/scripts/generate-skill.js:20-89 | omitted placeholder, validation and example lists render like empty ones |
| SkillLayout.OmittedHeaderFieldMatchesEmpty | skills/skill-builder/scripts/generate-skill.js:99-104 | omitted version, author, category and tags render like empty ones |
| SkillLayout.OmittedBlockFieldMatchesEmpty | skills/skill-builder/scripts/generate-skill.js:51-86 | an omitted step validation, rule pattern, rule message or example code renders like an empty one |
| SkillLayout.EmptyTemplatesStillRendered | skills/skill-builder/scripts/generate-skill.js:71-73 | an empty template list renders differently from an omitted one |
| SkillLayout.EmptyConditionalsStillRendered | skills/skill-builder/scripts/generate-skill.js:32-33 | an empty conditionals list renders differently from an omitted one |
| SkillLayout.EmptyStepsStillRendered | skills/skill-builder/scripts/generate-skill.js:40-41 | an empty steps list renders differently from an omitted one |
| SkillLayout.EmptyPromptsStillRendered | skills/skill-builder/scripts/generate-skill.js:45-47 | an empty `promptsFor` list still writes the Prompts for line, so the step block and the document differ from those of an omitted one |
| SkillLayout.EmptyWorkflowStillRendered | skills/skill-builder/scripts/generate-skill.js:30-31 | an empty workflow object still writes the workflow heading and rule, so it renders differently from an omitted workflow |
| SkillLayout.MetadataOnly | skills/skill-builder/scripts/generate-skill.js:6-89 | a definition with only metadata renders to the header and the title and nothing else |

## Left out

- Writing the file and logging (lines 91-92): I/O. `Generator.GenerateSkill` returns the document instead of writing it to `outputPath`.
- The command-line entry (lines 115-127): argument handling, reading and `JSON.parse` of the definition file, and the process exit are I/O.
- Lines 3-4 (the garbled `require` of `fs` and `path`): they only load the I/O modules.
- Field values that are not strings, lists or booleans are not modelled:
  - JSON numbers, `null`, objects where text is expected;
  - string coercion of such values;
  - a `promptsFor` that is not an array.
  The model types every field.
- Missing text fields: the source would print `undefined` in their place. The model types these as plain strings that are always given:
  - `metadata.name` and `metadata.description`;
  - a placeholder's name, description and type;
  - a step's title and description;
  - a conditional's condition and action;
  - a rule's field and type;
  - an example's title and description.
- Validity of the output as YAML or Markdown is not claimed. Field values are inserted unescaped, as in the source.
- Generator.GenerateSkill: the source's single function body is split into one method per section. The text appended and its order are unchanged.
- SkillLayout line layouts state each section as the list of its lines joined by newlines. Reading the lines back with `split('\n')` (`Text.SplitJoinLinesAll`) holds only when the fields hold no line break. This is proved for the header (`SkillLayout.RenderBeginsWithHeader`), not restated per section.
