/**
 * What the rendered document looks like line by line, and how absent and
 * empty fields show in it. Lines are read as JavaScript's `split('\n')`
 * reads them (Text.SplitLines), under the assumption that the fields
 * written into a line hold no line break themselves.
 */
module SkillLayout {
  import opened Optional
  import opened Text
  import opened SkillDefinition
  import opened SkillRender

  // ---------------------------------------------------------------------
  // Header and title

  /** The tags the header lists: the given ones, or the skill's name when there are none. */
  function HeaderTags(m: Metadata): seq<string> {
    if HasItems(m.tags) then m.tags.value else [m.name]
  }

  /** No header field holds a line break. */
  predicate HeaderSingleLine(m: Metadata) {
    && SingleLine(m.name)
    && SingleLine(m.description)
    && (m.version.Some? ==> SingleLine(m.version.value))
    && (m.author.Some? ==> SingleLine(m.author.value))
    && (m.category.Some? ==> SingleLine(m.category.value))
    && (m.tags.Some? ==> AllSingleLine(m.tags.value))
  }

  function HeaderFieldLines(m: Metadata): seq<string> {
    ["---",
     "name: " + m.name,
     "description: " + m.description,
     "version: " + OrDefault(m.version, "1.0.0"),
     "author: " + OrDefault(m.author, ""),
     "type: skill",
     "category: " + OrDefault(m.category, "general"),
     "tags:"]
  }

  function TagLineTexts(m: Metadata): seq<string> {
    var tags := HeaderTags(m);
    seq(|tags|, i requires 0 <= i < |tags| => "  - " + tags[i])
  }

  function TitleLines(name: string): seq<string> {
    ["---", "", "", "# " + name, ""]
  }

  function PreambleLines(m: Metadata): seq<string> {
    HeaderFieldLines(m) + TagLineTexts(m) + TitleLines(m.name)
  }

  lemma HeaderFieldsText(m: Metadata)
    ensures JoinLines(HeaderFieldLines(m)) ==
      "---\n"
        + ("name: " + m.name + "\n")
        + ("description: " + m.description + "\n")
        + ("version: " + OrDefault(m.version, "1.0.0") + "\n")
        + ("author: " + OrDefault(m.author, "") + "\n")
        + "type: skill\n"
        + ("category: " + OrDefault(m.category, "general") + "\n")
        + "tags:\n"
  {
    var a1, a2, a3 := "name: " + m.name, "description: " + m.description, "version: " + OrDefault(m.version, "1.0.0");
    var a4, a6 := "author: " + OrDefault(m.author, ""), "category: " + OrDefault(m.category, "general");
    var l0 := ["---"];
    JoinLinesOne("---");
    var l1 := l0 + [a1];
    JoinLinesSnoc(l0, a1);
    var l2 := l1 + [a2];
    JoinLinesSnoc(l1, a2);
    var l3 := l2 + [a3];
    JoinLinesSnoc(l2, a3);
    var l4 := l3 + [a4];
    JoinLinesSnoc(l3, a4);
    var l5 := l4 + ["type: skill"];
    JoinLinesSnoc(l4, "type: skill");
    LiteralLines();
    var l6 := l5 + [a6];
    JoinLinesSnoc(l5, a6);
    var l7 := l6 + ["tags:"];
    JoinLinesSnoc(l6, "tags:");
    assert l7 == ["---", a1, a2, a3, a4, "type: skill", a6, "tags:"];
  }

  lemma LiteralLines()
    ensures "---" + "\n" == "---\n"
    ensures "type: skill" + "\n" == "type: skill\n"
    ensures "tags:" + "\n" == "tags:\n"
  {
  }

  lemma TagLinesText(m: Metadata)
    ensures TagLines(m) == JoinLines(TagLineTexts(m))
  {
    if HasItems(m.tags) {
      var tags := m.tags.value;
      var g := (t: string) => "  - " + t;
      ConcatMapLines(tags, TagLine, g);
      assert TagLines(m) == ConcatMap(tags, TagLine);
      assert TagLineTexts(m) == MapLines(tags, g);
    } else {
      JoinLinesOne("  - " + m.name);
      assert TagLineTexts(m) == ["  - " + m.name];
    }
  }

  lemma TitleText(name: string)
    ensures JoinLines(TitleLines(name)) == "---\n\n" + Title(name)
  {
    var l1 := ["---", ""];
    JoinLinesBlank("---");
    var l2 := l1 + [""];
    JoinLinesSnoc(l1, "");
    var l3 := l2 + ["# " + name];
    JoinLinesSnoc(l2, "# " + name);
    var l4 := l3 + [""];
    JoinLinesSnoc(l3, "");
    assert l4 == TitleLines(name);
    assert "\n" + ("# " + name + "\n") + "\n" == "\n# " + name + "\n\n";
  }

  lemma PreambleText(m: Metadata)
    ensures Frontmatter(m) + Title(m.name) == JoinLines(PreambleLines(m))
  {
    var fields, tags, title := HeaderFieldLines(m), TagLineTexts(m), TitleLines(m.name);
    HeaderFieldsText(m);
    TagLinesText(m);
    TitleText(m.name);
    JoinLinesAppend(fields, tags);
    JoinLinesAppend(fields + tags, title);
    AppendAssoc(JoinLines(fields) + JoinLines(tags), "---\n\n", Title(m.name));
  }

  /** The sections after the title, in the order the document gives them. */
  function Sections(d: Definition): string {
    PurposeSection(d.purpose)
      + ToneSection(d.tone)
      + PlaceholdersSection(d.placeholders)
      + WorkflowSection(d.workflow)
      + ValidationSection(d.validation)
      + TemplatesSection(d.templates)
      + ExamplesSection(d.examples)
  }

  lemma RenderIsPreambleThenSections(d: Definition)
    ensures Render(d) == JoinLines(PreambleLines(d.metadata)) + Sections(d)
  {
    var m := d.metadata;
    var pre := Frontmatter(m) + Title(m.name);
    PreambleText(m);
    var r1 := PurposeSection(d.purpose);
    var r2 := r1 + ToneSection(d.tone);
    AppendAssoc(pre, r1, ToneSection(d.tone));
    var r3 := r2 + PlaceholdersSection(d.placeholders);
    AppendAssoc(pre, r2, PlaceholdersSection(d.placeholders));
    var r4 := r3 + WorkflowSection(d.workflow);
    AppendAssoc(pre, r3, WorkflowSection(d.workflow));
    var r5 := r4 + ValidationSection(d.validation);
    AppendAssoc(pre, r4, ValidationSection(d.validation));
    var r6 := r5 + TemplatesSection(d.templates);
    AppendAssoc(pre, r5, TemplatesSection(d.templates));
    AppendAssoc(pre, r6, ExamplesSection(d.examples));
  }

  lemma PreambleSingleLine(m: Metadata)
    requires HeaderSingleLine(m)
    ensures AllSingleLine(PreambleLines(m))
  {
    var fields, tagLines, title := HeaderFieldLines(m), TagLineTexts(m), TitleLines(m.name);
    assert AllSingleLine(fields);
    assert AllSingleLine(tagLines);
    assert AllSingleLine(title);
  }

  lemma SplitRender(d: Definition)
    requires HeaderSingleLine(d.metadata)
    ensures SplitLines(Render(d)) == PreambleLines(d.metadata) + SplitLines(Sections(d))
  {
    RenderIsPreambleThenSections(d);
    PreambleSingleLine(d.metadata);
    SplitJoinLines(PreambleLines(d.metadata), Sections(d));
  }

  /**
   * The document opens with the header lines (HeaderFieldLines: the rule,
   * name, description, version defaulting to 1.0.0, author defaulting to
   * empty, the fixed type, category defaulting to general, "tags:"), then
   * one line per tag (the skill's name when there are no tags), then the
   * closing rule and the title heading between blank lines.
   */
  lemma RenderBeginsWithHeader(d: Definition)
    requires HeaderSingleLine(d.metadata)
    ensures
      var m, lines := d.metadata, SplitLines(Render(d));
      var k := |HeaderTags(m)|;
      && |lines| > 13 + k
      && lines[..8] == HeaderFieldLines(m)
      && lines[8..8 + k] == TagLineTexts(m)
      && lines[8 + k..13 + k] == TitleLines(m.name)
  {
    SplitRender(d);
    PreambleSlices(d.metadata, SplitLines(Render(d)), SplitLines(Sections(d)));
  }

  /** The defaults the header falls back on, and the tag lines. */
  lemma HeaderDefaults(m: Metadata)
    ensures HeaderFieldLines(m)[3] == "version: " + (if Truthy(m.version) then m.version.value else "1.0.0")
    ensures HeaderFieldLines(m)[4] == "author: " + (if Truthy(m.author) then m.author.value else "")
    ensures HeaderFieldLines(m)[6] == "category: " + (if Truthy(m.category) then m.category.value else "general")
    ensures !HasItems(m.tags) ==> TagLineTexts(m) == ["  - " + m.name]
    ensures HasItems(m.tags) ==> |TagLineTexts(m)| == |m.tags.value|
    ensures HasItems(m.tags) ==> forall i :: 0 <= i < |m.tags.value| ==> TagLineTexts(m)[i] == "  - " + m.tags.value[i]
  {
  }

  lemma PreambleSlices(m: Metadata, lines: seq<string>, rest: seq<string>)
    requires lines == PreambleLines(m) + rest
    ensures
      var k := |TagLineTexts(m)|;
      && |lines| >= 13 + k
      && lines[..8] == HeaderFieldLines(m)
      && lines[8..8 + k] == TagLineTexts(m)
      && lines[8 + k..13 + k] == TitleLines(m.name)
  {
    var fields, tagLines, title := HeaderFieldLines(m), TagLineTexts(m), TitleLines(m.name);
    var k := |tagLines|;
    var pl := fields + tagLines + title;
    assert pl[..8] == fields && pl[8..8 + k] == tagLines && pl[8 + k..] == title;
    assert lines[..13 + k] == pl;
    assert lines[..8] == fields by {
      assert lines[..8] == lines[..13 + k][..8];
    }
    assert lines[8..8 + k] == tagLines by {
      assert lines[8..8 + k] == lines[..13 + k][8..8 + k];
    }
    assert lines[8 + k..13 + k] == title by {
      assert lines[8 + k..13 + k] == lines[..13 + k][8 + k..];
    }
  }

  // ---------------------------------------------------------------------
  // Sections as lines: each lemma below states that a section's text is
  // exactly the given lines, each ended by a newline (JoinLines), so that
  // when the fields in them hold no line break, reading the section back
  // gives those lines (Text.SplitJoinLinesAll).

  /** Three runs of lines, joined, are the three joined texts one after the other. */
  lemma JoinLines3(a: seq<string>, b: seq<string>, c: seq<string>)
    ensures JoinLines(a + b + c) == JoinLines(a) + JoinLines(b) + JoinLines(c)
  {
    JoinLinesAppend(a, b);
    JoinLinesAppend(a + b, c);
  }

  lemma RuleTailText()
    ensures JoinLines(["", "---", ""]) == "\n---\n\n"
  {
    var t1 := [""];
    JoinLinesOne("");
    var t2 := t1 + ["---"];
    JoinLinesSnoc(t1, "---");
    JoinLinesSnoc(t2, "");
    assert t2 + [""] == ["", "---", ""];
  }

  // ---------------------------------------------------------------------
  // Placeholder table

  /** The table row of one placeholder: name as code, description, type, and Yes or No. */
  function TableRow(p: Placeholder): string {
    "| `" + p.name + "` | " + p.description + " | " + p.kind + " | " + (if p.required then "Yes" else "No") + " |"
  }

  /** The last column of a row reads Yes exactly when the placeholder is required. */
  lemma RequiredColumn(p: Placeholder)
    ensures EndsWith(TableRow(p), "Yes |") <==> p.required
  {
    var prefix := "| `" + p.name + "` | " + p.description + " | " + p.kind + " | ";
    var mark := if p.required then "Yes" else "No";
    AppendAssoc(prefix, mark, " |");
    AppendStartsEnds(prefix, mark + " |");
    EndsWithAppend(prefix, mark + " |", mark + " |");
    if p.required {
      assert mark + " |" == "Yes |";
    } else {
      var row := TableRow(p);
      assert row[|row| - 4] == 'N';
    }
  }

  /** The heading, a blank line, the column headers and the separator row. */
  function PlaceholderHead(): seq<string> {
    ["## Placeholders", "", "| Placeholder | Description | Type | Required |", "|-------------|-------------|------|----------|"]
  }

  lemma PlaceholderRowLiterals()
    ensures PlaceholderHead()[2] + "\n" == PlaceholderHeaderRow
    ensures PlaceholderHead()[3] + "\n" == PlaceholderSeparatorRow
  {
  }

  lemma PlaceholderHeadText()
    ensures JoinLines(PlaceholderHead()) == "## Placeholders\n\n" + PlaceholderHeaderRow + PlaceholderSeparatorRow
  {
    PlaceholderRowLiterals();
    var h1 := ["## Placeholders", ""];
    JoinLinesBlank("## Placeholders");
    var h2 := h1 + ["| Placeholder | Description | Type | Required |"];
    JoinLinesSnoc(h1, "| Placeholder | Description | Type | Required |");
    JoinLinesSnoc(h2, "|-------------|-------------|------|----------|");
    assert h2 + ["|-------------|-------------|------|----------|"] == PlaceholderHead();
  }

  /**
   * The Placeholders section, line by line: the heading and a blank line,
   * the column headers and separator, one row per placeholder in the given
   * order, then a blank line, the closing rule and a blank line.
   */
  lemma PlaceholderTableLayout(ps: seq<Placeholder>)
    requires |ps| > 0
    ensures PlaceholdersSection(Some(ps)) == JoinLines(PlaceholderHead() + MapLines(ps, TableRow) + ["", "---", ""])
  {
    var head, rows, tail := PlaceholderHead(), MapLines(ps, TableRow), ["", "---", ""];
    JoinLines3(head, rows, tail);
    PlaceholderHeadText();
    ConcatMapLines(ps, PlaceholderRow, TableRow);
    RuleTailText();
    PlaceholdersSectionText(ps);
  }

  lemma PlaceholdersSectionText(ps: seq<Placeholder>)
    requires |ps| > 0
    ensures PlaceholdersSection(Some(ps))
      == "## Placeholders\n\n" + PlaceholderHeaderRow + PlaceholderSeparatorRow + ConcatMap(ps, PlaceholderRow) + "\n---\n\n"
  {
  }

  // ---------------------------------------------------------------------
  // Workflow

  /** The line of one conditional path: the condition in bold, then its action. */
  function ConditionalText(c: Conditional): string {
    "- **" + c.condition + "**: " + c.action
  }

  /**
   * Conditional Paths, whenever the list is present (also when it is
   * empty): the sub-heading and a blank line, one line per conditional in
   * order, then a blank line.
   */
  lemma ConditionalPathsLayout(cs: seq<Conditional>)
    ensures ConditionalPaths(Some(cs)) == JoinLines(["### Conditional Paths", ""] + MapLines(cs, ConditionalText) + [""])
  {
    JoinLinesBlank("### Conditional Paths");
    ConcatMapLines(cs, ConditionalLine, ConditionalText);
    JoinLinesOne("");
    JoinLines3(["### Conditional Paths", ""], MapLines(cs, ConditionalText), [""]);
  }

  /** Two lines when the flag holds, none otherwise. */
  function LinesIf(b: bool, line: string): seq<string> {
    if b then [line, ""] else []
  }

  /**
   * The block of the step numbered n: its heading with the number and the
   * title, its description, then, each only when present and each
   * followed by a blank line and in this order, the fields it prompts for,
   * the offer of a draft, and its validation.
   */
  lemma StepBlockLayout(n: nat, step: Step)
    ensures StepBlock(n, step) == JoinLines(
      ["#### Step " + NatToString(n) + ": " + step.title, "", step.description, ""]
        + LinesIf(step.promptsFor.Some?, "**Prompts for**: " + CodeList(if step.promptsFor.Some? then step.promptsFor.value else []))
        + LinesIf(step.offerSuggestion, "**Offer suggestion**: Yes - suggest draft for user review")
        + LinesIf(Truthy(step.validation), "**Validation**: " + OrDefault(step.validation, "")))
  {
    var heading := ["#### Step " + NatToString(n) + ": " + step.title, ""];
    var description := [step.description, ""];
    var prompts := LinesIf(step.promptsFor.Some?, "**Prompts for**: " + CodeList(if step.promptsFor.Some? then step.promptsFor.value else []));
    var offer := LinesIf(step.offerSuggestion, "**Offer suggestion**: Yes - suggest draft for user review");
    var validation := LinesIf(Truthy(step.validation), "**Validation**: " + OrDefault(step.validation, ""));
    JoinLinesBlank("#### Step " + NatToString(n) + ": " + step.title);
    JoinLinesBlank(step.description);
    JoinLinesAppend(heading, description);
    if step.promptsFor.Some? {
      JoinLinesBlank("**Prompts for**: " + CodeList(step.promptsFor.value));
    }
    if step.offerSuggestion {
      OfferLineText();
    }
    if Truthy(step.validation) {
      JoinLinesBlank("**Validation**: " + step.validation.value);
    }
    JoinLines3(heading + description, prompts, offer);
    JoinLinesAppend(heading + description + prompts + offer, validation);
    assert heading + description == ["#### Step " + NatToString(n) + ": " + step.title, "", step.description, ""];
  }

  lemma OfferLineText()
    ensures JoinLines(["**Offer suggestion**: Yes - suggest draft for user review", ""]) == OfferSuggestionLine
  {
    JoinLinesBlank("**Offer suggestion**: Yes - suggest draft for user review");
  }

  /** The blocks of the steps are numbered 1, 2, ..., N in the order the steps are given. */
  lemma {:induction false} StepsNumberedByPosition(steps: seq<Step>)
    ensures StepBlocks(steps) == Concat(seq(|steps|, i requires 0 <= i < |steps| => StepBlock(i + 1, steps[i])))
    decreases |steps|
  {
    var blocks := seq(|steps|, i requires 0 <= i < |steps| => StepBlock(i + 1, steps[i]));
    if steps != [] {
      var init := steps[..|steps| - 1];
      StepsNumberedByPosition(init);
      assert blocks[..|blocks| - 1] == seq(|init|, i requires 0 <= i < |init| => StepBlock(i + 1, init[i]));
    }
  }

  // ---------------------------------------------------------------------
  // Validation rules

  /** One line when the flag holds, none otherwise. */
  function LineIf(b: bool, line: string): seq<string> {
    if b then [line] else []
  }

  lemma PatternLineText(rule: ValidationRule)
    ensures PatternLine(rule) == JoinLines(LineIf(Truthy(rule.pattern), "- **Pattern**: `" + OrDefault(rule.pattern, "") + "`"))
  {
    if Truthy(rule.pattern) {
      var x := "- **Pattern**: `" + rule.pattern.value;
      JoinLinesOne(x + "`");
      AppendAssoc(x, "`", "\n");
      assert "`" + "\n" == "`\n";
    }
  }

  lemma ErrorLineText(rule: ValidationRule)
    ensures ErrorLine(rule) == JoinLines(LineIf(Truthy(rule.message), "- **Error**: " + OrDefault(rule.message, "")))
  {
    if Truthy(rule.message) {
      JoinLinesOne("- **Error**: " + rule.message.value);
    }
  }

  lemma RuleHeadText(rule: ValidationRule)
    ensures ("### " + rule.field + "\n\n") + ("- **Type**: " + rule.kind + "\n")
      == JoinLines(["### " + rule.field, "", "- **Type**: " + rule.kind])
  {
    JoinLinesBlank("### " + rule.field);
    JoinLinesSnoc(["### " + rule.field, ""], "- **Type**: " + rule.kind);
    assert ["### " + rule.field, ""] + ["- **Type**: " + rule.kind] == ["### " + rule.field, "", "- **Type**: " + rule.kind];
  }

  /**
   * The block of one validation rule: the field as a heading and a blank
   * line, the Type line always, the Pattern line exactly when a pattern is
   * given, the Error line exactly when a message is given, then a blank
   * line.
   */
  lemma RuleBlockLayout(rule: ValidationRule)
    ensures RuleBlock(rule) == JoinLines(
      ["### " + rule.field, "", "- **Type**: " + rule.kind]
        + LineIf(Truthy(rule.pattern), "- **Pattern**: `" + OrDefault(rule.pattern, "") + "`")
        + LineIf(Truthy(rule.message), "- **Error**: " + OrDefault(rule.message, ""))
        + [""])
  {
    var head := ["### " + rule.field, "", "- **Type**: " + rule.kind];
    var pattern := LineIf(Truthy(rule.pattern), "- **Pattern**: `" + OrDefault(rule.pattern, "") + "`");
    var error := LineIf(Truthy(rule.message), "- **Error**: " + OrDefault(rule.message, ""));
    RuleHeadText(rule);
    PatternLineText(rule);
    ErrorLineText(rule);
    JoinLinesOne("");
    JoinLines3(head, pattern, error);
    JoinLinesAppend(head + pattern + error, [""]);
  }

  // ---------------------------------------------------------------------
  // Templates

  /** The line of one template: its path as code. */
  function TemplateText(template: string): string {
    "- `" + template + "`"
  }

  /**
   * Templates, whenever the list is present (also when it is empty): the
   * heading, the lead-in sentence, one line per template in order, then
   * the closing rule between blank lines.
   */
  lemma TemplatesLayout(ts: seq<string>)
    ensures TemplatesSection(Some(ts)) == JoinLines(
      ["## Templates", "", "Reference these template files:", ""] + MapLines(ts, TemplateText) + ["", "---", ""])
  {
    var head := ["## Templates", "", "Reference these template files:", ""];
    var lines := MapLines(ts, TemplateText);
    TemplatesHeadText();
    ConcatMapLines(ts, TemplateLine, TemplateText);
    RuleTailText();
    JoinLines3(head, lines, ["", "---", ""]);
    TemplatesSectionText(ts);
  }

  lemma TemplatesHeadText()
    ensures JoinLines(["## Templates", "", "Reference these template files:", ""])
      == "## Templates\n\n" + "Reference these template files:\n\n"
  {
    JoinLinesBlank("## Templates");
    JoinLinesBlank("Reference these template files:");
    JoinLinesAppend(["## Templates", ""], ["Reference these template files:", ""]);
    assert ["## Templates", ""] + ["Reference these template files:", ""]
      == ["## Templates", "", "Reference these template files:", ""];
  }

  lemma TemplatesSectionText(ts: seq<string>)
    ensures TemplatesSection(Some(ts))
      == "## Templates\n\n" + "Reference these template files:\n\n" + ConcatMap(ts, TemplateLine) + "\n---\n\n"
  {
    AppendAssoc("## Templates\n\n", "Reference these template files:\n\n", ConcatMap(ts, TemplateLine));
  }

  // ---------------------------------------------------------------------
  // Examples

  /**
   * The block of one example: its title as a heading, its description,
   * and its code between fences exactly when code is given, each part
   * followed by a blank line.
   */
  lemma ExampleBlockLayout(example: Example)
    ensures ExampleBlock(example) == JoinLines(
      ["### " + example.title, "", example.description, ""]
        + (if Truthy(example.code) then ["```", example.code.value, "```", ""] else []))
  {
    var head := ["### " + example.title, ""];
    var description := [example.description, ""];
    JoinLinesBlank("### " + example.title);
    JoinLinesBlank(example.description);
    JoinLinesAppend(head, description);
    assert head + description == ["### " + example.title, "", example.description, ""];
    if Truthy(example.code) {
      var code := ["```", example.code.value, "```", ""];
      JoinLinesOne("```");
      JoinLinesSnoc(["```"], example.code.value);
      JoinLinesBlank("```");
      JoinLinesAppend(["```", example.code.value], ["```", ""]);
      assert ["```"] + [example.code.value] == ["```", example.code.value];
      assert ["```", example.code.value] + ["```", ""] == code;
      JoinLinesAppend(head + description, code);
    } else {
      assert head + description + [] == head + description;
    }
  }

  // ---------------------------------------------------------------------
  // The document as a whole

  /** Appending a text that is empty, or that itself ends with the suffix, keeps the suffix at the end. */
  lemma EndsAfter(p: string, s: string, suffix: string)
    requires (s == "" && EndsWith(p, suffix)) || (s != "" && EndsWith(s, suffix))
    ensures EndsWith(p + s, suffix)
  {
    if s == "" {
      assert p + s == p;
    } else {
      EndsWithAppend(p, s, suffix);
    }
  }

  /**
   * Every section but Examples closes with a rule, so a document without
   * examples that has any section at all ends with the rule and a blank
   * line.
   */
  lemma EndsWithRuleWithoutExamples(d: Definition)
    requires !HasItems(d.examples)
    requires Truthy(d.purpose) || Truthy(d.tone) || HasItems(d.placeholders)
      || d.workflow.Some? || HasItems(d.validation) || d.templates.Some?
    ensures EndsWith(Render(d), SectionBreak)
  {
    var s1, s2, s3 := PurposeSection(d.purpose), ToneSection(d.tone), PlaceholdersSection(d.placeholders);
    var s4, s5, s6 := WorkflowSection(d.workflow), ValidationSection(d.validation), TemplatesSection(d.templates);
    var p := Frontmatter(d.metadata) + Title(d.metadata.name);
    SectionsCloseWithRule(d);
    assert s1 != "" || s2 != "" || s3 != "" || s4 != "" || s5 != "" || s6 != "";
    SectionsEndWith(p, s1, s2, s3, s4, s5, s6, SectionBreak);
    RenderWithoutExamples(d);
  }

  lemma RenderWithoutExamples(d: Definition)
    requires !HasItems(d.examples)
    ensures Render(d) == Frontmatter(d.metadata) + Title(d.metadata.name)
      + PurposeSection(d.purpose) + ToneSection(d.tone) + PlaceholdersSection(d.placeholders)
      + WorkflowSection(d.workflow) + ValidationSection(d.validation) + TemplatesSection(d.templates)
  {
    var body := Frontmatter(d.metadata) + Title(d.metadata.name)
      + PurposeSection(d.purpose) + ToneSection(d.tone) + PlaceholdersSection(d.placeholders)
      + WorkflowSection(d.workflow) + ValidationSection(d.validation) + TemplatesSection(d.templates);
    AppendEmpty(body);
  }

  /** Each section but Examples, when it is emitted, ends with the rule and a blank line. */
  lemma SectionsCloseWithRule(d: Definition)
    ensures PurposeSection(d.purpose) != "" ==> EndsWith(PurposeSection(d.purpose), SectionBreak)
    ensures ToneSection(d.tone) != "" ==> EndsWith(ToneSection(d.tone), SectionBreak)
    ensures PlaceholdersSection(d.placeholders) != "" ==> EndsWith(PlaceholdersSection(d.placeholders), SectionBreak)
    ensures WorkflowSection(d.workflow) != "" ==> EndsWith(WorkflowSection(d.workflow), SectionBreak)
    ensures ValidationSection(d.validation) != "" ==> EndsWith(ValidationSection(d.validation), SectionBreak)
    ensures TemplatesSection(d.templates) != "" ==> EndsWith(TemplatesSection(d.templates), SectionBreak)
  {
    if PurposeSection(d.purpose) != "" {
      EndsWithShorter(PurposeSection(d.purpose), "\n\n", SectionBreak);
    }
    if ToneSection(d.tone) != "" {
      EndsWithShorter(ToneSection(d.tone), "\n\n", SectionBreak);
    }
    if PlaceholdersSection(d.placeholders) != "" {
      EndsWithShorter(PlaceholdersSection(d.placeholders), "\n", SectionBreak);
    }
    if TemplatesSection(d.templates) != "" {
      EndsWithShorter(TemplatesSection(d.templates), "\n", SectionBreak);
    }
  }

  lemma SectionsEndWith(p: string, s1: string, s2: string, s3: string, s4: string, s5: string, s6: string, suffix: string)
    requires s1 != "" || s2 != "" || s3 != "" || s4 != "" || s5 != "" || s6 != ""
    requires s1 != "" ==> EndsWith(s1, suffix)
    requires s2 != "" ==> EndsWith(s2, suffix)
    requires s3 != "" ==> EndsWith(s3, suffix)
    requires s4 != "" ==> EndsWith(s4, suffix)
    requires s5 != "" ==> EndsWith(s5, suffix)
    requires s6 != "" ==> EndsWith(s6, suffix)
    ensures EndsWith(p + s1 + s2 + s3 + s4 + s5 + s6, suffix)
  {
    if s1 != "" || s2 != "" || s3 != "" || s4 != "" || s5 != "" {
      if s1 != "" || s2 != "" || s3 != "" || s4 != "" {
        if s1 != "" || s2 != "" || s3 != "" {
          if s1 != "" || s2 != "" {
            if s1 != "" {
              EndsAfter(p, s1, suffix);
            }
            EndsAfter(p + s1, s2, suffix);
          }
          EndsAfter(p + s1 + s2, s3, suffix);
        }
        EndsAfter(p + s1 + s2 + s3, s4, suffix);
      }
      EndsAfter(p + s1 + s2 + s3 + s4, s5, suffix);
    }
    EndsAfter(p + s1 + s2 + s3 + s4 + s5, s6, suffix);
  }

  /** Leaving out the purpose renders like giving it empty. */
  lemma OmittedPurposeMatchesEmpty(d: Definition)
    ensures Render(d.(purpose := None)) == Render(d.(purpose := Some("")))
  {
  }

  /** Leaving out the tone renders like giving it empty. */
  lemma OmittedToneMatchesEmpty(d: Definition)
    ensures Render(d.(tone := None)) == Render(d.(tone := Some("")))
  {
  }

  /** Leaving out the placeholder, validation or example list renders like giving it empty. */
  lemma OmittedListMatchesEmpty(d: Definition)
    ensures Render(d.(placeholders := None)) == Render(d.(placeholders := Some([])))
    ensures Render(d.(validation := None)) == Render(d.(validation := Some([])))
    ensures Render(d.(examples := None)) == Render(d.(examples := Some([])))
  {
  }

  /** Leaving out a header field renders like giving it empty. */
  lemma OmittedHeaderFieldMatchesEmpty(m: Metadata)
    ensures Frontmatter(m.(version := None)) == Frontmatter(m.(version := Some("")))
    ensures Frontmatter(m.(author := None)) == Frontmatter(m.(author := Some("")))
    ensures Frontmatter(m.(category := None)) == Frontmatter(m.(category := Some("")))
    ensures Frontmatter(m.(tags := None)) == Frontmatter(m.(tags := Some([])))
  {
  }

  /** Inside a step, a rule or an example, leaving out an optional text renders like giving it empty. */
  lemma OmittedBlockFieldMatchesEmpty(n: nat, step: Step, rule: ValidationRule, example: Example)
    ensures StepBlock(n, step.(validation := None)) == StepBlock(n, step.(validation := Some("")))
    ensures RuleBlock(rule.(pattern := None)) == RuleBlock(rule.(pattern := Some("")))
    ensures RuleBlock(rule.(message := None)) == RuleBlock(rule.(message := Some("")))
    ensures ExampleBlock(example.(code := None)) == ExampleBlock(example.(code := Some("")))
  {
  }

  /**
   * Templates are guarded by presence only: an empty list still renders
   * the heading and lead-in, so it does not render like an omitted one.
   */
  lemma EmptyTemplatesStillRendered(d: Definition)
    ensures Render(d.(templates := Some([]))) != Render(d.(templates := None))
  {
    assert |Render(d.(templates := Some([])))| == |Render(d.(templates := None))| + |TemplatesSection(Some([]))|;
  }

  /** Conditional paths are guarded by presence only: an empty list still renders its sub-heading. */
  lemma EmptyConditionalsStillRendered(d: Definition, steps: Option<seq<Step>>)
    ensures Render(d.(workflow := Some(Workflow(Some([]), steps)))) != Render(d.(workflow := Some(Workflow(None, steps))))
  {
    var w1, w0 := Some(Workflow(Some([]), steps)), Some(Workflow(None, steps));
    assert |WorkflowSection(w1)| == |WorkflowSection(w0)| + |ConditionalPaths(Some([]))|;
    assert |Render(d.(workflow := w1))| == |Render(d.(workflow := w0))| + |ConditionalPaths(Some([]))|;
  }

  /** Steps are guarded by presence only: an empty list still renders its sub-heading. */
  lemma EmptyStepsStillRendered(d: Definition, conditionals: Option<seq<Conditional>>)
    ensures Render(d.(workflow := Some(Workflow(conditionals, Some([]))))) != Render(d.(workflow := Some(Workflow(conditionals, None))))
  {
    var w1, w0 := Some(Workflow(conditionals, Some([]))), Some(Workflow(conditionals, None));
    assert |WorkflowSection(w1)| == |WorkflowSection(w0)| + |StepsPart(Some([]))|;
    assert |Render(d.(workflow := w1))| == |Render(d.(workflow := w0))| + |StepsPart(Some([]))|;
  }

  /** A step's `promptsFor` is guarded by presence only: an empty list still writes its label line. */
  lemma EmptyPromptsStillRendered(d: Definition, n: nat, step: Step, conditionals: Option<seq<Conditional>>)
    ensures StepBlock(n, step.(promptsFor := Some([]))) != StepBlock(n, step.(promptsFor := None))
    ensures
      var w1 := Some(Workflow(conditionals, Some([step.(promptsFor := Some([]))])));
      var w0 := Some(Workflow(conditionals, Some([step.(promptsFor := None)])));
      Render(d.(workflow := w1)) != Render(d.(workflow := w0))
  {
    var s1, s0 := step.(promptsFor := Some([])), step.(promptsFor := None);
    assert |StepBlock(n, s1)| == |StepBlock(n, s0)| + |PromptsLine(s1)|;
    assert |StepBlocks([s1])| == |StepBlocks([s0])| + |PromptsLine(s1)|;
    var w1, w0 := Some(Workflow(conditionals, Some([s1]))), Some(Workflow(conditionals, Some([s0])));
    assert |WorkflowSection(w1)| == |WorkflowSection(w0)| + |PromptsLine(s1)|;
    assert |Render(d.(workflow := w1))| == |Render(d.(workflow := w0))| + |PromptsLine(s1)|;
  }

  /** The workflow is guarded by presence only: an empty one still writes its heading and the rule. */
  lemma EmptyWorkflowStillRendered(d: Definition)
    ensures Render(d.(workflow := Some(Workflow(None, None)))) != Render(d.(workflow := None))
  {
    assert |Render(d.(workflow := Some(Workflow(None, None))))| == |Render(d.(workflow := None))| + |WorkflowSection(Some(Workflow(None, None)))|;
  }

  /** A definition with only its metadata renders to the header and the title and nothing more. */
  lemma MetadataOnly(m: Metadata)
    ensures Render(Definition(m, None, None, None, None, None, None, None)) == Frontmatter(m) + Title(m.name)
  {
  }
}
