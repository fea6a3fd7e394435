/** The prompt the form-filling endpoint sends to the provider
    (app/api/v1/endpoints/form_filler.py, lines 29-46): a fixed template with
    two holes, one for the field list and one for the source content. */
module FormPrompt {
  import opened Wrappers
  import opened Text

  /** The endpoint's request body. `promptTemplateId` defaults to
      "default_v1" and may be null; the prompt does not depend on it. */
  datatype FillFormRequest = FillFormRequest(
    fields: seq<string>, sourceContent: string, promptTemplateId: Option<string>)

  /** The fixed text of the prompt, in the order it appears: the parts
      before the field list, between it and the source content, and after. */
  datatype Template = Template(
    preamble: string, fieldsOpen: string, fieldsClose: string, contentIntro: string,
    contentOpen: string, contentClose: string, instructions: string)

  /** The one template the endpoint uses. */
  const Default: Template := Template(
    "You are an AI assistant tasked with filling out a form.\nBelow are the fields of the form:\n",
    "--- FIELDS START ---\n",
    "\n--- FIELDS END ---",
    "\n\nHere is the source content from which to extract the information:\n",
    "--- CONTENT START ---\n",
    "\n--- CONTENT END ---",
    "\n\nPlease extract the relevant information from the CONTENT and fill in each FIELD.\n"
    + "Return the output as a JSON object where each key is a field name from the FIELDS list"
    + " and its value is the corresponding extracted content.\n"
    + "If information for a field is not found, use an empty string or \"Not Found\" as its value.\n"
    + "Ensure the output is only the JSON object itself, without any additional explanations or markings.\n")

  /** One entry of the field list. */
  function FieldLine(field: string): string
  {
    "- " + field
  }

  /** The list comprehension `[f"- {field}" for field in fields]`. */
  function FieldLines(fields: seq<string>): seq<string>
  {
    seq(|fields|, k requires 0 <= k < |fields| => FieldLine(fields[k]))
  }

  /** `fields_str`: the entries joined by newlines. */
  function FieldsBlock(fields: seq<string>): string
  {
    JoinLines(FieldLines(fields))
  }

  /** The template with the field list and the source content filled in. */
  function Render(t: Template, fields: seq<string>, content: string): string
  {
    t.preamble + (t.fieldsOpen + (FieldsBlock(fields) + (t.fieldsClose
      + (t.contentIntro + (t.contentOpen + (content + (t.contentClose + t.instructions)))))))
  }

  /** The f-string of lines 31-46. */
  function BuildPrompt(request: FillFormRequest): string
  {
    Render(Default, request.fields, request.sourceContent)
  }

  /** With newline-free field names, `fields_str` has exactly one line per
      field, in input order, each the name behind "- ". */
  lemma OneLinePerField(fields: seq<string>)
    requires |fields| >= 1
    requires forall k :: 0 <= k < |fields| ==> '\n' !in fields[k]
    ensures |SplitLines(FieldsBlock(fields))| == |fields|
    ensures forall k :: 0 <= k < |fields| ==> SplitLines(FieldsBlock(fields))[k] == "- " + fields[k]
  {
    var lines := FieldLines(fields);
    forall k | 0 <= k < |lines|
      ensures '\n' !in lines[k]
    {
      assert lines[k] == "- " + fields[k];
    }
    SplitJoin(lines);
  }

  /** `fields_str` ends with the last field's entry: there is no trailing
      newline unless the last name itself ends with one. */
  lemma NoTrailingNewline(fields: seq<string>)
    requires |fields| >= 1
    ensures var block := FieldsBlock(fields); var last := "- " + fields[|fields| - 1];
      |last| <= |block| && block[|block| - |last|..] == last
    ensures var block := FieldsBlock(fields); var name := fields[|fields| - 1];
      (name == [] || name[|name| - 1] != '\n') ==> block[|block| - 1] != '\n'
  {
    JoinEndsWithLast(FieldLines(fields));
    var block := FieldsBlock(fields);
    var last := "- " + fields[|fields| - 1];
    assert block[|block| - 1] == block[|block| - |last|..][|last| - 1];
  }

  /** An empty field list gives an empty `fields_str`, and only it does. */
  lemma EmptyBlockIffNoFields(fields: seq<string>)
    ensures FieldsBlock(fields) == [] <==> fields == []
  {
    if fields != [] {
      NoTrailingNewline(fields);
    }
  }

  /** The fixed text that follows the source content. */
  function Closing(t: Template): string
  {
    t.contentClose + t.instructions
  }

  /** The rendered template from the content-opening marker on. */
  function FromContentOpen(t: Template, content: string): string
  {
    t.contentOpen + (content + Closing(t))
  }

  /** The rendered template from the field list on. */
  function FromBlock(t: Template, fields: seq<string>, content: string): string
  {
    FieldsBlock(fields) + (t.fieldsClose + (t.contentIntro + FromContentOpen(t, content)))
  }

  /** Offset of the field list in a rendered template. */
  function BlockStart(t: Template): nat
  {
    |t.preamble| + |t.fieldsOpen|
  }

  /** Offset of the content in a rendered template. */
  function ContentStart(t: Template, fields: seq<string>): nat
  {
    BlockStart(t) + |FieldsBlock(fields)| + |t.fieldsClose| + |t.contentIntro| + |t.contentOpen|
  }

  /** The prompt is the preamble, the opening marker, then the rest. */
  lemma RenderShape(t: Template, fields: seq<string>, content: string)
    ensures Render(t, fields, content) == t.preamble + (t.fieldsOpen + FromBlock(t, fields, content))
    ensures |Render(t, fields, content)| == ContentStart(t, fields) + |content| + |Closing(t)|
  {
  }

  /** The FIELDS opening marker follows the preamble. */
  lemma FieldsOpenAt(t: Template, fields: seq<string>, content: string)
    ensures Occurs(t.fieldsOpen, Render(t, fields, content), |t.preamble|)
  {
    var rest := FromBlock(t, fields, content);
    OccursAtStart(t.fieldsOpen, rest);
    OccursShift(t.fieldsOpen, t.preamble, t.fieldsOpen + rest, 0);
  }

  /** Moves an occurrence in `FromBlock` to its place in the whole prompt. */
  lemma FromBlockToRender(p: string, t: Template, fields: seq<string>, content: string, i: int)
    requires Occurs(p, FromBlock(t, fields, content), i)
    ensures Occurs(p, Render(t, fields, content), BlockStart(t) + i)
  {
    var rest := FromBlock(t, fields, content);
    OccursShift(p, t.fieldsOpen, rest, i);
    OccursShift(p, t.preamble, t.fieldsOpen + rest, |t.fieldsOpen| + i);
  }

  /** The field list follows the FIELDS opening marker. */
  lemma BlockAt(t: Template, fields: seq<string>, content: string)
    ensures Occurs(FieldsBlock(fields), Render(t, fields, content), BlockStart(t))
  {
    OccursAtStart(FieldsBlock(fields), t.fieldsClose + (t.contentIntro + FromContentOpen(t, content)));
    FromBlockToRender(FieldsBlock(fields), t, fields, content, 0);
  }

  /** The FIELDS closing marker follows the field list. */
  lemma FieldsCloseAt(t: Template, fields: seq<string>, content: string)
    ensures Occurs(t.fieldsClose, Render(t, fields, content), BlockStart(t) + |FieldsBlock(fields)|)
  {
    var rest := t.contentIntro + FromContentOpen(t, content);
    OccursAtStart(t.fieldsClose, rest);
    OccursShift(t.fieldsClose, FieldsBlock(fields), t.fieldsClose + rest, 0);
    FromBlockToRender(t.fieldsClose, t, fields, content, |FieldsBlock(fields)|);
  }

  /** Moves an occurrence in `FromContentOpen` to its place in the whole prompt. */
  lemma FromContentOpenToRender(p: string, t: Template, fields: seq<string>, content: string, i: int)
    requires Occurs(p, FromContentOpen(t, content), i)
    ensures Occurs(p, Render(t, fields, content), ContentStart(t, fields) - |t.contentOpen| + i)
  {
    var rest := FromContentOpen(t, content);
    OccursShift(p, t.contentIntro, rest, i);
    OccursShift(p, t.fieldsClose, t.contentIntro + rest, |t.contentIntro| + i);
    OccursShift(p, FieldsBlock(fields), t.fieldsClose + (t.contentIntro + rest),
      |t.fieldsClose| + |t.contentIntro| + i);
    FromBlockToRender(p, t, fields, content, |FieldsBlock(fields)| + |t.fieldsClose| + |t.contentIntro| + i);
  }

  /** The CONTENT opening marker sits just before the content. */
  lemma ContentOpenAt(t: Template, fields: seq<string>, content: string)
    ensures Occurs(t.contentOpen, Render(t, fields, content), ContentStart(t, fields) - |t.contentOpen|)
  {
    OccursAtStart(t.contentOpen, content + Closing(t));
    FromContentOpenToRender(t.contentOpen, t, fields, content, 0);
  }

  /** The content sits at its offset. */
  lemma ContentAt(t: Template, fields: seq<string>, content: string)
    ensures Occurs(content, Render(t, fields, content), ContentStart(t, fields))
  {
    OccursAtStart(content, Closing(t));
    OccursShift(content, t.contentOpen, content + Closing(t), 0);
    FromContentOpenToRender(content, t, fields, content, |t.contentOpen|);
  }

  /** The CONTENT closing marker follows the content. */
  lemma ContentCloseAt(t: Template, fields: seq<string>, content: string)
    ensures Occurs(t.contentClose, Render(t, fields, content), ContentStart(t, fields) + |content|)
  {
    OccursAtStart(t.contentClose, t.instructions);
    OccursShift(t.contentClose, content, Closing(t), 0);
    OccursShift(t.contentClose, t.contentOpen, content + Closing(t), |content|);
    FromContentOpenToRender(t.contentClose, t, fields, content, |t.contentOpen| + |content|);
  }

  /** Every field name occurs in the field list, behind its "- ". */
  lemma FieldInBlock(fields: seq<string>, k: nat) returns (at: int)
    requires k < |fields|
    ensures Occurs(fields[k], FieldsBlock(fields), at)
    ensures 0 <= at && at + |fields[k]| <= |FieldsBlock(fields)|
  {
    var line := LineInJoin(FieldLines(fields), k);
    OccursAtStart(fields[k], []);
    OccursShift(fields[k], "- ", fields[k] + [], 0);
    assert "- " + (fields[k] + []) == FieldLine(fields[k]);
    OccursTrans(fields[k], FieldLine(fields[k]), FieldsBlock(fields), 2, line);
    at := line + 2;
  }

  /** Where the field list sits in a rendered template: right after the
      opening marker, right before the closing one, every name inside it. */
  lemma FieldsPlacement(t: Template, fields: seq<string>, content: string, k: nat) returns (at: int)
    requires k < |fields|
    ensures var prompt := Render(t, fields, content);
      var start := BlockStart(t); var block := FieldsBlock(fields);
      && Occurs(t.fieldsOpen, prompt, |t.preamble|)
      && Occurs(block, prompt, start)
      && Occurs(t.fieldsClose, prompt, start + |block|)
      && Occurs(fields[k], prompt, at)
      && start <= at && at + |fields[k]| <= start + |block|
  {
    FieldsOpenAt(t, fields, content);
    BlockAt(t, fields, content);
    FieldsCloseAt(t, fields, content);
    var inner := FieldInBlock(fields, k);
    OccursTrans(fields[k], FieldsBlock(fields), Render(t, fields, content), inner, BlockStart(t));
    at := BlockStart(t) + inner;
  }

  /** Where the content sits in a rendered template: whole, right after the
      opening marker and right before the closing one. */
  lemma ContentPlacement(t: Template, fields: seq<string>, content: string)
    ensures var prompt := Render(t, fields, content); var at := ContentStart(t, fields);
      && Occurs(t.contentOpen, prompt, at - |t.contentOpen|)
      && Occurs(content, prompt, at)
      && Occurs(t.contentClose, prompt, at + |content|)
      && Occurs(t.contentOpen + content + t.contentClose, prompt, at - |t.contentOpen|)
      && |prompt| == at + |content| + |t.contentClose| + |t.instructions|
  {
    var prompt := Render(t, fields, content);
    var at := ContentStart(t, fields);
    RenderShape(t, fields, content);
    ContentOpenAt(t, fields, content);
    ContentAt(t, fields, content);
    ContentCloseAt(t, fields, content);
    OccursAdjacent(t.contentOpen, content, prompt, at - |t.contentOpen|);
    OccursAdjacent(t.contentOpen + content, t.contentClose, prompt, at - |t.contentOpen|);
  }

  /** Every field name appears verbatim in the prompt, inside the block that
      sits between the FIELDS START and FIELDS END markers. */
  lemma FieldListedBetweenMarkers(request: FillFormRequest, k: nat) returns (at: int)
    requires k < |request.fields|
    ensures var prompt := BuildPrompt(request);
      var start := BlockStart(Default); var block := FieldsBlock(request.fields);
      && Occurs("--- FIELDS START ---\n", prompt, start - |Default.fieldsOpen|)
      && Occurs(block, prompt, start)
      && Occurs("\n--- FIELDS END ---", prompt, start + |block|)
      && Occurs(request.fields[k], prompt, at)
      && start <= at && at + |request.fields[k]| <= start + |block|
  {
    at := FieldsPlacement(Default, request.fields, request.sourceContent, k);
  }

  /** The source content appears whole and unaltered in the prompt, right
      after "--- CONTENT START ---\n" and right before "\n--- CONTENT END ---". */
  lemma ContentVerbatim(request: FillFormRequest)
    ensures IsSubstring("--- CONTENT START ---\n" + request.sourceContent + "\n--- CONTENT END ---",
      BuildPrompt(request))
    ensures |BuildPrompt(request)| ==
      |Default.preamble| + |Default.fieldsOpen| + |Default.fieldsClose| + |Default.contentIntro|
      + |Default.contentOpen| + |Default.contentClose| + |Default.instructions|
      + |FieldsBlock(request.fields)| + |request.sourceContent|
  {
    var t := Default;
    ContentPlacement(t, request.fields, request.sourceContent);
    var at := ContentStart(t, request.fields) - |t.contentOpen|;
    OccursIsSubstring(t.contentOpen + request.sourceContent + t.contentClose, BuildPrompt(request), at);
  }

  /** The prompt is the same whatever `prompt_template_id` says. */
  lemma TemplateIdIgnored(fields: seq<string>, content: string, id1: Option<string>, id2: Option<string>)
    ensures BuildPrompt(FillFormRequest(fields, content, id1)) == BuildPrompt(FillFormRequest(fields, content, id2))
  {
  }

  /** An empty field list is not rejected: the prompt is still built, and
      the closing FIELDS marker directly follows the opening one. */
  lemma EmptyFieldsStillPrompted(content: string, id: Option<string>)
    ensures Occurs(Default.fieldsOpen + Default.fieldsClose, BuildPrompt(FillFormRequest([], content, id)),
      |Default.preamble|)
  {
    var t := Default;
    var prompt := BuildPrompt(FillFormRequest([], content, id));
    assert FieldsBlock([]) == "";
    FieldsOpenAt(t, [], content);
    FieldsCloseAt(t, [], content);
    OccursAdjacent(t.fieldsOpen, t.fieldsClose, prompt, |t.preamble|);
  }
}
