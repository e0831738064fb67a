/** The outreach template editor: a form with the template's name, type, subject
    and body, and buttons that insert a placeholder variable into the body at
    the caret. */
module TemplateEditor {
  import opened Wrappers
  import opened Values

  datatype TemplateForm = TemplateForm(name: Value, kind: Value, subject: Value, body: string)

  /** The form of a new template. */
  const DefaultForm := TemplateForm(Str(""), Str("initial"), Str(""), "")

  /** The form filled from `template`: each stored field that is truthy, and the
      default otherwise. */
  function LoadedForm(template: Value): (f: TemplateForm)
    ensures f.name == JsOr(Prop(template, "name"), DefaultForm.name)
    ensures f.kind == JsOr(Prop(template, "type"), DefaultForm.kind)
    ensures f.subject == JsOr(Prop(template, "subject"), DefaultForm.subject)
    ensures JsTruthy(Prop(template, "body")) ==> f.body == JsText(Prop(template, "body"))
    ensures !JsTruthy(Prop(template, "body")) ==> f.body == DefaultForm.body
  {
    TemplateForm(
      JsOr(Prop(template, "name"), Str("")),
      JsOr(Prop(template, "type"), Str("initial")),
      JsOr(Prop(template, "subject"), Str("")),
      JsText(JsOr(Prop(template, "body"), Str(""))))
  }

  /** A template with none of the four fields set opens as a new one. */
  lemma EmptyTemplateLoadsDefaults(template: Value)
    requires !template.Doc? || forall k :: k in template.fields ==> k != "name" && k != "type" && k != "subject" && k != "body"
    ensures LoadedForm(template) == DefaultForm
  {
  }

  /** The textarea's selection: from `start` up to, not including, `end`. */
  datatype Selection = Selection(start: nat, end: nat)

  /** `text.substring(0, start) + variable + text.substring(end)`: the selection
      replaced by the variable. */
  function Spliced(text: string, start: nat, end: nat, variable: string): (r: string)
    requires start <= end <= |text|
    ensures |r| == |text| - (end - start) + |variable|
    ensures r[..start] == text[..start]
    ensures r[start..start + |variable|] == variable
    ensures r[start + |variable|..] == text[end..]
  {
    text[..start] + variable + text[end..]
  }

  /** With nothing selected, inserting only inserts: taking the variable out
      again gives back the text. */
  lemma InsertionUndone(text: string, caret: nat, variable: string)
    requires caret <= |text|
    ensures var r := Spliced(text, caret, caret, variable);
      r[..caret] + r[caret + |variable|..] == text
  {
    var r := Spliced(text, caret, caret, variable);
    assert r[..caret] + r[caret + |variable|..] == text[..caret] + text[caret..];
    assert text[..caret] + text[caret..] == text;
  }

  /** The state of the editor: its form and where the body's caret sits. */
  class Editor {
    var form: TemplateForm
    var caret: nat

    /** The editor opens on `template`, or on a new template when it is null. */
    constructor(template: Value)
      ensures form == (if JsTruthy(template) then LoadedForm(template) else DefaultForm)
      ensures caret == 0
    {
      form := if JsTruthy(template) then LoadedForm(template) else DefaultForm;
      caret := 0;
    }

    /** `insertVariable(variable)`: `textarea` is the body's text area with its
        selection, None when it is not on the page. A selection always lies
        within the body the text area shows. */
    method InsertVariable(textarea: Option<Selection>, variable: string)
      requires textarea.Some? ==> textarea.value.start <= textarea.value.end <= |form.body|
      modifies this
      ensures textarea.None? ==> form == old(form) && caret == old(caret)
      ensures textarea.Some? ==>
        form == old(form).(body := Spliced(old(form.body), textarea.value.start, textarea.value.end, variable))
      ensures textarea.Some? ==> caret == textarea.value.start + |variable|
    {
      if textarea.None? {
        return;
      }
      var start := textarea.value.start;
      var end := textarea.value.end;
      var newText := Spliced(form.body, start, end, variable);
      form := form.(body := newText);
      caret := start + |variable|;
    }
  }
}
