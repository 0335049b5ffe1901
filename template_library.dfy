/**
 * The template library page: which templates the list shows for a type filter and a
 * search text, the record built from the editor form when saving, and the form
 * filled from a template when editing one.
 */
module TemplateLibrary {
  import opened Base
  import opened Types

  // ----- the list filter -----

  /** Some tag of the template contains the (lower-cased) search text. */
  predicate SomeTagMatches(tags: seq<string>, search: string)
  {
    exists k :: 0 <= k < |tags| && Includes(ToLower(tags[k]), ToLower(search))
  }

  /**
   * The filter predicate: the type filter is 'all' or the template's type, and the search
   * text is empty or occurs, ignoring case, in the name or in some tag.
   */
  predicate Shown(t: Template, filterType: string, search: string)
  {
    (filterType == "all" || t.ttype.Name() == filterType)
    && (search == "" || Includes(ToLower(t.name), ToLower(search)) || SomeTagMatches(t.tags, search))
  }

  /** `filteredTemplates`. */
  function FilteredTemplates(templates: seq<Template>, filterType: string, search: string): seq<Template>
  {
    Filter(templates, t => Shown(t, filterType, search))
  }

  /**
   * The list shows exactly the templates the predicate accepts, in their stored order:
   * filtering two stretches of the list one after the other is filtering the whole.
   */
  lemma FilterShowsExactly(templates: seq<Template>, more: seq<Template>, filterType: string, search: string)
    ensures forall t :: t in FilteredTemplates(templates, filterType, search) <==> t in templates && Shown(t, filterType, search)
    ensures FilteredTemplates(templates + more, filterType, search)
            == FilteredTemplates(templates, filterType, search) + FilteredTemplates(more, filterType, search)
  {
    FilterAppend(templates, more, t => Shown(t, filterType, search));
  }

  /** With the filter at 'all' and no search text every template is shown. */
  lemma NoFilterShowsAll(templates: seq<Template>)
    ensures FilteredTemplates(templates, "all", "") == templates
  {
    FilterAll(templates, t => Shown(t, "all", ""));
  }

  /**
   * The search ignores case: two search texts that lower-case alike show the same
   * templates, and in particular a search text shows what its lower-cased form shows.
   */
  lemma SearchIgnoresCase(t: Template, filterType: string, search: string, other: string)
    requires ToLower(other) == ToLower(search)
    ensures Shown(t, filterType, search) <==> Shown(t, filterType, other)
    ensures Shown(t, filterType, search) <==> Shown(t, filterType, ToLower(search))
  {
    ToLowerIdempotent(search);
    assert search == "" <==> other == "" by {
      assert |ToLower(search)| == |search| && |ToLower(other)| == |other|;
    }
  }

  // ----- the editor form -----

  /** The editor's fields, as the text the user typed. */
  datatype TemplateForm = TemplateForm(
    name: string,
    ttype: TemplateType,
    tags: string,
    category: string,
    titleTemplate: string,
    sellingPointsTemplate: string)

  /** `tags.split(',').map(t => t.trim()).filter(Boolean)` */
  function ParseTags(tags: string): (r: seq<string>)
    ensures forall i :: 0 <= i < |r| ==> r[i] != "" && ',' !in r[i] && !IsSpace(r[i][0]) && !IsSpace(r[i][|r[i]| - 1])
  {
    SplitTrimmed(tags, ',')
  }

  /** `text ? text.split('\n').filter(Boolean) : undefined`: lines are kept untrimmed, empty lines dropped. */
  function ParseLines(text: string): (r: Option<seq<string>>)
    ensures r.None? <==> text == ""
    ensures r.Some? ==> forall i :: 0 <= i < |r.value| ==> r.value[i] != "" && '\n' !in r.value[i]
  {
    if text == "" then None else Some(Filter(Split(text, '\n'), l => l != ""))
  }

  /** `editingTemplate?.usedCount || 0` */
  function UsedCountOrZero(editing: Option<Template>): int
  {
    if editing.Some? && editing.value.usedCount.Some? && editing.value.usedCount.value != 0
    then editing.value.usedCount.value else 0
  }

  /** What saving does to the store. */
  datatype SaveAction = NoSave | UpdateTemplate(id: string, template: Template) | AddTemplate(template: Template)

  /**
   * `handleSave()` with the form, the template being edited (if any), the id `generateId()`
   * would return and the clock.
   */
  function HandleSave(form: TemplateForm, editing: Option<Template>, newId: string, now: int): (r: SaveAction)
    ensures r.NoSave? <==> Trim(form.name) == ""
    ensures r.UpdateTemplate? <==> Trim(form.name) != "" && editing.Some?
    ensures r.UpdateTemplate? ==>
              r.id == editing.value.id && r.template.createdAt == editing.value.createdAt
              && (editing.value.id != "" ==> r.template.id == editing.value.id)
              && r.template.usedCount == Some(UsedCountOrZero(editing))
    ensures r.AddTemplate? ==> r.template.id == newId && r.template.createdAt == now && r.template.usedCount == Some(0)
    ensures !r.NoSave? ==>
              var t := r.template;
              t.name == form.name && t.ttype == form.ttype && t.tags == ParseTags(form.tags)
              && (t.category.None? <==> form.category == "") && (t.category.Some? ==> t.category.value == form.category)
              && t.content.mainImageTemplate.None?
              && t.content.titleTemplate == NonEmpty(form.titleTemplate)
              && t.content.sellingPointsTemplate == ParseLines(form.sellingPointsTemplate)
  {
    if Trim(form.name) == "" then NoSave
    else
      var id := if editing.Some? && editing.value.id != "" then editing.value.id else newId;
      var t := Template(id, form.name, form.ttype, ParseTags(form.tags), NonEmpty(form.category),
                        TemplateContent(None, NonEmpty(form.titleTemplate), ParseLines(form.sellingPointsTemplate)),
                        if editing.Some? then editing.value.createdAt else now,
                        Some(UsedCountOrZero(editing)));
      if editing.Some? then UpdateTemplate(editing.value.id, t) else AddTemplate(t)
  }

  /** `handleEdit(template)`: the form showing the template. */
  function HandleEdit(t: Template): TemplateForm
  {
    TemplateForm(t.name, t.ttype, Join(t.tags, ", "), OrElse(t.category, ""), OrElse(t.content.titleTemplate, ""),
                 if t.content.sellingPointsTemplate.Some? then Join(t.content.sellingPointsTemplate.value, "\n") else "")
  }

  /** A tag the form can hold unchanged: not empty, no comma, no white space at either end. */
  predicate CleanTag(tag: string)
  {
    tag != "" && ',' !in tag && !IsSpace(tag[0]) && !IsSpace(tag[|tag| - 1])
  }

  /**
   * Editing and saving a template without changing the form gives the template back,
   * except that its main-image template is dropped, a missing or zero use count becomes 0,
   * and an empty list of selling points becomes no list at all.
   */
  lemma EditThenSave(t: Template, newId: string, now: int)
    requires Trim(t.name) != "" && t.id != ""
    requires forall i :: 0 <= i < |t.tags| ==> CleanTag(t.tags[i])
    requires t.category != Some("") && t.content.titleTemplate != Some("")
    requires t.content.sellingPointsTemplate.Some? ==>
               forall i :: 0 <= i < |t.content.sellingPointsTemplate.value| ==>
                 t.content.sellingPointsTemplate.value[i] != "" && '\n' !in t.content.sellingPointsTemplate.value[i]
    ensures var points := t.content.sellingPointsTemplate;
            HandleSave(HandleEdit(t), Some(t), newId, now)
            == UpdateTemplate(t.id, t.(content := t.content.(mainImageTemplate := None,
                                                             sellingPointsTemplate := if points == Some([]) then None else points),
                                       usedCount := Some(UsedCountOrZero(Some(t)))))
  {
    TagsRoundTrip(t.tags);
    if t.content.sellingPointsTemplate.Some? {
      LinesRoundTrip(t.content.sellingPointsTemplate.value);
    }
    assert NonEmpty(OrElse(t.category, "")) == t.category;
    assert NonEmpty(OrElse(t.content.titleTemplate, "")) == t.content.titleTemplate;
  }

  /** Tags joined with ", " parse back to themselves. */
  lemma {:induction false} TagsRoundTrip(tags: seq<string>)
    requires forall i :: 0 <= i < |tags| ==> CleanTag(tags[i])
    ensures ParseTags(Join(tags, ", ")) == tags
  {
    if tags == [] {
      assert Split("", ',') == [""];
      assert TrimAll([""]) == [""];
    } else {
      var spaced := Spaced(tags);
      JoinCommaSpace(tags);
      SplitJoin(spaced, ',');
      assert TrimAll(spaced) == tags by {
        forall i | 0 <= i < |tags| ensures Trim(spaced[i]) == tags[i] {
          if i > 0 {
            TrimLeadingSpace(tags[i]);
          } else {
            TrimIdentity(tags[i]);
          }
        }
      }
      FilterAll(tags, (t: string) => t != "");
    }
  }

  /** The pieces a ", "-join leaves between its commas: the first item, then each later item after a space. */
  function Spaced(xs: seq<string>): (r: seq<string>)
    ensures |r| == |xs|
    ensures forall i :: 0 <= i < |xs| ==> r[i] == (if i == 0 then xs[0] else " " + xs[i])
  {
    seq(|xs|, i requires 0 <= i < |xs| => if i == 0 then xs[0] else " " + xs[i])
  }

  /** `xs.map(x => ' ' + x)` */
  function Padded(xs: seq<string>): (r: seq<string>)
    ensures |r| == |xs| && forall i :: 0 <= i < |xs| ==> r[i] == " " + xs[i]
  {
    seq(|xs|, i requires 0 <= i < |xs| => " " + xs[i])
  }

  lemma {:induction false} JoinPadded(ys: seq<string>)
    requires |ys| >= 1
    ensures Join(Padded(ys), ",") == " " + Join(ys, ", ")
    decreases |ys|
  {
    if |ys| > 1 {
      assert Padded(ys)[1..] == Padded(ys[1..]);
      JoinPadded(ys[1..]);
      calc {
        Join(Padded(ys), ",");
        (" " + ys[0]) + "," + Join(Padded(ys[1..]), ",");
        (" " + ys[0]) + "," + (" " + Join(ys[1..], ", "));
        { assert (" " + ys[0]) + "," + (" " + Join(ys[1..], ", ")) == " " + (ys[0] + ", " + Join(ys[1..], ", ")); }
        " " + (ys[0] + ", " + Join(ys[1..], ", "));
      }
    }
  }

  lemma {:induction false} JoinCommaSpace(xs: seq<string>)
    requires |xs| >= 1
    ensures Join(xs, ", ") == Join(Spaced(xs), [','])
  {
    if |xs| > 1 {
      var sp := Spaced(xs);
      var rest := Join(xs[1..], ", ");
      calc {
        Join(sp, ",");
        sp[0] + "," + Join(sp[1..], ",");
        { assert sp[1..] == Padded(xs[1..]); JoinPadded(xs[1..]); }
        xs[0] + "," + (" " + rest);
        { assert xs[0] + "," + (" " + rest) == xs[0] + ", " + rest; }
        xs[0] + ", " + rest;
      }
    }
  }

  lemma TrimLeadingSpace(x: string)
    requires x != "" && !IsSpace(x[0]) && !IsSpace(x[|x| - 1])
    ensures Trim(" " + x) == x
  {
    var s := " " + x;
    assert s[0] == ' ' && s[1..] == x;
    assert TrimStart(s) == TrimStart(x);
    assert TrimStart(x) == x;
    assert TrimEnd(x) == x;
  }

  /** Selling-point lines joined with "\n" parse back to themselves; no lines parse to no list. */
  lemma {:induction false} LinesRoundTrip(lines: seq<string>)
    requires forall i :: 0 <= i < |lines| ==> lines[i] != "" && '\n' !in lines[i]
    ensures ParseLines(Join(lines, "\n")) == if lines == [] then None else Some(lines)
  {
    if lines != [] {
      SplitJoin(lines, '\n');
      FilterAll(lines, (l: string) => l != "");
      if |lines| > 1 {
        assert Join(lines, "\n") == lines[0] + "\n" + Join(lines[1..], "\n");
      }
    }
  }
}
