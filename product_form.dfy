/**
 * The product form: the fields being filled, the reference links typed one per line,
 * when the submit button is enabled, and what a submit hands over before the form is
 * cleared. Uploaded files stand for their object URLs.
 */
module ProductForm {
  import opened Base
  import opened Types
  import HomePage

  /** The form's local state: the record being filled and the links text. */
  datatype FormState = FormState(data: ProductFormData, referenceLinksText: string)

  /** The blank form the component starts with and returns to after a submit. */
  function EmptyForm(): (r: FormState)
    ensures r.data.name == "" && r.data.category == "" && r.data.brand == "" && r.data.images == []
    ensures !Present(r.data.material) && !Present(r.data.size) && !Present(r.data.color) && !Present(r.data.targetAudience)
    ensures r.data.saveToLibrary == Some(false) && r.referenceLinksText == ""
  {
    FormState(ProductFormData("", "", "", Some(""), Some(""), Some(""), Some(""), [], Some([]), Some([]), Some(false)), "")
  }

  /** The submit button is enabled: name, category and brand filled in and at least one image. */
  predicate SubmitEnabled(s: FormState)
  {
    !(s.data.name == "" || s.data.category == "" || s.data.brand == "" || |s.data.images| == 0)
  }

  /** The links of the links text: its non-blank lines, trimmed, in order; undefined when none is left. */
  function ParseLinks(text: string): (r: Option<seq<string>>)
    ensures r.None? <==> SplitTrimmed(text, '\n') == []
    ensures r.Some? ==> r.value == SplitTrimmed(text, '\n')
  {
    var links := SplitTrimmed(text, '\n');
    if |links| > 0 then Some(links) else None
  }

  /** `handleSubmit(e)`: the data handed to `onSubmit`, and the blank form that follows. */
  function HandleSubmit(s: FormState): (ProductFormData, FormState)
  {
    (s.data.(referenceLinks := ParseLinks(s.referenceLinksText)), EmptyForm())
  }

  /**
   * A submit changes only the links: every other field reaches `onSubmit` as typed, and the
   * links are clean (non-blank, trimmed, one line each) or absent, never an empty list;
   * the form is blank again.
   */
  lemma SubmitPassesFields(s: FormState)
    ensures var d := HandleSubmit(s).0;
            d.name == s.data.name && d.category == s.data.category && d.brand == s.data.brand
            && d.material == s.data.material && d.size == s.data.size && d.color == s.data.color
            && d.targetAudience == s.data.targetAudience && d.images == s.data.images
            && d.referenceImages == s.data.referenceImages && d.saveToLibrary == s.data.saveToLibrary
    ensures var d := HandleSubmit(s).0;
            (d.referenceLinks.None? || |d.referenceLinks.value| > 0)
            && (d.referenceLinks.Some? ==> forall i :: 0 <= i < |d.referenceLinks.value| ==>
                  d.referenceLinks.value[i] != "" && '\n' !in d.referenceLinks.value[i])
    ensures HandleSubmit(s).0.referenceLinks == ParseLinks(s.referenceLinksText)
    ensures HandleSubmit(s).1 == EmptyForm()
  {
  }

  /** Links typed clean, one per line, arrive as they were typed; no links at all arrive as undefined. */
  lemma LinksRoundTrip(links: seq<string>)
    requires forall i :: 0 <= i < |links| ==>
               links[i] != "" && '\n' !in links[i] && !IsSpace(links[i][0]) && !IsSpace(links[i][|links[i]| - 1])
    ensures ParseLinks(Join(links, "\n")) == if links == [] then None else Some(links)
  {
    SplitTrimmedJoin(links, '\n');
  }

  /**
   * The blank form cannot be submitted, so neither can the form right after a submit; and a
   * product added from an enabled form has a name, a category, a brand and a first image.
   */
  lemma EnabledSubmit(s: FormState, id: string, now: int)
    ensures !SubmitEnabled(EmptyForm()) && !SubmitEnabled(HandleSubmit(s).1)
    ensures SubmitEnabled(s) ==>
              var p := HomePage.NewProduct(HandleSubmit(s).0, id, now);
              p.name != "" && p.category != "" && p.brand != "" && FirstImage(p) == Some(s.data.images[0])
  {
  }
}
