/**
 * The home page: the tag chips of each project card, the one-time image
 * fallback of a card, the contact form's submission status, and whether the
 * particle background is drawn.
 */
module App {
  import opened Wrappers
  import opened Text
  import opened Browser

  const ProjectPlaceholder := "https://images.unsplash.com/photo-1498050108023-c5249f4df085?auto=format&fit=crop&w=800&q=80"

  /** `map(t => t.trim())`. */
  function TrimAll(parts: seq<string>): (r: seq<string>)
    ensures |r| == |parts| && forall i :: 0 <= i < |parts| ==> r[i] == JsTrim(parts[i])
  {
    seq(|parts|, i requires 0 <= i < |parts| => JsTrim(parts[i]))
  }

  /** `filter(Boolean)` on strings: the non-empty ones, in order. */
  function NonEmpty(parts: seq<string>): (r: seq<string>)
    ensures |r| <= |parts|
    ensures forall t :: t in r <==> t in parts && t != ""
  {
    if parts == [] then [] else (if parts[0] == "" then [] else [parts[0]]) + NonEmpty(parts[1..])
  }

  /** A tag as it can appear on a chip: not empty, without a comma, already trimmed. */
  predicate CleanTag(t: string)
  {
    t != "" && ',' !in t && JsTrim(t) == t
  }

  /**
   * The chips of a project's `tags`: the comma-separated parts, trimmed, with
   * the empty ones dropped, in order and with duplicates kept; none for a
   * missing or empty value.
   */
  function Chips(tags: Option<string>): (r: seq<string>)
    ensures forall i :: 0 <= i < |r| ==> CleanTag(r[i])
    ensures !Truthy(tags) ==> r == []
  {
    if tags.None? then []
    else
      var parts := Split(tags.value, ',');
      PiecesClean(parts);
      if tags.value == "" then EmptyTags(); NonEmpty(TrimAll(parts))
      else NonEmpty(TrimAll(parts))
  }

  /** A trimmed comma-free piece that is not empty is a clean tag. */
  lemma PieceClean(piece: string)
    requires ',' !in piece && JsTrim(piece) != ""
    ensures CleanTag(JsTrim(piece))
  {
    if ',' in JsTrim(piece) {
      TrimKeeps(piece, IsJsSpace, ',');
    }
    TrimIdempotent(piece, IsJsSpace);
  }

  /** Trimmed comma-free pieces, empty ones dropped, are clean tags. */
  lemma PiecesClean(parts: seq<string>)
    requires forall i :: 0 <= i < |parts| ==> ',' !in parts[i]
    ensures forall i :: 0 <= i < |NonEmpty(TrimAll(parts))| ==> CleanTag(NonEmpty(TrimAll(parts))[i])
  {
    var trimmed := TrimAll(parts);
    var r := NonEmpty(trimmed);
    forall i | 0 <= i < |r| ensures CleanTag(r[i]) {
      assert r[i] in trimmed;
      var j :| 0 <= j < |trimmed| && trimmed[j] == r[i];
      PieceClean(parts[j]);
    }
  }

  lemma EmptyTags()
    ensures NonEmpty(TrimAll(Split("", ','))) == []
  {
    assert Split("", ',') == [""];
    assert TrimAll([""]) == [JsTrim("")];
  }

  lemma {:induction false} TrimAllClean(ts: seq<string>)
    requires forall i :: 0 <= i < |ts| ==> CleanTag(ts[i])
    ensures TrimAll(ts) == ts
  {
    if ts != [] {
      TrimAllClean(ts[1..]);
    }
  }

  lemma {:induction false} NonEmptyClean(ts: seq<string>)
    requires forall i :: 0 <= i < |ts| ==> ts[i] != ""
    ensures NonEmpty(ts) == ts
  {
    if ts != [] {
      NonEmptyClean(ts[1..]);
    }
  }

  /** Clean tags joined with commas come back as the same chips, repeats and order included. */
  lemma ChipsOfJoined(ts: seq<string>)
    requires forall i :: 0 <= i < |ts| ==> CleanTag(ts[i])
    ensures Chips(Some(Join(ts, ","))) == ts
  {
    if ts == [] {
      EmptyTags();
    } else {
      SplitJoin(ts, ',');
      TrimAllClean(ts);
      NonEmptyClean(ts);
    }
  }

  /** Rendering the chips as a tag list again and re-reading it gives the same chips. */
  lemma ChipsStable(tags: Option<string>)
    ensures Chips(Some(Join(Chips(tags), ","))) == Chips(tags)
  {
    ChipsOfJoined(Chips(tags));
  }

  /** The chip row: shown only for a truthy `tags`. */
  function ChipRow(tags: Option<string>): (r: Option<seq<string>>)
    ensures r.Some? <==> Truthy(tags)
    ensures r.Some? ==> r.value == Chips(tags)
  {
    if Truthy(tags) then Some(Chips(tags)) else None
  }

  /** `src` and `data-fallback` after one `onError`: the placeholder, once. */
  function AfterImageError(src: string, fallback: Option<string>): (r: (string, Option<string>))
    ensures fallback == Some("1") ==> r == (src, fallback)
    ensures fallback != Some("1") ==> r == (ProjectPlaceholder, Some("1"))
  {
    if fallback == Some("1") then (src, fallback) else (ProjectPlaceholder, Some("1"))
  }

  /** A second error changes nothing: the placeholder is swapped in at most once. */
  lemma ImageErrorOnce(src: string, fallback: Option<string>)
    ensures AfterImageError(AfterImageError(src, fallback).0, AfterImageError(src, fallback).1)
      == AfterImageError(src, fallback)
  {
  }

  /** A card's image element. */
  class ImageElement {
    var src: string
    /** `dataset.fallback`. */
    var fallback: Option<string>

    /** A card without an image URL starts on the placeholder, already marked as fallen back. */
    constructor (imageUrl: Option<string>)
      ensures src == OrElse(imageUrl, ProjectPlaceholder)
      ensures fallback == if Truthy(imageUrl) then None else Some("1")
    {
      src := OrElse(imageUrl, ProjectPlaceholder);
      fallback := if Truthy(imageUrl) then None else Some("1");
    }

    /** `handleImageError`. */
    method HandleImageError()
      modifies this
      ensures (src, fallback) == AfterImageError(old(src), old(fallback))
    {
      if fallback == Some("1") {
        return;
      }
      fallback := Some("1");
      src := ProjectPlaceholder;
    }
  }

  /** A card built without an image URL never reacts to an image error. */
  lemma PlaceholderNeverReplaced()
    ensures AfterImageError(ProjectPlaceholder, Some("1")) == (ProjectPlaceholder, Some("1"))
  {
  }

  datatype ContactForm = ContactForm(name: string, email: string, message: string)

  const EmptyForm := ContactForm("", "", "")

  datatype Status = Idle | Submitting | Success | Failed

  /** What the contact section shows: the button's state and label, and the message under the form. */
  datatype ContactView = ContactView(disabled: bool, caption: string, notice: Option<string>)

  function ViewOf(status: Status): (v: ContactView)
    ensures v.disabled <==> status == Submitting
    ensures v.caption == (if status == Submitting then "Sending..." else "Send")
    ensures v.notice.Some? <==> status == Success || status == Failed
    ensures status == Success ==> v.notice == Some("Thanks! We'll get back to you soon.")
    ensures status == Failed ==> v.notice == Some("Something went wrong. Try again.")
  {
    ContactView(status == Submitting, if status == Submitting then "Sending..." else "Send",
      match status
      case Success => Some("Thanks! We'll get back to you soon.")
      case Failed => Some("Something went wrong. Try again.")
      case _ => None)
  }

  class Contact {
    var form: ContactForm
    var status: Status

    constructor ()
      ensures form == EmptyForm && status == Idle
    {
      form, status := EmptyForm, Idle;
    }

    /** An input's `onChange`: the form takes the edited value; the status stays. */
    method Edit(f: ContactForm)
      modifies this
      ensures form == f && status == old(status)
    {
      form := f;
    }

    /**
     * The first half of `onSubmit`: the status becomes submitting and the
     * form is posted as JSON to the contact endpoint.
     */
    method BeginSubmit(apiBase: string, stringify: ContactForm -> string) returns (request: FetchRequest)
      modifies this
      ensures status == Submitting && form == old(form)
      ensures request == FetchRequest(apiBase + "/contact",
        RequestInit(Some("POST"), map["Content-Type" := "application/json"], Some(stringify(form))))
    {
      status := Submitting;
      request := FetchRequest(apiBase + "/contact",
        RequestInit(Some("POST"), map["Content-Type" := "application/json"], Some(stringify(form))));
    }

    /**
     * The second half, given the response (`None` when `fetch` rejects): an
     * OK response means success and an emptied form; anything else an error
     * with the form kept.
     */
    method FinishSubmit(response: Option<HttpResponse>)
      requires status == Submitting
      modifies this
      ensures response.Some? && response.value.ok ==> status == Success && form == EmptyForm
      ensures !(response.Some? && response.value.ok) ==> status == Failed && form == old(form)
    {
      if response.Some? && response.value.ok {
        status := Success;
        form := EmptyForm;
      } else {
        status := Failed;
      }
    }
  }

  /** The particle background's props: drawn only while effects are on, with the settings' speed and density. */
  function Background(effectsOn: bool, bgSpeed: real, bgDensity: real): (r: Option<(real, real)>)
    ensures r.Some? <==> effectsOn
    ensures r.Some? ==> r.value == (bgSpeed, bgDensity)
  {
    if effectsOn then Some((bgSpeed, bgDensity)) else None
  }
}
