/**
 * The lazily loaded image: the responsive `srcset` it offers, when it swaps
 * the placeholder for the real source, and what it renders. Whether the
 * browser supports WebP and whether the image is in view are parameters.
 */
module OptimizedImage {
  import opened Wrappers
  import opened Text

  const Widths: seq<nat> := [320, 640, 1024, 1280, 1920]

  const DefaultSizes := "(max-width: 768px) 100vw, (max-width: 1200px) 50vw, 33vw"

  /** `src.split('.').pop()`: the text after the last dot, or the whole source without one. */
  function Extension(src: string): (e: string)
    ensures '.' !in e
  {
    var parts := Split(src, '.');
    parts[|parts| - 1]
  }

  /** `s.replace(pat, rep)` with a string pattern: only the first occurrence is replaced. */
  function ReplaceFirst(s: string, pat: string, rep: string): string
    requires |pat| > 0
  {
    if |s| < |pat| then s
    else if StartsWith(s, pat) then rep + s[|pat|..]
    else [s[0]] + ReplaceFirst(s[1..], pat, rep)
  }

  /** The source with its first `.ext` removed. */
  function BaseName(src: string): string
  {
    ReplaceFirst(src, "." + Extension(src), "")
  }

  /** The format of every candidate: WebP when supported, the source's own extension otherwise. */
  function Format(src: string, webp: bool): string
  {
    if webp then "webp" else Extension(src)
  }

  /** One candidate: `base_Ww.fmt Ww`. */
  function Candidate(base: string, width: nat, format: string): string
  {
    base + "_" + NatToString(width) + "w." + format + " " + NatToString(width) + "w"
  }

  /**
   * `generateSrcSet`: one candidate per width, in increasing width order,
   * joined by ", ".
   */
  function GenerateSrcSet(src: string, webp: bool): string
  {
    SrcSet(BaseName(src), Format(src, webp))
  }

  /** The candidates of one base name and format, one per width, joined by ", ". */
  function SrcSet(base: string, format: string): string
  {
    Join(seq(|Widths|, i requires 0 <= i < |Widths| => Candidate(base, Widths[i], format)), ", ")
  }

  /** The five candidates, written out. */
  lemma SrcSetWidths(base: string, format: string)
    ensures SrcSet(base, format) == Join([Candidate(base, 320, format), Candidate(base, 640, format),
      Candidate(base, 1024, format), Candidate(base, 1280, format), Candidate(base, 1920, format)], ", ")
  {
    var cs := seq(|Widths|, i requires 0 <= i < |Widths| => Candidate(base, Widths[i], format));
    assert cs == [Candidate(base, 320, format), Candidate(base, 640, format), Candidate(base, 1024, format),
      Candidate(base, 1280, format), Candidate(base, 1920, format)];
  }

  /** A dot-free stem before a dot is skipped when looking for a pattern that starts with a dot. */
  lemma {:induction false} ReplaceAfterStem(b: string, rest: string, pat: string)
    requires '.' !in b && |pat| > 0 && pat[0] == '.' && StartsWith(rest, pat)
    ensures ReplaceFirst(b + rest, pat, "") == b + rest[|pat|..]
  {
    if b == [] {
      assert b + rest == rest;
    } else {
      var s := b + rest;
      assert s[0] == b[0] && b[0] != '.';
      assert s[..|pat|][0] == s[0];
      assert s[1..] == b[1..] + rest;
      ReplaceAfterStem(b[1..], rest, pat);
      assert ReplaceFirst(s, pat, "") == [s[0]] + ReplaceFirst(s[1..], pat, "");
    }
  }

  /** For `name.ext` with no other dot, the extension is `ext` and the base name is `name`. */
  lemma SimpleName(b: string, e: string)
    requires '.' !in b && '.' !in e
    ensures Extension(b + "." + e) == e
    ensures BaseName(b + "." + e) == b
  {
    SplitConcat(b, e, '.');
    SplitNoSep(e, '.');
    assert b + "." + e == b + ("." + e);
    ReplaceAfterStem(b, "." + e, "." + e);
  }

  /**
   * When the last extension also appears earlier, it is the earlier
   * occurrence that is removed: `a.jpgx.jpg` gives the base name `ax.jpg`.
   */
  lemma FirstOccurrenceOnly(b: string, mid: string, e: string)
    requires '.' !in b && '.' !in mid && '.' !in e
    ensures Extension(b + "." + e + mid + "." + e) == e
    ensures BaseName(b + "." + e + mid + "." + e) == b + mid + "." + e
  {
    var s := b + "." + e + mid + "." + e;
    assert s == b + ['.'] + (e + mid + ['.'] + e);
    SplitConcat(b, e + mid + "." + e, '.');
    SplitConcat(e + mid, e, '.');
    SplitNoSep(e, '.');
    assert s == b + ("." + e + (mid + "." + e));
    ReplaceAfterStem(b, "." + e + (mid + "." + e), "." + e);
  }

  /** A source without a dot is its own extension and its own base name. */
  lemma NoDot(src: string)
    requires '.' !in src
    ensures Extension(src) == src && BaseName(src) == src
  {
    SplitNoSep(src, '.');
  }

  /**
   * For `name.ext` with no other dot the five candidates name `name_Ww.fmt`,
   * where the format is WebP when supported and `ext` otherwise.
   */
  lemma SimpleSrcSet(b: string, e: string, webp: bool)
    requires '.' !in b && '.' !in e
    ensures var f := if webp then "webp" else e;
      GenerateSrcSet(b + "." + e, webp) == Join([Candidate(b, 320, f), Candidate(b, 640, f),
        Candidate(b, 1024, f), Candidate(b, 1280, f), Candidate(b, 1920, f)], ", ")
  {
    SimpleName(b, e);
    SrcSetWidths(b, if webp then "webp" else e);
  }

  datatype Loading = Lazy | Eager

  /** The rendered `<img>`: its source, the responsive attributes (when present) and its loading mode. */
  datatype Img = Img(src: string, srcSet: Option<string>, sizes: Option<string>, loading: Loading, opacity: real)

  /** Whether the effect swaps in the real source. */
  predicate SwitchesToSource(priority: bool, inView: bool, loading: Loading, loaded: bool, failed: bool)
  {
    (priority || inView || loading == Eager) && !loaded && !failed
  }

  /**
   * What the component renders: nothing of the image once it has failed
   * (a "Failed to load image" box instead); otherwise an image whose
   * `srcSet` and `sizes` are given only while the real source is shown, and
   * which loads eagerly whenever it has priority; it is faded until loaded.
   */
  function Render(src: string, currentSrc: string, loaded: bool, failed: bool, priority: bool, loading: Loading,
                  sizes: string, webp: bool): (r: Option<Img>)
    ensures r.None? <==> failed
    ensures r.Some? ==> r.value.src == currentSrc
    ensures r.Some? ==> (r.value.srcSet.Some? <==> currentSrc == src) && (r.value.sizes.Some? <==> currentSrc == src)
    ensures r.Some? && currentSrc == src ==> r.value.srcSet == Some(GenerateSrcSet(src, webp)) && r.value.sizes == Some(sizes)
    ensures r.Some? ==> r.value.loading == (if priority then Eager else loading)
    ensures r.Some? ==> (r.value.opacity == 1.0 <==> loaded)
  {
    if failed then None
    else
      var shown := currentSrc == src;
      Some(Img(currentSrc, if shown then Some(GenerateSrcSet(src, webp)) else None,
        if shown then Some(sizes) else None, if priority then Eager else loading,
        if loaded then 1.0 else 0.3))
  }

  class Image {
    const src: string
    const placeholder: string
    const priority: bool
    const loading: Loading
    var isLoaded: bool
    var hasError: bool
    var currentSrc: string

    /** The shown source is always the placeholder or the real source. */
    predicate Valid()
      reads this
    {
      currentSrc == placeholder || currentSrc == src
    }

    constructor (src: string, placeholder: string, priority: bool, loading: Loading)
      ensures Valid() && !isLoaded && !hasError && currentSrc == placeholder
      ensures this.src == src && this.placeholder == placeholder && this.priority == priority && this.loading == loading
    {
      this.src, this.placeholder, this.priority, this.loading := src, placeholder, priority, loading;
      isLoaded, hasError, currentSrc := false, false, placeholder;
    }

    /** The effect on visibility and state: the source is swapped in only under the switch condition. */
    method Effect(inView: bool)
      requires Valid()
      modifies this`currentSrc
      ensures Valid()
      ensures SwitchesToSource(priority, inView, loading, isLoaded, hasError) ==> currentSrc == src
      ensures !SwitchesToSource(priority, inView, loading, isLoaded, hasError) ==> currentSrc == old(currentSrc)
    {
      if SwitchesToSource(priority, inView, loading, isLoaded, hasError) {
        currentSrc := src;
      }
    }

    /** `handleLoad`. */
    method HandleLoad()
      modifies this`isLoaded
      ensures isLoaded
    {
      isLoaded := true;
    }

    /** `handleError`: from now on no image is rendered and the source never changes again. */
    method HandleError()
      modifies this`hasError
      ensures hasError
      ensures forall inView: bool :: !SwitchesToSource(priority, inView, loading, isLoaded, hasError)
    {
      hasError := true;
    }
  }
}
