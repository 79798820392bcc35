/**
 * The preview pane of the single-file application: the page count shown
 * under the preview, and the font and file name the DOCX export uses.
 *
 * The measured height of the rendered resume is a parameter: `None` stands
 * for a pane whose content is not mounted, `Some(h)` for a scroll height of
 * `h` pixels.
 */
module Preview {
  import opened Collections

  /** 9.5 inches of content per Letter page at 96 pixels per inch. */
  const PageHeight: nat := 912

  /** `Math.ceil(n / d)` for a whole `n` and a positive `d`. */
  function CeilDiv(n: nat, d: nat): (q: nat)
    requires d > 0
    ensures q * d >= n
    ensures q > 0 ==> (q - 1) * d < n
  {
    (n + d - 1) / d
  }

  /**
   * The page count for a content height: at least one page, exactly one for
   * no content, and otherwise the fewest pages that hold the content.
   */
  function PageCount(height: nat): (pages: nat)
    ensures pages >= 1
    ensures height == 0 ==> pages == 1
    ensures height > 0 ==> (pages - 1) * PageHeight < height <= pages * PageHeight
  {
    var calculated := CeilDiv(height, PageHeight);
    if calculated > 0 then calculated else 1
  }

  /** More content never needs fewer pages. */
  lemma PageCountMonotone(low: nat, high: nat)
    requires low <= high
    ensures PageCount(low) <= PageCount(high)
  {
  }

  /** The CSS font stack the DOCX export puts in its `body` rule for the chosen font class. */
  function DocxFontFamily(fontFamily: string): (css: string)
    ensures css == "Calibri, sans-serif" <==> fontFamily == "font-sans"
    ensures css == "Georgia, serif" <==> fontFamily == "font-serif"
    ensures css == "Courier New, monospace" <==> fontFamily != "font-sans" && fontFamily != "font-serif"
  {
    if fontFamily == "font-sans" then "Calibri, sans-serif"
    else if fontFamily == "font-serif" then "Georgia, serif"
    else "Courier New, monospace"
  }

  /** The name the DOCX file is saved under. */
  function DocxFileName(fullName: string): (name: string)
    ensures |name| == |fullName| + |"_Resume.docx"|
    ensures name[..|fullName|] == fullName
    ensures name[|fullName|..] == "_Resume.docx"
  {
    fullName + "_Resume.docx"
  }

  /** Different names give different file names. */
  lemma DocxFileNameInjective(a: string, b: string)
    requires DocxFileName(a) == DocxFileName(b)
    ensures a == b
  {
    assert a == DocxFileName(a)[..|a|] == DocxFileName(b)[..|b|] == b;
  }

  /** The state of the preview pane. */
  class PreviewPane {
    var fontFamily: string
    var fontSize: string
    var pageCount: nat

    ghost predicate Valid()
      reads this
    {
      pageCount >= 1
    }

    constructor ()
      ensures Valid()
      ensures fontFamily == "font-sans" && fontSize == "text-sm" && pageCount == 1
    {
      fontFamily := "font-sans";
      fontSize := "text-sm";
      pageCount := 1;
    }

    /** The font selector's change handler. */
    method SetFontFamily(value: string)
      requires Valid()
      modifies this
      ensures Valid()
      ensures fontFamily == value && fontSize == old(fontSize) && pageCount == old(pageCount)
    {
      fontFamily := value;
    }

    /** The size selector's change handler. */
    method SetFontSize(value: string)
      requires Valid()
      modifies this
      ensures Valid()
      ensures fontSize == value && fontFamily == old(fontFamily) && pageCount == old(pageCount)
    {
      fontSize := value;
    }

    /** `calculatePages`: with content mounted, the page count becomes the content's pages; otherwise nothing changes. */
    method CalculatePages(measured: Option<nat>)
      requires Valid()
      modifies this
      ensures Valid()
      ensures measured.Some? ==> pageCount == PageCount(measured.value)
      ensures measured.None? ==> pageCount == old(pageCount)
      ensures fontFamily == old(fontFamily) && fontSize == old(fontSize)
    {
      if measured.Some? {
        var contentHeight := measured.value;
        var calculatedPages := CeilDiv(contentHeight, PageHeight);
        pageCount := if calculatedPages > 0 then calculatedPages else 1;
      }
    }
  }
}
