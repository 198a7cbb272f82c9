/**
 * `getWordCountFromHtml` (src/utils/wordCount.ts): the word count shown for
 * the rich-text sections. The html-to-text `convert` call is a parameter
 * that the model does not interpret.
 */
module WordCount {
  import opened Text

  /**
   * Blank input counts 0 whatever `convert` would make of it; any other input
   * counts the words (maximal non-whitespace runs) of its plain-text conversion.
   */
  function GetWordCountFromHtml(html: string, convert: string -> string): (r: nat)
    ensures AllWhitespace(html) ==> r == 0
    ensures !AllWhitespace(html) ==> r == WordRuns(convert(html))
  {
    if html == [] || Trim(html) == [] then 0
    else
      var plain := convert(html);
      SplitNonEmptyCountsRuns(Trim(plain));
      TrimKeepsRuns(plain);
      |NonEmpty(SplitWs(Trim(plain)))|
  }

  /** A non-blank input counts 0 exactly when its conversion has no non-whitespace character. */
  lemma ZeroIffBlankConversion(html: string, convert: string -> string)
    requires !AllWhitespace(html)
    ensures GetWordCountFromHtml(html, convert) == 0 <==> AllWhitespace(convert(html))
  {
    NoRunsIffBlank(convert(html));
  }

  /**
   * Two conversions that differ only in one whitespace run being a single
   * space give the same count.
   */
  lemma CollapsedWhitespaceSameCount(html: string, convert: string -> string, collapsed: string -> string,
                                     a: string, w: string, b: string)
    requires w != [] && AllWhitespace(w)
    requires convert(html) == a + w + b && collapsed(html) == a + [' '] + b
    ensures GetWordCountFromHtml(html, convert) == GetWordCountFromHtml(html, collapsed)
  {
    CollapseBlankKeepsRuns(a, w, b, false);
  }

  /** A positive count means the stored section is not the empty string. */
  lemma PositiveCountMeansNonEmpty(html: string, convert: string -> string)
    requires GetWordCountFromHtml(html, convert) > 0
    ensures html != []
  {
  }
}
