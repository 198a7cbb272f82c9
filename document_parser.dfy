/**
 * Uploaded-document checks (src/utils/documentParser.ts): which parser a MIME
 * type is dispatched to, and `validateDocument`, which reports missing
 * recommended sections and unusual sizes as warnings and only an empty text
 * as an error.
 */
module DocumentParser {
  import opened Wrappers
  import opened Text

  datatype Parser = Pdf | Docx | PlainText

  /** `parseDocument`'s dispatch on the file's MIME type; `None` is the "unsupported format" error. */
  function ParserFor(mimeType: string): Option<Parser> {
    if mimeType == "application/pdf" then Some(Pdf)
    else if mimeType == "application/vnd.openxmlformats-officedocument.wordprocessingml.document"
         || mimeType == "application/msword" then Some(Docx)
    else if mimeType == "text/plain" then Some(PlainText)
    else None
  }

  const UnsupportedFormat := "Formato de arquivo não suportado"

  /** The warnings `validateDocument` can give, in the order it checks them. */
  datatype Warning = MissingIntroduction | MissingMethodology | MissingResults | TooShort | TooLong {

    /** The text pushed onto `warnings`. */
    function Message(): string {
      match this
      case MissingIntroduction => "Seção \"Introdução\" não encontrada (recomendada)"
      case MissingMethodology => "Seção \"Metodologia\" não encontrada (recomendada)"
      case MissingResults => "Seção \"Resultados\" não encontrada (recomendada)"
      case TooShort => "Documento muito curto (menos de 1000 caracteres)"
      case TooLong => "Documento muito longo (mais de 50.000 caracteres). Análise pode demorar."
    }

    /** The position of the check that gives this warning. */
    function Rank(): nat {
      match this
      case MissingIntroduction => 0
      case MissingMethodology => 1
      case MissingResults => 2
      case TooShort => 3
      case TooLong => 4
    }
  }

  const EmptyError := "Documento vazio ou não foi possível extrair texto"

  datatype Validation = Validation(isValid: bool, errors: seq<string>, warnings: seq<Warning>)

  /** Every warning, in the order of the checks that give them. */
  const CheckOrder: seq<Warning> := [MissingIntroduction, MissingMethodology, MissingResults, TooShort, TooLong]

  predicate MentionsIntroduction(lower: string) {
    Contains(lower, "introdução") || Contains(lower, "introduction")
  }

  predicate MentionsMethodology(lower: string) {
    Contains(lower, "metodologia") || Contains(lower, "método") || Contains(lower, "methodology")
  }

  predicate MentionsResults(lower: string) {
    Contains(lower, "resultados") || Contains(lower, "results")
  }

  /** What the checks look at: the three keyword searches on the lower-cased text, and its length. */
  datatype Findings = Findings(hasIntroduction: bool, hasMethodology: bool, hasResults: bool, length: nat)

  function FindingsOf(text: string): Findings {
    var lowercaseText := Lower(text);
    Findings(MentionsIntroduction(lowercaseText), MentionsMethodology(lowercaseText), MentionsResults(lowercaseText), |text|)
  }

  /** Whether the check behind warning `w` fires. */
  predicate Raised(w: Warning, f: Findings) {
    match w
    case MissingIntroduction => !f.hasIntroduction
    case MissingMethodology => !f.hasMethodology
    case MissingResults => !f.hasResults
    case TooShort => f.length < 1000
    case TooLong => f.length > 50000
  }

  /** The warning `w` if its check fires, nothing otherwise. */
  function Pick(w: Warning, f: Findings): seq<Warning> {
    if Raised(w, f) then [w] else []
  }

  /** The warnings of `ws` whose check fires, in the order of `ws`. */
  function Selected(ws: seq<Warning>, f: Findings): seq<Warning> {
    if ws == [] then [] else Pick(ws[0], f) + Selected(ws[1..], f)
  }

  /** The pushes so far, then check `k` and the selection from check `k + 1` on. */
  lemma SelectStep(pushed: seq<Warning>, k: nat, f: Findings)
    requires k < |CheckOrder|
    ensures pushed + Selected(CheckOrder[k..], f) == (pushed + Pick(CheckOrder[k], f)) + Selected(CheckOrder[k + 1..], f)
  {
    assert CheckOrder[k..][1..] == CheckOrder[k + 1..];
  }

  /** A warning is selected exactly when it is one of the candidates and its check fires. */
  lemma {:induction false} SelectedMembership(ws: seq<Warning>, f: Findings, w: Warning)
    ensures w in Selected(ws, f) <==> w in ws && Raised(w, f)
    decreases |ws|
  {
    if ws != [] {
      SelectedMembership(ws[1..], f, w);
      assert w in ws <==> w == ws[0] || w in ws[1..];
    }
  }

  /** Warnings listed in the order of the checks that give them, none twice. */
  predicate InCheckOrder(ws: seq<Warning>) {
    forall i, j :: 0 <= i < j < |ws| ==> ws[i].Rank() < ws[j].Rank()
  }

  /** Selecting keeps the order of the candidates. */
  lemma {:induction false} SelectedKeepsOrder(ws: seq<Warning>, f: Findings)
    requires InCheckOrder(ws)
    ensures InCheckOrder(Selected(ws, f))
    decreases |ws|
  {
    if ws != [] {
      var rest := ws[1..];
      assert InCheckOrder(rest) by {
        assert forall j :: 0 <= j < |rest| ==> rest[j] == ws[j + 1];
      }
      SelectedKeepsOrder(rest, f);
      var tail := Selected(rest, f);
      forall x | x in tail
        ensures ws[0].Rank() < x.Rank()
      {
        SelectedMembership(rest, f, x);
        var j :| 0 <= j < |rest| && rest[j] == x;
        assert ws[j + 1] == x;
      }
      var head := if Raised(ws[0], f) then [ws[0]] else [];
      assert Selected(ws, f) == head + tail;
      forall i, j | 0 <= i < j < |head + tail|
        ensures (head + tail)[i].Rank() < (head + tail)[j].Rank()
      {
        if i < |head| {
          assert (head + tail)[j] in tail;
        } else {
          assert (head + tail)[i] == tail[i - |head|] && (head + tail)[j] == tail[j - |head|];
        }
      }
    }
  }

  /** The two size checks never both fire, so at most four of the five warnings are selected. */
  lemma SelectedAtMostFour(f: Findings)
    ensures |Selected(CheckOrder, f)| <= 4
  {
    var sizes := CheckOrder[3..];
    assert sizes[1..] == [TooLong] && sizes[1..][1..] == [];
    assert Selected(sizes[1..], f) == if f.length > 50000 then [TooLong] else [];
    assert Selected(sizes, f) == (if f.length < 1000 then [TooShort] else []) + Selected(sizes[1..], f);
    assert CheckOrder[1..][1..] == CheckOrder[2..] && CheckOrder[2..][1..] == sizes;
    assert |Selected(CheckOrder[2..], f)| <= 1 + |Selected(sizes, f)|;
    assert |Selected(CheckOrder[1..], f)| <= 1 + |Selected(CheckOrder[2..], f)|;
  }

  /**
   * What the selection says: each of the five warnings is present exactly
   * when its check fires, they come in check order, and the two size
   * warnings exclude each other so there are at most four.
   */
  lemma SelectedWarnings(f: Findings)
    ensures MissingIntroduction in Selected(CheckOrder, f) <==> !f.hasIntroduction
    ensures MissingMethodology in Selected(CheckOrder, f) <==> !f.hasMethodology
    ensures MissingResults in Selected(CheckOrder, f) <==> !f.hasResults
    ensures TooShort in Selected(CheckOrder, f) <==> f.length < 1000
    ensures TooLong in Selected(CheckOrder, f) <==> f.length > 50000
    ensures InCheckOrder(Selected(CheckOrder, f))
    ensures |Selected(CheckOrder, f)| <= 4
  {
    SelectedMembership(CheckOrder, f, MissingIntroduction);
    SelectedMembership(CheckOrder, f, MissingMethodology);
    SelectedMembership(CheckOrder, f, MissingResults);
    SelectedMembership(CheckOrder, f, TooShort);
    SelectedMembership(CheckOrder, f, TooLong);
    SelectedKeepsOrder(CheckOrder, f);
    SelectedAtMostFour(f);
  }

  /** An empty text mentions no section. */
  lemma EmptyTextFindings()
    ensures FindingsOf([]) == Findings(false, false, false, 0)
  {
    assert Lower([]) == [];
  }

  /**
   * What `validateDocument`'s warnings say about a text: a section warning
   * exactly when no keyword of the section occurs in the lower-cased text, a
   * size warning exactly when the length is out of range, in check order and
   * at most four.
   */
  lemma ValidationWarnings(text: string)
    ensures MissingIntroduction in Selected(CheckOrder, FindingsOf(text)) <==> !MentionsIntroduction(Lower(text))
    ensures MissingMethodology in Selected(CheckOrder, FindingsOf(text)) <==> !MentionsMethodology(Lower(text))
    ensures MissingResults in Selected(CheckOrder, FindingsOf(text)) <==> !MentionsResults(Lower(text))
    ensures TooShort in Selected(CheckOrder, FindingsOf(text)) <==> |text| < 1000
    ensures TooLong in Selected(CheckOrder, FindingsOf(text)) <==> |text| > 50000
    ensures InCheckOrder(Selected(CheckOrder, FindingsOf(text)))
    ensures |Selected(CheckOrder, FindingsOf(text))| <= 4
  {
    SelectedWarnings(FindingsOf(text));
  }

  /** An empty text draws the three section warnings and the short warning. */
  lemma EmptyTextWarnings()
    ensures Selected(CheckOrder, FindingsOf([])) == [MissingIntroduction, MissingMethodology, MissingResults, TooShort]
  {
    var f := Findings(false, false, false, 0);
    EmptyTextFindings();
    assert CheckOrder[4..] == [TooLong] && CheckOrder[4..][1..] == [];
    assert Selected(CheckOrder[4..], f) == [];
    assert Selected(CheckOrder[3..], f) == [TooShort];
  }

  /**
   * The five checks of `validateDocument`, in order, each pushing its warning
   * when it fires; the result is the selection from the check order.
   */
  method CollectWarnings(hasIntroduction: bool, hasMethodology: bool, hasResults: bool, length: nat)
    returns (warnings: seq<Warning>)
    ensures warnings == Selected(CheckOrder, Findings(hasIntroduction, hasMethodology, hasResults, length))
  {
    ghost var f := Findings(hasIntroduction, hasMethodology, hasResults, length);
    warnings := [];
    assert warnings + Selected(CheckOrder[0..], f) == Selected(CheckOrder, f);
    SelectStep(warnings, 0, f);
    ghost var before0 := warnings;
    if !hasIntroduction {
      warnings := warnings + [MissingIntroduction];
    }
    assert warnings == before0 + Pick(MissingIntroduction, f);
    assert warnings + Selected(CheckOrder[1..], f) == Selected(CheckOrder, f);
    SelectStep(warnings, 1, f);
    ghost var before1 := warnings;
    if !hasMethodology {
      warnings := warnings + [MissingMethodology];
    }
    assert warnings == before1 + Pick(MissingMethodology, f);
    assert warnings + Selected(CheckOrder[2..], f) == Selected(CheckOrder, f);
    SelectStep(warnings, 2, f);
    ghost var before2 := warnings;
    if !hasResults {
      warnings := warnings + [MissingResults];
    }
    assert warnings == before2 + Pick(MissingResults, f);
    assert warnings + Selected(CheckOrder[3..], f) == Selected(CheckOrder, f);
    SelectStep(warnings, 3, f);
    ghost var before3 := warnings;
    if length < 1000 {
      warnings := warnings + [TooShort];
    }
    assert warnings == before3 + Pick(TooShort, f);
    assert warnings + Selected(CheckOrder[4..], f) == Selected(CheckOrder, f);
    SelectStep(warnings, 4, f);
    ghost var before4 := warnings;
    if length > 50000 {
      warnings := warnings + [TooLong];
    }
    assert warnings == before4 + Pick(TooLong, f);
    assert warnings + Selected(CheckOrder[5..], f) == Selected(CheckOrder, f);
    assert warnings + [] == warnings;
  }

  /** `validateDocument`: only an empty text is an error; the warnings are the checks that fire, in order. */
  method ValidateDocument(text: string) returns (v: Validation)
    ensures v.isValid <==> |text| > 0
    ensures v.errors == if |text| == 0 then [EmptyError] else []
    ensures v.warnings == Selected(CheckOrder, FindingsOf(text))
  {
    var errors: seq<string> := [];
    var warnings: seq<Warning>;
    var lowercaseText := Lower(text);

    var hasIntroduction := MentionsIntroduction(lowercaseText);
    var hasMethodology := MentionsMethodology(lowercaseText);
    var hasResults := MentionsResults(lowercaseText);
    assert FindingsOf(text) == Findings(hasIntroduction, hasMethodology, hasResults, |text|);
    warnings := CollectWarnings(hasIntroduction, hasMethodology, hasResults, |text|);

    if |text| == 0 {
      errors := errors + [EmptyError];
    }
    v := Validation(|errors| == 0, errors, warnings);
  }

  /** Every type `parseDocument` accepts is handled by exactly one parser, and only the four listed types are. */
  lemma ParserDispatch(mimeType: string)
    ensures ParserFor(mimeType).Some? <==>
      mimeType in ["application/pdf", "application/vnd.openxmlformats-officedocument.wordprocessingml.document",
                   "application/msword", "text/plain"]
  {
  }

  /** Lower-casing keeps positions: a slice of the lower-cased text is the lower-cased slice. */
  lemma LowerSlice(s: string, i: nat, j: nat)
    requires i <= j <= |s|
    ensures Lower(s)[i..j] == Lower(s[i..j])
  {
  }

  /** A capitalised heading is found too: "INTRODUÇÃO" anywhere silences the introduction warning. */
  lemma CapitalisedIntroductionFound(s: string, i: nat)
    requires OccursAt(s, "INTRODUÇÃO", i)
    ensures MentionsIntroduction(Lower(s))
  {
    LowerSlice(s, i, i + 10);
    assert Lower("INTRODUÇÃO") == "introdução";
    assert OccursAt(Lower(s), "introdução", i);
  }
}
