/**
 * The editor's suggestion panel (src/components/SuggestionPanel.tsx): a fixed
 * list of suggestions per section, one of which is shown only once the
 * section's text has more words than a per-section threshold.
 */
module SuggestionPanel {
  import opened Text

  datatype SuggestionType = Structure | Clarity | Improvement | Reference

  datatype Icon = Lightbulb | AlertCircle | BookOpen

  /**
   * The fifteen suggestions the panel knows, three per section; each carries
   * its type, title, text and icon.
   */
  datatype Suggestion =
      ClearObjectives | ActionVerbs | Alignment
    | CriticalReview | RecentSources | ThematicOrganisation
    | IntroductionStructure | ClearWriting | SuggestedReference
    | VerbTense | NeededDetail | MethodologicalReference
    | SeparateSections | DataVisualisation | ResultsOrganisation
  {
    function Kind(): SuggestionType {
      match this
      case ClearObjectives => Structure
      case ActionVerbs => Clarity
      case Alignment => Improvement
      case CriticalReview => Structure
      case RecentSources => Reference
      case ThematicOrganisation => Improvement
      case IntroductionStructure => Structure
      case ClearWriting => Clarity
      case SuggestedReference => Reference
      case VerbTense => Structure
      case NeededDetail => Improvement
      case MethodologicalReference => Reference
      case SeparateSections => Structure
      case DataVisualisation => Improvement
      case ResultsOrganisation => Clarity
    }

    function Title(): string {
      match this
      case ClearObjectives => "Objetivos Claros"
      case ActionVerbs => "Verbos de Ação"
      case Alignment => "Alinhamento"
      case CriticalReview => "Revisão Crítica"
      case RecentSources => "Atualidade das Fontes"
      case ThematicOrganisation => "Organização Temática"
      case IntroductionStructure => "Estrutura da Introdução"
      case ClearWriting => "Clareza na Escrita"
      case SuggestedReference => "Referência Sugerida"
      case VerbTense => "Tempo Verbal"
      case NeededDetail => "Detalhamento Necessário"
      case MethodologicalReference => "Referência Metodológica"
      case SeparateSections => "Separação de Seções"
      case DataVisualisation => "Visualização de Dados"
      case ResultsOrganisation => "Organização dos Resultados"
    }

    function Content(): string {
      match this
      case ClearObjectives =>
        "Divida seus objetivos em Geral (o propósito central da pesquisa) e Específicos (metas mensuráveis para alcançar o objetivo geral)."
      case ActionVerbs =>
        "Use verbos precisos como 'analisar', 'investigar', 'avaliar', 'identificar' ao invés de 'estudar' ou 'conhecer'."
      case Alignment =>
        "Certifique-se de que seus objetivos específicos respondem diretamente ao objetivo geral e estão alinhados com sua premissa."
      case CriticalReview =>
        "Não apenas descreva o que outros autores disseram - faça conexões, identifique lacunas e posicione sua pesquisa no contexto existente."
      case RecentSources =>
        "Priorize referências dos últimos 5 anos, especialmente em áreas com rápida evolução tecnológica ou conceitual."
      case ThematicOrganisation =>
        "Organize sua revisão por temas ou conceitos, não apenas cronologicamente ou por autor."
      case IntroductionStructure =>
        "Sua introdução poderia começar contextualizando o problema de forma mais ampla. Considere apresentar dados estatísticos ou um panorama geral do tema."
      case ClearWriting =>
        "Algumas frases estão muito longas. Considere dividi-las para melhorar a legibilidade."
      case SuggestedReference =>
        "Silva et al. (2023). Inteligência Artificial na Educação: Uma revisão sistemática. Este trabalho apresenta um panorama atualizado do uso de IA em contextos educacionais."
      case VerbTense =>
        "A metodologia deve estar em tempo passado, descrevendo os procedimentos que foram realizados."
      case NeededDetail =>
        "Em Ciências Humanas, é importante especificar o perfil dos participantes da pesquisa com mais detalhes (faixa etária, formação, etc.)."
      case MethodologicalReference =>
        "Creswell, J. W. (2014). Projeto de pesquisa: métodos qualitativo, quantitativo e misto. Esta obra é referência em metodologia de pesquisa."
      case SeparateSections =>
        "Evite interpretar resultados nesta seção. Reserve as interpretações e discussões para a seção de Discussão."
      case DataVisualisation =>
        "Considere adicionar elementos visuais (tabelas, gráficos) para ilustrar os dados de forma mais clara."
      case ResultsOrganisation =>
        "Organize os resultados de forma lógica, do geral ao específico, para facilitar a compreensão."
    }

    function Icon(): Icon {
      match this
      case ClearObjectives => Lightbulb
      case ActionVerbs => AlertCircle
      case Alignment => Lightbulb
      case CriticalReview => Lightbulb
      case RecentSources => BookOpen
      case ThematicOrganisation => AlertCircle
      case IntroductionStructure => Lightbulb
      case ClearWriting => AlertCircle
      case SuggestedReference => BookOpen
      case VerbTense => AlertCircle
      case NeededDetail => Lightbulb
      case MethodologicalReference => BookOpen
      case SeparateSections => AlertCircle
      case DataVisualisation => Lightbulb
      case ResultsOrganisation => Lightbulb
    }
  }

  /** The section names the panel has suggestions for. */
  const Sections: seq<string> := ["objectives", "literature", "introduction", "methodology", "results"]

  /** `content.split(/\s+/).filter(Boolean).length`: the number of words of the raw content. */
  function WordCount(content: string): (n: nat)
    ensures n == WordRuns(content)
  {
    SplitNonEmptyCountsRuns(content);
    |NonEmpty(SplitWs(content))|
  }

  /** `cond && suggestion` followed by `filter(Boolean)`: the suggestion or nothing. */
  function Optional(cond: bool, s: Suggestion): seq<Suggestion> {
    if cond then [s] else []
  }

  /** The memoised `suggestions` list for a section and its content. */
  function Suggestions(section: string, content: string): (r: seq<Suggestion>)
    ensures r == [] <==> section !in Sections
    ensures |r| <= 3
  {
    var wordCount := WordCount(content);
    if section == "objectives" then
      [ClearObjectives] + Optional(wordCount > 30, ActionVerbs) + [Alignment]
    else if section == "literature" then
      [CriticalReview] + Optional(wordCount > 50, RecentSources) + [ThematicOrganisation]
    else if section == "introduction" then
      [IntroductionStructure] + Optional(wordCount > 50, ClearWriting) + [SuggestedReference]
    else if section == "methodology" then
      [VerbTense] + Optional(wordCount > 30, NeededDetail) + [MethodologicalReference]
    else if section == "results" then
      [SeparateSections, DataVisualisation] + Optional(wordCount > 40, ResultsOrganisation)
    else []
  }

  /** The word count above which a section's optional suggestion appears. */
  function Threshold(section: string): nat {
    if section == "objectives" || section == "methodology" then 30
    else if section == "results" then 40
    else 50
  }

  /** The suggestion a section shows only above its threshold. */
  function OptionalSuggestion(section: string): Suggestion {
    if section == "objectives" then ActionVerbs
    else if section == "literature" then RecentSources
    else if section == "introduction" then ClearWriting
    else if section == "methodology" then NeededDetail
    else ResultsOrganisation
  }

  /** `isHighlight`: improvements and clarity remarks are highlighted. */
  predicate IsHighlight(s: Suggestion) {
    s.Kind() == Improvement || s.Kind() == Clarity
  }

  /**
   * A known section shows three suggestions when its content has more words
   * than the threshold and two otherwise; the first is always a structure
   * remark.
   */
  lemma SuggestionCount(section: string, content: string)
    requires section in Sections
    ensures |Suggestions(section, content)| == if WordRuns(content) > Threshold(section) then 3 else 2
    ensures Suggestions(section, content)[0].Kind() == Structure
  {
  }

  /**
   * The optional suggestion is shown exactly above the threshold, in the
   * middle for the first four sections and last for the results.
   */
  lemma OptionalShownIffOverThreshold(section: string, content: string)
    requires section in Sections
    ensures OptionalSuggestion(section) in Suggestions(section, content) <==> WordRuns(content) > Threshold(section)
    ensures WordRuns(content) > Threshold(section) ==>
      Suggestions(section, content)[if section == "results" then 2 else 1] == OptionalSuggestion(section)
  {
  }

  /**
   * Above the threshold the full list is shown; below it, the full list with
   * the optional suggestion taken out and the others in the same order.
   */
  lemma ShownListIsFilteredFullList(section: string, content: string, more: string)
    requires section in Sections
    requires WordRuns(content) <= Threshold(section) < WordRuns(more)
    ensures var full, shown := Suggestions(section, more), Suggestions(section, content);
      (forall s :: s in shown ==> s in full)
      && (forall s :: s in full && s != OptionalSuggestion(section) ==> s in shown)
    ensures var full, shown := Suggestions(section, more), Suggestions(section, content);
      exists i :: 0 <= i <= |shown| && full == shown[..i] + [OptionalSuggestion(section)] + shown[i..]
  {
    var full, shown := Suggestions(section, more), Suggestions(section, content);
    var i := if section == "results" then 2 else 1;
    assert full == shown[..i] + [OptionalSuggestion(section)] + shown[i..];
  }

  /**
   * The panel depends on the content only through its word count, so two
   * contents with equally many words show the same suggestions.
   */
  lemma OnlyWordCountMatters(section: string, a: string, b: string)
    requires WordRuns(a) == WordRuns(b)
    ensures Suggestions(section, a) == Suggestions(section, b)
  {
  }

  /** Writing more never removes a suggestion. */
  lemma MoreWordsKeepSuggestions(section: string, a: string, b: string)
    requires WordRuns(a) <= WordRuns(b)
    ensures forall s :: s in Suggestions(section, a) ==> s in Suggestions(section, b)
  {
  }

  /**
   * Objectives, literature and results always show a highlighted suggestion;
   * introduction and methodology show one only above their threshold.
   */
  lemma HighlightShown(section: string, content: string)
    requires section in Sections
    ensures (exists s :: s in Suggestions(section, content) && IsHighlight(s)) <==>
      section in ["objectives", "literature", "results"] || WordRuns(content) > Threshold(section)
  {
    var r := Suggestions(section, content);
    if section in ["objectives", "literature", "results"] || WordRuns(content) > Threshold(section) {
      if section == "objectives" {
        assert Alignment in r;
      } else if section == "literature" {
        assert ThematicOrganisation in r;
      } else if section == "results" {
        assert DataVisualisation in r;
      } else {
        assert OptionalSuggestion(section) in r;
      }
    } else {
      assert forall s :: s in r ==> !IsHighlight(s);
    }
  }
}
