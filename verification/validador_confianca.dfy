/** The heuristic confidence scorer and hallucination-risk detector of
    utils/anti_alucinacao.py, class `ValidadorConfianca`.

    The scorer starts from 0.5, adds 0.15 for each high-confidence pattern and takes
    0.2 for each low-confidence pattern that occurs (once per pattern, however often it
    occurs), adds capped bonuses for technical terms and cited sources, a structure
    bonus and a length adjustment, and clamps the sum to [0, 1]. Scores are exact reals. */
module ValidadorConfianca {
  import opened Results
  import opened Text
  import opened Regex

  // ---------------------------------------------------------------- pattern library

  const PadroesAltaConfianca: seq<Pattern> := [
    Opaque(@"(?i)lei\s+(?:nº\s*)?(\d+(?:\.\d+)*(?:/\d+)?)"),
    Opaque(@"(?i)decreto\s+(?:nº\s*)?(\d+(?:\.\d+)*(?:/\d+)?)"),
    Opaque(@"(?i)art(?:igo)?\.\s*(\d+)"),
    Opaque(@"(?i)constituição\s+federal"),
    Literal(@"(?i)cf(?:/88)?", ["cf"]),  // the optional suffix never decides whether it occurs
    Literal(@"(?i)clt", ["clt"]),
    Opaque(@"(?i)estatuto\s+(?:do\s+)?servidor"),
    Opaque(@"(?i)regime\s+jurídico\s+único")
  ]

  const PadroesBaixaConfianca: seq<Pattern> := [
    Opaque(@"(?i)acredito\s+que"),
    Literal(@"(?i)possivelmente", ["possivelmente"]),
    Literal(@"(?i)provavelmente", ["provavelmente"]),
    Opaque(@"(?i)creio\s+que"),
    Opaque(@"(?i)não\s+tenho\s+certeza"),
    Opaque(@"(?i)pode\s+ser\s+que"),
    Literal(@"(?i)talvez", ["talvez"]),
    Opaque(@"(?i)suponho\s+que"),
    Opaque(@"(?i)imagino\s+que"),
    Literal(@"(?i)(?:em\s+)?geral(?:mente)?", ["geral"]),  // occurs iff "geral" occurs
    Literal(@"(?i)normalmente", ["normalmente"]),
    Opaque(@"(?i)costuma\s+ser")
  ]

  const TermosTecnicosConcursos: seq<string> := [
    "administração pública", "servidor público", "estatutário",
    "celetista", "regime jurídico", "estabilidade", "efetividade",
    "concurso público", "processo seletivo", "cargo público",
    "função pública", "remuneração", "subsídio", "gratificação",
    "licença", "afastamento", "aposentadoria", "pensão",
    "moralidade", "legalidade", "impessoalidade", "publicidade",
    "eficiência", "supremacia do interesse público",
    "auto-executoriedade", "presunção de legitimidade"
  ]

  const FontesConfiaveis: seq<string> := [
    "constituição federal", "cf/88", "lei 8.112/90",
    "lei 8.429/92", "decreto-lei 5.452/43", "clt",
    "súmula", "jurisprudência", "stf", "stj", "tcu"
  ]

  // ---------------------------------------------------------------- score specification

  /** The technical-term bonus: 0.02 per distinct listed term present, at most 0.2. */
  function BonusTermos(resposta: string): real
  {
    MinReal(0.2, 0.02 * ContarTermosTecnicos(resposta) as real)
  }

  /** A cited source that names one of the trusted instruments. */
  predicate FonteConfiavel(fonte: string)
  {
    exists k | 0 <= k < |FontesConfiaveis| :: Contains(Lower(fonte), FontesConfiaveis[k])
  }

  function NumeroFontesConfiaveis(fontes: seq<string>): (n: nat)
    ensures n <= |fontes|
  {
    if fontes == [] then 0
    else NumeroFontesConfiaveis(fontes[..|fontes| - 1]) + (if FonteConfiavel(fontes[|fontes| - 1]) then 1 else 0)
  }

  /** The source bonus: nothing without sources; otherwise 0.03 per source up to 0.15,
      plus 0.05 for each source naming a trusted instrument. */
  function BonusFontes(fontes: seq<string>): real
  {
    if fontes == [] then 0.0
    else MinReal(0.15, 0.03 * |fontes| as real) + 0.05 * NumeroFontesConfiaveis(fontes) as real
  }

  predicate MarcadorDeLista(c: char)
  {
    IsDigit(c) || c == '-' || c == '*' || c == '•'
  }

  /** `re.search(r'(?:\n|^)[\d\-\*\•]\s*', resposta)`: a list marker at the start of the
      text or right after a line break. */
  predicate TemListaOuTopicos(resposta: string)
  {
    (|resposta| > 0 && MarcadorDeLista(resposta[0]))
    || exists i | 0 <= i < |resposta| - 1 :: resposta[i] == '\n' && MarcadorDeLista(resposta[i + 1])
  }

  const PadraoExplicacao := Literal("(?:ou seja|isto é|em outras palavras|por exemplo)",
                                    ["ou seja", "isto é", "em outras palavras", "por exemplo"])
  const PadraoAplicacao := Literal("(?:na prática|aplicação|exemplo|caso)",
                                   ["na prática", "aplicação", "exemplo", "caso"])
  const PadraoDiferenciacao := Literal("(?:diferente|distinto|não confundir|ao contrário)",
                                       ["diferente", "distinto", "não confundir", "ao contrário"])

  /** The structure bonus: 0.05 for list formatting, 0.03 for each of three explanation probes. */
  function BonusEstrutura(engine: Engine, resposta: string): real
  {
    (if TemListaOuTopicos(resposta) then 0.05 else 0.0)
    + (if Search(engine, PadraoExplicacao, resposta) then 0.03 else 0.0)
    + (if Search(engine, PadraoAplicacao, resposta) then 0.03 else 0.0)
    + (if Search(engine, PadraoDiferenciacao, resposta) then 0.03 else 0.0)
  }

  /** +0.05 for 100..2000 characters, -0.1 below 50, nothing otherwise. */
  function AjusteComprimento(n: nat): real
  {
    if 100 <= n <= 2000 then 0.05 else if n < 50 then -0.1 else 0.0
  }

  /** The raw score from its parts: the number of high- and low-confidence patterns
      found, the bonuses for terms, sources and structure, and the answer's length. */
  function Pontuacao(alta: nat, baixa: nat, termos: real, fontes: real, estrutura: real, comprimento: nat): real
  {
    0.5 + 0.15 * alta as real - 0.2 * baixa as real + termos + fontes + estrutura + AjusteComprimento(comprimento)
  }

  /** The score before clamping. */
  function ScoreBruto(engine: Engine, resposta: string, fontes: seq<string>): real
  {
    Pontuacao(MatchCount(engine, PadroesAltaConfianca, resposta), MatchCount(engine, PadroesBaixaConfianca, resposta),
              BonusTermos(resposta), BonusFontes(fontes), BonusEstrutura(engine, resposta), |resposta|)
  }

  function ScoreConfianca(engine: Engine, resposta: string, fontes: seq<string>): real
  {
    Clamp01(ScoreBruto(engine, resposta, fontes))
  }

  // ---------------------------------------------------------------- the scorer

  /** `_contar_termos_tecnicos`: the number of distinct listed terms that occur in the
      lower-cased answer. */
  function ContarTermosTecnicos(resposta: string): (n: nat)
    ensures n == |set k | 0 <= k < |TermosTecnicosConcursos| && Contains(Lower(resposta), TermosTecnicosConcursos[k])|
    ensures n <= |TermosTecnicosConcursos|
  {
    TermCountIsSetSize(TermosTecnicosConcursos, Lower(resposta));
    TermCount(TermosTecnicosConcursos, Lower(resposta))
  }

  /** `_analisar_estrutura_resposta`: one bonus per probe, so at most 0.14 in all. */
  method AnalisarEstruturaResposta(engine: Engine, resposta: string) returns (bonus: real)
    ensures bonus == BonusEstrutura(engine, resposta)
    ensures 0.0 <= bonus <= 0.14
  {
    bonus := 0.0;
    if TemListaOuTopicos(resposta) {
      bonus := bonus + 0.05;
    }
    if Search(engine, PadraoExplicacao, resposta) {
      bonus := bonus + 0.03;
    }
    if Search(engine, PadraoAplicacao, resposta) {
      bonus := bonus + 0.03;
    }
    if Search(engine, PadraoDiferenciacao, resposta) {
      bonus := bonus + 0.03;
    }
  }

  /** Steps 1 and 2 of `_calcular_score_confianca`: starting from `inicial`, adds `passo`
      once for each pattern found in the answer. */
  method SomarPorPadrao(engine: Engine, padroes: seq<Pattern>, resposta: string, inicial: real, passo: real)
    returns (score: real)
    ensures score == inicial + passo * MatchCount(engine, padroes, resposta) as real
  {
    score := inicial;
    var i := 0;
    while i < |padroes|
      invariant 0 <= i <= |padroes|
      invariant score == inicial + passo * MatchCount(engine, padroes[..i], resposta) as real
    {
      assert padroes[..i + 1][..i] == padroes[..i];
      if Search(engine, padroes[i], resposta) {
        score := score + passo;
      }
      i := i + 1;
    }
    assert padroes[..i] == padroes;
  }

  /** Step 3: the number of listed terms occurring in the lower-cased answer, counted
      term by term. */
  method ContarTermos(termos: seq<string>, respostaLower: string) returns (n: nat)
    ensures n == TermCount(termos, respostaLower)
  {
    n := 0;
    var i := 0;
    while i < |termos|
      invariant 0 <= i <= |termos|
      invariant n == TermCount(termos[..i], respostaLower)
    {
      assert termos[..i + 1][..i] == termos[..i];
      if Contains(respostaLower, termos[i]) {
        n := n + 1;
      }
      i := i + 1;
    }
    assert termos[..i] == termos;
  }

  /** Step 4 of `_calcular_confianca`: the bonus for the cited sources, accumulated
      source by source. */
  method SomarBonusFontes(fontes: seq<string>) returns (bonus: real)
    ensures bonus == BonusFontes(fontes)
  {
    bonus := 0.0;
    if fontes != [] {
      bonus := MinReal(0.15, |fontes| as real * 0.03);
      var afterCount := bonus;
      var i := 0;
      while i < |fontes|
        invariant 0 <= i <= |fontes|
        invariant bonus == afterCount + 0.05 * NumeroFontesConfiaveis(fontes[..i]) as real
      {
        assert fontes[..i + 1][..i] == fontes[..i];
        var fonteLower := Lower(fontes[i]);
        var j := 0;
        while j < |FontesConfiaveis|
          invariant 0 <= j <= |FontesConfiaveis|
          invariant forall k :: 0 <= k < j ==> !Contains(fonteLower, FontesConfiaveis[k])
          invariant bonus == afterCount + 0.05 * NumeroFontesConfiaveis(fontes[..i]) as real
        {
          if Contains(fonteLower, FontesConfiaveis[j]) {
            bonus := bonus + 0.05;
            break;
          }
          j := j + 1;
        }
        i := i + 1;
      }
      assert fontes[..i] == fontes;
    }
  }

  /** `_calcular_score_confianca`: the score in [0, 1] that the specification above defines. */
  method CalcularScoreConfianca(engine: Engine, resposta: string, fontes: seq<string>) returns (score: real)
    ensures score == ScoreConfianca(engine, resposta, fontes)
    ensures 0.0 <= score <= 1.0
  {
    // 1. high-confidence patterns, once each
    ghost var alta := MatchCount(engine, PadroesAltaConfianca, resposta);
    score := SomarPorPadrao(engine, PadroesAltaConfianca, resposta, 0.5, 0.15);

    // 2. low-confidence patterns, once each
    ghost var baixa := MatchCount(engine, PadroesBaixaConfianca, resposta);
    score := SomarPorPadrao(engine, PadroesBaixaConfianca, resposta, score, -0.2);
    assert score == 0.5 + 0.15 * alta as real - 0.2 * baixa as real;

    // 3. technical terms
    var termosEncontrados := ContarTermos(TermosTecnicosConcursos, Lower(resposta));
    var bonusTermos := MinReal(0.2, termosEncontrados as real * 0.02);
    assert bonusTermos == BonusTermos(resposta);
    score := score + bonusTermos;

    // 4. cited sources
    var bonusFontes := SomarBonusFontes(fontes);
    score := score + bonusFontes;

    // 5. structure
    var bonusEstrutura := AnalisarEstruturaResposta(engine, resposta);
    score := score + bonusEstrutura;
    assert score == 0.5 + 0.15 * alta as real - 0.2 * baixa as real + bonusTermos + bonusFontes + bonusEstrutura;

    // 6. length
    if 100 <= |resposta| <= 2000 {
      score := score + 0.05;
    } else if |resposta| < 50 {
      score := score - 0.1;
    }
    assert score == Pontuacao(alta, baixa, bonusTermos, bonusFontes, bonusEstrutura, |resposta|);

    score := Clamp01(score);
  }

  // ---------------------------------------------------------------- the decision

  /** An entry of the response dictionary: absent (the default applies), present, or
      present with a value of a type that makes the computation raise. */
  datatype Campo<T> = Ausente | Presente(valor: T) | Invalido

  /** The dictionary the LLM client returns: `resposta`, `confianca`, `fontes`. */
  datatype RespostaCompleta = RespostaCompleta(resposta: Campo<string>, confianca: Campo<real>, fontes: seq<string>)

  /** The blend of the own score and the model's self-reported confidence. */
  function ScoreFinal(engine: Engine, resposta: string, fontes: seq<string>, confiancaGemini: real): real
  {
    ScoreConfianca(engine, resposta, fontes) * 0.7 + confiancaGemini * 0.3
  }

  function ValorOu<T>(c: Campo<T>, padrao: T): T
  {
    if c.Presente? then c.valor else padrao
  }

  /** `resposta_confiavel`: an answer passes when 0.7 x own score + 0.3 x the model's
      confidence (0.0 when absent) reaches the minimum; a field that makes the
      computation raise rejects the answer. */
  function RespostaConfiavel(engine: Engine, r: RespostaCompleta, confiancaMinima: real): (ok: bool)
    ensures r.resposta.Invalido? || r.confianca.Invalido? ==> !ok
    ensures r.confianca.Ausente? && !r.resposta.Invalido? ==>
              (ok <==> 0.7 * ScoreConfianca(engine, ValorOu(r.resposta, ""), r.fontes) >= confiancaMinima)
    ensures !r.resposta.Invalido? && !r.confianca.Invalido? ==>
              (ok <==> ScoreFinal(engine, ValorOu(r.resposta, ""), r.fontes, ValorOu(r.confianca, 0.0)) >= confiancaMinima)
    ensures ok ==> ScoreFinal(engine, ValorOu(r.resposta, ""), r.fontes, ValorOu(r.confianca, 0.0)) >= confiancaMinima
  {
    if r.resposta.Invalido? || r.confianca.Invalido? then false
    else ScoreFinal(engine, ValorOu(r.resposta, ""), r.fontes, ValorOu(r.confianca, 0.0)) >= confiancaMinima
  }

  /** The blended score stays in [0, 1] when the model's confidence does, and a better
      own score never lowers it. */
  lemma ScoreFinalRange(engine: Engine, resposta: string, fontes: seq<string>, confiancaGemini: real)
    requires 0.0 <= confiancaGemini <= 1.0
    ensures 0.0 <= ScoreFinal(engine, resposta, fontes, confiancaGemini) <= 1.0
    ensures ScoreFinal(engine, resposta, fontes, confiancaGemini) >= 0.7 * ScoreConfianca(engine, resposta, fontes)
  {
  }

  /** The score contributions are bounded as the pattern library dictates. */
  lemma ContribuicoesLimitadas(engine: Engine, resposta: string, fontes: seq<string>)
    ensures 0.0 <= 0.15 * MatchCount(engine, PadroesAltaConfianca, resposta) as real <= 1.2
    ensures 0.0 <= 0.2 * MatchCount(engine, PadroesBaixaConfianca, resposta) as real <= 2.4
    ensures 0.0 <= BonusTermos(resposta) <= 0.2
    ensures 0.0 <= BonusFontes(fontes) <= 0.15 + 0.05 * |fontes| as real
    ensures 0.0 <= BonusEstrutura(engine, resposta) <= 0.14
  {
  }

  /** Each pattern counts once: the high-confidence bonus and the low-confidence penalty
      are fixed multiples of the number of DISTINCT patterns that occur, so repeating a
      phrase changes nothing. */
  lemma UmaVezPorPadrao(engine: Engine, resposta: string)
    ensures MatchCount(engine, PadroesAltaConfianca, resposta)
            == |set k | 0 <= k < |PadroesAltaConfianca| && Search(engine, PadroesAltaConfianca[k], resposta)|
    ensures MatchCount(engine, PadroesBaixaConfianca, resposta)
            == |set k | 0 <= k < |PadroesBaixaConfianca| && Search(engine, PadroesBaixaConfianca[k], resposta)|
  {
    MatchCountIsSetSize(engine, PadroesAltaConfianca, resposta);
    MatchCountIsSetSize(engine, PadroesBaixaConfianca, resposta);
  }

  /** Two answers with the same length, the same technical terms, the same structure and
      the same set of occurring patterns get the same score, whatever the number of
      occurrences of each pattern. */
  lemma {:induction false} ScoreIgnoraRepeticoes(engine: Engine, t1: string, t2: string, fontes: seq<string>)
    requires |t1| == |t2|
    requires forall k :: 0 <= k < |PadroesAltaConfianca| ==>
               (Search(engine, PadroesAltaConfianca[k], t1) <==> Search(engine, PadroesAltaConfianca[k], t2))
    requires forall k :: 0 <= k < |PadroesBaixaConfianca| ==>
               (Search(engine, PadroesBaixaConfianca[k], t1) <==> Search(engine, PadroesBaixaConfianca[k], t2))
    requires ContarTermosTecnicos(t1) == ContarTermosTecnicos(t2)
    requires BonusEstrutura(engine, t1) == BonusEstrutura(engine, t2)
    ensures ScoreConfianca(engine, t1, fontes) == ScoreConfianca(engine, t2, fontes)
  {
    MatchCountDependsOnlyOnWhichMatch(engine, PadroesAltaConfianca, t1, t2);
    MatchCountDependsOnlyOnWhichMatch(engine, PadroesBaixaConfianca, t1, t2);
  }

  /** One more source below the cap of five adds exactly 0.03 (plus 0.05 if trusted);
      beyond five sources the count bonus stays at 0.15. */
  lemma {:induction false} BonusFontesMonotono(fontes: seq<string>, nova: string)
    requires fontes != []
    ensures |fontes| < 5 ==>
              BonusFontes(fontes + [nova]) == BonusFontes(fontes) + 0.03 + (if FonteConfiavel(nova) then 0.05 else 0.0)
    ensures |fontes| >= 5 ==>
              BonusFontes(fontes + [nova]) == BonusFontes(fontes) + (if FonteConfiavel(nova) then 0.05 else 0.0)
  {
    assert (fontes + [nova])[..|fontes|] == fontes;
  }

  // ---------------------------------------------------------------- risks

  /** The `tipo` key of a risk entry; `Nome` is the string the dictionary holds. */
  datatype TipoRisco = NumerosSemFonte | PercentuaisEspecificos | AfirmacaoCategorica | PossivelContradicao
  {
    function Nome(): string
    {
      match this
      case NumerosSemFonte => "numeros_sem_fonte"
      case PercentuaisEspecificos => "percentuais_especificos"
      case AfirmacaoCategorica => "afirmacao_categorica"
      case PossivelContradicao => "possivel_contradicao"
    }
  }

  /** Distinct kinds carry distinct `tipo` strings, so counting risks by kind is
      counting them by their `tipo` entry. */
  lemma NomesDosTipos(t1: TipoRisco, t2: TipoRisco)
    requires t1.Nome() == t2.Nome()
    ensures t1 == t2
  {
  }

  /** An advisory risk: the `tipo`, `descricao` and `detalhes` entries of the dictionary. */
  datatype Risco = Risco(tipo: TipoRisco, descricao: string, detalhes: string)

  const PadraoDatas := Opaque(@"\b\d{4}/\d{4}\b|\b\d{1,2}/\d{1,2}/\d{4}\b")
  const PadraoPercentuais := Opaque(@"\b\d+(?:\,\d+)?%")
  const PadraoFonteNumeros := Literal("(?:lei|decreto|portaria)", ["lei", "decreto", "portaria"])

  const AfirmacoesCategoricas: seq<Pattern> := [
    Literal(@"(?i)sempre", ["sempre"]), Literal(@"(?i)nunca", ["nunca"]),
    Literal(@"(?i)todos", ["todos"]), Literal(@"(?i)nenhum", ["nenhum"]),
    Literal(@"(?i)jamais", ["jamais"]), Literal(@"(?i)invariavelmente", ["invariavelmente"])
  ]

  /** Dates and year ranges are flagged only when the text names no lei/decreto/portaria. */
  function RiscoNumeros(engine: Engine, resposta: string): seq<Risco>
  {
    var numeros := engine(PadraoDatas.source, resposta);
    if numeros != [] && !Search(engine, PadraoFonteNumeros, resposta) then
      [Risco(NumerosSemFonte, "Números específicos mencionados sem citação de fonte",
             "Números encontrados: " + Join(", ", numeros))]
    else []
  }

  /** Percentages are always flagged. */
  function RiscoPercentuais(engine: Engine, resposta: string): seq<Risco>
  {
    var percentuais := engine(PadraoPercentuais.source, resposta);
    if percentuais != [] then
      [Risco(PercentuaisEspecificos, "Percentuais específicos que podem não estar atualizados",
             "Percentuais: " + Join(", ", percentuais))]
    else []
  }

  function RiscoCategorico(p: Pattern): Risco
  {
    Risco(AfirmacaoCategorica, "Afirmação muito categórica que pode ter exceções",
          "Padrão encontrado: " + p.source)
  }

  /** One risk per categorical pattern that occurs, in the order of the list. */
  function RiscosCategoricos(engine: Engine, ps: seq<Pattern>, resposta: string): seq<Risco>
  {
    if ps == [] then []
    else RiscosCategoricos(engine, ps[..|ps| - 1], resposta)
         + (if Search(engine, ps[|ps| - 1], resposta) then [RiscoCategorico(ps[|ps| - 1])] else [])
  }

  function RiscoContradicao(resposta: string): seq<Risco>
  {
    if DetectarContradicoes(resposta) then
      [Risco(PossivelContradicao, "Possível contradição interna detectada", "Verificação manual recomendada")]
    else []
  }

  /** The risk list `identificar_riscos_alucinacao` builds, in the order it builds it. */
  function Riscos(engine: Engine, resposta: string): seq<Risco>
  {
    RiscoNumeros(engine, resposta) + RiscoPercentuais(engine, resposta)
    + RiscosCategoricos(engine, AfirmacoesCategoricas, resposta) + RiscoContradicao(resposta)
  }

  method IdentificarRiscosAlucinacao(engine: Engine, resposta: string) returns (riscos: seq<Risco>)
    ensures riscos == Riscos(engine, resposta)
  {
    riscos := [];

    var numeros := engine(PadraoDatas.source, resposta);
    if numeros != [] && !Search(engine, PadraoFonteNumeros, resposta) {
      riscos := riscos + [Risco(NumerosSemFonte, "Números específicos mencionados sem citação de fonte",
                                "Números encontrados: " + Join(", ", numeros))];
    }

    var percentuais := engine(PadraoPercentuais.source, resposta);
    if percentuais != [] {
      riscos := riscos + [Risco(PercentuaisEspecificos, "Percentuais específicos que podem não estar atualizados",
                                "Percentuais: " + Join(", ", percentuais))];
    }
    assert riscos == RiscoNumeros(engine, resposta) + RiscoPercentuais(engine, resposta);

    var categoricos := AcrescentarCategoricos(engine, resposta, riscos);

    riscos := categoricos;
    if DetectarContradicoes(resposta) {
      riscos := riscos + [Risco(PossivelContradicao, "Possível contradição interna detectada",
                                "Verificação manual recomendada")];
    }
  }

  /** The loop of `identificar_riscos_alucinacao` over the categorical patterns. */
  method AcrescentarCategoricos(engine: Engine, resposta: string, antes: seq<Risco>) returns (riscos: seq<Risco>)
    ensures riscos == antes + RiscosCategoricos(engine, AfirmacoesCategoricas, resposta)
  {
    riscos := antes;
    var i := 0;
    while i < |AfirmacoesCategoricas|
      invariant 0 <= i <= |AfirmacoesCategoricas|
      invariant riscos == antes + RiscosCategoricos(engine, AfirmacoesCategoricas[..i], resposta)
    {
      assert AfirmacoesCategoricas[..i + 1][..i] == AfirmacoesCategoricas[..i];
      var padrao := AfirmacoesCategoricas[i];
      if Search(engine, padrao, resposta) {
        riscos := riscos + [RiscoCategorico(padrao)];
      }
      i := i + 1;
    }
    assert AfirmacoesCategoricas[..i] == AfirmacoesCategoricas;
  }

  /** How many risks of the list have the given `tipo`. */
  function ContarTipo(rs: seq<Risco>, tipo: TipoRisco): (n: nat)
    ensures n <= |rs|
  {
    if rs == [] then 0 else (if rs[0].tipo == tipo then 1 else 0) + ContarTipo(rs[1..], tipo)
  }

  lemma {:induction false} ContarTipoConcat(a: seq<Risco>, b: seq<Risco>, tipo: TipoRisco)
    ensures ContarTipo(a + b, tipo) == ContarTipo(a, tipo) + ContarTipo(b, tipo)
  {
    if a == [] {
      assert a + b == b;
    } else {
      assert (a + b)[1..] == a[1..] + b;
      ContarTipoConcat(a[1..], b, tipo);
    }
  }

  /** The categorical risks are exactly one per distinct categorical pattern that occurs. */
  lemma {:induction false} RiscosCategoricosContagem(engine: Engine, ps: seq<Pattern>, resposta: string, tipo: TipoRisco)
    ensures |RiscosCategoricos(engine, ps, resposta)| == MatchCount(engine, ps, resposta)
    ensures ContarTipo(RiscosCategoricos(engine, ps, resposta), tipo)
            == (if tipo == AfirmacaoCategorica then MatchCount(engine, ps, resposta) else 0)
  {
    if ps != [] {
      var n := |ps| - 1;
      RiscosCategoricosContagem(engine, ps[..n], resposta, tipo);
      var extra := if Search(engine, ps[n], resposta) then [RiscoCategorico(ps[n])] else [];
      ContarTipoConcat(RiscosCategoricos(engine, ps[..n], resposta), extra, tipo);
      if extra != [] {
        assert extra[1..] == [];
      }
    }
  }

  /** At most one date risk, raised exactly when a number occurs and no legal
      instrument is named. */
  lemma RiscosNumerosSemFonte(engine: Engine, resposta: string)
    ensures ContarTipo(Riscos(engine, resposta), NumerosSemFonte)
            == (if engine(PadraoDatas.source, resposta) != [] && !Search(engine, PadraoFonteNumeros, resposta) then 1 else 0)
  {
    RiscosPorParte(engine, resposta, NumerosSemFonte);
    ParteNumeros(engine, resposta, NumerosSemFonte);
    PartePercentuais(engine, resposta, NumerosSemFonte);
    ParteContradicao(resposta, NumerosSemFonte);
  }

  /** One percentage risk whenever a percentage occurs. */
  lemma RiscosPercentuais(engine: Engine, resposta: string)
    ensures ContarTipo(Riscos(engine, resposta), PercentuaisEspecificos)
            == (if engine(PadraoPercentuais.source, resposta) != [] then 1 else 0)
  {
    RiscosPorParte(engine, resposta, PercentuaisEspecificos);
    ParteNumeros(engine, resposta, PercentuaisEspecificos);
    PartePercentuais(engine, resposta, PercentuaisEspecificos);
    ParteContradicao(resposta, PercentuaisEspecificos);
  }

  /** One categorical risk per distinct categorical word that occurs, so at most six
      however often they are repeated. */
  lemma RiscosCategoricosDistintos(engine: Engine, resposta: string)
    ensures ContarTipo(Riscos(engine, resposta), AfirmacaoCategorica)
            == |set k | 0 <= k < |AfirmacoesCategoricas| && Search(engine, AfirmacoesCategoricas[k], resposta)|
    ensures ContarTipo(Riscos(engine, resposta), AfirmacaoCategorica) <= 6
  {
    MatchCountIsSetSize(engine, AfirmacoesCategoricas, resposta);
    RiscosPorParte(engine, resposta, AfirmacaoCategorica);
    ParteNumeros(engine, resposta, AfirmacaoCategorica);
    PartePercentuais(engine, resposta, AfirmacaoCategorica);
    ParteContradicao(resposta, AfirmacaoCategorica);
  }

  /** At most one contradiction risk, raised exactly when the answer contradicts itself. */
  lemma RiscosContradicao(engine: Engine, resposta: string)
    ensures ContarTipo(Riscos(engine, resposta), PossivelContradicao) == (if HaContradicao(resposta) then 1 else 0)
  {
    RiscosPorParte(engine, resposta, PossivelContradicao);
    ParteNumeros(engine, resposta, PossivelContradicao);
    PartePercentuais(engine, resposta, PossivelContradicao);
    ParteContradicao(resposta, PossivelContradicao);
  }

  /** The length of the list: nothing is listed beyond the four kinds above. */
  lemma RiscosTotal(engine: Engine, resposta: string)
    ensures |Riscos(engine, resposta)|
            == (if engine(PadraoDatas.source, resposta) != [] && !Search(engine, PadraoFonteNumeros, resposta) then 1 else 0)
               + (if engine(PadraoPercentuais.source, resposta) != [] then 1 else 0)
               + MatchCount(engine, AfirmacoesCategoricas, resposta)
               + (if HaContradicao(resposta) then 1 else 0)
  {
    RiscosCategoricosContagem(engine, AfirmacoesCategoricas, resposta, AfirmacaoCategorica);
    ParteNumeros(engine, resposta, AfirmacaoCategorica);
    PartePercentuais(engine, resposta, AfirmacaoCategorica);
    ParteContradicao(resposta, AfirmacaoCategorica);
  }

  /** The date part holds one risk, of its own kind, exactly when a number occurs and no
      legal instrument is named. */
  lemma ParteNumeros(engine: Engine, resposta: string, tipo: TipoRisco)
    ensures var presente := engine(PadraoDatas.source, resposta) != [] && !Search(engine, PadraoFonteNumeros, resposta);
            && |RiscoNumeros(engine, resposta)| == (if presente then 1 else 0)
            && ContarTipo(RiscoNumeros(engine, resposta), tipo) == (if presente && tipo == NumerosSemFonte then 1 else 0)
  {
  }

  /** The percentage part holds one risk, of its own kind, exactly when a percentage occurs. */
  lemma PartePercentuais(engine: Engine, resposta: string, tipo: TipoRisco)
    ensures var presente := engine(PadraoPercentuais.source, resposta) != [];
            && |RiscoPercentuais(engine, resposta)| == (if presente then 1 else 0)
            && ContarTipo(RiscoPercentuais(engine, resposta), tipo)
               == (if presente && tipo == PercentuaisEspecificos then 1 else 0)
  {
  }

  /** The contradiction part holds one risk, of its own kind, exactly when the answer
      contradicts itself. */
  lemma ParteContradicao(resposta: string, tipo: TipoRisco)
    ensures && |RiscoContradicao(resposta)| == (if HaContradicao(resposta) then 1 else 0)
            && ContarTipo(RiscoContradicao(resposta), tipo)
               == (if HaContradicao(resposta) && tipo == PossivelContradicao then 1 else 0)
  {
  }

  /** The count of one `tipo` over the four parts of the list. */
  lemma RiscosPorParte(engine: Engine, resposta: string, tipo: TipoRisco)
    ensures ContarTipo(Riscos(engine, resposta), tipo)
            == ContarTipo(RiscoNumeros(engine, resposta), tipo) + ContarTipo(RiscoPercentuais(engine, resposta), tipo)
               + (if tipo == AfirmacaoCategorica then MatchCount(engine, AfirmacoesCategoricas, resposta) else 0)
               + ContarTipo(RiscoContradicao(resposta), tipo)
  {
    var a := RiscoNumeros(engine, resposta);
    var b := RiscoPercentuais(engine, resposta);
    var c := RiscosCategoricos(engine, AfirmacoesCategoricas, resposta);
    var d := RiscoContradicao(resposta);
    ContarTipoConcat(a + b + c, d, tipo);
    ContarTipoConcat(a + b, c, tipo);
    ContarTipoConcat(a, b, tipo);
    RiscosCategoricosContagem(engine, AfirmacoesCategoricas, resposta, tipo);
  }

  // ---------------------------------------------------------------- contradictions

  predicate Terminador(c: char)
  {
    c == '.' || c == '!' || c == '?'
  }

  /** A match of `[.!?]\s+` starts at `i`. */
  predicate FimEm(s: string, i: int)
  {
    0 <= i && i + 1 < |s| && Terminador(s[i]) && IsSpace(s[i + 1])
  }

  /** The first sentence break at or after `i`, or `|s|`. */
  function FimSentencaDesde(s: string, i: nat): (k: nat)
    requires i <= |s|
    ensures i <= k <= |s|
    ensures k < |s| ==> FimEm(s, k)
    ensures forall j :: i <= j < k ==> !FimEm(s, j)
    decreases |s| - i
  {
    if i == |s| || FimEm(s, i) then i else FimSentencaDesde(s, i + 1)
  }

  predicate SemFim(s: string)
  {
    forall i :: 0 <= i < |s| ==> !FimEm(s, i)
  }

  /** `re.split(r'[.!?]\s+', s)`: the text cut at every terminator followed by
      whitespace, the terminator and the whole whitespace run removed. */
  function Sentencas(s: string): (r: seq<string>)
    ensures |r| >= 1
    ensures |r| == 1 <==> SemFim(s)
    ensures forall j :: 0 <= j < |r| ==> SemFim(r[j])
    decreases |s|
  {
    var k := FimSentencaDesde(s, 0);
    if k == |s| then [s]
    else
      assert forall i :: 0 <= i < k ==> (FimEm(s[..k], i) ==> FimEm(s, i));
      [s[..k]] + Sentencas(TrimStart(s[k + 1..], IsSpace))
  }

  const PalavrasContraditorias: seq<(string, string)> := [
    ("obrigatório", "opcional"),
    ("permitido", "proibido"),
    ("deve", "não deve"),
    ("sim", "não"),
    ("sempre", "nunca")
  ]

  /** A contradictory word pair, in either order, across two lower-cased sentences. */
  predicate ParContradiz(atual: string, proxima: string)
  {
    exists k | 0 <= k < |PalavrasContraditorias| ::
      (Contains(atual, PalavrasContraditorias[k].0) && Contains(proxima, PalavrasContraditorias[k].1))
      || (Contains(atual, PalavrasContraditorias[k].1) && Contains(proxima, PalavrasContraditorias[k].0))
  }

  /** Some two adjacent sentences hold a contradictory pair. */
  predicate HaContradicao(resposta: string)
  {
    var ss := Sentencas(resposta);
    exists i | 0 <= i < |ss| - 1 :: ParContradiz(Lower(ss[i]), Lower(ss[i + 1]))
  }

  /** The pair scan from pair `k` on, returning at the first hit. */
  function ParContradizDesde(atual: string, proxima: string, k: nat): (r: bool)
    requires k <= |PalavrasContraditorias|
    ensures r <==> exists j | k <= j < |PalavrasContraditorias| ::
                     (Contains(atual, PalavrasContraditorias[j].0) && Contains(proxima, PalavrasContraditorias[j].1))
                     || (Contains(atual, PalavrasContraditorias[j].1) && Contains(proxima, PalavrasContraditorias[j].0))
    decreases |PalavrasContraditorias| - k
  {
    if k == |PalavrasContraditorias| then false
    else
      var (palavra1, palavra2) := PalavrasContraditorias[k];
      if Contains(atual, palavra1) && Contains(proxima, palavra2) then true
      else if Contains(atual, palavra2) && Contains(proxima, palavra1) then true
      else ParContradizDesde(atual, proxima, k + 1)
  }

  /** The sentence scan from sentence `i` on, returning at the first hit. */
  function ContradicaoDesde(ss: seq<string>, i: nat): (r: bool)
    requires i <= |ss|
    ensures r <==> exists j | i <= j < |ss| - 1 :: ParContradiz(Lower(ss[j]), Lower(ss[j + 1]))
    decreases |ss| - i
  {
    if i + 1 >= |ss| then false
    else if ParContradizDesde(Lower(ss[i]), Lower(ss[i + 1]), 0) then true
    else ContradicaoDesde(ss, i + 1)
  }

  /** `_detectar_contradicoes`. */
  function DetectarContradicoes(resposta: string): (r: bool)
    ensures r <==> HaContradicao(resposta)
  {
    ContradicaoDesde(Sentencas(resposta), 0)
  }

  /** A text with no sentence break is never a contradiction, whatever words it holds. */
  lemma UmaSentencaSemContradicao(resposta: string)
    requires SemFim(resposta)
    ensures !DetectarContradicoes(resposta)
  {
    assert |Sentencas(resposta)| == 1;
  }

  // ---------------------------------------------------------------- suggestions

  const SugestoesScoreBaixo: seq<string> := [
    "Adicionar citações específicas de leis ou regulamentos",
    "Incluir exemplos práticos da aplicação",
    "Organizar informações em tópicos ou listas"
  ]
  const SugestaoBaseLegal := "Referenciar base legal específica"
  const SugestaoExpandir := "Expandir explicação com mais detalhes"
  const SugestaoIncerteza := "Remover expressões de incerteza ou qualificar melhor"
  const PadraoBaseLegal := Literal("(?:lei|decreto|artigo)", ["lei", "decreto", "artigo"])

  predicate UsaIncerteza(engine: Engine, resposta: string)
  {
    exists k | 0 <= k < |PadroesBaixaConfianca| :: Search(engine, PadroesBaixaConfianca[k], resposta)
  }

  /** The suggestions `sugerir_melhorias` returns, in order. */
  function Sugestoes(engine: Engine, resposta: string, score: real): seq<string>
  {
    (if score < 0.7 then SugestoesScoreBaixo else [])
    + (if !Search(engine, PadraoBaseLegal, resposta) then [SugestaoBaseLegal] else [])
    + (if |resposta| < 100 then [SugestaoExpandir] else [])
    + (if UsaIncerteza(engine, resposta) then [SugestaoIncerteza] else [])
  }

  method SugerirMelhorias(engine: Engine, resposta: string, score: real) returns (sugestoes: seq<string>)
    ensures sugestoes == Sugestoes(engine, resposta, score)
  {
    sugestoes := [];
    if score < 0.7 {
      sugestoes := sugestoes + ["Adicionar citações específicas de leis ou regulamentos"];
      sugestoes := sugestoes + ["Incluir exemplos práticos da aplicação"];
      sugestoes := sugestoes + ["Organizar informações em tópicos ou listas"];
    }
    if !Search(engine, PadraoBaseLegal, resposta) {
      sugestoes := sugestoes + ["Referenciar base legal específica"];
    }
    if |resposta| < 100 {
      sugestoes := sugestoes + ["Expandir explicação com mais detalhes"];
    }
    var i := 0;
    while i < |PadroesBaixaConfianca|
      invariant 0 <= i <= |PadroesBaixaConfianca|
      invariant forall k :: 0 <= k < i ==> !Search(engine, PadroesBaixaConfianca[k], resposta)
    {
      if Search(engine, PadroesBaixaConfianca[i], resposta) {
        sugestoes := sugestoes + ["Remover expressões de incerteza ou qualificar melhor"];
        break;
      }
      i := i + 1;
    }
  }

  /** No suggestion is made exactly when the score is at least 0.7, a legal basis is
      cited, the answer has at least 100 characters and no uncertainty pattern occurs;
      each suggestion appears at most once. */
  lemma SemSugestoes(engine: Engine, resposta: string, score: real)
    ensures Sugestoes(engine, resposta, score) == [] <==>
              score >= 0.7 && Search(engine, PadraoBaseLegal, resposta) && |resposta| >= 100
              && forall k :: 0 <= k < |PadroesBaixaConfianca| ==> !Search(engine, PadroesBaixaConfianca[k], resposta)
    ensures |Sugestoes(engine, resposta, score)| <= 6
    ensures forall i, j :: 0 <= i < j < |Sugestoes(engine, resposta, score)| ==>
              Sugestoes(engine, resposta, score)[i] != Sugestoes(engine, resposta, score)[j]
  {
  }

  // ---------------------------------------------------------------- the report

  datatype Detalhes = Detalhes(fontesCitadas: nat, termosTecnicos: nat, comprimentoResposta: nat, estruturaOrganizada: bool)

  /** The dictionary `gerar_relatorio_confianca` returns. */
  datatype Relatorio = Relatorio(
    scoreConfianca: real,
    aprovada: bool,
    timestamp: string,
    detalhes: Detalhes,
    riscosIdentificados: seq<Risco>,
    sugestoesMelhoria: seq<string>,
    limiarConfigurado: real)

  /** `gerar_relatorio_confianca`: approval compares the OWN score (not the blend of
      `resposta_confiavel`) with the minimum. `agora` is the `isoformat` of the clock. A
      non-text answer makes the scorer raise, and nothing here catches it: that is the
      error result. */
  method GerarRelatorioConfianca(engine: Engine, rc: RespostaCompleta, confiancaMinima: real, agora: string)
    returns (r: Result<Relatorio>)
    ensures r.Err? <==> rc.resposta.Invalido?
    ensures r.Ok? ==>
            var resposta := ValorOu(rc.resposta, "");
            && r.value.scoreConfianca == ScoreConfianca(engine, resposta, rc.fontes)
            && 0.0 <= r.value.scoreConfianca <= 1.0
            && (r.value.aprovada <==> r.value.scoreConfianca >= confiancaMinima)
            && r.value.timestamp == agora
            && r.value.detalhes == Detalhes(|rc.fontes|, ContarTermosTecnicos(resposta), |resposta|, TemListaOuTopicos(resposta))
            && r.value.riscosIdentificados == Riscos(engine, resposta)
            && r.value.sugestoesMelhoria == Sugestoes(engine, resposta, r.value.scoreConfianca)
            && r.value.limiarConfigurado == confiancaMinima
  {
    if rc.resposta.Invalido? {
      return Err("TypeError: 'resposta'");
    }
    var resposta := ValorOu(rc.resposta, "");
    var score := CalcularScoreConfianca(engine, resposta, rc.fontes);
    var riscos := IdentificarRiscosAlucinacao(engine, resposta);
    var sugestoes := SugerirMelhorias(engine, resposta, score);
    r := Ok(Relatorio(score, score >= confiancaMinima, agora,
                      Detalhes(|rc.fontes|, ContarTermosTecnicos(resposta), |resposta|, TemListaOuTopicos(resposta)),
                      riscos, sugestoes, confiancaMinima));
  }

  /** The report and `resposta_confiavel` can disagree: when the model is less confident
      than the own score, an accepted answer is also approved by the report; when it is
      more confident, an answer the report approves is also accepted. */
  lemma AprovacaoRelatorioVersusBlend(engine: Engine, rc: RespostaCompleta, confiancaMinima: real)
    requires !rc.resposta.Invalido? && !rc.confianca.Invalido?
    ensures var s := ScoreConfianca(engine, ValorOu(rc.resposta, ""), rc.fontes);
            var g := ValorOu(rc.confianca, 0.0);
            && (g <= s && RespostaConfiavel(engine, rc, confiancaMinima) ==> s >= confiancaMinima)
            && (g >= s && s >= confiancaMinima ==> RespostaConfiavel(engine, rc, confiancaMinima))
  {
  }
}
