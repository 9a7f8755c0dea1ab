/** The text processing of `GeminiClient` in bot/gemini_client.py: the legal sources
    cited by an answer, the confidence the client gives an answer, the conversation
    context put in front of a question, and the checks on the model's raw reply. The
    calls to the Gemini API are not modelled: the reply's text is a parameter. */
module GeminiClient {
  import opened Results
  import opened Text
  import opened Regex
  import opened DbManager

  /** The six source patterns of `_extrair_fontes`, searched with `re.IGNORECASE`. */
  const PadroesFontes: seq<string> := [
    @"(?i)Lei\s+(?:nº\s*)?(\d+(?:\.\d+)*(?:/\d+)?)",
    @"(?i)Decreto\s+(?:nº\s*)?(\d+(?:\.\d+)*(?:/\d+)?)",
    @"(?i)Art(?:igo)?\.\s*(\d+)",
    @"(?i)CF(?:/88)?(?:\s*,?\s*art\.\s*(\d+))?",
    @"(?i)Constituição\s+Federal",
    @"(?i)CLT(?:\s*,?\s*art\.\s*(\d+))?"
  ]

  const MaxFontes := 5

  /** Lower-case, as written in the source. */
  const TermosTecnicos: seq<string> := [
    "administração pública", "servidor público", "estatutário",
    "princípio", "lei", "decreto", "constitucional"
  ]

  const ExpressoesIncerteza: seq<string> := [
    "possivelmente", "provavelmente", "creio que",
    "não tenho certeza", "pode ser que"
  ]

  const ConfiancaBase := 0.7
  const BonusFontes := 0.15
  const BonusTermo := 0.02
  const PenalidadeIncerteza := 0.1

  // ---------------------------------------------------------------- sources

  /** Every match of the patterns `padroes`, pattern by pattern, each in text order. */
  function Ocorrencias(engine: Engine, texto: string, padroes: seq<string>): seq<string>
  {
    if padroes == [] then []
    else Ocorrencias(engine, texto, padroes[..|padroes| - 1]) + engine(padroes[|padroes| - 1], texto)
  }

  /** `list(set(xs))`, listed in the order of first occurrence. */
  function Distintos(xs: seq<string>): seq<string>
  {
    if xs == [] then []
    else
      var d := Distintos(xs[..|xs| - 1]);
      if xs[|xs| - 1] in d then d else d + [xs[|xs| - 1]]
  }

  /** `Distintos` lists each element of `xs` exactly once. */
  lemma {:induction false} DistintosListaOConjunto(xs: seq<string>)
    ensures forall x :: x in Distintos(xs) <==> x in xs
    ensures forall i, j :: 0 <= i < j < |Distintos(xs)| ==> Distintos(xs)[i] != Distintos(xs)[j]
    ensures |Distintos(xs)| == |set x | x in xs|
  {
    if xs != [] {
      var p := xs[..|xs| - 1];
      var x := xs[|xs| - 1];
      DistintosListaOConjunto(p);
      assert xs == p + [x];
      assert (set y | y in xs) == (set y | y in p) + {x};
      if x !in Distintos(p) {
        assert x !in (set y | y in p);
      } else {
        assert (set y | y in xs) == (set y | y in p);
      }
    }
  }

  /** `_extrair_fontes`: every match of every source pattern is collected, then the
      duplicates are dropped and at most five are kept. */
  method ExtrairFontes(engine: Engine, texto: string) returns (fontesUnicas: seq<string>)
    ensures var todas := Ocorrencias(engine, texto, PadroesFontes);
            fontesUnicas == Distintos(todas)[..Min(MaxFontes, |Distintos(todas)|)]
  {
    var fontes: seq<string> := [];
    var i := 0;
    while i < |PadroesFontes|
      invariant 0 <= i <= |PadroesFontes|
      invariant fontes == Ocorrencias(engine, texto, PadroesFontes[..i])
    {
      var padrao := PadroesFontes[i];
      var matches := engine(padrao, texto);
      var j := 0;
      while j < |matches|
        invariant 0 <= j <= |matches|
        invariant fontes == Ocorrencias(engine, texto, PadroesFontes[..i]) + matches[..j]
      {
        fontes := fontes + [matches[j]];
        assert matches[..j + 1] == matches[..j] + [matches[j]];
        j := j + 1;
      }
      assert matches[..j] == matches;
      assert PadroesFontes[..i + 1][..i] == PadroesFontes[..i];
      i := i + 1;
    }
    assert PadroesFontes[..i] == PadroesFontes;
    var unicas := Distintos(fontes);
    fontesUnicas := unicas[..Min(MaxFontes, |unicas|)];
  }

  /** At most five sources, no repetition, each the full text of a match of one of the
      patterns; there is at least one exactly when some pattern matched, and there are
      five whenever at least five different texts matched. */
  lemma FontesExtraidas(engine: Engine, texto: string)
    ensures var todas := Ocorrencias(engine, texto, PadroesFontes);
            var r := Distintos(todas)[..Min(MaxFontes, |Distintos(todas)|)];
            && |r| <= MaxFontes
            && (forall i, j :: 0 <= i < j < |r| ==> r[i] != r[j])
            && (forall f :: f in r ==> f in todas)
            && (r == [] <==> todas == [])
            && |r| == Min(MaxFontes, |set f | f in todas|)
  {
    var todas := Ocorrencias(engine, texto, PadroesFontes);
    DistintosListaOConjunto(todas);
    if todas != [] {
      assert todas[0] in Distintos(todas);
    }
  }

  /** A source is found exactly when some pattern matches somewhere. */
  lemma {:induction false} OcorrenciasVazias(engine: Engine, texto: string, padroes: seq<string>)
    ensures Ocorrencias(engine, texto, padroes) == [] <==>
              forall k :: 0 <= k < |padroes| ==> engine(padroes[k], texto) == []
  {
    if padroes != [] {
      OcorrenciasVazias(engine, texto, padroes[..|padroes| - 1]);
      assert forall k :: 0 <= k < |padroes| - 1 ==> padroes[..|padroes| - 1][k] == padroes[k];
    }
  }

  // ---------------------------------------------------------------- confidence

  /** The score before the final clamp. */
  function ConfiancaBruta(engine: Engine, resposta: string): real
  {
    var minuscula := Lower(resposta);
    ConfiancaBase
    + (if Ocorrencias(engine, resposta, PadroesFontes) != [] then BonusFontes else 0.0)
    + BonusTermo * TermCount(TermosTecnicos, minuscula) as real
    - PenalidadeIncerteza * TermCount(ExpressoesIncerteza, minuscula) as real
  }

  /** `_calcular_confianca`. */
  method CalcularConfianca(engine: Engine, resposta: string) returns (c: real)
    ensures c == Clamp01(ConfiancaBruta(engine, resposta))
  {
    var confiancaBase := ConfiancaBase;
    var fontes := ExtrairFontes(engine, resposta);
    FontesExtraidas(engine, resposta);
    if fontes != [] {
      confiancaBase := confiancaBase + BonusFontes;
    }
    ghost var inicio := confiancaBase;
    var minuscula := Lower(resposta);
    var i := 0;
    while i < |TermosTecnicos|
      invariant 0 <= i <= |TermosTecnicos|
      invariant confiancaBase == inicio + BonusTermo * TermCount(TermosTecnicos[..i], minuscula) as real
    {
      assert TermosTecnicos[..i + 1][..i] == TermosTecnicos[..i];
      if Contains(minuscula, TermosTecnicos[i]) {
        confiancaBase := confiancaBase + BonusTermo;
      }
      i := i + 1;
    }
    assert TermosTecnicos[..i] == TermosTecnicos;
    ghost var meio := confiancaBase;
    i := 0;
    while i < |ExpressoesIncerteza|
      invariant 0 <= i <= |ExpressoesIncerteza|
      invariant confiancaBase == meio - PenalidadeIncerteza * TermCount(ExpressoesIncerteza[..i], minuscula) as real
    {
      assert ExpressoesIncerteza[..i + 1][..i] == ExpressoesIncerteza[..i];
      if Contains(minuscula, ExpressoesIncerteza[i]) {
        confiancaBase := confiancaBase - PenalidadeIncerteza;
      }
      i := i + 1;
    }
    assert ExpressoesIncerteza[..i] == ExpressoesIncerteza;
    c := Clamp01(confiancaBase);
  }

  /** The unclamped score already lies in [0.2, 0.99]: at most five uncertainty
      expressions take 0.5 off 0.7, and the source bonus and the seven terms add at most
      0.29. So the clamp never changes it, and the result always lies in [0, 1]. */
  lemma ConfiancaSemCorte(engine: Engine, resposta: string)
    ensures 0.2 <= ConfiancaBruta(engine, resposta) <= 0.99
    ensures Clamp01(ConfiancaBruta(engine, resposta)) == ConfiancaBruta(engine, resposta)
  {
  }

  /** Citing a source is worth exactly 0.15: two answers with the same terms and
      expressions differ by 0.15 when only one of them cites a source. */
  lemma BonusDeFontes(engine: Engine, r1: string, r2: string)
    requires Lower(r1) == Lower(r2)
    requires Ocorrencias(engine, r1, PadroesFontes) != [] && Ocorrencias(engine, r2, PadroesFontes) == []
    ensures ConfiancaBruta(engine, r1) == ConfiancaBruta(engine, r2) + BonusFontes
  {
  }

  /** Each term and expression counts once, however often it occurs: the score depends
      only on which of them occur. */
  lemma ConfiancaSoPorPresenca(engine: Engine, r1: string, r2: string)
    requires (Ocorrencias(engine, r1, PadroesFontes) == []) == (Ocorrencias(engine, r2, PadroesFontes) == [])
    requires forall k :: 0 <= k < |TermosTecnicos| ==>
               (Contains(Lower(r1), TermosTecnicos[k]) <==> Contains(Lower(r2), TermosTecnicos[k]))
    requires forall k :: 0 <= k < |ExpressoesIncerteza| ==>
               (Contains(Lower(r1), ExpressoesIncerteza[k]) <==> Contains(Lower(r2), ExpressoesIncerteza[k]))
    ensures ConfiancaBruta(engine, r1) == ConfiancaBruta(engine, r2)
  {
    TermCountPorPresenca(TermosTecnicos, Lower(r1), Lower(r2));
    TermCountPorPresenca(ExpressoesIncerteza, Lower(r1), Lower(r2));
  }

  lemma {:induction false} TermCountPorPresenca(terms: seq<string>, s1: string, s2: string)
    requires forall k :: 0 <= k < |terms| ==> (Contains(s1, terms[k]) <==> Contains(s2, terms[k]))
    ensures TermCount(terms, s1) == TermCount(terms, s2)
  {
    if terms != [] {
      TermCountPorPresenca(terms[..|terms| - 1], s1, s2);
    }
  }

  // ---------------------------------------------------------------- conversation context

  const CabecalhoContexto := "\n=== CONTEXTO DA CONVERSA ===\n"
  const RodapeContexto := "=== NOVA PERGUNTA ===\n"
  const InteracoesNoContexto := 3

  /** The lines one interaction contributes. */
  function Bloco(p: Par): string
  {
    "USUÁRIO: " + p.pergunta + "\n" + "ASSISTENTE: " + p.resposta + "\n\n"
  }

  function Blocos(h: seq<Par>): string
  {
    if h == [] then "" else Blocos(h[..|h| - 1]) + Bloco(h[|h| - 1])
  }

  /** The text `_formatar_contexto` returns; `None` is a context without `historico`. */
  function ContextoFormatado(historico: Option<seq<Par>>): string
  {
    if historico.None? || historico.value == [] then ""
    else CabecalhoContexto + Blocos(LastN(historico.value, InteracoesNoContexto)) + RodapeContexto
  }

  /** `_formatar_contexto`. */
  method FormatarContexto(historico: Option<seq<Par>>) returns (contextoStr: string)
    ensures contextoStr == ContextoFormatado(historico)
  {
    if historico.None? || historico.value == [] {
      return "";
    }
    contextoStr := CabecalhoContexto;
    var ultimas := LastN(historico.value, InteracoesNoContexto);
    contextoStr := AcrescentarBlocos(contextoStr, ultimas);
    contextoStr := contextoStr + RodapeContexto;
  }

  /** The loop of `_formatar_contexto`: each interaction appends its two lines. */
  method AcrescentarBlocos(inicio: string, ultimas: seq<Par>) returns (contextoStr: string)
    ensures contextoStr == inicio + Blocos(ultimas)
  {
    contextoStr := inicio;
    var i := 0;
    while i < |ultimas|
      invariant 0 <= i <= |ultimas|
      invariant contextoStr == inicio + Blocos(ultimas[..i])
    {
      ghost var feito := Blocos(ultimas[..i]);
      contextoStr := AnexarInteracao(contextoStr, ultimas[i]);
      BlocosPrefixo(ultimas, i);
      Associar(inicio, feito, Bloco(ultimas[i]));
      i := i + 1;
    }
    assert ultimas[..i] == ultimas;
  }

  lemma Associar(a: string, b: string, c: string)
    ensures a + b + c == a + (b + c)
  {
  }

  /** One iteration of that loop: the question line, then the answer line and a blank one. */
  method AnexarInteracao(antes: string, p: Par) returns (contextoStr: string)
    ensures contextoStr == antes + Bloco(p)
  {
    contextoStr := antes + "USUÁRIO: " + p.pergunta + "\n";
    contextoStr := contextoStr + "ASSISTENTE: " + p.resposta + "\n\n";
    AcrescentarBloco(antes, p);
  }

  /** The two appends of one loop iteration add the interaction's block. */
  lemma AcrescentarBloco(antes: string, p: Par)
    ensures antes + "USUÁRIO: " + p.pergunta + "\n" + "ASSISTENTE: " + p.resposta + "\n\n" == antes + Bloco(p)
  {
  }

  /** One more interaction of `h` adds its block. */
  lemma BlocosPrefixo(h: seq<Par>, i: nat)
    requires i < |h|
    ensures Blocos(h[..i + 1]) == Blocos(h[..i]) + Bloco(h[i])
  {
    assert h[..i + 1][..i] == h[..i];
  }

  /** Only the last three interactions are shown, in order: anything older does not
      change the text, which is framed by the header and the footer. */
  lemma SoAsTresUltimas(antigas: seq<Par>, recentes: seq<Par>)
    requires |recentes| == InteracoesNoContexto
    ensures ContextoFormatado(Some(antigas + recentes)) == ContextoFormatado(Some(recentes))
    ensures ContextoFormatado(Some(recentes))
            == CabecalhoContexto + Bloco(recentes[0]) + Bloco(recentes[1]) + Bloco(recentes[2]) + RodapeContexto
  {
    assert (antigas + recentes)[|antigas + recentes| - 3..] == recentes;
    assert LastN(recentes, InteracoesNoContexto) == recentes;
    TresBlocos(recentes);
  }

  lemma TresBlocos(h: seq<Par>)
    requires |h| == 3
    ensures Blocos(h) == Bloco(h[0]) + Bloco(h[1]) + Bloco(h[2])
  {
    assert h[..2][..1] == [h[0]];
    assert h[..2] == [h[0], h[1]];
    assert Blocos(h) == Blocos(h[..2]) + Bloco(h[2]);
    assert Blocos(h[..2]) == Blocos(h[..2][..1]) + Bloco(h[1]);
    assert Blocos([h[0]]) == Blocos([]) + Bloco(h[0]);
  }

  /** A missing or empty history gives no context at all; any other starts with the
      header and ends with the footer. */
  lemma ContextoEnquadrado(historico: Option<seq<Par>>)
    ensures ContextoFormatado(historico) == "" <==> historico.None? || historico.value == []
    ensures historico.Some? && historico.value != [] ==>
              var s := ContextoFormatado(historico);
              s[..|CabecalhoContexto|] == CabecalhoContexto && s[|s| - |RodapeContexto|..] == RodapeContexto
  {
  }

  // ---------------------------------------------------------------- the reply

  /** What `_processar_resposta` returns. */
  datatype RespostaGemini = RespostaGemini(resposta: string, confianca: real, fontes: seq<string>,
                                           modeloUsado: string, timestamp: string)

  const MsgRespostaVazia := "Resposta vazia do Gemini"

  /** `_processar_resposta`: `texto` is the reply's `text` (`None` when there is no reply
      or no text), `modelo` the configured model and `agora` the clock's `isoformat()`. */
  method ProcessarResposta(engine: Engine, texto: Option<string>, modelo: string, agora: string)
    returns (r: Result<RespostaGemini>)
    ensures r.Err? <==> texto.None? || texto.value == []
    ensures r.Err? ==> r.error == MsgRespostaVazia
    ensures r.Ok? ==>
              && r.value.resposta == Strip(texto.value)
              && r.value.confianca == Clamp01(ConfiancaBruta(engine, Strip(texto.value)))
              && 0.2 <= r.value.confianca <= 0.99
              && r.value.modeloUsado == modelo && r.value.timestamp == agora
    ensures r.Ok? ==>
              var todas := Ocorrencias(engine, Strip(texto.value), PadroesFontes);
              r.value.fontes == Distintos(todas)[..Min(MaxFontes, |Distintos(todas)|)]
  {
    if texto.None? || texto.value == [] {
      return Err(MsgRespostaVazia);
    }
    var respostaTexto := Strip(texto.value);
    var fontes := ExtrairFontes(engine, respostaTexto);
    var confianca := CalcularConfianca(engine, respostaTexto);
    ConfiancaSemCorte(engine, respostaTexto);
    return Ok(RespostaGemini(respostaTexto, confianca, fontes, modelo, agora));
  }
}
