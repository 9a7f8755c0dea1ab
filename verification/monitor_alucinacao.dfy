/** `MonitorAlucinacao` of utils/anti_alucinacao.py: a bounded history of the scores
    given to answers, an alert whenever the mean of the last ten drops below 0.6, and
    summary statistics. The clock's `isoformat` and Python's `hash` of the question
    are parameters. */
module MonitorAlucinacao {
  import opened Text

  const MaxHistorico := 100
  const JanelaAlerta := 10
  const MediaMinima := 0.6

  datatype Entrada = Entrada(timestamp: string, score: real, usuarioId: string, perguntaHash: nat)

  datatype Alerta = Alerta(tipo: string, timestamp: string, media: real, amostras: nat)

  /** What `obter_estatisticas` returns: only the count for an empty history. */
  datatype Estatisticas =
    | SemRespostas
    | Estatisticas(totalRespostas: nat, scoreMedio: real, scoreMinimo: real, scoreMaximo: real,
                   respostasConfiaveis: nat, taxaAprovacao: real, alertasAtivos: nat)

  // ---------------------------------------------------------------- sums and extremes

  function Scores(h: seq<Entrada>): (r: seq<real>)
    ensures |r| == |h| && forall i :: 0 <= i < |h| ==> r[i] == h[i].score
  {
    seq(|h|, i requires 0 <= i < |h| => h[i].score)
  }

  /** Python's `sum` on a list of floats. */
  function Soma(s: seq<real>): real
  {
    if s == [] then 0.0 else Soma(s[..|s| - 1]) + s[|s| - 1]
  }

  /** Python's `min` on a non-empty list. */
  function Minimo(s: seq<real>): (m: real)
    requires s != []
    ensures m in s && forall i :: 0 <= i < |s| ==> m <= s[i]
  {
    if |s| == 1 then s[0]
    else
      var m := Minimo(s[..|s| - 1]);
      assert forall i :: 0 <= i < |s| - 1 ==> s[..|s| - 1][i] == s[i];
      if s[|s| - 1] < m then s[|s| - 1] else m
  }

  /** Python's `max` on a non-empty list. */
  function Maximo(s: seq<real>): (m: real)
    requires s != []
    ensures m in s && forall i :: 0 <= i < |s| ==> s[i] <= m
  {
    if |s| == 1 then s[0]
    else
      var m := Maximo(s[..|s| - 1]);
      assert forall i :: 0 <= i < |s| - 1 ==> s[..|s| - 1][i] == s[i];
      if s[|s| - 1] > m then s[|s| - 1] else m
  }

  /** How many scores reach the threshold. */
  function ContarAprovadas(s: seq<real>, limiar: real): (n: nat)
    ensures n <= |s|
  {
    if s == [] then 0 else ContarAprovadas(s[..|s| - 1], limiar) + (if s[|s| - 1] >= limiar then 1 else 0)
  }

  function Media(s: seq<real>): real
    requires s != []
  {
    Soma(s) / |s| as real
  }

  /** The count of passing scores is the number of positions whose score reaches the
      threshold, as the source's generator `sum(1 for s in scores if s >= minimo)`. */
  lemma {:induction false} AprovadasContadas(s: seq<real>, limiar: real)
    ensures ContarAprovadas(s, limiar) == |set i | 0 <= i < |s| && s[i] >= limiar|
  {
    if s != [] {
      var p := s[..|s| - 1];
      var n := |p|;
      AprovadasContadas(p, limiar);
      var antes := set i | 0 <= i < n && p[i] >= limiar;
      var depois := set i | 0 <= i < |s| && s[i] >= limiar;
      assert forall i :: 0 <= i < n ==> p[i] == s[i];
      if s[n] >= limiar {
        assert depois == antes + {n};
      } else {
        assert depois == antes;
      }
    }
  }

  /** A sum of values between `lo` and `hi` lies between `|s|·lo` and `|s|·hi`. */
  lemma {:induction false} SomaEntre(s: seq<real>, lo: real, hi: real)
    requires forall i :: 0 <= i < |s| ==> lo <= s[i] <= hi
    ensures |s| as real * lo <= Soma(s) <= |s| as real * hi
  {
    if s != [] {
      var p := s[..|s| - 1];
      assert forall i :: 0 <= i < |p| ==> p[i] == s[i];
      SomaEntre(p, lo, hi);
      var x := s[|s| - 1];
      assert Soma(s) == Soma(p) + x;
      MultiplicarSucessor(|p|, lo);
      MultiplicarSucessor(|p|, hi);
    }
  }

  /** `(n + 1)·v = n·v + v`, kept apart so that the induction above stays linear. */
  lemma MultiplicarSucessor(n: nat, v: real)
    ensures (n + 1) as real * v == n as real * v + v
  {
  }

  /** Dividing by a positive count keeps the bounds. */
  lemma DivisaoEntre(total: real, n: real, lo: real, hi: real)
    requires n > 0.0 && n * lo <= total <= n * hi
    ensures lo <= total / n <= hi
  {
    var q := total / n;
    assert (q - lo) * n == total - n * lo;
    assert (hi - q) * n == n * hi - total;
  }

  /** The mean lies between the minimum and the maximum. */
  lemma MediaEntreExtremos(s: seq<real>)
    requires s != []
    ensures Minimo(s) <= Media(s) <= Maximo(s)
  {
    MediaEntre(s, Minimo(s), Maximo(s));
  }

  /** The mean of values between `lo` and `hi` lies between them. */
  lemma MediaEntre(s: seq<real>, lo: real, hi: real)
    requires s != [] && forall i :: 0 <= i < |s| ==> lo <= s[i] <= hi
    ensures lo <= Media(s) <= hi
  {
    SomaEntre(s, lo, hi);
    DivisaoEntre(Soma(s), |s| as real, lo, hi);
  }

  // ---------------------------------------------------------------- specification of the updates

  /** The history after appending `e` and, beyond 100 entries, dropping the oldest. */
  function Registrado(h: seq<Entrada>, e: Entrada): seq<Entrada>
  {
    var h1 := h + [e];
    if |h1| > MaxHistorico then h1[1..] else h1
  }

  /** The alert `_verificar_alertas` adds for history `h`, if any. */
  function AlertaDevido(h: seq<Entrada>, agora: string): seq<Alerta>
  {
    if |h| < JanelaAlerta then []
    else
      var ultimos := Scores(h[|h| - JanelaAlerta..]);
      var media := Soma(ultimos) / |ultimos| as real;
      if media < MediaMinima then [Alerta("media_baixa", agora, media, |ultimos|)] else []
  }

  /** From a history of at most 100 entries, registering keeps the last 100 of the
      history extended by the new entry: the new entry is last and the oldest goes first. */
  lemma RegistradoFifo(h: seq<Entrada>, e: Entrada)
    requires |h| <= MaxHistorico
    ensures Registrado(h, e) == LastN(h + [e], MaxHistorico)
    ensures |Registrado(h, e)| <= MaxHistorico
    ensures Registrado(h, e)[|Registrado(h, e)| - 1] == e
    ensures |h| < MaxHistorico ==> Registrado(h, e) == h + [e]
    ensures |h| == MaxHistorico ==> Registrado(h, e) == h[1..] + [e]
  {
    if |h| == MaxHistorico {
      assert (h + [e])[1..] == h[1..] + [e];
    }
  }

  /** An alert is raised only with at least ten entries whose last ten average below 0.6;
      it reports that mean over ten samples. If each of the last ten scores is at least
      0.6, no alert is raised. */
  lemma AlertaSoComMediaBaixa(h: seq<Entrada>, agora: string)
    ensures |AlertaDevido(h, agora)| <= 1
    ensures AlertaDevido(h, agora) != [] <==>
              |h| >= JanelaAlerta && Media(Scores(h[|h| - JanelaAlerta..])) < MediaMinima
    ensures AlertaDevido(h, agora) != [] ==>
              AlertaDevido(h, agora)[0].tipo == "media_baixa" && AlertaDevido(h, agora)[0].amostras == JanelaAlerta
              && AlertaDevido(h, agora)[0].media < MediaMinima
    ensures |h| >= JanelaAlerta && (forall i :: |h| - JanelaAlerta <= i < |h| ==> h[i].score >= MediaMinima)
            ==> AlertaDevido(h, agora) == []
  {
    if |h| >= JanelaAlerta && (forall i :: |h| - JanelaAlerta <= i < |h| ==> h[i].score >= MediaMinima) {
      var ultimos := Scores(h[|h| - JanelaAlerta..]);
      var hi := Maximo(ultimos);
      SomaEntre(ultimos, MediaMinima, hi);
    }
  }

  /** The statistics of a non-empty list of scores, with `alertas` active alerts. */
  function Resumo(scores: seq<real>, confiancaMinima: real, alertas: nat): (r: Estatisticas)
    requires scores != []
    ensures r.Estatisticas? && r.totalRespostas == |scores| && r.alertasAtivos == alertas
    ensures r.scoreMinimo == Minimo(scores) && r.scoreMaximo == Maximo(scores)
    ensures r.scoreMedio == Media(scores) && r.scoreMinimo <= r.scoreMedio <= r.scoreMaximo
    ensures r.respostasConfiaveis == ContarAprovadas(scores, confiancaMinima)
    ensures r.taxaAprovacao == r.respostasConfiaveis as real / |scores| as real
    ensures 0.0 <= r.taxaAprovacao <= 1.0
  {
    var confiaveis := ContarAprovadas(scores, confiancaMinima);
    MediaEntreExtremos(scores);
    DivisaoEntre(confiaveis as real, |scores| as real, 0.0, 1.0);
    Estatisticas(|scores|, Soma(scores) / |scores| as real, Minimo(scores), Maximo(scores),
                 confiaveis, confiaveis as real / |scores| as real, alertas)
  }

  // ---------------------------------------------------------------- the monitor

  class Monitor {
    var historicoScores: seq<Entrada>
    var alertasAtivos: seq<Alerta>

    ghost predicate Valid()
      reads this
    {
      |historicoScores| <= MaxHistorico
    }

    constructor()
      ensures Valid()
      ensures historicoScores == [] && alertasAtivos == []
    {
      historicoScores := [];
      alertasAtivos := [];
    }

    /** `registrar_resposta`: `hashPergunta` is Python's `hash(pergunta)`, which may be
        negative; `% 10000` takes it into 0..9999 as Python's floored `%` does. The clock
        is read twice, for the entry (`agora`) and for a possible alert (`agoraAlerta`). */
    method RegistrarResposta(score: real, usuarioId: string, hashPergunta: int, agora: string, agoraAlerta: string)
      requires Valid()
      modifies this
      ensures Valid()
      ensures historicoScores == Registrado(old(historicoScores), Entrada(agora, score, usuarioId, hashPergunta % 10000))
      ensures alertasAtivos == old(alertasAtivos) + AlertaDevido(historicoScores, agoraAlerta)
      ensures historicoScores[|historicoScores| - 1].perguntaHash < 10000
    {
      var entrada := Entrada(agora, score, usuarioId, hashPergunta % 10000);
      historicoScores := historicoScores + [entrada];
      if |historicoScores| > MaxHistorico {
        historicoScores := historicoScores[1..];
      }
      VerificarAlertas(agoraAlerta);
    }

    /** `_verificar_alertas`. */
    method VerificarAlertas(agora: string)
      modifies this
      ensures historicoScores == old(historicoScores)
      ensures alertasAtivos == old(alertasAtivos) + AlertaDevido(historicoScores, agora)
    {
      if |historicoScores| < JanelaAlerta {
        return;
      }
      var ultimosScores := Scores(historicoScores[|historicoScores| - JanelaAlerta..]);
      var mediaRecente := Soma(ultimosScores) / |ultimosScores| as real;
      if mediaRecente < MediaMinima {
        var alerta := Alerta("media_baixa", agora, mediaRecente, |ultimosScores|);
        alertasAtivos := alertasAtivos + [alerta];
      }
    }

    /** `obter_estatisticas`, with `Config.CONFIANCA_MINIMA` as `confiancaMinima`. */
    function ObterEstatisticas(confiancaMinima: real): (r: Estatisticas)
      reads this
      ensures r.SemRespostas? <==> historicoScores == []
      ensures r.Estatisticas? ==>
                && r.totalRespostas == |historicoScores|
                && r.scoreMinimo in Scores(historicoScores) && r.scoreMaximo in Scores(historicoScores)
                && (forall i :: 0 <= i < |historicoScores| ==> r.scoreMinimo <= historicoScores[i].score <= r.scoreMaximo)
                && r.scoreMinimo <= r.scoreMedio <= r.scoreMaximo
                && r.respostasConfiaveis <= r.totalRespostas
                && 0.0 <= r.taxaAprovacao <= 1.0
                && r.alertasAtivos == |alertasAtivos|
      ensures r.Estatisticas? ==>
                && r.scoreMedio == Media(Scores(historicoScores))
                && r.respostasConfiaveis == ContarAprovadas(Scores(historicoScores), confiancaMinima)
                && r.taxaAprovacao == r.respostasConfiaveis as real / r.totalRespostas as real
    {
      if historicoScores == [] then SemRespostas
      else Resumo(Scores(historicoScores), confiancaMinima, |alertasAtivos|)
    }
  }
}
