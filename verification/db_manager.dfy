/** The in-memory logic of `DatabaseManager` in database/db_manager.py: the fold that
    pairs the fetched interaction rows into question/answer pairs, and the way the list
    of sources is stored in one column. The SQL itself is not modelled: the rows a query
    returns, or the exception it raises, are parameters. */
module DbManager {
  import opened Results
  import opened Text

  /** One row of `SELECT mensagem, resposta, tipo, timestamp, confianca`. */
  datatype Linha = Linha(mensagem: string, resposta: Option<string>, tipo: string,
                         timestamp: string, confianca: Option<real>)

  /** One entry of the history: the question with its time, and the answer with its
      confidence. */
  datatype Par = Par(pergunta: string, timestamp: string, resposta: string, confianca: Option<real>)

  /** A question waiting for its answer (`pergunta_atual`). */
  datatype Pendente = Pendente(pergunta: string, timestamp: string)

  /** The state of the pairing loop: the pairs so far and the pending question. */
  datatype Estado = Estado(historico: seq<Par>, perguntaAtual: Option<Pendente>)

  // ---------------------------------------------------------------- the pairing fold

  /** One iteration of the loop over the chronological rows. */
  function Passo(e: Estado, row: Linha): Estado
  {
    if row.tipo == "pergunta" then Estado(e.historico, Some(Pendente(row.mensagem, row.timestamp)))
    else if row.tipo == "resposta" && e.perguntaAtual.Some? then
      var p := e.perguntaAtual.value;
      Estado(e.historico + [Par(p.pergunta, p.timestamp, row.mensagem, row.confianca)], None)
    else e
  }

  /** The state after the loop has seen the rows of `cron`, oldest first. */
  function Parear(cron: seq<Linha>): Estado
  {
    if cron == [] then Estado([], None) else Passo(Parear(cron[..|cron| - 1]), cron[|cron| - 1])
  }

  /** `reversed(rows)`: the query returns the newest row first. */
  function Cronologica(rows: seq<Linha>): (r: seq<Linha>)
    ensures |r| == |rows|
    ensures forall k :: 0 <= k < |rows| ==> r[k] == rows[|rows| - 1 - k]
  {
    seq(|rows|, k requires 0 <= k < |rows| => rows[|rows| - 1 - k])
  }

  /** What `obter_historico_conversa` returns for the fetched `rows`: the pairs, cut by
      Python's `[:limite]`. */
  function HistoricoPareado(rows: seq<Linha>, limite: int): seq<Par>
  {
    PySliceTo(Parear(Cronologica(rows)).historico, limite)
  }

  /** The pairing loop of `obter_historico_conversa`. */
  method ParearLinhas(rows: seq<Linha>, limite: int) returns (historico: seq<Par>)
    ensures historico == HistoricoPareado(rows, limite)
  {
    ghost var cron := Cronologica(rows);
    historico := [];
    var perguntaAtual: Option<Pendente> := None;
    var i := |rows|;
    while i > 0
      invariant 0 <= i <= |rows|
      invariant Estado(historico, perguntaAtual) == Parear(cron[..|rows| - i])
    {
      i := i - 1;
      var row := rows[i];
      assert cron[..|rows| - i] == cron[..|rows| - i - 1] + [row];
      if row.tipo == "pergunta" {
        perguntaAtual := Some(Pendente(row.mensagem, row.timestamp));
      } else if row.tipo == "resposta" && perguntaAtual.Some? {
        var p := perguntaAtual.value;
        historico := historico + [Par(p.pergunta, p.timestamp, row.mensagem, row.confianca)];
        perguntaAtual := None;
      }
    }
    assert cron[..|rows|] == cron;
    historico := PySliceTo(historico, limite);
  }

  /** `obter_historico_conversa`: a failing query yields the empty history. */
  method ObterHistoricoConversa(consulta: Result<seq<Linha>>, limite: int) returns (historico: seq<Par>)
    ensures consulta.Err? ==> historico == []
    ensures consulta.Ok? ==> historico == HistoricoPareado(consulta.value, limite)
  {
    if consulta.Err? {
      return [];
    }
    historico := ParearLinhas(consulta.value, limite);
  }

  // ---------------------------------------------------------------- properties of the fold

  /** How many rows of `cron` have type `tipo`. */
  function ContarTipo(cron: seq<Linha>, tipo: string): (n: nat)
    ensures n <= |cron|
  {
    if cron == [] then 0
    else ContarTipo(cron[..|cron| - 1], tipo) + (if cron[|cron| - 1].tipo == tipo then 1 else 0)
  }

  /** Every pair uses up one question row and one answer row, and a pending question is
      a question row not yet used: so there are never more pairs than answer rows, nor
      more than half the rows. */
  lemma {:induction false} ParesContados(cron: seq<Linha>)
    ensures var e := Parear(cron);
            && |e.historico| <= ContarTipo(cron, "resposta")
            && |e.historico| + (if e.perguntaAtual.Some? then 1 else 0) <= ContarTipo(cron, "pergunta")
            && 2 * |e.historico| <= |cron|
  {
    if cron != [] {
      ParesContados(cron[..|cron| - 1]);
      ContarTiposDistintos(cron);
    }
  }

  /** A row is counted under at most one type. */
  lemma {:induction false} ContarTiposDistintos(cron: seq<Linha>)
    ensures ContarTipo(cron, "pergunta") + ContarTipo(cron, "resposta") <= |cron|
  {
    if cron != [] {
      ContarTiposDistintos(cron[..|cron| - 1]);
    }
  }

  /** The history holds at most `limite` pairs, never more than the fetched rows allow,
      and `[:limite]` keeps the EARLIEST pairs of the fetched window. */
  lemma HistoricoLimitado(rows: seq<Linha>, limite: int)
    requires limite >= 0
    ensures var todos := Parear(Cronologica(rows)).historico;
            && |HistoricoPareado(rows, limite)| == Min(limite, |todos|)
            && HistoricoPareado(rows, limite) == todos[..Min(limite, |todos|)]
            && 2 * |HistoricoPareado(rows, limite)| <= |rows|
  {
    ParesContados(Cronologica(rows));
  }

  /** A question row directly followed by an answer row always forms a pair, whatever
      came before: the answer's text and confidence come from the answer row, the time
      from the question row. */
  lemma PerguntaSeguidaDeResposta(cron: seq<Linha>, p: Linha, r: Linha)
    requires p.tipo == "pergunta" && r.tipo == "resposta"
    ensures Parear(cron + [p, r]) == Estado(Parear(cron).historico + [Par(p.mensagem, p.timestamp, r.mensagem, r.confianca)], None)
  {
    assert (cron + [p, r])[..|cron| + 1] == cron + [p];
    assert (cron + [p])[..|cron|] == cron;
  }

  /** An answer row with no pending question is dropped without a trace. */
  lemma RespostaSemPerguntaDescartada(cron: seq<Linha>, r: Linha)
    requires Parear(cron).perguntaAtual.None? && r.tipo != "pergunta"
    ensures Parear(cron + [r]) == Parear(cron)
  {
    assert (cron + [r])[..|cron|] == cron;
  }

  /** A question followed by another question is forgotten: only the later one can
      still be paired. */
  lemma PerguntaSobrescrita(cron: seq<Linha>, p1: Linha, p2: Linha)
    requires p1.tipo == "pergunta" && p2.tipo == "pergunta"
    ensures Parear(cron + [p1, p2]) == Parear(cron + [p2])
  {
    assert (cron + [p1, p2])[..|cron| + 1] == cron + [p1];
    assert (cron + [p1])[..|cron|] == cron;
    assert (cron + [p2])[..|cron|] == cron;
  }

  /** `p` pairs a question row of `cron` with a LATER answer row. */
  ghost predicate ParDeLinhas(cron: seq<Linha>, p: Par)
  {
    exists i, j :: 0 <= i < j < |cron| && cron[i].tipo == "pergunta" && cron[j].tipo == "resposta"
                   && p == Par(cron[i].mensagem, cron[i].timestamp, cron[j].mensagem, cron[j].confianca)
  }

  /** `q` is made from a question row of `cron`. */
  ghost predicate PendenteDeLinha(cron: seq<Linha>, q: Pendente)
  {
    exists i :: 0 <= i < |cron| && cron[i].tipo == "pergunta" && q == Pendente(cron[i].mensagem, cron[i].timestamp)
  }

  /** Rows seen earlier stay rows when more are fetched after them. */
  lemma OrigemNoPrefixo(ini: seq<Linha>, row: Linha, p: Par, q: Pendente)
    ensures ParDeLinhas(ini, p) ==> ParDeLinhas(ini + [row], p)
    ensures PendenteDeLinha(ini, q) ==> PendenteDeLinha(ini + [row], q)
  {
    var cron := ini + [row];
    if ParDeLinhas(ini, p) {
      var i, j :| 0 <= i < j < |ini| && ini[i].tipo == "pergunta" && ini[j].tipo == "resposta"
                  && p == Par(ini[i].mensagem, ini[i].timestamp, ini[j].mensagem, ini[j].confianca);
      assert cron[i] == ini[i] && cron[j] == ini[j];
    }
    if PendenteDeLinha(ini, q) {
      var i :| 0 <= i < |ini| && ini[i].tipo == "pergunta" && q == Pendente(ini[i].mensagem, ini[i].timestamp);
      assert cron[i] == ini[i];
    }
  }

  /** Every pair is made of a question row and a LATER answer row of the fetched rows,
      and the pending question comes from a question row. */
  lemma {:induction false} ParesVemDeLinhas(cron: seq<Linha>)
    ensures Parear(cron).perguntaAtual.Some? ==> PendenteDeLinha(cron, Parear(cron).perguntaAtual.value)
    ensures forall k :: 0 <= k < |Parear(cron).historico| ==> ParDeLinhas(cron, Parear(cron).historico[k])
  {
    if cron != [] {
      var n := |cron| - 1;
      var ini := cron[..n];
      assert cron == ini + [cron[n]];
      ParesVemDeLinhas(ini);
      var e0 := Parear(ini);
      var row := cron[n];
      var e := Parear(cron);
      assert e == Passo(e0, row);
      forall k | 0 <= k < |e0.historico|
        ensures ParDeLinhas(cron, e0.historico[k])
      {
        OrigemNoPrefixo(ini, row, e0.historico[k], Pendente("", ""));
      }
      if row.tipo == "pergunta" {
        assert e.historico == e0.historico;
        assert 0 <= n < |cron| && cron[n].tipo == "pergunta"
               && e.perguntaAtual.value == Pendente(cron[n].mensagem, cron[n].timestamp);
      } else if row.tipo == "resposta" && e0.perguntaAtual.Some? {
        var i :| 0 <= i < |ini| && ini[i].tipo == "pergunta"
                 && e0.perguntaAtual.value == Pendente(ini[i].mensagem, ini[i].timestamp);
        assert ini[i] == cron[i];
        var novo := Par(cron[i].mensagem, cron[i].timestamp, cron[n].mensagem, cron[n].confianca);
        assert e.historico == e0.historico + [novo];
        assert ParDeLinhas(cron, novo) by {
          assert 0 <= i < n < |cron| && cron[i].tipo == "pergunta" && cron[n].tipo == "resposta";
        }
        forall k | 0 <= k < |e.historico|
          ensures ParDeLinhas(cron, e.historico[k])
        {
          if k == |e0.historico| {
            assert e.historico[k] == novo;
          } else {
            assert e.historico[k] == e0.historico[k];
          }
        }
      } else {
        assert e == e0;
        if e0.perguntaAtual.Some? {
          OrigemNoPrefixo(ini, row, Par("", "", "", None), e0.perguntaAtual.value);
        }
      }
    }
  }

  // ---------------------------------------------------------------- registering an interaction

  /** The `fontes_utilizadas` column: the sources joined by commas, or NULL when there
      are none. */
  function ColunaFontes(fontes: Option<seq<string>>): Option<string>
  {
    if fontes.None? || fontes.value == [] then None else Some(Join(",", fontes.value))
  }

  /** Reading the column back with `split(',')` gives the sources again, as long as no
      source holds a comma itself; no sources at all are stored as NULL. */
  lemma ColunaFontesIdaVolta(fontes: seq<string>)
    requires forall k :: 0 <= k < |fontes| ==> ',' !in fontes[k]
    ensures fontes == [] <==> ColunaFontes(Some(fontes)).None?
    ensures fontes != [] ==> SplitOn(ColunaFontes(Some(fontes)).value, ',') == fontes
  {
    if fontes != [] {
      SplitOnJoin(fontes, ',');
    }
  }

  /** The row `registrar_interacao` inserts into `interacoes`. */
  datatype RegistroInteracao = RegistroInteracao(
    usuarioId: string, servidorId: Option<string>, canalId: string, mensagem: string,
    resposta: Option<string>, tipo: string, confianca: Option<real>, tempoResposta: Option<real>,
    fontesUtilizadas: Option<string>)

  /** `registrar_interacao`: `erro` is the exception the store raised, if any. The
      answer is `True` exactly when the row was written, and no exception escapes. */
  function RegistrarInteracao(usuarioId: string, servidorId: Option<string>, canalId: string,
                              mensagem: string, tipo: string, resposta: Option<string>,
                              confianca: Option<real>, tempoResposta: Option<real>,
                              fontes: Option<seq<string>>, erro: Option<string>)
    : (r: (bool, Option<RegistroInteracao>))
    ensures r.0 <==> erro.None?
    ensures r.0 <==> r.1.Some?
    ensures r.1.Some? ==> r.1.value.mensagem == mensagem && r.1.value.tipo == tipo
                          && r.1.value.fontesUtilizadas == ColunaFontes(fontes)
  {
    if erro.Some? then (false, None)
    else (true, Some(RegistroInteracao(usuarioId, servidorId, canalId, mensagem, resposta, tipo,
                                       confianca, tempoResposta, ColunaFontes(fontes))))
  }
}
