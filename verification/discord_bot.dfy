/** The text and cache logic of `OraculoBot` in bot/discord_bot.py: splitting a long
    reply into chunks at word boundaries, removing the bot's mention from a message, the
    per-conversation context cache, and the sources embed. Discord itself (events,
    replies, edits, typing) is not modelled; the clock reading is a parameter and the
    store's answer to the history query is the `Result` it produced. */
module DiscordBot {
  import opened Results
  import opened Text
  import opened DbManager

  const TamanhoChunkPadrao := 200
  /** Interactions kept per conversation in the cache. */
  const MaxContexto := 5
  /** Pairs asked of the store when a conversation is not cached. */
  const LimiteHistoricoBanco := 5
  const MaxFontesEmbed := 5

  // ---------------------------------------------------------------- chunking

  /** A chunk is never empty, and it fits in `tamanho` unless it is one word on its own. */
  predicate ChunkBemFormado(c: string, palavras: seq<string>, tamanho: int)
  {
    c != [] && (|c| <= tamanho || c in palavras)
  }

  /** `_dividir_texto_chunks`: a short text is returned whole; a long one is cut at
      whitespace so that the chunks, joined by single spaces, give back the text's words
      joined by single spaces (nothing lost, nothing reordered). */
  method DividirTextoChunks(texto: string, tamanhoChunk: int) returns (chunks: seq<string>)
    ensures |texto| <= tamanhoChunk ==> chunks == [texto]
    ensures |texto| > tamanhoChunk ==>
              && Join(" ", chunks) == Join(" ", Words(texto))
              && (forall k :: 0 <= k < |chunks| ==> ChunkBemFormado(chunks[k], Words(texto), tamanhoChunk))
              && (Words(texto) == [] <==> chunks == [])
  {
    if |texto| <= tamanhoChunk {
      return [texto];
    }
    chunks := [];
    var palavras := Words(texto);
    var chunkAtual := "";
    var i := 0;
    while i < |palavras|
      invariant 0 <= i <= |palavras|
      invariant chunkAtual == "" <==> i == 0
      invariant i == 0 ==> chunks == []
      invariant forall k :: 0 <= k < |chunks| ==> ChunkBemFormado(chunks[k], palavras, tamanhoChunk)
      invariant i > 0 ==> ChunkBemFormado(chunkAtual, palavras, tamanhoChunk)
      invariant i > 0 ==> Join(" ", chunks + [chunkAtual]) == Join(" ", palavras[..i])
    {
      var palavra := palavras[i];
      assert palavras[..i + 1] == palavras[..i] + [palavra];
      if i > 0 {
        JoinSnoc(" ", palavras[..i], palavra);
      }
      if |chunkAtual + " " + palavra| <= tamanhoChunk {
        if chunkAtual != "" {
          JoinUltimoEstendido(" ", chunks, chunkAtual, palavra);
        }
        chunkAtual := if chunkAtual != "" then chunkAtual + " " + palavra else palavra;
      } else {
        if chunkAtual != "" {
          JoinSnoc(" ", chunks + [chunkAtual], palavra);
          chunks := chunks + [chunkAtual];
        }
        chunkAtual := palavra;
      }
      i := i + 1;
    }
    assert palavras[..i] == palavras;
    if chunkAtual != "" {
      chunks := chunks + [chunkAtual];
    }
    JoinNaoVazio(" ", chunks);
  }

  /** Growing the last piece by `sep + w` grows the joined text by `sep + w`. */
  lemma JoinUltimoEstendido(sep: string, xs: seq<string>, c: string, w: string)
    ensures Join(sep, xs + [c + sep + w]) == Join(sep, xs + [c]) + sep + w
  {
    if xs == [] {
      assert xs + [c + sep + w] == [c + sep + w];
      assert xs + [c] == [c];
    } else {
      JoinSnoc(sep, xs, c + sep + w);
      JoinSnoc(sep, xs, c);
    }
  }

  /** Joining pieces of which the first is not empty gives a non-empty text. */
  lemma JoinNaoVazio(sep: string, xs: seq<string>)
    requires xs != [] ==> xs[0] != []
    ensures Join(sep, xs) == [] <==> xs == []
  {
    if |xs| > 1 {
      assert |Join(sep, xs)| >= |xs[0]|;
    }
  }

  // ---------------------------------------------------------------- the mention

  /** The number of decimal digits `s` starts with. */
  function DigitosIniciais(s: string): (k: nat)
    ensures k <= |s|
    ensures forall j :: 0 <= j < k ==> IsDigit(s[j])
    ensures k < |s| ==> !IsDigit(s[k])
  {
    if s == [] || !IsDigit(s[0]) then 0 else 1 + DigitosIniciais(s[1..])
  }

  /** The length of the match of `<@!?\d+>` at the start of `s`, or 0 when there is none. */
  function MencaoNoInicio(s: string): (n: nat)
    ensures n <= |s|
  {
    if |s| < 2 || s[0] != '<' || s[1] != '@' then 0
    else
      var j := if |s| > 2 && s[2] == '!' then 3 else 2;
      var d := DigitosIniciais(s[j..]);
      if d > 0 && j + d < |s| && s[j + d] == '>' then j + d + 1 else 0
  }

  /** `re.sub(r'<@!?\d+>', '', s)`: scanning left to right, each match is dropped and the
      scan resumes after it; any other character is kept. */
  function RemoverMencoes(s: string): (r: string)
    ensures |r| <= |s|
    decreases |s|
  {
    if s == [] then []
    else
      var n := MencaoNoInicio(s);
      if n > 0 then RemoverMencoes(s[n..]) else [s[0]] + RemoverMencoes(s[1..])
  }

  /** `_limpar_mencao`: the mentions are removed and the surrounding white space is
      stripped, so the result neither starts nor ends with white space. */
  function LimparMencao(texto: string): (r: string)
    ensures |r| <= |texto|
    ensures r != [] ==> !IsSpace(r[0]) && !IsSpace(r[|r| - 1])
  {
    var semMencoes := RemoverMencoes(texto);
    var inicio := TrimStart(semMencoes, IsSpace);
    TrimStartDrops(semMencoes, IsSpace);
    TrimEndDrops(inicio, IsSpace);
    Strip(semMencoes)
  }

  /** Whether `<@` occurs in `s`: without it there is nothing to remove. */
  predicate TemAbertura(s: string)
  {
    exists i :: 0 <= i < |s| - 1 && s[i] == '<' && s[i + 1] == '@'
  }

  /** Text without `<@` comes out of the substitution unchanged. */
  lemma {:induction false} SemAberturaInalterado(s: string)
    requires !TemAbertura(s)
    ensures RemoverMencoes(s) == s
  {
    if s != [] {
      assert MencaoNoInicio(s) == 0 by {
        if |s| >= 2 {
          assert !(s[0] == '<' && s[1] == '@');
        }
      }
      assert !TemAbertura(s[1..]) by {
        forall i | 0 <= i < |s[1..]| - 1
          ensures !(s[1..][i] == '<' && s[1..][i + 1] == '@')
        {
          assert s[1..][i] == s[i + 1] && s[1..][i + 1] == s[i + 2];
        }
      }
      SemAberturaInalterado(s[1..]);
    }
  }

  /** The mention `<@id>` or `<@!id>` at the start of a message is removed whole. */
  lemma MencaoRemovida(id: string, exclamacao: bool, resto: string)
    requires id != [] && AllDigits(id)
    ensures var m := "<@" + (if exclamacao then "!" else "") + id + ">";
            RemoverMencoes(m + resto) == RemoverMencoes(resto)
  {
    var b := if exclamacao then "!" else "";
    var p := "<@" + b;
    var s := p + id + ">" + resto;
    PartesDaMencao(p, id, resto);
    assert s[0] == '<' && s[1] == '@';
    assert |s| > 2 && s[2] == '!' <==> exclamacao;
    assert DigitosIniciais(s[|p|..]) == |id| by {
      DigitosDoNumero(id, ">" + resto);
    }
    assert MencaoNoInicio(s) == |p| + |id| + 1;
  }

  /** A mention anywhere in the text is removed whole, and what comes before it and
      what comes after it are cleaned independently: no match that starts before the
      mention can run into it, since its opening `<` fits no later position of the
      pattern. */
  lemma MencaoRemovidaNoMeio(antes: string, id: string, exclamacao: bool, resto: string)
    requires id != [] && AllDigits(id)
    ensures var m := "<@" + (if exclamacao then "!" else "") + id + ">";
            RemoverMencoes(antes + m + resto) == RemoverMencoes(antes) + RemoverMencoes(resto)
  {
    var m := "<@" + (if exclamacao then "!" else "") + id + ">";
    assert (m + resto)[0] == '<';
    assert antes + m + resto == antes + (m + resto);
    RemoverAntesDeAbertura(antes, m + resto);
    MencaoRemovida(id, exclamacao, resto);
  }

  /** Text before a `<` is cleaned on its own. */
  lemma {:induction false} RemoverAntesDeAbertura(p: string, t: string)
    requires t != [] && t[0] == '<'
    ensures RemoverMencoes(p + t) == RemoverMencoes(p) + RemoverMencoes(t)
    decreases |p|
  {
    if p == [] {
      assert p + t == t;
    } else {
      var s := p + t;
      MencaoAntesDeAbertura(p, t);
      var n := MencaoNoInicio(p);
      if n > 0 {
        assert s[n..] == p[n..] + t;
        assert RemoverMencoes(s) == RemoverMencoes(p[n..] + t);
        RemoverAntesDeAbertura(p[n..], t);
      } else {
        assert s[0] == p[0];
        assert s[1..] == p[1..] + t;
        assert RemoverMencoes(s) == [p[0]] + RemoverMencoes(p[1..] + t);
        RemoverAntesDeAbertura(p[1..], t);
        assert [p[0]] + (RemoverMencoes(p[1..]) + RemoverMencoes(t))
            == [p[0]] + RemoverMencoes(p[1..]) + RemoverMencoes(t);
      }
    }
  }

  /** A match at the start of `p + t`, where `t` opens with `<`, lies within `p`. */
  lemma MencaoAntesDeAbertura(p: string, t: string)
    requires p != [] && t != [] && t[0] == '<'
    ensures MencaoNoInicio(p + t) == MencaoNoInicio(p)
  {
    var s := p + t;
    assert s[0] == p[0];
    if |p| >= 2 && s[0] == '<' && s[1] == '@' {
      assert s[1] == p[1];
      var j := if |s| > 2 && s[2] == '!' then 3 else 2;
      assert j <= |p|;
      assert s[j..] == p[j..] + t;
      DigitosAntesDeAbertura(p[j..], t);
      var d := DigitosIniciais(p[j..]);
      if j + d < |p| {
        assert s[j + d] == p[j + d];
      } else {
        assert s[j + d] == '<';
      }
    }
  }

  /** The digits at the start of `a + t` are those of `a` when `t` opens with `<`. */
  lemma {:induction false} DigitosAntesDeAbertura(a: string, t: string)
    requires t != [] && t[0] == '<'
    ensures DigitosIniciais(a + t) == DigitosIniciais(a)
  {
    if a == [] {
      assert a + t == t;
    } else {
      assert (a + t)[0] == a[0];
      assert (a + t)[1..] == a[1..] + t;
      DigitosAntesDeAbertura(a[1..], t);
    }
  }

  /** Where the pieces of `p + id + ">" + resto` sit. */
  lemma PartesDaMencao(p: string, id: string, resto: string)
    ensures var s := p + id + ">" + resto;
            && |s| == |p| + |id| + 1 + |resto|
            && s[..|p|] == p
            && s[|p|..] == id + (">" + resto)
            && s[|p| + |id|] == '>'
            && s[|p| + |id| + 1..] == resto
  {
    var s := p + id + ">" + resto;
    assert s == p + (id + (">" + resto));
    assert s == (p + id + ">") + resto;
  }

  lemma {:induction false} DigitosDoNumero(id: string, resto: string)
    requires AllDigits(id) && (resto != [] ==> !IsDigit(resto[0]))
    ensures DigitosIniciais(id + resto) == |id|
  {
    if id != [] {
      assert (id + resto)[1..] == id[1..] + resto;
      DigitosDoNumero(id[1..], resto);
    } else {
      assert id + resto == resto;
    }
  }

  /** A message that starts with the bot's mention and has no other `<@` is cleaned to
      the question alone, without surrounding whitespace. */
  lemma PerguntaAposMencao(id: string, exclamacao: bool, pergunta: string)
    requires id != [] && AllDigits(id) && !TemAbertura(pergunta)
    ensures LimparMencao("<@" + (if exclamacao then "!" else "") + id + ">" + pergunta) == Strip(pergunta)
  {
    MencaoRemovida(id, exclamacao, pergunta);
    SemAberturaInalterado(pergunta);
  }

  /** One pass is all `re.sub` makes: removing the inner mention of `<@<@1>1>` joins
      its two halves into a new mention, which stays. */
  lemma UmaPassagemSo()
    ensures RemoverMencoes("<@<@1>1>") == "<@1>"
  {
    var s := "<@<@1>1>";
    assert DigitosIniciais(s[2..]) == 0;
    assert MencaoNoInicio(s) == 0;
    assert MencaoNoInicio(s[1..]) == 0;
    var t := s[2..];
    assert t == "<@1>1>";
    assert DigitosIniciais(t[2..]) == 1 by {
      assert t[2..] == "1>1>";
      assert t[2..][1..] == ">1>";
    }
    assert MencaoNoInicio(t) == 4;
    var u := t[4..];
    assert u == "1>";
    assert MencaoNoInicio(u) == 0;
    assert MencaoNoInicio(u[1..]) == 0;
    assert RemoverMencoes(u) == "1>" by {
      assert u[1..] == ">";
      assert RemoverMencoes(u[1..]) == ">" by {
        assert u[1..][1..] == [];
      }
    }
  }

  /** The cleaned text has no whitespace at either end. */
  lemma LimpoSemEspacosNasPontas(texto: string)
    ensures var r := LimparMencao(texto);
            r != [] ==> !IsSpace(r[0]) && !IsSpace(r[|r| - 1])
  {
    var t := TrimStart(RemoverMencoes(texto), IsSpace);
    var r := TrimEnd(t, IsSpace);
    TrimStartDrops(RemoverMencoes(texto), IsSpace);
    TrimEndDrops(t, IsSpace);
    if r != [] {
      assert r[0] == t[0];
    }
  }

  // ---------------------------------------------------------------- the sources embed

  datatype CampoEmbed = CampoEmbed(nome: string, valor: string, inline: bool)

  datatype Embed = Embed(titulo: string, cor: nat, descricao: string, campos: seq<CampoEmbed>)

  const TituloFontes := "📚 Fontes Consultadas"
  const CorFontes := 0x00ff00
  const DescricaoFontes := "Informações baseadas nas seguintes fontes:"

  function NomeCampo(i: nat): string
  {
    "Fonte " + NatToString(i)
  }

  /** `_criar_embed_fontes`: one field per source of `fontes[:5]`, numbered from 1. */
  method CriarEmbedFontes(fontes: seq<string>) returns (embed: Embed)
    ensures embed.titulo == TituloFontes && embed.cor == CorFontes && embed.descricao == DescricaoFontes
    ensures |embed.campos| == Min(MaxFontesEmbed, |fontes|)
    ensures forall i :: 0 <= i < |embed.campos| ==>
              embed.campos[i] == CampoEmbed(NomeCampo(i + 1), fontes[i], false)
  {
    embed := Embed(TituloFontes, CorFontes, DescricaoFontes, []);
    var primeiras := fontes[..Min(MaxFontesEmbed, |fontes|)];
    var i := 0;
    while i < |primeiras|
      invariant 0 <= i <= |primeiras|
      invariant embed.titulo == TituloFontes && embed.cor == CorFontes && embed.descricao == DescricaoFontes
      invariant |embed.campos| == i
      invariant forall k :: 0 <= k < i ==> embed.campos[k] == CampoEmbed(NomeCampo(k + 1), fontes[k], false)
    {
      embed := embed.(campos := embed.campos + [CampoEmbed(NomeCampo(i + 1), primeiras[i], false)]);
      i := i + 1;
    }
  }

  /** The fields have pairwise different names. */
  lemma NomesDistintos(i: nat, j: nat)
    requires NomeCampo(i) == NomeCampo(j)
    ensures i == j
  {
    var p := "Fonte ";
    assert NomeCampo(i)[|p|..] == NatToString(i);
    assert NomeCampo(j)[|p|..] == NatToString(j);
    NatToStringInjective(i, j);
  }

  // ---------------------------------------------------------------- the context cache

  /** `f"{usuario_id}_{canal_id}"`; Discord ids are positive. */
  function Chave(usuarioId: nat, canalId: nat): string
  {
    NatToString(usuarioId) + "_" + NatToString(canalId)
  }

  /** Different conversations never share a cache entry. */
  lemma ChaveInjetiva(u1: nat, c1: nat, u2: nat, c2: nat)
    requires Chave(u1, c1) == Chave(u2, c2)
    ensures u1 == u2 && c1 == c2
  {
    var a1, a2 := NatToString(u1), NatToString(u2);
    var k := Chave(u1, c1);
    SeparadorDaChave(a1, NatToString(c1));
    SeparadorDaChave(a2, NatToString(c2));
    assert a1 == k[..|a1|] == a2;
    assert NatToString(c1) == k[|a1| + 1..] == NatToString(c2);
    NatToStringInjective(u1, u2);
    NatToStringInjective(c1, c2);
  }

  /** Two different conversations have different keys. */
  lemma ChavesDistintas(u1: nat, c1: nat, u2: nat, c2: nat)
    requires (u1, c1) != (u2, c2)
    ensures Chave(u1, c1) != Chave(u2, c2)
  {
    if Chave(u1, c1) == Chave(u2, c2) {
      ChaveInjetiva(u1, c1, u2, c2);
    }
  }

  /** The first `_` of a key is the one after the user id. */
  lemma SeparadorDaChave(a: string, b: string)
    requires AllDigits(a)
    ensures IndexOf(a + "_" + b, '_') == |a|
  {
    var s := a + "_" + b;
    assert s[|a|] == '_';
    assert forall j :: 0 <= j < |a| ==> s[j] == a[j] && IsDigit(s[j]);
  }

  /** A cached conversation: its recent interactions and whose conversation it is. The
      entry built from the store also carries the time it was built. */
  datatype Contexto = Contexto(historico: seq<Par>, usuarioId: string, canalId: string, timestamp: Option<string>)

  /** The history after appending `x` and, beyond five entries, `pop(0)`. */
  function HistoricoAcrescido(h: seq<Par>, x: Par): seq<Par>
  {
    var h1 := h + [x];
    if |h1| > MaxContexto then h1[1..] else h1
  }

  /** From at most five entries, appending keeps the last five of the history extended by
      the new interaction: the new one is last and the oldest leaves first. */
  lemma HistoricoAcrescidoFifo(h: seq<Par>, x: Par)
    requires |h| <= MaxContexto
    ensures HistoricoAcrescido(h, x) == LastN(h + [x], MaxContexto)
    ensures 1 <= |HistoricoAcrescido(h, x)| <= MaxContexto
    ensures HistoricoAcrescido(h, x)[|HistoricoAcrescido(h, x)| - 1] == x
    ensures |h| == MaxContexto ==> HistoricoAcrescido(h, x) == h[1..] + [x]
  {
    if |h| == MaxContexto {
      assert (h + [x])[1..] == h[1..] + [x];
    }
  }

  /** The entry `_atualizar_contexto` starts from: the cached one, or a fresh empty one. */
  function ContextoBase(m: map<string, Contexto>, usuarioId: nat, canalId: nat): Contexto
  {
    var chave := Chave(usuarioId, canalId);
    if chave in m then m[chave] else Contexto([], NatToString(usuarioId), NatToString(canalId), None)
  }

  /** What `_obter_contexto_conversa` builds on a cache miss; a failing store query
      gives the empty history. */
  function ContextoDoBanco(usuarioId: nat, canalId: nat, consulta: Result<seq<Linha>>, agora: string): Contexto
  {
    var historico := if consulta.Err? then [] else HistoricoPareado(consulta.value, LimiteHistoricoBanco);
    Contexto(historico, NatToString(usuarioId), NatToString(canalId), Some(agora))
  }

  class OraculoBot {
    var contextosAtivos: map<string, Contexto>

    /** Every cached conversation holds at most five interactions. */
    ghost predicate Valid()
      reads this
    {
      forall k :: k in contextosAtivos ==> |contextosAtivos[k].historico| <= MaxContexto
    }

    constructor()
      ensures Valid() && contextosAtivos == map[]
    {
      contextosAtivos := map[];
    }

    /** `_obter_contexto_conversa`: `consulta` is the store's answer to the history query
        for this conversation (limit 5), looked at only on a cache miss. */
    method ObterContextoConversa(usuarioId: nat, canalId: nat, consulta: Result<seq<Linha>>, agora: string)
      returns (contexto: Contexto)
      requires Valid()
      modifies this
      ensures Valid()
      ensures Chave(usuarioId, canalId) in old(contextosAtivos) ==>
                contexto == old(contextosAtivos)[Chave(usuarioId, canalId)] && contextosAtivos == old(contextosAtivos)
      ensures Chave(usuarioId, canalId) !in old(contextosAtivos) ==>
                contexto == ContextoDoBanco(usuarioId, canalId, consulta, agora)
                && contextosAtivos == old(contextosAtivos)[Chave(usuarioId, canalId) := contexto]
    {
      var chaveContexto := Chave(usuarioId, canalId);
      if chaveContexto in contextosAtivos {
        return contextosAtivos[chaveContexto];
      }
      var historico := ObterHistoricoConversa(consulta, LimiteHistoricoBanco);
      if consulta.Ok? {
        HistoricoLimitado(consulta.value, LimiteHistoricoBanco);
      }
      contexto := Contexto(historico, NatToString(usuarioId), NatToString(canalId), Some(agora));
      contextosAtivos := contextosAtivos[chaveContexto := contexto];
    }

    /** `_atualizar_contexto`: the new interaction is appended to the conversation's
        entry (created empty if absent), keeping the last five; no other entry changes. */
    method AtualizarContexto(usuarioId: nat, canalId: nat, pergunta: string, resposta: string, agora: string)
      requires Valid()
      modifies this
      ensures Valid()
      ensures var base := ContextoBase(old(contextosAtivos), usuarioId, canalId);
              contextosAtivos == old(contextosAtivos)[Chave(usuarioId, canalId) :=
                base.(historico := HistoricoAcrescido(base.historico, Par(pergunta, agora, resposta, None)))]
    {
      var chaveContexto := Chave(usuarioId, canalId);
      if chaveContexto !in contextosAtivos {
        contextosAtivos := contextosAtivos[chaveContexto := Contexto([], NatToString(usuarioId), NatToString(canalId), None)];
      }
      var novaInteracao := Par(pergunta, agora, resposta, None);
      var entrada := contextosAtivos[chaveContexto];
      var historico := entrada.historico + [novaInteracao];
      if |historico| > MaxContexto {
        historico := historico[1..];
      }
      contextosAtivos := contextosAtivos[chaveContexto := entrada.(historico := historico)];
    }
  }

  /** After an update the conversation's history ends with the new interaction and holds
      the last (at most five) interactions in order; a second conversation's entry is
      untouched. */
  lemma AtualizacaoDaConversa(m: map<string, Contexto>, usuarioId: nat, canalId: nat, x: Par,
                              outroUsuario: nat, outroCanal: nat)
    requires forall k :: k in m ==> |m[k].historico| <= MaxContexto
    requires (outroUsuario, outroCanal) != (usuarioId, canalId)
    ensures var base := ContextoBase(m, usuarioId, canalId);
            var novo := HistoricoAcrescido(base.historico, x);
            && novo == LastN(base.historico + [x], MaxContexto)
            && novo[|novo| - 1] == x
            && var m2 := m[Chave(usuarioId, canalId) := base.(historico := novo)];
               (Chave(outroUsuario, outroCanal) in m ==>
                  (Chave(outroUsuario, outroCanal) in m2
                   && m2[Chave(outroUsuario, outroCanal)] == m[Chave(outroUsuario, outroCanal)]))
  {
    ChavesDistintas(outroUsuario, outroCanal, usuarioId, canalId);
    AtualizacaoDaEntrada(m, Chave(usuarioId, canalId), ContextoBase(m, usuarioId, canalId), x,
                         Chave(outroUsuario, outroCanal));
  }

  /** The same, for any key `k` whose entry is `base` and any other key `k2`. */
  lemma AtualizacaoDaEntrada(m: map<string, Contexto>, k: string, base: Contexto, x: Par, k2: string)
    requires |base.historico| <= MaxContexto && k2 != k
    ensures var novo := HistoricoAcrescido(base.historico, x);
            && novo == LastN(base.historico + [x], MaxContexto)
            && novo[|novo| - 1] == x
            && var m2 := m[k := base.(historico := novo)];
               (k2 in m ==> (k2 in m2 && m2[k2] == m[k2]))
  {
    HistoricoAcrescidoFifo(base.historico, x);
  }
}
