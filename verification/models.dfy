/** The data classes of database/models.py: the checks their constructors make, the
    bounded conversation context, and the conversions to and from dictionaries.

    A dictionary is a `map` from keys to `Valor`, a Python value. `datetime` values are
    instants counted as naturals and `isoformat` is their decimal rendering (read back by
    `fromisoformat`, modelled as `ParseNat`); `datetime.now()` is the parameter `agora`;
    `json.dumps` and `json.loads` are function parameters, `loads` answering `None` where
    Python raises `JSONDecodeError`. */
module Models {
  import opened Results
  import opened Text

  /** A Python value held by one of the dictionaries. */
  datatype Valor =
    | Nulo
    | Texto(s: string)
    | Inteiro(i: int)
    | Decimal(r: real)
    | Logico(b: bool)
    | Lista(itens: seq<Valor>)
    | Objeto(campos: map<string, Valor>)

  type Dict = map<string, Valor>

  // ---------------------------------------------------------------- reading a dictionary

  /** Python truthiness, as used by `if data.get(k):`. */
  predicate Verdadeiro(v: Valor)
  {
    match v
    case Nulo => false
    case Texto(s) => s != []
    case Inteiro(i) => i != 0
    case Decimal(r) => r != 0.0
    case Logico(b) => b
    case Lista(xs) => xs != []
    case Objeto(m) => m != map[]
  }

  /** `data.get(k)`. */
  function Get(d: Dict, k: string): Valor
  {
    if k in d then d[k] else Nulo
  }

  /** `data.get(k, padrao)`: the default is used only when the key is absent. */
  function GetOu(d: Dict, k: string, padrao: Valor): Valor
  {
    if k in d then d[k] else padrao
  }

  /** `data[k]`, which raises `KeyError` for a missing key, read as a string. */
  function TextoExigido(d: Dict, k: string): Result<string>
  {
    if k !in d then Err("KeyError: '" + k + "'")
    else if d[k].Texto? then Ok(d[k].s)
    else Err("TypeError: '" + k + "'")
  }

  function ComoTextoOpcional(v: Valor, k: string): Result<Option<string>>
  {
    match v
    case Nulo => Ok(None)
    case Texto(s) => Ok(Some(s))
    case _ => Err("TypeError: '" + k + "'")
  }

  function ComoInteiroOpcional(v: Valor, k: string): Result<Option<int>>
  {
    match v
    case Nulo => Ok(None)
    case Inteiro(i) => Ok(Some(i))
    case _ => Err("TypeError: '" + k + "'")
  }

  /** A `float` field: an `int` is a `float` too in Python's numeric tower, and is kept
      with its value. */
  function ComoRealOpcional(v: Valor, k: string): Result<Option<real>>
  {
    match v
    case Nulo => Ok(None)
    case Decimal(r) => Ok(Some(r))
    case Inteiro(i) => Ok(Some(i as real))
    case _ => Err("TypeError: '" + k + "'")
  }

  function ComoInteiro(v: Valor, k: string): Result<int>
  {
    if v.Inteiro? then Ok(v.i) else Err("TypeError: '" + k + "'")
  }

  function ComoReal(v: Valor, k: string): Result<real>
  {
    if v.Decimal? then Ok(v.r) else if v.Inteiro? then Ok(v.i as real) else Err("TypeError: '" + k + "'")
  }

  function ComoLogico(v: Valor, k: string): Result<bool>
  {
    if v.Logico? then Ok(v.b) else Err("TypeError: '" + k + "'")
  }

  function ComoObjeto(v: Valor, k: string): Result<Dict>
  {
    if v.Objeto? then Ok(v.campos) else Err("TypeError: '" + k + "'")
  }

  /** A list of strings, element by element. */
  function TextosDe(xs: seq<Valor>): Result<seq<string>>
  {
    if xs == [] then Ok([])
    else
      var inicio :- TextosDe(xs[..|xs| - 1]);
      var ultimo := xs[|xs| - 1];
      if ultimo.Texto? then Ok(inicio + [ultimo.s]) else Err("TypeError: 'fontes_utilizadas'")
  }

  /** `datetime.fromisoformat(s)`: `None` where Python raises `ValueError`. */
  function FromIsoFormat(s: string): Option<nat>
  {
    ParseNat(s)
  }

  /** `datetime.fromisoformat(data[k])`, with the key required. */
  function InstanteExigido(d: Dict, k: string): Result<nat>
  {
    if k !in d then Err("KeyError: '" + k + "'")
    else if !d[k].Texto? then Err("TypeError: '" + k + "'")
    else match FromIsoFormat(d[k].s)
      case None => Err("Invalid isoformat string: '" + d[k].s + "'")
      case Some(t) => Ok(t)
  }

  /** `datetime.fromisoformat(data[k]) if data.get(k) else None`. */
  function InstanteOpcional(d: Dict, k: string): Result<Option<nat>>
  {
    var v := Get(d, k);
    if !Verdadeiro(v) then Ok(None)
    else if !v.Texto? then Err("TypeError: '" + k + "'")
    else match FromIsoFormat(v.s)
      case None => Err("Invalid isoformat string: '" + v.s + "'")
      case Some(t) => Ok(Some(t))
  }

  // ---------------------------------------------------------------- writing a dictionary

  /** `t.isoformat()`. */
  function IsoFormat(t: nat): string
  {
    NatToString(t)
  }

  /** `t.isoformat() if t else None`: a `datetime` is always truthy. */
  function IsoOuNulo(t: Option<nat>): Valor
  {
    if t.Some? then Texto(IsoFormat(t.value)) else Nulo
  }

  function TextoOuNulo(o: Option<string>): Valor
  {
    if o.Some? then Texto(o.value) else Nulo
  }

  function InteiroOuNulo(o: Option<int>): Valor
  {
    if o.Some? then Inteiro(o.value) else Nulo
  }

  function RealOuNulo(o: Option<real>): Valor
  {
    if o.Some? then Decimal(o.value) else Nulo
  }

  function ListaDeTextos(xs: seq<string>): Valor
  {
    Lista(seq(|xs|, k requires 0 <= k < |xs| => Texto(xs[k])))
  }

  // ---------------------------------------------------------------- round trips of the field codecs

  /** What `isoformat` writes, `fromisoformat` reads back, and an absent instant stays
      absent. */
  lemma InstanteIdaVolta(d: Dict, k: string, t: Option<nat>)
    requires k in d && d[k] == IsoOuNulo(t)
    ensures InstanteOpcional(d, k) == Ok(t)
  {
    if t.Some? {
      ParseNatToString(t.value);
    }
  }

  lemma {:induction false} TextosIdaVolta(xs: seq<string>)
    ensures TextosDe(ListaDeTextos(xs).itens) == Ok(xs)
  {
    if xs != [] {
      var n := |xs| - 1;
      assert ListaDeTextos(xs).itens[..n] == ListaDeTextos(xs[..n]).itens;
      TextosIdaVolta(xs[..n]);
      assert xs[..n] + [xs[n]] == xs;
    }
  }

  // ---------------------------------------------------------------- Usuario

  /** A Discord user. */
  datatype Usuario = Usuario(id: string, nome: string, discriminator: Option<string>,
                             avatarUrl: Option<string>, primeiroUso: Option<nat>,
                             ultimoUso: Option<nat>, totalInteracoes: int,
                             preferencias: Dict, ativo: bool)

  /** `Usuario.to_dict`. */
  function UsuarioParaDict(u: Usuario): Dict
  {
    map["id" := Texto(u.id), "nome" := Texto(u.nome),
        "discriminator" := TextoOuNulo(u.discriminator),
        "avatar_url" := TextoOuNulo(u.avatarUrl),
        "primeiro_uso" := IsoOuNulo(u.primeiroUso),
        "ultimo_uso" := IsoOuNulo(u.ultimoUso),
        "total_interacoes" := Inteiro(u.totalInteracoes),
        "preferencias" := Objeto(u.preferencias),
        "ativo" := Logico(u.ativo)]
  }

  /** `Usuario.from_dict`: `id` and `nome` are required, the counter, preferences and
      the active flag have defaults, and an empty or absent instant stays unset. */
  function UsuarioDeDict(data: Dict): (r: Result<Usuario>)
    ensures "id" !in data || "nome" !in data ==> r.Err?
    ensures r.Ok? ==> "id" in data && data["id"] == Texto(r.value.id)
    ensures r.Ok? ==> "nome" in data && data["nome"] == Texto(r.value.nome)
    ensures r.Ok? && "total_interacoes" !in data ==> r.value.totalInteracoes == 0
    ensures r.Ok? && "preferencias" !in data ==> r.value.preferencias == map[]
    ensures r.Ok? && "ativo" !in data ==> r.value.ativo
    ensures r.Ok? && !Verdadeiro(Get(data, "primeiro_uso")) ==> r.value.primeiroUso.None?
    ensures r.Ok? && !Verdadeiro(Get(data, "ultimo_uso")) ==> r.value.ultimoUso.None?
  {
    var primeiroUso :- InstanteOpcional(data, "primeiro_uso");
    var ultimoUso :- InstanteOpcional(data, "ultimo_uso");
    var id :- TextoExigido(data, "id");
    var nome :- TextoExigido(data, "nome");
    var discriminator :- ComoTextoOpcional(Get(data, "discriminator"), "discriminator");
    var avatarUrl :- ComoTextoOpcional(Get(data, "avatar_url"), "avatar_url");
    var total :- ComoInteiro(GetOu(data, "total_interacoes", Inteiro(0)), "total_interacoes");
    var preferencias :- ComoObjeto(GetOu(data, "preferencias", Objeto(map[])), "preferencias");
    var ativo :- ComoLogico(GetOu(data, "ativo", Logico(true)), "ativo");
    Ok(Usuario(id, nome, discriminator, avatarUrl, primeiroUso, ultimoUso, total, preferencias, ativo))
  }

  /** `Usuario.from_dict(u.to_dict())` rebuilds every field, unset instants included. */
  lemma UsuarioIdaVolta(u: Usuario)
    ensures UsuarioDeDict(UsuarioParaDict(u)) == Ok(u)
  {
    var d := UsuarioParaDict(u);
    InstanteIdaVolta(d, "primeiro_uso", u.primeiroUso);
    InstanteIdaVolta(d, "ultimo_uso", u.ultimoUso);
  }

  // ---------------------------------------------------------------- Interacao

  /** A question or an answer exchanged with a user. Once built, its instant is set. */
  datatype Interacao = Interacao(usuarioId: string, canalId: string, mensagem: string,
                                 tipo: string, id: Option<int>, servidorId: Option<string>,
                                 resposta: Option<string>, timestamp: nat,
                                 confianca: Option<real>, tempoResposta: Option<real>,
                                 fontesUtilizadas: seq<string>, processada: bool)

  predicate TipoValido(tipo: string)
  {
    tipo == "pergunta" || tipo == "resposta"
  }

  predicate ConfiancaValida(confianca: Option<real>)
  {
    confianca.None? || 0.0 <= confianca.value <= 1.0
  }

  /** What every built `Interacao` satisfies. */
  predicate InteracaoValida(i: Interacao)
  {
    TipoValido(i.tipo) && ConfiancaValida(i.confianca)
  }

  /** Building an `Interacao`, with `__post_init__`: a bad type is refused first, then a
      confidence outside [0, 1]; a missing instant becomes `agora`. */
  function NovaInteracao(usuarioId: string, canalId: string, mensagem: string, tipo: string,
                         id: Option<int>, servidorId: Option<string>, resposta: Option<string>,
                         timestamp: Option<nat>, confianca: Option<real>,
                         tempoResposta: Option<real>, fontes: seq<string>, processada: bool,
                         agora: nat): (r: Result<Interacao>)
    ensures r.Ok? <==> TipoValido(tipo) && ConfiancaValida(confianca)
    ensures !TipoValido(tipo) ==> r == Err("Tipo inválido: " + tipo + ". Deve ser 'pergunta' ou 'resposta'")
    ensures r.Ok? ==> InteracaoValida(r.value)
    ensures r.Ok? ==> r.value.timestamp == (if timestamp.Some? then timestamp.value else agora)
    ensures r.Ok? ==> r.value == Interacao(usuarioId, canalId, mensagem, tipo, id, servidorId, resposta,
                                           r.value.timestamp, confianca, tempoResposta, fontes, processada)
  {
    if !TipoValido(tipo) then Err("Tipo inválido: " + tipo + ". Deve ser 'pergunta' ou 'resposta'")
    else if !ConfiancaValida(confianca) then Err("Confiança deve estar entre 0 e 1")
    else
      var instante := if timestamp.Some? then timestamp.value else agora;
      Ok(Interacao(usuarioId, canalId, mensagem, tipo, id, servidorId, resposta, instante,
                   confianca, tempoResposta, fontes, processada))
  }

  /** `Interacao.to_dict`. */
  function InteracaoParaDict(i: Interacao): Dict
  {
    map["id" := InteiroOuNulo(i.id), "usuario_id" := Texto(i.usuarioId),
        "servidor_id" := TextoOuNulo(i.servidorId), "canal_id" := Texto(i.canalId),
        "mensagem" := Texto(i.mensagem), "resposta" := TextoOuNulo(i.resposta),
        "tipo" := Texto(i.tipo), "timestamp" := IsoOuNulo(Some(i.timestamp)),
        "confianca" := RealOuNulo(i.confianca), "tempo_resposta" := RealOuNulo(i.tempoResposta),
        "fontes_utilizadas" := ListaDeTextos(i.fontesUtilizadas),
        "processada" := Logico(i.processada)]
  }

  /** `Interacao.from_dict`: the record goes through the same checks as any other. */
  function InteracaoDeDict(data: Dict, agora: nat): (r: Result<Interacao>)
    ensures ("usuario_id" !in data || "canal_id" !in data || "mensagem" !in data || "tipo" !in data) ==> r.Err?
    ensures r.Ok? ==> InteracaoValida(r.value)
    ensures r.Ok? && !Verdadeiro(Get(data, "timestamp")) ==> r.value.timestamp == agora
    ensures r.Ok? && "fontes_utilizadas" !in data ==> r.value.fontesUtilizadas == []
    ensures r.Ok? && "processada" !in data ==> r.value.processada
  {
    var timestamp :- InstanteOpcional(data, "timestamp");
    var id :- ComoInteiroOpcional(Get(data, "id"), "id");
    var usuarioId :- TextoExigido(data, "usuario_id");
    var servidorId :- ComoTextoOpcional(Get(data, "servidor_id"), "servidor_id");
    var canalId :- TextoExigido(data, "canal_id");
    var mensagem :- TextoExigido(data, "mensagem");
    var resposta :- ComoTextoOpcional(Get(data, "resposta"), "resposta");
    var tipo :- TextoExigido(data, "tipo");
    var confianca :- ComoRealOpcional(Get(data, "confianca"), "confianca");
    var tempoResposta :- ComoRealOpcional(Get(data, "tempo_resposta"), "tempo_resposta");
    var fontesValor := GetOu(data, "fontes_utilizadas", Lista([]));
    var fontes :- if fontesValor.Lista? then TextosDe(fontesValor.itens) else Err("TypeError: 'fontes_utilizadas'");
    var processada :- ComoLogico(GetOu(data, "processada", Logico(true)), "processada");
    NovaInteracao(usuarioId, canalId, mensagem, tipo, id, servidorId, resposta, timestamp,
                  confianca, tempoResposta, fontes, processada, agora)
  }

  /** An `int` confidence or response time reads as the `float` of the same value: the
      record built is the same, and is refused for the same reasons. */
  lemma InteracaoNumeroInteiro(data: Dict, k: string, n: int, agora: nat)
    requires k == "confianca" || k == "tempo_resposta"
    ensures InteracaoDeDict(data[k := Inteiro(n)], agora) == InteracaoDeDict(data[k := Decimal(n as real)], agora)
  {
    var di := data[k := Inteiro(n)];
    var dr := data[k := Decimal(n as real)];
    assert InstanteOpcional(di, "timestamp") == InstanteOpcional(dr, "timestamp");
    assert Get(di, "id") == Get(dr, "id");
    assert TextoExigido(di, "usuario_id") == TextoExigido(dr, "usuario_id");
    assert Get(di, "servidor_id") == Get(dr, "servidor_id");
    assert TextoExigido(di, "canal_id") == TextoExigido(dr, "canal_id");
    assert TextoExigido(di, "mensagem") == TextoExigido(dr, "mensagem");
    assert Get(di, "resposta") == Get(dr, "resposta");
    assert TextoExigido(di, "tipo") == TextoExigido(dr, "tipo");
    assert ComoRealOpcional(Get(di, "confianca"), "confianca") == ComoRealOpcional(Get(dr, "confianca"), "confianca");
    assert ComoRealOpcional(Get(di, "tempo_resposta"), "tempo_resposta")
           == ComoRealOpcional(Get(dr, "tempo_resposta"), "tempo_resposta");
    assert GetOu(di, "fontes_utilizadas", Lista([])) == GetOu(dr, "fontes_utilizadas", Lista([]));
    assert GetOu(di, "processada", Logico(true)) == GetOu(dr, "processada", Logico(true));
  }

  /** A built `Interacao` survives `to_dict` then `from_dict` unchanged, whatever the
      clock says at reading time. */
  lemma InteracaoIdaVolta(i: Interacao, agora: nat)
    requires InteracaoValida(i)
    ensures InteracaoDeDict(InteracaoParaDict(i), agora) == Ok(i)
  {
    var d := InteracaoParaDict(i);
    InstanteIdaVolta(d, "timestamp", Some(i.timestamp));
    CamposDeIdentificacao(i);
    CamposDeConteudo(i);
  }

  lemma CamposDeIdentificacao(i: Interacao)
    ensures var d := InteracaoParaDict(i);
            && ComoInteiroOpcional(Get(d, "id"), "id") == Ok(i.id)
            && TextoExigido(d, "usuario_id") == Ok(i.usuarioId)
            && ComoTextoOpcional(Get(d, "servidor_id"), "servidor_id") == Ok(i.servidorId)
            && TextoExigido(d, "canal_id") == Ok(i.canalId)
            && TextoExigido(d, "mensagem") == Ok(i.mensagem)
  {
  }

  lemma CamposDeConteudo(i: Interacao)
    ensures var d := InteracaoParaDict(i);
            && ComoTextoOpcional(Get(d, "resposta"), "resposta") == Ok(i.resposta)
            && TextoExigido(d, "tipo") == Ok(i.tipo)
            && ComoRealOpcional(Get(d, "confianca"), "confianca") == Ok(i.confianca)
            && ComoRealOpcional(Get(d, "tempo_resposta"), "tempo_resposta") == Ok(i.tempoResposta)
            && GetOu(d, "fontes_utilizadas", Lista([])) == ListaDeTextos(i.fontesUtilizadas)
            && TextosDe(ListaDeTextos(i.fontesUtilizadas).itens) == Ok(i.fontesUtilizadas)
            && ComoLogico(GetOu(d, "processada", Logico(true)), "processada") == Ok(i.processada)
  {
    TextosIdaVolta(i.fontesUtilizadas);
  }

  // ---------------------------------------------------------------- EstatisticaUso

  /** What the `data` field holds: a `datetime` (an instant, in seconds) as the
      annotation declares, or a `date` (a day number) as `from_dict` stores. */
  datatype Momento = DataHora(instante: nat) | Data(dia: nat)

  const SegundosPorDia := 86400

  /** `.date()` of an instant: the day it falls in. */
  function DiaDe(t: nat): nat
  {
    t / SegundosPorDia
  }

  /** `d.isoformat()` of day `d`, written as its midnight, which is what
      `datetime.fromisoformat` reads the day's text back as. */
  function DiaIsoFormat(d: nat): string
  {
    IsoFormat(d * SegundosPorDia)
  }

  /** The usage figures of one day. */
  datatype EstatisticaUso = EstatisticaUso(data: Momento, totalUsuariosAtivos: int, totalPerguntas: int,
                                           totalRespostas: int, tempoMedioResposta: real,
                                           confiancaMedia: real, errosOcorridos: int, id: Option<int>)

  /** The dictionary `to_dict` writes once the day is known. */
  function EstatisticaComDia(e: EstatisticaUso, dia: nat): Dict
  {
    map["id" := InteiroOuNulo(e.id), "data" := Texto(DiaIsoFormat(dia)),
        "total_usuarios_ativos" := Inteiro(e.totalUsuariosAtivos),
        "total_perguntas" := Inteiro(e.totalPerguntas),
        "total_respostas" := Inteiro(e.totalRespostas),
        "tempo_medio_resposta" := Decimal(e.tempoMedioResposta),
        "confianca_media" := Decimal(e.confiancaMedia),
        "erros_ocorridos" := Inteiro(e.errosOcorridos)]
  }

  /** `EstatisticaUso.to_dict`, as written: `self.data.date().isoformat()`. A `date` has
      no `.date()`, so a record holding one raises. */
  function EstatisticaParaDict(e: EstatisticaUso): (r: Result<Dict>)
    ensures r.Err? <==> e.data.Data?
    ensures r.Ok? ==> "data" in r.value && r.value["data"] == Texto(DiaIsoFormat(DiaDe(e.data.instante)))
  {
    match e.data
    case DataHora(t) => Ok(EstatisticaComDia(e, DiaDe(t)))
    case Data(_) => Err("AttributeError: 'datetime.date' object has no attribute 'date'")
  }

  /** `to_dict` as evidently intended: the day of a `datetime`, or the `date` itself. */
  function EstatisticaParaDictCorrigida(e: EstatisticaUso): (r: Dict)
    ensures "data" in r && r["data"] == Texto(DiaIsoFormat(match e.data case DataHora(t) => DiaDe(t) case Data(d) => d))
  {
    match e.data
    case DataHora(t) => EstatisticaComDia(e, DiaDe(t))
    case Data(d) => EstatisticaComDia(e, d)
  }

  /** `EstatisticaUso.from_dict`: the day is required and stored as a `date`
      (`fromisoformat(...).date()`); every figure defaults to zero. */
  function EstatisticaDeDict(data: Dict): (r: Result<EstatisticaUso>)
    ensures "data" !in data ==> r.Err?
    ensures r.Ok? && "total_perguntas" !in data ==> r.value.totalPerguntas == 0
    ensures r.Ok? && "confianca_media" !in data ==> r.value.confiancaMedia == 0.0
    ensures r.Ok? ==> r.value.data.Data?
  {
    var instante :- InstanteExigido(data, "data");
    var dia := Data(DiaDe(instante));
    var id :- ComoInteiroOpcional(Get(data, "id"), "id");
    var ativos :- ComoInteiro(GetOu(data, "total_usuarios_ativos", Inteiro(0)), "total_usuarios_ativos");
    var perguntas :- ComoInteiro(GetOu(data, "total_perguntas", Inteiro(0)), "total_perguntas");
    var respostas :- ComoInteiro(GetOu(data, "total_respostas", Inteiro(0)), "total_respostas");
    var tempo :- ComoReal(GetOu(data, "tempo_medio_resposta", Decimal(0.0)), "tempo_medio_resposta");
    var confianca :- ComoReal(GetOu(data, "confianca_media", Decimal(0.0)), "confianca_media");
    var erros :- ComoInteiro(GetOu(data, "erros_ocorridos", Inteiro(0)), "erros_ocorridos");
    Ok(EstatisticaUso(dia, ativos, perguntas, respostas, tempo, confianca, erros, id))
  }

  /** An `int` mean time or mean confidence reads as the `float` of the same value. */
  lemma EstatisticaNumeroInteiro(data: Dict, k: string, n: int)
    requires k == "tempo_medio_resposta" || k == "confianca_media"
    ensures EstatisticaDeDict(data[k := Inteiro(n)]) == EstatisticaDeDict(data[k := Decimal(n as real)])
  {
    var di := data[k := Inteiro(n)];
    var dr := data[k := Decimal(n as real)];
    assert InstanteExigido(di, "data") == InstanteExigido(dr, "data");
    assert Get(di, "id") == Get(dr, "id");
    assert GetOu(di, "total_usuarios_ativos", Inteiro(0)) == GetOu(dr, "total_usuarios_ativos", Inteiro(0));
    assert GetOu(di, "total_perguntas", Inteiro(0)) == GetOu(dr, "total_perguntas", Inteiro(0));
    assert GetOu(di, "total_respostas", Inteiro(0)) == GetOu(dr, "total_respostas", Inteiro(0));
    assert ComoReal(GetOu(di, "tempo_medio_resposta", Decimal(0.0)), "tempo_medio_resposta")
           == ComoReal(GetOu(dr, "tempo_medio_resposta", Decimal(0.0)), "tempo_medio_resposta");
    assert ComoReal(GetOu(di, "confianca_media", Decimal(0.0)), "confianca_media")
           == ComoReal(GetOu(dr, "confianca_media", Decimal(0.0)), "confianca_media");
    assert GetOu(di, "erros_ocorridos", Inteiro(0)) == GetOu(dr, "erros_ocorridos", Inteiro(0));
  }

  /** Reading the day's text back gives that day. */
  lemma DiaIdaVolta(d: nat)
    ensures FromIsoFormat(DiaIsoFormat(d)) == Some(d * SegundosPorDia)
    ensures DiaDe(d * SegundosPorDia) == d
  {
    ParseNatToString(d * SegundosPorDia);
  }

  /** The round trip of a record holding a `datetime` keeps every figure but only the
      DAY of the instant, now as a `date`: the time of day is lost, and `to_dict` of the
      rebuilt record raises. */
  lemma EstatisticaIdaVolta(e: EstatisticaUso)
    requires e.data.DataHora?
    ensures EstatisticaParaDict(e).Ok?
    ensures EstatisticaDeDict(EstatisticaParaDict(e).value) == Ok(e.(data := Data(DiaDe(e.data.instante))))
    ensures EstatisticaParaDict(EstatisticaDeDict(EstatisticaParaDict(e).value).value).Err?
  {
    DiaIdaVolta(DiaDe(e.data.instante));
  }

  /** The discrepancy on a concrete record: one second past midnight of day 1 comes back
      as day 1, which is not the record written, and cannot be written again. */
  lemma EstatisticaPerdeHora()
    ensures var e := EstatisticaUso(DataHora(SegundosPorDia + 1), 0, 0, 0, 0.0, 0.0, 0, None);
            && EstatisticaDeDict(EstatisticaParaDict(e).value) != Ok(e)
            && EstatisticaParaDict(EstatisticaDeDict(EstatisticaParaDict(e).value).value).Err?
  {
    EstatisticaIdaVolta(EstatisticaUso(DataHora(SegundosPorDia + 1), 0, 0, 0, 0.0, 0.0, 0, None));
  }

  /** With the corrected `to_dict`, writing is stable: the record read back from a
      written dictionary writes the same dictionary again, whether it held a `datetime`
      or a `date`. */
  lemma {:induction false} EstatisticaCorrigidaEstavel(e: EstatisticaUso)
    ensures EstatisticaDeDict(EstatisticaParaDictCorrigida(e)).Ok?
    ensures EstatisticaParaDictCorrigida(EstatisticaDeDict(EstatisticaParaDictCorrigida(e)).value)
            == EstatisticaParaDictCorrigida(e)
  {
    match e.data
    case DataHora(t) => DiaIdaVolta(DiaDe(t));
    case Data(d) => DiaIdaVolta(d);
  }

  // ---------------------------------------------------------------- ContextoConversa

  /** At most this many exchanges are kept in a stored context. */
  const MaxHistorico := 10

  /** The exchanges held under `contexto['historico']` (none when the key is absent). */
  function Historico(contexto: Dict): seq<Valor>
  {
    if "historico" in contexto && contexto["historico"].Lista? then contexto["historico"].itens else []
  }

  /** `contexto['historico']`, when present, is a list: the only shape `append` accepts. */
  predicate HistoricoBemFormado(contexto: Dict)
  {
    "historico" in contexto ==> contexto["historico"].Lista?
  }

  /** The entry `adicionar_interacao` appends. */
  function Entrada(pergunta: string, resposta: string, confianca: Option<real>, agora: nat): Valor
  {
    Objeto(map["pergunta" := Texto(pergunta), "resposta" := Texto(resposta),
                "timestamp" := Texto(IsoFormat(agora)), "confianca" := RealOuNulo(confianca)])
  }

  /** Appending `x` and keeping the last ten: the new entry is last, the others are the
      most recent old ones in their order, and there are never more than ten. */
  lemma UltimasDez(h: seq<Valor>, x: Valor)
    ensures var r := LastN(h + [x], MaxHistorico);
            && |r| == Min(|h| + 1, MaxHistorico)
            && r == LastN(h, MaxHistorico - 1) + [x]
            && r[|r| - 1] == x
  {
    LastNSnoc(h, x, MaxHistorico);
  }

  /** The fields `ContextoConversa.from_dict` hands to the constructor. */
  datatype CamposContexto = CamposContexto(id: Option<int>, usuarioId: string, canalId: string,
                                           contexto: Dict, ultimoUpdate: Option<nat>, ativo: bool)

  /** The stored context of one conversation. */
  class ContextoConversa {
    var id: Option<int>
    var usuarioId: string
    var canalId: string
    var contexto: Dict
    var ultimoUpdate: nat
    var ativo: bool

    predicate Valid()
      reads this
    {
      HistoricoBemFormado(contexto)
    }

    /** The dataclass constructor with `__post_init__`: a missing update instant becomes
        `agora`. */
    constructor(campos: CamposContexto, agora: nat)
      requires HistoricoBemFormado(campos.contexto)
      ensures Valid()
      ensures id == campos.id && usuarioId == campos.usuarioId && canalId == campos.canalId
      ensures contexto == campos.contexto && ativo == campos.ativo
      ensures ultimoUpdate == (if campos.ultimoUpdate.Some? then campos.ultimoUpdate.value else agora)
    {
      id := campos.id;
      usuarioId := campos.usuarioId;
      canalId := campos.canalId;
      contexto := campos.contexto;
      ultimoUpdate := if campos.ultimoUpdate.Some? then campos.ultimoUpdate.value else agora;
      ativo := campos.ativo;
    }

    /** `adicionar_interacao`: appends the exchange to `historico`, creating it when
        absent, keeps the last ten, and stamps the update; every other key of the
        context and every other field stay as they were. */
    method AdicionarInteracao(pergunta: string, resposta: string, confianca: Option<real>, agora: nat)
      requires Valid()
      modifies this
      ensures Valid()
      ensures contexto == old(contexto)["historico" := Lista(LastN(Historico(old(contexto)) + [Entrada(pergunta, resposta, confianca, agora)], MaxHistorico))]
      ensures ultimoUpdate == agora
      ensures id == old(id) && usuarioId == old(usuarioId) && canalId == old(canalId) && ativo == old(ativo)
    {
      if "historico" !in contexto {
        contexto := contexto["historico" := Lista([])];
      }
      var historico := contexto["historico"].itens + [Entrada(pergunta, resposta, confianca, agora)];
      if |historico| > MaxHistorico {
        historico := historico[|historico| - MaxHistorico..];
      }
      contexto := contexto["historico" := Lista(historico)];
      ultimoUpdate := agora;
    }

    /** `obter_historico_recente`: Python's `historico[-limite:]`, so a positive limit
        gives the last `limite` entries, zero gives them all, and a negative one drops
        the first `-limite`. */
    function ObterHistoricoRecente(limite: int): (r: seq<Valor>)
      reads this
      requires Valid()
      ensures Historico(contexto) == [] ==> r == []
      ensures limite > 0 ==> r == LastN(Historico(contexto), limite)
      ensures limite == 0 ==> r == Historico(contexto)
      ensures limite < 0 ==> r == Historico(contexto)[Min(-limite, |Historico(contexto)|)..]
    {
      var historico := Historico(contexto);
      if historico != [] then PySliceFrom(historico, -limite) else []
    }

    /** `ContextoConversa.to_dict`; the context is serialised with `dumps`. */
    function ParaDict(dumps: Dict -> string): Dict
      reads this
    {
      map["id" := InteiroOuNulo(id), "usuario_id" := Texto(usuarioId), "canal_id" := Texto(canalId),
          "contexto" := Texto(dumps(contexto)), "ultimo_update" := IsoOuNulo(Some(ultimoUpdate)),
          "ativo" := Logico(ativo)]
    }
  }

  /** `ContextoConversa.from_dict` up to the constructor call: an empty or unreadable
      context becomes the empty dictionary. */
  function ContextoDeDict(data: Dict, loads: string -> Option<Dict>): (r: Result<CamposContexto>)
    ensures "usuario_id" !in data || "canal_id" !in data ==> r.Err?
    ensures r.Ok? && !Verdadeiro(Get(data, "contexto")) ==> r.value.contexto == map[]
    ensures r.Ok? && Get(data, "contexto").Texto? && loads(Get(data, "contexto").s).None? ==> r.value.contexto == map[]
    ensures r.Ok? && "ativo" !in data ==> r.value.ativo
  {
    var ultimoUpdate :- InstanteOpcional(data, "ultimo_update");
    var v := Get(data, "contexto");
    var contexto :- if !Verdadeiro(v) then Ok(map[])
                    else if !v.Texto? then Err("TypeError: 'contexto'")
                    else Ok(match loads(v.s) case None => map[] case Some(m) => m);
    var id :- ComoInteiroOpcional(Get(data, "id"), "id");
    var usuarioId :- TextoExigido(data, "usuario_id");
    var canalId :- TextoExigido(data, "canal_id");
    var ativo :- ComoLogico(GetOu(data, "ativo", Logico(true)), "ativo");
    Ok(CamposContexto(id, usuarioId, canalId, contexto, ultimoUpdate, ativo))
  }

  /** A context written with `dumps` and read with a `loads` that inverts it comes back
      field for field. */
  lemma ContextoIdaVolta(c: ContextoConversa, dumps: Dict -> string, loads: string -> Option<Dict>)
    requires dumps(c.contexto) != [] && loads(dumps(c.contexto)) == Some(c.contexto)
    ensures ContextoDeDict(c.ParaDict(dumps), loads)
            == Ok(CamposContexto(c.id, c.usuarioId, c.canalId, c.contexto, Some(c.ultimoUpdate), c.ativo))
  {
    InstanteIdaVolta(c.ParaDict(dumps), "ultimo_update", Some(c.ultimoUpdate));
  }

  // ---------------------------------------------------------------- LogSistema

  /** One system log entry. Once built, its instant is set. */
  datatype LogSistema = LogSistema(nivel: string, modulo: string, mensagem: string, timestamp: nat,
                                   dadosExtras: Option<Dict>, id: Option<int>)

  predicate NivelValido(nivel: string)
  {
    nivel == "DEBUG" || nivel == "INFO" || nivel == "WARNING" || nivel == "ERROR" || nivel == "CRITICAL"
  }

  /** Building a `LogSistema`, with `__post_init__`: a missing instant becomes `agora`,
      and a level outside the five logging levels is refused. */
  function NovoLog(nivel: string, modulo: string, mensagem: string, timestamp: Option<nat>,
                   dadosExtras: Option<Dict>, id: Option<int>, agora: nat): (r: Result<LogSistema>)
    ensures r.Ok? <==> NivelValido(nivel)
    ensures r.Err? ==> r.error == "Nível de log inválido: " + nivel
    ensures r.Ok? ==> r.value.timestamp == (if timestamp.Some? then timestamp.value else agora)
    ensures r.Ok? ==> r.value == LogSistema(nivel, modulo, mensagem, r.value.timestamp, dadosExtras, id)
  {
    var instante := if timestamp.Some? then timestamp.value else agora;
    if !NivelValido(nivel) then Err("Nível de log inválido: " + nivel)
    else Ok(LogSistema(nivel, modulo, mensagem, instante, dadosExtras, id))
  }

  /** `LogSistema.to_dict`: extras are serialised only when present and non-empty. */
  function LogParaDict(l: LogSistema, dumps: Dict -> string): Dict
  {
    var extras := if l.dadosExtras.Some? && l.dadosExtras.value != map[] then Texto(dumps(l.dadosExtras.value)) else Nulo;
    map["id" := InteiroOuNulo(l.id), "nivel" := Texto(l.nivel), "modulo" := Texto(l.modulo),
        "mensagem" := Texto(l.mensagem), "timestamp" := IsoOuNulo(Some(l.timestamp)),
        "dados_extras" := extras]
  }

  /** `LogSistema.from_dict`: unreadable extras become `None`. */
  function LogDeDict(data: Dict, loads: string -> Option<Dict>, agora: nat): (r: Result<LogSistema>)
    ensures "nivel" !in data || "modulo" !in data || "mensagem" !in data ==> r.Err?
    ensures r.Ok? ==> NivelValido(r.value.nivel)
    ensures r.Ok? && !Verdadeiro(Get(data, "dados_extras")) ==> r.value.dadosExtras.None?
    ensures r.Ok? && Get(data, "dados_extras").Texto? && loads(Get(data, "dados_extras").s).None? ==> r.value.dadosExtras.None?
  {
    var timestamp :- InstanteOpcional(data, "timestamp");
    var v := Get(data, "dados_extras");
    var extras :- if !Verdadeiro(v) then Ok(None)
                  else if !v.Texto? then Err("TypeError: 'dados_extras'")
                  else Ok(loads(v.s));
    var id :- ComoInteiroOpcional(Get(data, "id"), "id");
    var nivel :- TextoExigido(data, "nivel");
    var modulo :- TextoExigido(data, "modulo");
    var mensagem :- TextoExigido(data, "mensagem");
    NovoLog(nivel, modulo, mensagem, timestamp, extras, id, agora)
  }

  /** A built log entry survives `to_dict` then `from_dict`, except that empty extras
      come back as `None`. */
  lemma LogIdaVolta(l: LogSistema, dumps: Dict -> string, loads: string -> Option<Dict>, agora: nat)
    requires NivelValido(l.nivel)
    requires l.dadosExtras.Some? && l.dadosExtras.value != map[] ==>
               dumps(l.dadosExtras.value) != [] && loads(dumps(l.dadosExtras.value)) == l.dadosExtras
    ensures LogDeDict(LogParaDict(l, dumps), loads, agora)
            == Ok(l.(dadosExtras := if l.dadosExtras == Some(map[]) then None else l.dadosExtras))
  {
    InstanteIdaVolta(LogParaDict(l, dumps), "timestamp", Some(l.timestamp));
  }
}
