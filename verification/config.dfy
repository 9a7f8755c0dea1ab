/** The settings class of utils/config.py: reading a `.env` file into the process
    environment (`carregar_de_arquivo`) and checking the settings (`validar`).

    The environment `os.environ` is the field of a `Processo` object; the file is the
    sequence of its lines, or `None` when it does not exist. Whether the log and database
    directories can be created is a parameter of `validar`. */
module Config {
  import opened Results
  import opened Text

  type Ambiente = map<string, string>

  /** `not os.getenv(chave)`: the variable is unset or set to the empty string. */
  predicate Ausente(env: Ambiente, chave: string)
  {
    chave !in env || env[chave] == ""
  }

  // ---------------------------------------------------------------- one line of a .env file

  /** `valor.strip().strip('"').strip("'")`. */
  function LimparValor(valor: string): string
  {
    StripChar(StripChar(Strip(valor), '"'), '\'')
  }

  /** What one line says: nothing for a blank line or a comment, otherwise what follows
      from splitting it at its first `=`. */
  function LerLinha(linha: string): Option<(string, string)>
  {
    var l := Strip(linha);
    if l == [] || l[0] == '#' then None else SepararNoIgual(l, 0)
  }

  /** Looks for the first `=` of `l` from index `k` on: nothing when there is none,
      otherwise the stripped key before it and the cleaned value after it. */
  function SepararNoIgual(l: string, k: nat): Option<(string, string)>
    requires k <= |l|
    decreases |l| - k
  {
    if k == |l| then None
    else if l[k] == '=' then Some((Strip(l[..k]), LimparValor(l[k + 1..])))
    else SepararNoIgual(l, k + 1)
  }

  lemma {:induction false} SepararNoPrimeiroIgual(l: string, k: nat)
    requires k <= |l|
    requires forall j :: 0 <= j < k ==> l[j] != '='
    ensures SepararNoIgual(l, k).Some? <==> '=' in l
    ensures '=' in l ==> exists antes, depois :: l == antes + "=" + depois && '=' !in antes
                                                 && SepararNoIgual(l, k).value == (Strip(antes), LimparValor(depois))
    decreases |l| - k
  {
    if k == |l| {
      assert forall j :: 0 <= j < |l| ==> l[j] != '=';
    } else if l[k] == '=' {
      assert l == l[..k] + "=" + l[k + 1..];
    } else {
      SepararNoPrimeiroIgual(l, k + 1);
    }
  }

  /** Blank lines, comments and lines without `=` say nothing; any other line is split
      at its FIRST `=`, so the value may itself hold further `=`. */
  lemma LerLinhaSignificado(linha: string)
    ensures var r := LerLinha(linha);
            && (r.Some? <==> Strip(linha) != [] && Strip(linha)[0] != '#' && '=' in Strip(linha))
            && (r.Some? ==> exists antes, depois :: Strip(linha) == antes + "=" + depois && '=' !in antes
                                                    && r.value == (Strip(antes), LimparValor(depois)))
  {
    var l := Strip(linha);
    if l != [] && l[0] != '#' {
      SepararNoPrimeiroIgual(l, 0);
    }
  }

  /** One iteration of the loop: the variable is written only when the key is non-empty
      and the environment does not already hold a non-empty value for it. */
  function AplicarLinha(env: Ambiente, linha: string): Ambiente
  {
    match LerLinha(linha)
    case None => env
    case Some((chave, valor)) => if chave != "" && Ausente(env, chave) then env[chave := valor] else env
  }

  /** The environment after the loop has seen `linhas`. */
  function AplicarLinhas(env: Ambiente, linhas: seq<string>): Ambiente
  {
    if linhas == [] then env else AplicarLinha(AplicarLinhas(env, linhas[..|linhas| - 1]), linhas[|linhas| - 1])
  }

  /** The running process, whose environment the loader writes into. */
  class Processo {
    var ambiente: Ambiente

    constructor(ambiente: Ambiente)
      ensures this.ambiente == ambiente
    {
      this.ambiente := ambiente;
    }

    /** `carregar_de_arquivo`: a missing file answers `False` and changes nothing;
        otherwise every line is applied in order and the answer is `True`. */
    method CarregarDeArquivo(arquivo: Option<seq<string>>) returns (ok: bool)
      modifies this
      ensures ok <==> arquivo.Some?
      ensures arquivo.None? ==> ambiente == old(ambiente)
      ensures arquivo.Some? ==> ambiente == AplicarLinhas(old(ambiente), arquivo.value)
    {
      if arquivo.None? {
        return false;
      }
      var linhas := arquivo.value;
      var i := 0;
      while i < |linhas|
        invariant 0 <= i <= |linhas|
        invariant ambiente == AplicarLinhas(old(ambiente), linhas[..i])
      {
        ghost var antes := ambiente;
        var linha := LerLinha(linhas[i]);
        if linha.Some? {
          var chave := linha.value.0;
          var valor := linha.value.1;
          if chave != "" && Ausente(ambiente, chave) {
            ambiente := ambiente[chave := valor];
          }
        }
        assert linhas[..i + 1][..i] == linhas[..i];
        i := i + 1;
      }
      assert linhas[..i] == linhas;
      return true;
    }
  }

  // ---------------------------------------------------------------- properties of the loader

  /** Loading is the same as loading the first lines and then the rest. */
  lemma {:induction false} AplicarConcatenadas(env: Ambiente, a: seq<string>, b: seq<string>)
    ensures AplicarLinhas(env, a + b) == AplicarLinhas(AplicarLinhas(env, a), b)
  {
    if b == [] {
      assert a + b == a;
    } else {
      assert (a + b)[..|a + b| - 1] == a + b[..|b| - 1];
      AplicarConcatenadas(env, a, b[..|b| - 1]);
    }
  }

  /** A variable that already holds a non-empty value is never overwritten. */
  lemma {:induction false} NaoSobrescreve(env: Ambiente, linhas: seq<string>)
    ensures forall chave :: chave in env && env[chave] != "" ==>
              chave in AplicarLinhas(env, linhas) && AplicarLinhas(env, linhas)[chave] == env[chave]
  {
    if linhas != [] {
      NaoSobrescreve(env, linhas[..|linhas| - 1]);
    }
  }

  /** Every variable afterwards either was there before with the same value, or was
      written from some line of the file. */
  lemma {:induction false} ValoresDeOrigem(env: Ambiente, linhas: seq<string>)
    ensures var depois := AplicarLinhas(env, linhas);
            forall chave :: chave in depois ==>
              (chave in env && depois[chave] == env[chave])
              || exists i :: 0 <= i < |linhas| && LerLinha(linhas[i]) == Some((chave, depois[chave]))
  {
    if linhas != [] {
      var n := |linhas| - 1;
      var antes := AplicarLinhas(env, linhas[..n]);
      ValoresDeOrigem(env, linhas[..n]);
      var depois := AplicarLinhas(env, linhas);
      forall chave | chave in depois
        ensures (chave in env && depois[chave] == env[chave])
                || exists i :: 0 <= i < |linhas| && LerLinha(linhas[i]) == Some((chave, depois[chave]))
      {
        if chave in antes && depois[chave] == antes[chave] {
          if !(chave in env && antes[chave] == env[chave]) {
            var i :| 0 <= i < n && LerLinha(linhas[..n][i]) == Some((chave, antes[chave]));
            assert linhas[..n][i] == linhas[i];
          }
        } else {
          assert LerLinha(linhas[n]) == Some((chave, depois[chave]));
        }
      }
    }
  }

  /** A line `chave=valor` with a non-empty key and value, reached while the variable is
      still unset or empty, decides the variable for good: later lines cannot change it. */
  lemma DefinidaPorLinha(env: Ambiente, linhas: seq<string>, i: nat, chave: string, valor: string)
    requires i < |linhas|
    requires LerLinha(linhas[i]) == Some((chave, valor)) && chave != "" && valor != ""
    requires Ausente(AplicarLinhas(env, linhas[..i]), chave)
    ensures chave in AplicarLinhas(env, linhas) && AplicarLinhas(env, linhas)[chave] == valor
  {
    var ate := AplicarLinhas(env, linhas[..i + 1]);
    assert linhas[..i + 1][..i] == linhas[..i];
    assert ate[chave] == valor;
    NaoSobrescreve(ate, linhas[i + 1..]);
    AplicarConcatenadas(env, linhas[..i + 1], linhas[i + 1..]);
    assert linhas[..i + 1] + linhas[i + 1..] == linhas;
  }

  // ---------------------------------------------------------------- validar

  /** The settings `validar` reads. */
  datatype Configuracao = Configuracao(discordToken: string, geminiApiKey: string,
                                       confiancaMinima: real, geminiTemperature: real,
                                       geminiMaxTokens: int, maxConcurrentRequests: int,
                                       rateLimitPerUser: int)

  /** One entry of `validacoes_numericas`: a name, a value and its inclusive bounds. */
  datatype Validacao = Validacao(nome: string, valor: real, minimo: real, maximo: real)

  function ValidacoesNumericas(c: Configuracao): seq<Validacao>
  {
    [Validacao("CONFIANCA_MINIMA", c.confiancaMinima, 0.0, 1.0),
     Validacao("GEMINI_TEMPERATURE", c.geminiTemperature, 0.0, 2.0),
     Validacao("GEMINI_MAX_TOKENS", c.geminiMaxTokens as real, 1.0, 8192.0),
     Validacao("MAX_CONCURRENT_REQUESTS", c.maxConcurrentRequests as real, 1.0, 100.0),
     Validacao("RATE_LIMIT_PER_USER", c.rateLimitPerUser as real, 1.0, 100.0)]
  }

  /** When the settings are acceptable: both tokens set, every number in its range, and
      both directories creatable. */
  predicate ConfiguracaoValida(c: Configuracao, criaDiretorioLogs: bool, criaDiretorioBanco: bool)
  {
    && c.discordToken != "" && c.geminiApiKey != ""
    && 0.0 <= c.confiancaMinima <= 1.0
    && 0.0 <= c.geminiTemperature <= 2.0
    && 1 <= c.geminiMaxTokens <= 8192
    && 1 <= c.maxConcurrentRequests <= 100
    && 1 <= c.rateLimitPerUser <= 100
    && criaDiretorioLogs && criaDiretorioBanco
  }

  /** `validar`: checks the tokens, then the numbers in list order, stopping at the first
      failure, then the two directories. */
  method Validar(c: Configuracao, criaDiretorioLogs: bool, criaDiretorioBanco: bool) returns (ok: bool)
    ensures ok <==> ConfiguracaoValida(c, criaDiretorioLogs, criaDiretorioBanco)
  {
    if c.discordToken == "" {
      return false;
    }
    if c.geminiApiKey == "" {
      return false;
    }
    var validacoes := ValidacoesNumericas(c);
    var i := 0;
    while i < |validacoes|
      invariant 0 <= i <= |validacoes|
      invariant forall j :: 0 <= j < i ==> validacoes[j].minimo <= validacoes[j].valor <= validacoes[j].maximo
    {
      var v := validacoes[i];
      if !(v.minimo <= v.valor <= v.maximo) {
        return false;
      }
      i := i + 1;
    }
    assert validacoes[0].minimo <= validacoes[0].valor <= validacoes[0].maximo;
    assert validacoes[1].minimo <= validacoes[1].valor <= validacoes[1].maximo;
    assert validacoes[2].minimo <= validacoes[2].valor <= validacoes[2].maximo;
    assert validacoes[3].minimo <= validacoes[3].valor <= validacoes[3].maximo;
    assert validacoes[4].minimo <= validacoes[4].valor <= validacoes[4].maximo;
    if !criaDiretorioLogs {
      return false;
    }
    if !criaDiretorioBanco {
      return false;
    }
    return true;
  }
}
