/** The log line of `OraculoFormatter` and the record buffer of `DatabaseLogHandler`
    (utils/logger.py).

    The clock is left out: a record carries its creation instant as a number and the
    formatter receives the rendered timestamp as text. Terminal colours depend on
    whether standard error is a terminal and are left out; the level text is the one
    the emoji option produces. */
module Logger {
  import opened Results
  import opened Text

  /** The width of the module column. */
  const LarguraModulo := 20

  /** The width of the level column (`{nivel:<12}`). */
  const LarguraNivel := 12

  /** `max_buffer`: the most records the handler holds while no database is available. */
  const MaxBuffer := 100

  // ---------------------------------------------------------------- the formatter

  function Espacos(n: nat): (r: string)
    ensures |r| == n && forall i :: 0 <= i < n ==> r[i] == ' '
  {
    if n == 0 then "" else Espacos(n - 1) + " "
  }

  /** `s.ljust(largura)`: `s` followed by spaces up to `largura` characters. */
  function Ljust(s: string, largura: nat): (r: string)
    ensures |r| == (if |s| >= largura then |s| else largura)
    ensures r[..|s|] == s
    ensures forall i :: |s| <= i < |r| ==> r[i] == ' '
  {
    if |s| >= largura then s else s + Espacos(largura - |s|)
  }

  /** The module column: a name longer than twenty characters is shortened to `...`
      and its last seventeen, and every name is padded to exactly twenty. */
  function FormatarModulo(nome: string): (m: string)
    ensures |m| == LarguraModulo
    ensures |nome| > LarguraModulo ==> m == "..." + nome[|nome| - 17..]
    ensures |nome| <= LarguraModulo ==> m[..|nome|] == nome && forall i :: |nome| <= i < LarguraModulo ==> m[i] == ' '
  {
    var modulo := if |nome| > LarguraModulo then "..." + nome[|nome| - 17..] else nome;
    Ljust(modulo, LarguraModulo)
  }

  /** Names of at most twenty characters that do not end in a space keep their column
      apart: two such names share a column only when they are the same name. */
  lemma ModulosCurtosDistintos(a: string, b: string)
    requires |a| <= LarguraModulo && |b| <= LarguraModulo
    requires a != [] ==> a[|a| - 1] != ' '
    requires b != [] ==> b[|b| - 1] != ' '
    requires FormatarModulo(a) == FormatarModulo(b)
    ensures a == b
  {
    var m := FormatarModulo(a);
    if |a| != |b| {
      assert false;
    }
    assert a == m[..|a|] == b;
  }

  /** `EMOJIS.get(nivel, '')`. */
  function Emoji(nivel: string): string
  {
    if nivel == "DEBUG" then "🔍"
    else if nivel == "INFO" then "ℹ️"
    else if nivel == "WARNING" then "⚠️"
    else if nivel == "ERROR" then "❌"
    else if nivel == "CRITICAL" then "🚨"
    else ""
  }

  /** The level text before colouring: the emoji, a space and the level name when emojis
      are on, the level name alone otherwise. */
  function NivelExibido(nivel: string, usarEmojis: bool): string
  {
    if usarEmojis then Emoji(nivel) + " " + nivel else nivel
  }

  /** The ` [extra_info]` suffix, present only when the record has extra information. */
  function Extras(extraInfo: Option<string>): string
  {
    match extraInfo
    case None => ""
    case Some(e) => " [" + e + "]"
  }

  /** The line `format` returns for a record without exception information. */
  function LinhaLog(timestamp: string, nivel: string, nome: string, mensagem: string, extraInfo: Option<string>)
    : (r: string)
    ensures |r| >= |timestamp| && r[..|timestamp|] == timestamp
    ensures var cauda := mensagem + Extras(extraInfo);
            |r| >= |cauda| && r[|r| - |cauda|..] == cauda
  {
    timestamp + " | " + Ljust(nivel, LarguraNivel) + " | " + FormatarModulo(nome) + " | " + mensagem + Extras(extraInfo)
  }

  /** The columns line up: when the level text fits its twelve characters, the module
      column and the message start at the same place on every line, and the message is
      followed only by the extras. */
  lemma ColunasAlinhadas(timestamp: string, nivel: string, nome: string, mensagem: string, extraInfo: Option<string>)
    requires |nivel| <= LarguraNivel
    ensures var linha := LinhaLog(timestamp, nivel, nome, mensagem, extraInfo);
            var inicioModulo := |timestamp| + 3 + LarguraNivel + 3;
            var inicioMensagem := inicioModulo + LarguraModulo + 3;
            && |linha| == inicioMensagem + |mensagem| + |Extras(extraInfo)|
            && linha[..|timestamp|] == timestamp
            && linha[inicioModulo..inicioModulo + LarguraModulo] == FormatarModulo(nome)
            && linha[inicioMensagem..inicioMensagem + |mensagem|] == mensagem
            && linha[inicioMensagem + |mensagem|..] == Extras(extraInfo)
  {
    var n := Ljust(nivel, LarguraNivel);
    var m := FormatarModulo(nome);
    var inicioModulo := |timestamp| + 3 + LarguraNivel + 3;
    var inicioMensagem := inicioModulo + LarguraModulo + 3;
    var cabeca := timestamp + " | " + n + " | ";
    var ate := cabeca + m + " | ";
    var linha := ate + mensagem + Extras(extraInfo);
    assert |cabeca| == inicioModulo;
    assert |ate| == inicioMensagem;
    assert linha == LinhaLog(timestamp, nivel, nome, mensagem, extraInfo);
    assert linha[..|timestamp|] == cabeca[..|timestamp|];
    assert linha[inicioModulo..inicioModulo + LarguraModulo] == ate[inicioModulo..inicioModulo + LarguraModulo];
  }

  /** Every one of the five standard levels fits the level column, with or without its
      emoji, so the columns line up across levels. */
  lemma NiveisPadraoCabem(nivel: string, usarEmojis: bool)
    requires nivel in ["DEBUG", "INFO", "WARNING", "ERROR", "CRITICAL"]
    ensures |NivelExibido(nivel, usarEmojis)| <= LarguraNivel
  {
    assert nivel == "DEBUG" || nivel == "INFO" || nivel == "WARNING" || nivel == "ERROR" || nivel == "CRITICAL";
  }

  // ---------------------------------------------------------------- the buffer

  /** A log record: its level name, logger name, rendered message, creation instant and
      optional `extra_info`. */
  datatype Registro = Registro(nivel: string, nome: string, mensagem: string, criado: nat,
                               extraInfo: Option<string>)

  /** One buffered entry, the dictionary `_adicionar_ao_buffer` appends. */
  datatype EntradaBuffer = EntradaBuffer(nivel: string, modulo: string, mensagem: string, timestamp: nat,
                                         dadosExtras: Option<string>)

  function ParaEntrada(r: Registro): EntradaBuffer
  {
    EntradaBuffer(r.nivel, r.nome, r.mensagem, r.criado, r.extraInfo)
  }

  /** The buffer after `_adicionar_ao_buffer`: a full buffer first loses its oldest
      entry, then the new entry goes at the end. */
  function Acrescentar(buffer: seq<EntradaBuffer>, e: EntradaBuffer): seq<EntradaBuffer>
  {
    (if |buffer| >= MaxBuffer then buffer[1..] else buffer) + [e]
  }

  /** The buffer after entries `es` are added one by one. */
  function AcrescentarTodos(buffer: seq<EntradaBuffer>, es: seq<EntradaBuffer>): seq<EntradaBuffer>
  {
    if es == [] then buffer else Acrescentar(AcrescentarTodos(buffer, es[..|es| - 1]), es[|es| - 1])
  }

  /** Adding to a buffer within its bound keeps the last hundred of the old entries and
      the new one, in order: the oldest goes first. */
  lemma AcrescentarGuardaOsUltimos(buffer: seq<EntradaBuffer>, e: EntradaBuffer)
    requires |buffer| <= MaxBuffer
    ensures Acrescentar(buffer, e) == LastN(buffer + [e], MaxBuffer)
    ensures 1 <= |Acrescentar(buffer, e)| <= MaxBuffer
  {
    LastNSnoc(buffer, e, MaxBuffer);
    if |buffer| == MaxBuffer {
      assert LastN(buffer, MaxBuffer - 1) == buffer[1..];
    } else {
      assert LastN(buffer, MaxBuffer - 1) == buffer;
    }
  }

  /** However many records arrive while no database is available, the buffer holds the
      last hundred of its old entries and the new ones, in arrival order. */
  lemma {:induction false} BufferGuardaOsUltimos(buffer: seq<EntradaBuffer>, es: seq<EntradaBuffer>)
    requires |buffer| <= MaxBuffer
    ensures AcrescentarTodos(buffer, es) == LastN(buffer + es, MaxBuffer)
  {
    if es != [] {
      var n := |es| - 1;
      var inicio := buffer + es[..n];
      var antes := AcrescentarTodos(buffer, es[..n]);
      assert inicio + [es[n]] == buffer + es by {
        assert es == es[..n] + [es[n]];
      }
      calc {
        AcrescentarTodos(buffer, es);
        Acrescentar(antes, es[n]);
        { BufferGuardaOsUltimos(buffer, es[..n]);
          AcrescentarGuardaOsUltimos(antes, es[n]); }
        LastN(antes + [es[n]], MaxBuffer);
        { LastNSnoc(antes, es[n], MaxBuffer); }
        LastN(antes, MaxBuffer - 1) + [es[n]];
        { BufferGuardaOsUltimos(buffer, es[..n]);
          LastNLastN(inicio, MaxBuffer, MaxBuffer - 1); }
        LastN(inicio, MaxBuffer - 1) + [es[n]];
        { LastNSnoc(inicio, es[n], MaxBuffer); }
        LastN(inicio + [es[n]], MaxBuffer);
      }
    }
  }

  /** The database manager, of which the handler only asks whether one is set. */
  datatype GerenciadorBanco = GerenciadorBanco(id: nat)

  class DatabaseLogHandler {
    var dbManager: Option<GerenciadorBanco>
    var buffer: seq<EntradaBuffer>

    /** The buffer never holds more than a hundred entries. */
    predicate Valid()
      reads this
    {
      |buffer| <= MaxBuffer
    }

    constructor(dbManager: Option<GerenciadorBanco>)
      ensures Valid() && this.dbManager == dbManager && buffer == []
    {
      this.dbManager := dbManager;
      buffer := [];
    }

    /** `_adicionar_ao_buffer`. */
    method AdicionarAoBuffer(registro: Registro)
      requires Valid()
      modifies this
      ensures Valid()
      ensures buffer == Acrescentar(old(buffer), ParaEntrada(registro))
      ensures dbManager == old(dbManager)
    {
      AcrescentarGuardaOsUltimos(buffer, ParaEntrada(registro));
      if |buffer| >= MaxBuffer {
        buffer := buffer[1..];
      }
      buffer := buffer + [ParaEntrada(registro)];
    }

    /** `_processar_buffer`: the entries are handed to a save step that does nothing, and
        the buffer is cleared. */
    method ProcessarBuffer()
      modifies this
      ensures buffer == []
      ensures dbManager == old(dbManager)
    {
      buffer := [];
    }

    /** `emit`. With a manager set the record goes to the database and any buffered
        entries are flushed; without one, or when saving raises (`falhaAoSalvar`), the
        record is buffered instead. */
    method Emit(registro: Registro, falhaAoSalvar: bool)
      requires Valid()
      modifies this
      ensures Valid()
      ensures dbManager == old(dbManager)
      ensures old(dbManager).Some? && !falhaAoSalvar ==> buffer == []
      ensures old(dbManager).None? || falhaAoSalvar ==> buffer == Acrescentar(old(buffer), ParaEntrada(registro))
    {
      if dbManager.Some? {
        if !falhaAoSalvar {
          if buffer != [] {
            ProcessarBuffer();
          }
          return;
        }
      }
      AdicionarAoBuffer(registro);
    }

    /** `set_db_manager`: stores the manager (even `None`) and flushes the buffer. */
    method SetDbManager(dbManager: Option<GerenciadorBanco>)
      modifies this
      ensures this.dbManager == dbManager
      ensures buffer == [] && Valid()
    {
      this.dbManager := dbManager;
      if buffer != [] {
        ProcessarBuffer();
      }
    }
  }
}
