# OraculoConcursos — a verified model of the anti-hallucination core

OraculoConcursos is a Discord bot that answers questions about Brazilian public-service
examinations (*concursos públicos*) with Google Gemini. Before an answer reaches the
user it goes through a heuristic **anti-hallucination pipeline**. This project models
that pipeline and the helpers around it in Dafny, and proves what each one promises.

- **`ValidadorConfianca`** (validador_confianca.dfy, over regex.dfy and text.dfy) scores an answer.
  - It starts at 0.5.
  - It adds 0.15 for each matching high-confidence pattern and subtracts 0.2 for each low-confidence one.
  - It adds bonuses for technical terms, cited sources, structure and length, then clamps the score to [0, 1].
  - It blends the score 0.7/0.3 with Gemini's own confidence and compares the blend with `confianca_minima`.
  - It also lists hallucination risks, detects contradictions between adjacent sentences, suggests improvements and builds a confidence report.
- **`MonitorAlucinacao`** (monitor_alucinacao.dfy) keeps the last 100 scores. It raises an alert when the mean of the last ten is below 0.6, and reports statistics.
- **`AntiHallucinationManager`** (anti_hallucination.dfy) is the staged gate. It runs these stages in order:
  - the confidence threshold;
  - uncertainty phrases;
  - legal references;
  - keyword consistency;
  - date and percentage sanity;
  - the final threshold;
  - then either a safe refusal or the answer with an optional disclaimer.
- **`GeminiClient`** (gemini_client.dfy):
  - source extraction, deduplicated and capped at five;
  - Gemini-side confidence;
  - context rendering of the last three turns;
  - response processing.
- **`OraculoBot`** (discord_bot.dfy):
  - word-boundary chunking of long replies;
  - mention removal;
  - the per-conversation cache capped at five exchanges;
  - the five-source embed.
- **Conversation stores**:
  - `ContextoConversa`, capped at ten, and the record validators and dictionary round trips of database/models.py (models.dfy);
  - the stored context capped at twenty of bot/database.py (bot_database.dfy);
  - the question/answer pairing fold of database/db_manager.py (db_manager.dfy).
- **Utilities**:
  - the `.env` loader and the settings check of utils/config.py (config.dfy);
  - the log line layout and the 100-entry record buffer of utils/logger.py (logger.dfy).

## How the model is built

**Scores and other numbers.**
- Scores are exact `real`s.
- The source's `max(0.0, min(1.0, x))` is `Text.Clamp01`.

**Regular expressions are not reimplemented.**
- `Regex.Engine` is a parameter, a function from a pattern's source text and a subject to the list of matches (`re.findall`/`re.finditer`).
- `re.search` holds when that list is non-empty.
- Patterns that are plain case-insensitive alternations of words (`(?i)sempre`, `(?:ou seja|isto é|…)`) are `Literal` patterns. They match by case-insensitive substring tests on the lower-cased text, with no engine involved.

**Imperative code keeps its form.**
- The source's loops (scoring, structure analysis, risk listing, suggestions, chunking, source extraction, pairing, the `.env` loop, `validar`) are `method`s with loop invariants.
- Each is proved equal to a specification function, and the properties are lemmas about that function.
- Objects that the source mutates in place are `class`es with `modifies` clauses:
  - `AntiHallucinationManager`, `Monitor`, `OraculoBot`, `ContextoConversa`, `BotDatabase`, `Processo` (the process environment) and `DatabaseLogHandler`.

**Inputs from outside the model.**
- The clock (`agora`, `now`) is a parameter.
- So are Python's `hash`, the JSON codec (`dumps`/`loads`), query results (`Result` values) and whether a directory can be created.

## Model

| member | source | states |
|---|---|---|
| ValidadorConfianca.CalcularScoreConfianca | utils/anti_alucinacao.py:106-164 | the loop computes exactly the specification score: 0.5, plus 0.15 per high-confidence pattern that occurs and minus 0.2 per low-confidence one, plus the term, source, structure and length contributions, clamped; the result lies in [0, 1] |
| ValidadorConfianca.SomarPorPadrao | utils/anti_alucinacao.py:119-129 | the per-pattern loop adds its step once for each pattern that occurs at all, i.e. step × (number of matching patterns) |
| ValidadorConfianca.ContarTermos | utils/anti_alucinacao.py:131-139 | the loop counts the listed technical terms that are substrings of the lower-cased answer |
| ValidadorConfianca.SomarBonusFontes | utils/anti_alucinacao.py:141-152 | no bonus without sources; otherwise min(0.15, 0.03·n) plus 0.05 for each source naming a trusted publisher, once per source (the `break`) |
| ValidadorConfianca.NumeroFontesConfiaveis | utils/anti_alucinacao.py:147-152 | at most one trusted-source bonus per source: the count never exceeds the number of sources |
| ValidadorConfianca.BonusFontesMonotono | utils/anti_alucinacao.py:141-152 | appending a source adds 0.03 while there are fewer than five sources and nothing afterwards, plus 0.05 exactly when the new source is trusted |
| ValidadorConfianca.AnalisarEstruturaResposta | utils/anti_alucinacao.py:166-194 | the structure bonus is the sum of four probes (0.05 list, 0.03 each for explanation, practice, distinction), so it lies in [0, 0.14] |
| ValidadorConfianca.ContarTermosTecnicos | utils/anti_alucinacao.py:350-353 | the number of distinct listed terms present in the lower-cased answer, never more than the list's length |
| ValidadorConfianca.ContribuicoesLimitadas | utils/anti_alucinacao.py:120-161 | arithmetic corollary of the pattern and term lists: each contribution is bounded: high patterns at most 1.2, low patterns at most 2.4, terms at most 0.2, sources at most 0.15 + 0.05·n, structure at most 0.14 |
| ValidadorConfianca.UmaVezPorPadrao | utils/anti_alucinacao.py:120-129 | the number of ±0.15/0.2 steps is the size of the set of patterns that match, so repeated occurrences do not count twice |
| ValidadorConfianca.ScoreIgnoraRepeticoes | utils/anti_alucinacao.py:117-164 | two answers of equal length with the same matching patterns, term count and structure bonus get the same score, however often each pattern occurs |
| ValidadorConfianca.RespostaConfiavel | utils/anti_alucinacao.py:71-104 | a mistyped field (the exception path) rejects; with well-typed fields the answer is accepted if and only if 0.7·own score + 0.3·Gemini's confidence reaches the minimum, a missing confidence counting as 0.0 (so then acceptance is 0.7·score ≥ minimum) |
| ValidadorConfianca.ScoreFinalRange | utils/anti_alucinacao.py:90 | arithmetic corollary of the blend's definition: with Gemini's confidence in [0, 1] the blend lies in [0, 1] and is at least 0.7 times the own score |
| ValidadorConfianca.AprovacaoRelatorioVersusBlend | utils/anti_alucinacao.py:90-92 | relates the report's approval (own score ≥ minimum) to `resposta_confiavel`: when Gemini is less confident, blend approval implies report approval, and when more confident, the converse |
| ValidadorConfianca.IdentificarRiscosAlucinacao | utils/anti_alucinacao.py:196-248 | the loop builds exactly the specification risk list, in the source's order: numbers, percentages, categorical claims, contradiction |
| ValidadorConfianca.AcrescentarCategoricos | utils/anti_alucinacao.py:226-238 | the categorical loop appends one risk per matching adverb pattern, after the earlier risks |
| ValidadorConfianca.RiscosNumerosSemFonte | utils/anti_alucinacao.py:208-215 | exactly one `numeros_sem_fonte` risk when a year range or date occurs and no lei/decreto/portaria does, otherwise none |
| ValidadorConfianca.RiscosPercentuais | utils/anti_alucinacao.py:217-224 | exactly one `percentuais_especificos` risk when a percentage occurs, whatever the text cites |
| ValidadorConfianca.RiscosCategoricosDistintos | utils/anti_alucinacao.py:226-238 | the number of `afirmacao_categorica` risks is the number of distinct adverb patterns that match, hence at most 6 |
| ValidadorConfianca.RiscosContradicao | utils/anti_alucinacao.py:240-246 | exactly one `possivel_contradicao` risk when a contradiction is detected, otherwise none |
| ValidadorConfianca.RiscosTotal | utils/anti_alucinacao.py:196-248 | the length of the risk list is the sum of the four kinds' counts |
| ValidadorConfianca.NomesDosTipos | utils/anti_alucinacao.py:196-248 | the four risk kinds carry distinct `tipo` strings, so a risk's dictionary names its kind unambiguously |
| ValidadorConfianca.Sentencas | utils/anti_alucinacao.py:261 | splitting at a terminator followed by whitespace yields at least one piece, exactly one when the text has no such break, and no piece contains one |
| ValidadorConfianca.DetectarContradicoes | utils/anti_alucinacao.py:250-282 | true iff some adjacent pair of sentences holds a contradictory word pair in either order (lower-cased substring tests) |
| ValidadorConfianca.UmaSentencaSemContradicao | utils/anti_alucinacao.py:261-263 | a text with no sentence break has no contradiction, since only adjacent pairs are compared |
| ValidadorConfianca.SugerirMelhorias | utils/anti_alucinacao.py:284-314 | the loop builds exactly the specification suggestion list |
| ValidadorConfianca.SemSugestoes | utils/anti_alucinacao.py:284-314 | no suggestion iff score ≥ 0.7, a legal basis is cited, the answer has ≥ 100 characters and no low-confidence pattern occurs; at most six suggestions, all distinct (the `break`) |
| ValidadorConfianca.GerarRelatorioConfianca | utils/anti_alucinacao.py:316-348 | a non-text answer makes the (uncaught) scorer raise, and only then; otherwise the report's score is the clamped score, approval is score ≥ minimum, and details, risks, suggestions and threshold are those of the answer |
| MonitorAlucinacao.Monitor.constructor | utils/anti_alucinacao.py:359-362 | starts with no scores and no alerts |
| MonitorAlucinacao.Monitor.RegistrarResposta | utils/anti_alucinacao.py:364-380 | appends the entry stamped with the first clock reading (question hash reduced mod 10000), drops the oldest past 100, then appends the alert the new history calls for, stamped with the second reading |
| MonitorAlucinacao.RegistradoFifo | utils/anti_alucinacao.py:373-377 | the history is the last 100 of the old entries plus the new one, which is last; below 100 nothing is dropped, at 100 exactly the oldest is |
| MonitorAlucinacao.Monitor.VerificarAlertas | utils/anti_alucinacao.py:382-401 | the history is unchanged and the alerts grow by the alert the history calls for, if any |
| MonitorAlucinacao.AlertaSoComMediaBaixa | utils/anti_alucinacao.py:382-401 | an alert is raised iff there are at least ten scores and the mean of the last ten is below 0.6; it is of kind `media_baixa` over ten samples; ten scores all ≥ 0.6 never raise one |
| MonitorAlucinacao.Monitor.ObterEstatisticas | utils/anti_alucinacao.py:403-418 | no statistics without scores; otherwise the count, minimum and maximum (members of the history and bounds on it), the mean sum/len (between them), the number of scores reaching the minimum, the rate count/total in [0, 1], and the alert count |
| MonitorAlucinacao.AprovadasContadas | utils/anti_alucinacao.py:415-416 | the approval count is the number of positions whose score is at least the minimum |
| MonitorAlucinacao.MediaEntreExtremos | utils/anti_alucinacao.py:412-414 | the mean of a non-empty history lies between its minimum and maximum |
| AntiHallucination.AntiHallucinationManager.constructor | bot/anti_hallucination.py:17-21 | stores the given threshold (0.9 by default) |
| AntiHallucination.AntiHallucinationManager.ValidateResponse | bot/anti_hallucination.py:66-114 | the staged method returns exactly the specification verdict `Validation` |
| AntiHallucination.AntiHallucinationManager.PenalisedConfidence | bot/anti_hallucination.py:86-100 | stages 3 to 5 compute the confidence times the consistency factor, times 0.8 when numbers or dates are suspicious |
| AntiHallucination.AntiHallucinationManager.ContextStages | bot/anti_hallucination.py:86-94 | the legal-reference check never penalises, so the confidence after stage 4 is the input times the consistency factor |
| AntiHallucination.AntiHallucinationManager.NumbersStage | bot/anti_hallucination.py:96-100 | the confidence is kept when the dates and percentages pass and multiplied by 0.8 otherwise |
| AntiHallucination.AntiHallucinationManager.FinalStages | bot/anti_hallucination.py:86-110 | stages 3 to 7 return the specification's final verdict |
| AntiHallucination.ValidationStages | bot/anti_hallucination.py:72-110 | below the threshold: rejected with the fixed message and 0.1; uncertainty pushing max(0.1, c − 0.3) below the threshold: rejected with that value; otherwise accepted iff the final confidence reaches the threshold, the accepted text starts with the answer and differs from it iff the confidence is below 0.95, and a rejection gives the safe response |
| AntiHallucination.AcceptedAnswer | bot/anti_hallucination.py:79-104 | an accepted answer had confidence ≥ threshold, at least threshold + 0.3 when it used an uncertainty phrase, and its final confidence never exceeds the input |
| AntiHallucination.FinalConfidenceBounds | bot/anti_hallucination.py:86-100 | the final confidence is c, 0.7c, 0.8c or 0.56c, so it lies between 0.56c and c |
| AntiHallucination.CheckUncertaintyPhrases | bot/anti_hallucination.py:116-123 | true iff some forbidden phrase is a substring of the lower-cased answer |
| AntiHallucination.IncertezaPersiste | bot/anti_hallucination.py:116-123 | appending text never removes a detected uncertainty phrase |
| AntiHallucination.ValidateLegalReferences | bot/anti_hallucination.py:125-141 | always true, so the ×0.7 legal penalty never fires |
| AntiHallucination.CheckContextualConsistency | bot/anti_hallucination.py:143-168 | the factor is 0.7 or 1.0 |
| AntiHallucination.ContextualConsistencyMeaning | bot/anti_hallucination.py:147-162 | the factor is 0.7 iff the question's whitespace tokens include an important keyword and none of them is also a token of the answer |
| AntiHallucination.KeywordSets | bot/anti_hallucination.py:157-160 | the two set intersections of the source mean "some keyword among the question's tokens" and "some keyword shared by both token sets" |
| AntiHallucination.IsValidDateFormat | bot/anti_hallucination.py:195-208 | a date is accepted iff it parses as day, month, year with one of the separators `/`, `-`, `.` |
| AntiHallucination.CalendarDateAccepted | bot/anti_hallucination.py:195-208 | every real calendar date with a four-digit year, written with two-digit day and month and one separator, is accepted |
| AntiHallucination.MixedSeparatorsRejected | bot/anti_hallucination.py:199-206 | a date whose two separators differ (e.g. `12/05.2020`) is rejected |
| AntiHallucination.NumbersAndDatesMeaning | bot/anti_hallucination.py:170-193 | the check passes iff every matched date is accepted and every matched percentage is at most 100 |
| AntiHallucination.PercentAbove100 | bot/anti_hallucination.py:182-187 | reading the comma as the decimal point, `i,f` exceeds 100 iff i > 100, or i = 100 with a non-zero fraction |
| AntiHallucination.SafeResponseChoice | bot/anti_hallucination.py:210-225 | lei/artigo/legislação gives message 1, else como/quando/onde gives message 0, else message 2; message 3 is never chosen |
| AntiHallucination.DisclaimerKeepsAnswer | bot/anti_hallucination.py:227-233 | the answer is always kept as a prefix; the disclaimer is appended iff the confidence is below 0.95 |
| AntiHallucination.AntiHallucinationManager.AdjustThreshold | bot/anti_hallucination.py:244-251 | the threshold changes to the new value iff it lies in [0.5, 1.0]; otherwise it is left as it was |
| GeminiClient.ExtrairFontes | bot/gemini_client.py:154-176 | the nested loop collects every match of the six patterns; the result is its first five distinct matches |
| GeminiClient.FontesExtraidas | bot/gemini_client.py:168-176 | at most five sources, pairwise distinct, each the text of some match; none iff nothing matched; as many as min(5, number of distinct matches) |
| GeminiClient.DistintosListaOConjunto | bot/gemini_client.py:174 | deduplication keeps exactly the same elements, pairwise distinct, as many as the set of matches |
| GeminiClient.CalcularConfianca | bot/gemini_client.py:178-207 | the loop computes the clamped additive confidence |
| GeminiClient.ConfiancaSemCorte | bot/gemini_client.py:178-207 | the unclamped value always lies in [0.2, 0.99], so the clamp never changes it |
| GeminiClient.BonusDeFontes | bot/gemini_client.py:182-184 | of two answers with the same lower-cased text, one citing a source scores exactly 0.15 more than one citing none |
| GeminiClient.ConfiancaSoPorPresenca | bot/gemini_client.py:186-204 | the confidence depends only on whether a source occurs and which terms and uncertainty expressions are present, each counted at most once |
| GeminiClient.FormatarContexto | bot/gemini_client.py:71-83 | the loop renders exactly the specification context text |
| GeminiClient.ContextoEnquadrado | bot/gemini_client.py:73-83 | empty text iff the history is missing or empty; otherwise it starts with the header and ends with the `=== NOVA PERGUNTA ===` footer |
| GeminiClient.SoAsTresUltimas | bot/gemini_client.py:78-80 | only the last three interactions are rendered, in order: older turns do not change the text |
| GeminiClient.ProcessarResposta | bot/gemini_client.py:133-152 | missing or empty text is an error `Resposta vazia do Gemini`; otherwise the stripped text, its confidence (in [0.2, 0.99]), its sources, the model and the timestamp |
| DiscordBot.DividirTextoChunks | bot/discord_bot.py:272-292 | a text within the limit is returned whole; otherwise the chunks joined by spaces are the words joined by spaces, every chunk is non-empty and within the limit unless it is one over-long word, and there are no chunks iff there are no words |
| DiscordBot.RemoverMencoes | bot/discord_bot.py:180 | the substitution only removes characters: the result is never longer than the text |
| DiscordBot.LimparMencao | bot/discord_bot.py:177-182 | the cleaned text is no longer than the message and neither starts nor ends with white space |
| DiscordBot.MencaoRemovida | bot/discord_bot.py:180 | a `<@digits>` or `<@!digits>` token at the start of the text is removed whole, and the rest is cleaned as if it stood alone |
| DiscordBot.MencaoRemovidaNoMeio | bot/discord_bot.py:180 | a `<@digits>` or `<@!digits>` token anywhere in the text is removed whole, and the text before it and the text after it are cleaned independently |
| DiscordBot.RemoverAntesDeAbertura | bot/discord_bot.py:180 | no match runs across a `<`: cleaning `p + t`, where `t` starts with `<`, is cleaning `p` and then `t` |
| DiscordBot.SemAberturaInalterado | bot/discord_bot.py:180 | text with no `<@` is left unchanged |
| DiscordBot.PerguntaAposMencao | bot/discord_bot.py:177-182 | a mention followed by a question yields the stripped question |
| DiscordBot.UmaPassagemSo | bot/discord_bot.py:180 | removal is a single left-to-right pass: `<@<@1>1>` leaves `<@1>` |
| DiscordBot.LimpoSemEspacosNasPontas | bot/discord_bot.py:182 | the cleaned text neither starts nor ends with whitespace |
| DiscordBot.CriarEmbedFontes | bot/discord_bot.py:294-309 | the fixed title, colour and description, then min(5, n) fields named `Fonte 1`, `Fonte 2`, …, holding the sources in order, not inline |
| DiscordBot.NomesDistintos | bot/discord_bot.py:302-307 | distinct field numbers give distinct field names |
| DiscordBot.ChaveInjetiva | bot/discord_bot.py:186 | the cache key `usuario_canal` identifies the user and the channel |
| DiscordBot.OraculoBot.constructor | bot/discord_bot.py:26-56 | starts with an empty cache |
| DiscordBot.OraculoBot.ObterContextoConversa | bot/discord_bot.py:184-209 | a cached conversation is returned as it is and the cache is unchanged; otherwise the context built from the history query (empty on failure) is returned and cached |
| DiscordBot.OraculoBot.AtualizarContexto | bot/discord_bot.py:211-234 | the conversation (created empty when absent) gains the new exchange, keeping at most five; no other entry changes |
| DiscordBot.HistoricoAcrescidoFifo | bot/discord_bot.py:230-234 | the history is the last five of the old entries plus the new one, which is last; at five exactly the oldest is dropped |
| DiscordBot.AtualizacaoDaConversa | bot/discord_bot.py:211-234 | the updated history ends with the new exchange and keeps the latest entries; other conversations keep their entries |
| DbManager.ObterHistoricoConversa | database/db_manager.py:200-237 | a failed query gives []; otherwise the pairs the fold builds from the rows in chronological order, cut to `limite` |
| DbManager.ParearLinhas | database/db_manager.py:215-233 | the loop computes exactly the specification pairing |
| DbManager.Cronologica | database/db_manager.py:219 | the rows are visited in reverse order of the query (newest first becomes oldest first) |
| DbManager.HistoricoLimitado | database/db_manager.py:211-233 | at most `limite` pairs, the earliest ones of the fetched window, and never more than half the rows |
| DbManager.ParesContados | database/db_manager.py:219-231 | the pairs number no more than the answers, and with a pending question no more than the questions |
| DbManager.PerguntaSeguidaDeResposta | database/db_manager.py:220-231 | a question followed by an answer adds one pair: the question's text and time, the answer's text and confidence |
| DbManager.RespostaSemPerguntaDescartada | database/db_manager.py:225 | an answer with no pending question is dropped |
| DbManager.PerguntaSobrescrita | database/db_manager.py:220-224 | a question followed by another question is forgotten; only the later one can be paired |
| DbManager.ParesVemDeLinhas | database/db_manager.py:219-231 | every pair comes from a question row followed later by an answer row, and the pending question from a question row |
| DbManager.RegistrarInteracao | database/db_manager.py:165-198 | success iff no error occurred, and then the stored row carries the message, type and the comma-joined sources column |
| DbManager.ColunaFontesIdaVolta | database/db_manager.py:176 | no sources give a NULL column; otherwise splitting the column at commas gives the sources back (when none contains a comma) |
| Models.UsuarioDeDict | database/models.py:41-62 | `id` and `nome` are required; the defaults are 0 interactions, no preferences, active; falsy timestamps give none |
| Models.UsuarioIdaVolta | database/models.py:27-62 | `from_dict(to_dict(u))` rebuilds every field of a user, missing timestamps included |
| Models.NovaInteracao | database/models.py:81-90 | accepted iff the type is `pergunta`/`resposta` and the confidence is absent or in [0, 1], with the source's message for a bad type; a missing timestamp becomes the current instant |
| Models.InteracaoDeDict | database/models.py:109-129 | the four required keys; defaults of no sources and processed; a falsy timestamp becomes the current instant; the result is always valid |
| Models.InteracaoNumeroInteiro | database/models.py:110-129 | an `int` `confianca` or `tempo_resposta` is read as the `float` of the same value: the same record, or the same refusal |
| Models.InteracaoIdaVolta | database/models.py:92-129 | `from_dict(to_dict(i))` rebuilds every valid interaction |
| Models.EstatisticaParaDict | database/models.py:144-155 | a record holding a `datetime` is written with the ISO text of its day; a record holding a `date` raises `AttributeError` |
| Models.EstatisticaDeDict | database/models.py:157-171 | `data` is required and is stored as a `date`; the counters and averages default to 0 |
| Models.EstatisticaNumeroInteiro | database/models.py:168-169 | an `int` mean response time or mean confidence is read as the `float` of the same value |
| Models.DiaIdaVolta | database/models.py:148-160 | the ISO text of a day is read back as that day's midnight, whose day is the same day |
| Models.EstatisticaIdaVolta | database/models.py:144-171 | for a record holding a `datetime`, `from_dict(to_dict(e))` keeps every figure but only the day of the instant, as a `date`; `to_dict` of that rebuilt record raises |
| Models.EstatisticaPerdeHora | database/models.py:148-160 | one second past midnight of day 1 does not survive the round trip, and the rebuilt record cannot be written again |
| Models.EstatisticaParaDictCorrigida | database/models.py:148 | the corrected `to_dict` writes the day of a `datetime`, or the `date` itself |
| Models.EstatisticaCorrigidaEstavel | database/models.py:144-171 | with the corrected `to_dict`, every written record reads back, and the record read back writes the same dictionary again |
| Models.ContextoConversa.constructor | database/models.py:174-187 | a missing `ultimo_update` becomes the current instant; the other fields are stored |
| Models.ContextoConversa.AdicionarInteracao | database/models.py:189-207 | the history (created when absent) gains the new entry last and keeps its last ten; `ultimo_update` becomes now; nothing else changes |
| Models.UltimasDez | database/models.py:201-205 | the new history has min(n + 1, 10) entries: the latest nine of the old ones and then the new one |
| Models.ContextoConversa.ObterHistoricoRecente | database/models.py:209-212 | [] without history; the last `limite` entries for positive `limite`; the whole list for 0 (Python's `[-0:]`); a negative `limite` drops that many from the front |
| Models.ContextoDeDict | database/models.py:225-246 | user and channel are required; missing or undecodable `contexto` gives an empty context; active by default |
| Models.ContextoIdaVolta | database/models.py:214-246 | with a JSON codec that round-trips, `from_dict(to_dict(c))` rebuilds the context |
| Models.NovoLog | database/models.py:259-265 | accepted iff the level is one of the five standard levels, with the source's message otherwise; a missing timestamp becomes the current instant |
| Models.LogDeDict | database/models.py:278-299 | level, module and message are required; the level is valid; missing or undecodable extras give none |
| Models.LogIdaVolta | database/models.py:267-299 | `from_dict(to_dict(l))` rebuilds the log, except that empty extras come back as none (they are falsy) |
| BotDatabase.BotDatabase.constructor | bot/database.py:46-48 | starts with no stored contexts |
| BotDatabase.BotDatabase.UpdateConversationContext | bot/database.py:205-252 | the method produces exactly the specification table and keeps every row within twenty messages |
| BotDatabase.UpdateKeepsLatest | bot/database.py:218-245 | the row holds the latest nineteen old messages then the new one (min(n + 1, 20) in all), is stamped now, and counts one more even when messages are dropped, from 0 for a new row; other rows are unchanged |
| BotDatabase.UpdatePreservesValid | bot/database.py:232-236 | updates keep every row at most twenty messages and within its count |
| BotDatabase.GetConversationContext | bot/database.py:179-203 | none iff there is no row; otherwise the last `limit` messages (all of them for 0), the row's instant and count |
| BotDatabase.ReadAfterUpdate | bot/database.py:190-245 | right after an update, reading with any positive limit ends with the new exchange |
| Config.Processo.CarregarDeArquivo | utils/config.py:140-181 | a missing file answers false and changes nothing; otherwise every line is applied in order and the answer is true |
| Config.LerLinhaSignificado | utils/config.py:159-170 | blank lines, comments and lines without `=` say nothing; any other line is split at its first `=`, with the key stripped and the value stripped of spaces, `"` and `'` |
| Config.NaoSobrescreve | utils/config.py:173-174 | a variable that already holds a non-empty value is never overwritten |
| Config.ValoresDeOrigem | utils/config.py:159-174 | every variable afterwards was there before with the same value or comes from a line of the file |
| Config.DefinidaPorLinha | utils/config.py:167-174 | the first line that sets a non-empty value for an unset variable decides it for good |
| Config.AplicarConcatenadas | utils/config.py:159-174 | loading lines a then b is loading a, then b |
| Config.Validar | utils/config.py:64-116 | true iff both tokens are set, every numeric setting is within its inclusive range, and both directories can be created |
| Logger.FormatarModulo | utils/logger.py:60-64 | the module column is exactly 20 characters: longer names become `...` and their last 17, shorter ones are padded with spaces |
| Logger.ModulosCurtosDistintos | utils/logger.py:60-64 | names of at most 20 characters not ending in a space keep distinct columns |
| Logger.LinhaLog | utils/logger.py:66-75 | the line starts with the timestamp and ends with the message followed by the extras |
| Logger.ColunasAlinhadas | utils/logger.py:75 | when the level fits its 12 characters, the module column and the message start at fixed offsets on every line |
| Logger.NiveisPadraoCabem | utils/logger.py:31-37 | the five standard levels fit the level column with or without their emoji |
| Logger.DatabaseLogHandler.constructor | utils/logger.py:87-91 | stores the manager with an empty buffer |
| Logger.DatabaseLogHandler.AdicionarAoBuffer | utils/logger.py:116-127 | a full buffer loses its oldest entry, then the record is appended; the buffer stays within 100 |
| Logger.AcrescentarGuardaOsUltimos | utils/logger.py:116-127 | one addition keeps the last hundred of the old entries and the new one |
| Logger.BufferGuardaOsUltimos | utils/logger.py:116-127 | after any run of additions the buffer is the last hundred entries of the old buffer followed by the new records |
| Logger.DatabaseLogHandler.ProcessarBuffer | utils/logger.py:129-139 | the buffer is left empty and the manager unchanged |
| Logger.DatabaseLogHandler.Emit | utils/logger.py:93-109 | with a manager and a successful save the buffer is flushed; with no manager, or when saving raises, the record is buffered |
| Logger.DatabaseLogHandler.SetDbManager | utils/logger.py:141-145 | stores the manager and leaves the buffer empty |

## Left out

- Logging calls (`logger.info`, `logger.warning`, …) are left out of every operation: they have no effect on results.
- `Text.Lower` lower-cases ASCII and the accented capitals of Portuguese only, not all of Unicode.
- `\d` in the few patterns the model reads concretely is the ASCII digits only, where Python's `re` also accepts other Unicode decimal digits; `\s` there is `Text.IsSpace`, the whitespace set of Python's `str.isspace`. Every other pattern goes through the engine parameter, whose `re` semantics are not modelled.
- Floating-point rounding: scores are exact reals, so a comparison decided by rounding at a threshold (e.g. `0.7 * x` just below `0.9`) may come out differently in Python.
- AntiHallucination.ParsePercent reads only what the percentage pattern yields (digits, optionally a comma and digits); `float` parsing of other text is not modelled. A capture it cannot read is `None`, which AntiHallucination.PercentagesValid answers with `true`, as the `except` of `_validate_numbers_and_dates` does (bot/anti_hallucination.py:189-191). The exception branch of `validate_response` itself (lines 112-114) is not reachable in the model.
- Values of the wrong Python type in the answer dictionary of `resposta_confiavel` are modelled as `Invalido` fields, which reject like the caught exception; ints where floats are expected are not distinguished.
- Models.UsuarioDeDict, Models.InteracaoDeDict, Models.EstatisticaDeDict, Models.ContextoDeDict, Models.LogDeDict: the dataclasses store whatever `from_dict` passes them, even a value that breaks the field's annotation (a `None` `preferencias`, an `int` `ativo` as SQLite returns it, an `int` `id` where a string is declared, a `bool` where an `int` is); the model reads each field at its declared type and refuses any other with a `TypeError` result. The one exception it does model is Python's numeric tower: an `int` is accepted where a `float` is declared.
- Models.NovaInteracao: the message for an out-of-range confidence is not stated (it renders a float); only that the record is rejected.
- GeminiClient.ExtrairFontes: `list(set(fontes))[:5]` has an unspecified order; the model keeps first occurrences in match order. The claims proved (at most five, distinct, drawn from the matches, as many as min(5, distinct matches)) hold for any order.
- Discord I/O (replies, edits, embeds as objects, streaming with `asyncio.sleep`, events), SQL persistence (tables, queries, commits), the Gemini SDK calls and the `asyncio.Lock` of bot/database.py are left out; queries appear as `Result` values.
- `datetime.now()`, `time.time()`, `hash()` and the JSON codec are parameters (`agora`/`now`, `hashPergunta`, `dumps`/`loads`); `isoformat`/`fromisoformat` are modelled as decimal rendering and parsing of a natural number (`Text.NatToString`/`Text.ParseNat`).
- `EstatisticaUso.data` is a day number or an instant in whole seconds (`Models.Momento`); time zones and sub-second precision are not modelled.
- The two `datetime.now()` calls of `adicionar_interacao` and of `update_conversation_context` are one instant `agora`/`now`. (Those of `registrar_resposta` and `_verificar_alertas` are two parameters, `agora` and `agoraAlerta`.)
- List aliasing between the cached context dictionaries and their `historico` lists is not modelled: histories are values.
- Models.ContextoConversa.Valid excludes a `historico` entry that is not a list (the source would fail on `append`).
- Config.Processo.CarregarDeArquivo: reading errors other than a missing file (the `except` at lines 179-181) are not modelled; the file is given as its lines.
- The class attributes of `Config` parsed from the environment at import time (lines 16-61) are not modelled; `Validar` takes the parsed values, and whether the directories can be created is a parameter.
- DiscordBot.OraculoBot.AtualizarContexto: the database write at lines 237-243 is not modelled (it goes through `registrar_interacao`, modelled as DbManager.RegistrarInteracao).
- DiscordBot.HistoricoAcrescido: the stored pair carries no confidence (`None`), as the cache entries the source writes have none.
- Identifiers in the cache key are natural numbers rendered in decimal (`Text.NatToString`); negative Discord ids do not occur.
- utils/logger.py: ANSI colours (which depend on `isatty`), `formatException` for records with exception information, the `%`-formatting of the message arguments and the `strftime` timestamp (given as text) are left out; `configurar_logger`, `obter_logger`, `LogContextManager` and `log_com_contexto` are handler setup and are left out.
- Logger.DatabaseLogHandler.ProcessarBuffer: `_salvar_no_banco` has an empty body, so flushing is modelled as clearing the buffer; an exception raised inside `emit` is the `falhaAoSalvar` parameter.
- Regex.Engine is one function for all patterns; `re.IGNORECASE` is part of the pattern's identity rather than an argument.
- `get_validation_stats`, `obter_resumo`, `salvar_exemplo` and the remaining SQL methods (statistics, cleanup) are reporting or I/O and are left out.

## Findings

| source | as written | input that shows it | evidently intended | confidence | as-written member | corrected member |
|---|---|---|---|---|---|---|
| database/models.py:148-160 | `from_dict` stores `fromisoformat(...).date()`, a `date`, but `to_dict` calls `self.data.date()`, which a `date` does not have | a record whose `data` is one second past midnight of day 1: `from_dict(to_dict(e))` holds day 1 as a `date`, and its `to_dict` raises `AttributeError` | `to_dict` writes the day whether `data` is a `datetime` or a `date`, so `to_dict(from_dict(to_dict(e))) == to_dict(e)` | not executed | Models.EstatisticaPerdeHora | Models.EstatisticaCorrigidaEstavel |

## Differences between the system's specification and the code

The model follows the code wherever the two disagree.

- **Categorical claims.** The specification says a response with "sempre" in two sentences gives two categorical-claim risks. The code adds one risk per matching pattern (utils/anti_alucinacao.py:232-238), so a repeated adverb gives one risk. ValidadorConfianca.RiscosCategoricosDistintos proves the count is the number of distinct matching patterns, at most six.
- **Repeated matches.** The specification's signal extractor counts every occurrence of a high-confidence or hedge pattern. The code tests each pattern once with `re.search` (lines 120-129), as the specification's score composer also says. ValidadorConfianca.UmaVezPorPadrao and ValidadorConfianca.ScoreIgnoraRepeticoes state the once-per-pattern rule.
- **Blend and consistency.** The specification multiplies the 0.7/0.3 blend by the consistency factor inside one gate. In the code these are two separate paths:
  - `resposta_confiavel` blends without any consistency factor;
  - `validate_response` multiplies the LLM's own confidence, not the blend, by the consistency factor and the numbers penalty.
  The model keeps the two paths apart (ValidadorConfianca.RespostaConfiavel and AntiHallucination.ValidationStages).
- **Uncertainty penalty.** In `validate_response`, the uncertainty-adjusted confidence max(0.1, c − 0.3) only decides the early rejection. Later stages use the unadjusted confidence c (bot/anti_hallucination.py:79-94), and AntiHallucination.FinalConfidenceBounds states the final value in terms of c.
- **Mention removal.** `_limpar_mencao` removes mentions in one pass of `re.sub`, so nested text such as `<@<@1>1>` leaves a mention behind (DiscordBot.UmaPassagemSo).
