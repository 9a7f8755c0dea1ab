/** `AntiHallucinationManager` of bot/anti_hallucination.py: the staged gate an answer
    passes before it is sent. A confidence below the threshold is refused at once; an
    uncertainty phrase costs 0.3 (floored at 0.1) for that check only; the keyword
    overlap between question and answer, and the sanity of the dates and percentages
    in the answer, scale the confidence; a final threshold check chooses between a safe
    refusal and the answer, with a disclaimer below 0.95. */
module AntiHallucination {
  import opened Results
  import opened Text
  import opened Regex

  const MsgConfiancaInsuficiente := "🤔 Não tenho certeza suficiente para responder essa pergunta com precisão."
  const MsgIncerteza := "🤔 Detectei incerteza na resposta. Prefiro não responder para manter a qualidade."
  const Disclaimer := "\n\n⚠️ *Sempre confira informações em fontes oficiais antes de estudar ou tomar decisões baseadas nesta resposta.*"

  const ForbiddenPhrases: seq<string> := [
    "não tenho certeza", "pode estar incorreto", "creio que", "acho que",
    "parece ser", "provavelmente", "talvez", "segundo minha interpretação pessoal",
    "na minha opinião", "eu acho", "suponho que"
  ]

  const ImportantKeywords: set<string> := {
    "direito", "lei", "constituição", "servidor", "concurso", "público",
    "administrativo", "constitucional", "penal", "civil", "processo",
    "licitação", "contrato", "cargo", "função", "estabilidade"
  }

  const DataPattern := Opaque(@"(\d{1,2}[/.-]\d{1,2}[/.-]\d{4})")
  const PorcentagemPattern := Opaque(@"(\d+(?:,\d+)?)\s*%")

  const SafeResponses: seq<string> := [
    "🤔 Não tenho certeza suficiente para responder essa pergunta com a precisão necessária para concursos públicos.",
    "📚 Para essa questão específica, recomendo consultar a legislação oficial ou materiais especializados.",
    "⚠️ Prefiro não responder a essa pergunta pois não tenho confiança suficiente na resposta.",
    "🎯 Essa questão requer maior precisão. Sugiro consultar fontes oficiais ou professores especializados."
  ]

  function MaxReal(a: real, b: real): real
  {
    if a >= b then a else b
  }

  // ---------------------------------------------------------------- uncertainty phrases

  predicate TemFraseIncerta(response: string)
  {
    exists k | 0 <= k < |ForbiddenPhrases| :: Contains(Lower(response), ForbiddenPhrases[k])
  }

  function FraseIncertaDesde(lower: string, k: nat): (r: bool)
    requires k <= |ForbiddenPhrases|
    ensures r <==> exists j | k <= j < |ForbiddenPhrases| :: Contains(lower, ForbiddenPhrases[j])
    decreases |ForbiddenPhrases| - k
  {
    if k == |ForbiddenPhrases| then false
    else if Contains(lower, ForbiddenPhrases[k]) then true
    else FraseIncertaDesde(lower, k + 1)
  }

  /** `_check_uncertainty_phrases`: the phrase scan with early return. */
  function CheckUncertaintyPhrases(response: string): (r: bool)
    ensures r <==> TemFraseIncerta(response)
  {
    FraseIncertaDesde(Lower(response), 0)
  }

  /** Text added after an uncertain answer never makes it certain. */
  lemma IncertezaPersiste(response: string, extra: string)
    requires CheckUncertaintyPhrases(response)
    ensures CheckUncertaintyPhrases(response + extra)
  {
    var k :| 0 <= k < |ForbiddenPhrases| && Contains(Lower(response), ForbiddenPhrases[k]);
    assert Lower(response + extra) == Lower(response) + Lower(extra);
    ContainsPrefix(Lower(response), Lower(extra), ForbiddenPhrases[k]);
  }

  // ---------------------------------------------------------------- legal references

  /** `_validate_legal_references`: unknown laws are only logged, so the check always passes. */
  function ValidateLegalReferences(response: string): (r: bool)
    ensures r
  {
    true
  }

  // ---------------------------------------------------------------- contextual consistency

  /** The important keywords among the lower-cased whitespace tokens of `text`. */
  function KeywordsOf(text: string): set<string>
  {
    KeywordsAmong(Words(Lower(text)))
  }

  function KeywordsAmong(words: seq<string>): set<string>
  {
    if words == [] then {}
    else
      var w := words[|words| - 1];
      KeywordsAmong(words[..|words| - 1]) + (if w in ImportantKeywords then {w} else {})
  }

  lemma {:induction false} KeywordsAmongMembers(words: seq<string>)
    ensures forall w :: w in KeywordsAmong(words) <==> w in words && w in ImportantKeywords
  {
    if words != [] {
      KeywordsAmongMembers(words[..|words| - 1]);
      assert words == words[..|words| - 1] + [words[|words| - 1]];
    }
  }

  /** The keyword sets of `_check_contextual_consistency` in terms of the tokens. */
  lemma KeywordSets(response: string, question: string)
    ensures KeywordsOf(question) != {} <==> exists w :: w in Words(Lower(question)) && w in ImportantKeywords
    ensures !(KeywordsOf(question) !! KeywordsOf(response)) <==>
              exists w :: w in Words(Lower(question)) && w in Words(Lower(response)) && w in ImportantKeywords
  {
    KeywordsAmongMembers(Words(Lower(question)));
    KeywordsAmongMembers(Words(Lower(response)));
    if exists w :: w in Words(Lower(question)) && w in ImportantKeywords {
      var w :| w in Words(Lower(question)) && w in ImportantKeywords;
      assert w in KeywordsOf(question);
    }
    if exists w :: w in Words(Lower(question)) && w in Words(Lower(response)) && w in ImportantKeywords {
      var w :| w in Words(Lower(question)) && w in Words(Lower(response)) && w in ImportantKeywords;
      assert w in KeywordsOf(question) && w in KeywordsOf(response);
    }
  }

  /** `_check_contextual_consistency`: the multiplier is 0.7 or 1.0. */
  function CheckContextualConsistency(response: string, question: string): (r: real)
    ensures r == 0.7 || r == 1.0
  {
    var questionKeywords := KeywordsOf(question);
    var responseKeywords := KeywordsOf(response);
    if questionKeywords != {} && questionKeywords !! responseKeywords then 0.7 else 1.0
  }

  /** The multiplier is 0.7 exactly when the question's whitespace tokens include an
      important keyword and none of them is also a token of the answer. Tokens are
      compared whole, so a keyword with punctuation attached does not count. */
  lemma ContextualConsistencyMeaning(response: string, question: string)
    ensures CheckContextualConsistency(response, question) == 0.7 <==>
              (exists w :: w in Words(Lower(question)) && w in ImportantKeywords)
              && !(exists w :: w in Words(Lower(question)) && w in Words(Lower(response)) && w in ImportantKeywords)
  {
    KeywordSets(response, question);
    var offTopic := KeywordsOf(question) != {} && KeywordsOf(question) !! KeywordsOf(response);
    assert CheckContextualConsistency(response, question) == 0.7 <==> offTopic;
  }

  // ---------------------------------------------------------------- dates

  function Pow10(n: nat): (r: nat)
    ensures r >= 1
  {
    if n == 0 then 1 else 10 * Pow10(n - 1)
  }

  predicate IsLeap(y: nat)
  {
    y % 4 == 0 && (y % 100 != 0 || y % 400 == 0)
  }

  function DaysInMonth(y: nat, m: nat): nat
    requires 1 <= m <= 12
  {
    if m == 2 then (if IsLeap(y) then 29 else 28)
    else if m == 4 || m == 6 || m == 9 || m == 11 then 30
    else 31
  }

  /** What `%d` accepts: `3[01]|[12]\d|0[1-9]|[1-9]| [1-9]`. */
  predicate DayField(s: string)
  {
    (|s| == 1 && '1' <= s[0] <= '9')
    || (|s| == 2 && s[0] == ' ' && '1' <= s[1] <= '9')
    || (|s| == 2 && AllDigits(s) && 1 <= DigitsValue(s) <= 31)
  }

  function DayValue(s: string): nat
    requires DayField(s)
  {
    if s[0] == ' ' then DigitValue(s[1]) else DigitsValue(s)
  }

  /** What `%m` accepts: `1[0-2]|0[1-9]|[1-9]`. */
  predicate MonthField(s: string)
  {
    (|s| == 1 && '1' <= s[0] <= '9') || (|s| == 2 && AllDigits(s) && 1 <= DigitsValue(s) <= 12)
  }

  function MonthValue(s: string): (m: nat)
    requires MonthField(s)
    ensures 1 <= m <= 12
  {
    if |s| == 1 then DigitValue(s[0]) else DigitsValue(s)
  }

  /** What `%Y` accepts (four digits), restricted to the years `datetime` allows. */
  predicate YearField(s: string)
  {
    |s| == 4 && AllDigits(s) && DigitsValue(s) >= 1
  }

  /** `datetime.strptime(date_str, "%d<sep>%m<sep>%Y")` succeeds: the fields have the
      accepted shapes and name a real calendar day. */
  predicate MatchesDateFormat(d: string, sep: char)
  {
    var parts := SplitOn(d, sep);
    |parts| == 3 && DayField(parts[0]) && MonthField(parts[1]) && YearField(parts[2])
    && DayValue(parts[0]) <= DaysInMonth(DigitsValue(parts[2]), MonthValue(parts[1]))
  }

  const DateSeparators: seq<char> := ['/', '-', '.']

  function DateFormatFrom(d: string, k: nat): (r: bool)
    requires k <= |DateSeparators|
    ensures r <==> exists j | k <= j < |DateSeparators| :: MatchesDateFormat(d, DateSeparators[j])
    decreases |DateSeparators| - k
  {
    if k == |DateSeparators| then false
    else if MatchesDateFormat(d, DateSeparators[k]) then true
    else DateFormatFrom(d, k + 1)
  }

  /** `_is_valid_date_format`: the three formats tried in turn. */
  function IsValidDateFormat(d: string): (r: bool)
    ensures r <==> MatchesDateFormat(d, '/') || MatchesDateFormat(d, '-') || MatchesDateFormat(d, '.')
  {
    DateFormatFrom(d, 0)
  }

  /** Two-digit zero-padded rendering, as `%02d` writes it. */
  function TwoDigits(n: nat): (r: string)
    requires n < 100
    ensures |r| == 2 && AllDigits(r) && DigitsValue(r) == n
  {
    var r := [DigitChar(n / 10), DigitChar(n % 10)];
    assert r[..1] == [DigitChar(n / 10)] && r[..1][..0] == [];
    assert DigitsValue(r[..1]) == n / 10;
    r
  }

  lemma {:induction false} DigitsValueBound(s: string)
    requires AllDigits(s)
    ensures DigitsValue(s) < Pow10(|s|)
  {
    if s != [] {
      DigitsValueBound(s[..|s| - 1]);
    }
  }

  /** `str(n)` has `k` digits for `10^(k-1) <= n < 10^k`. */
  lemma {:induction false} NatToStringLength(n: nat, k: nat)
    requires k >= 1 && Pow10(k - 1) <= n < Pow10(k)
    ensures |NatToString(n)| == k
  {
    if k > 1 {
      assert n >= 10 by { Pow10Mono(1, k - 1); }
      NatToStringLength(n / 10, k - 1);
    }
  }

  /** Every real calendar day with a four-digit year, written with one of the three
      separators, is accepted. */
  lemma CalendarDateAccepted(day: nat, month: nat, year: nat, sep: char)
    requires sep in DateSeparators
    requires 1 <= month <= 12 && 1 <= day <= DaysInMonth(year, month)
    requires 1000 <= year <= 9999
    ensures IsValidDateFormat(TwoDigits(day) + [sep] + TwoDigits(month) + [sep] + NatToString(year))
  {
    var dd, mm, y := TwoDigits(day), TwoDigits(month), NatToString(year);
    CalendarFields(day, month, year);
    assert sep !in dd && sep !in mm && sep !in y;
    SplitThreePieces(dd, mm, y, sep);
    assert MatchesDateFormat(dd + [sep] + mm + [sep] + y, sep);
  }

  /** The three fields of a real calendar day, as `%02d`, `%02d` and `str` write them. */
  lemma CalendarFields(day: nat, month: nat, year: nat)
    requires 1 <= month <= 12 && 1 <= day <= DaysInMonth(year, month)
    requires 1000 <= year <= 9999
    ensures DayField(TwoDigits(day)) && DayValue(TwoDigits(day)) == day
    ensures MonthField(TwoDigits(month)) && MonthValue(TwoDigits(month)) == month
    ensures YearField(NatToString(year)) && DigitsValue(NatToString(year)) == year
  {
    assert |NatToString(year)| == 4 by {
      assert Pow10(3) == 1000 && Pow10(4) == 10000;
      NatToStringLength(year, 4);
    }
    DigitsValueOfNatToString(year);
  }

  lemma {:induction false} Pow10Mono(a: nat, b: nat)
    requires a <= b
    ensures Pow10(a) <= Pow10(b)
    decreases b
  {
    if a < b {
      Pow10Mono(a, b - 1);
    }
  }

  lemma SplitTwoPieces(x: string, y: string, sep: char)
    requires sep !in x && sep !in y
    ensures SplitOn(x + [sep] + y, sep) == [x, y]
  {
    Join2([sep], x, y);
    SplitOnJoin([x, y], sep);
  }

  lemma SplitThreePieces(x: string, y: string, z: string, sep: char)
    requires sep !in x && sep !in y && sep !in z
    ensures SplitOn(x + [sep] + y + [sep] + z, sep) == [x, y, z]
  {
    Join3([sep], x, y, z);
    var xs := [x, y, z];
    assert forall k :: 0 <= k < |xs| ==> sep !in xs[k];
    SplitOnJoin(xs, sep);
  }

  lemma SplitOnePiece(x: string, sep: char)
    requires sep !in x
    ensures SplitOn(x, sep) == [x]
  {
    assert IndexOf(x, sep) == |x|;
  }

  /** A date that mixes two different separators is rejected, whatever its fields. */
  lemma MixedSeparatorsRejected(a: string, b: string, c: string, s1: char, s2: char)
    requires s1 in DateSeparators && s2 in DateSeparators && s1 != s2
    requires AllDigits(a) && AllDigits(b) && AllDigits(c)
    ensures !IsValidDateFormat(a + [s1] + b + [s2] + c)
  {
    var d := a + [s1] + b + [s2] + c;
    assert s1 !in a && s1 !in b && s1 !in c && s2 !in a && s2 !in b && s2 !in c;
    assert |SplitOn(d, s1)| == 2 by {
      assert d == a + [s1] + (b + [s2] + c);
      SplitTwoPieces(a, b + [s2] + c, s1);
    }
    assert |SplitOn(d, s2)| == 2 by {
      assert d == (a + [s1] + b) + [s2] + c;
      SplitTwoPieces(a + [s1] + b, c, s2);
    }
    forall sep | sep in DateSeparators && sep != s1 && sep != s2
      ensures |SplitOn(d, sep)| == 1
    {
      assert sep !in d;
      SplitOnePiece(d, sep);
    }
  }

  // ---------------------------------------------------------------- percentages

  /** The number written `i.f` in decimal. */
  function DecimalValue(i: string, f: string): real
    requires AllDigits(i) && AllDigits(f)
  {
    DigitsValue(i) as real + DigitsValue(f) as real / Pow10(|f|) as real
  }

  /** `float(percent.replace(",", "."))` on what the percentage pattern captures
      (digits, optionally a comma and more digits); `None` where `float` would raise. */
  function ParsePercent(p: string): Option<real>
  {
    var k := IndexOf(p, ',');
    if k < |p| then
      var i, f := p[..k], p[k + 1..];
      if i != [] && f != [] && AllDigits(i) && AllDigits(f) then
        Some(DecimalValue(i, f))
      else None
    else if p != [] && AllDigits(p) then Some(DigitsValue(p) as real)
    else None
  }

  /** The percentage loop: `False` at the first value above 100; a value `float` cannot
      read raises, and the handler then answers `True`. */
  function PercentagesValid(ps: seq<string>): bool
  {
    if ps == [] then true
    else match ParsePercent(ps[0])
      case None => true
      case Some(v) => if v > 100.0 then false else PercentagesValid(ps[1..])
  }

  /** Every date match passes `_is_valid_date_format`, scanned in order. */
  function DatesValid(ds: seq<string>): bool
  {
    ds == [] || (IsValidDateFormat(ds[0]) && DatesValid(ds[1..]))
  }

  lemma {:induction false} DatesValidIff(ds: seq<string>)
    ensures DatesValid(ds) <==> forall d :: d in ds ==> IsValidDateFormat(d)
  {
    if ds != [] {
      DatesValidIff(ds[1..]);
      assert forall d :: d in ds <==> d == ds[0] || d in ds[1..];
    }
  }

  /** `_validate_numbers_and_dates`: every matched date parses in one of the formats,
      and the percentages pass. */
  function ValidateNumbersAndDates(engine: Engine, response: string): bool
  {
    DatesValid(engine(DataPattern.source, response))
    && PercentagesValid(engine(PorcentagemPattern.source, response))
  }

  /** When every captured percentage is readable, the check passes exactly when every
      captured date is a real calendar date in one of the three formats and no
      percentage exceeds 100. */
  lemma NumbersAndDatesMeaning(engine: Engine, response: string)
    requires forall p :: p in engine(PorcentagemPattern.source, response) ==> ParsePercent(p).Some?
    ensures ValidateNumbersAndDates(engine, response) <==>
              (forall d :: d in engine(DataPattern.source, response) ==> IsValidDateFormat(d))
              && (forall p :: p in engine(PorcentagemPattern.source, response) ==> ParsePercent(p).value <= 100.0)
  {
    var ps := engine(PorcentagemPattern.source, response);
    DatesValidIff(engine(DataPattern.source, response));
    PercentagesValidIff(ps);
    assert forall p :: p in ps ==> exists k :: 0 <= k < |ps| && ps[k] == p;
  }

  /** With every percentage readable, the percentages pass exactly when none exceeds 100. */
  lemma {:induction false} PercentagesValidIff(ps: seq<string>)
    requires forall k :: 0 <= k < |ps| ==> ParsePercent(ps[k]).Some?
    ensures PercentagesValid(ps) <==> forall k :: 0 <= k < |ps| ==> ParsePercent(ps[k]).value <= 100.0
  {
    if ps != [] {
      PercentagesValidIff(ps[1..]);
      assert forall k :: 1 <= k < |ps| ==> ps[1..][k - 1] == ps[k];
    }
  }

  /** `i,f` reads as the integer part plus the fraction `f / 10^|f|`. */
  lemma ParsePercentDecimal(i: string, f: string)
    requires i != [] && f != [] && AllDigits(i) && AllDigits(f)
    ensures ParsePercent(i + "," + f) == Some(DecimalValue(i, f))
  {
    var p := i + "," + f;
    var k := IndexOf(p, ',');
    assert p[|i|] == ',';
    assert forall j :: 0 <= j < |i| ==> p[j] != ',';
    assert k == |i|;
    assert p[..k] == i;
    assert p[k + 1..] == f;
  }

  lemma FractionBounds(num: nat, den: nat)
    requires num < den
    ensures 0.0 <= num as real / den as real < 1.0
    ensures num > 0 ==> num as real / den as real > 0.0
    ensures num == 0 ==> num as real / den as real == 0.0
  {
    var q := num as real / den as real;
    assert q * den as real == num as real;
    assert (1.0 - q) * den as real == den as real - num as real;
  }

  /** A percentage `i,f` exceeds 100 exactly when its integer part does, or it is
      exactly 100 with a non-zero fraction. */
  lemma PercentAbove100(i: string, f: string)
    requires i != [] && f != [] && AllDigits(i) && AllDigits(f)
    ensures ParsePercent(i + "," + f).Some?
    ensures ParsePercent(i + "," + f).value > 100.0
            <==> DigitsValue(i) > 100 || (DigitsValue(i) == 100 && DigitsValue(f) > 0)
  {
    ParsePercentDecimal(i, f);
    DigitsValueBound(f);
    var n := DigitsValue(i);
    var num, den := DigitsValue(f), Pow10(|f|);
    FractionBounds(num, den);
    var q := num as real / den as real;
    assert DecimalValue(i, f) == n as real + q;
    assert n >= 101 ==> n as real + q > 100.0;
    assert n <= 99 ==> n as real + q < 100.0;
  }

  // ---------------------------------------------------------------- safe responses and disclaimer

  predicate MentionsAny(question: string, words: seq<string>)
  {
    exists k | 0 <= k < |words| :: Contains(Lower(question), words[k])
  }

  const LegalWords: seq<string> := ["lei", "artigo", "legislação"]
  const HowWords: seq<string> := ["como", "quando", "onde"]

  function AnyWordFrom(lower: string, words: seq<string>, k: nat): (r: bool)
    requires k <= |words|
    ensures r <==> exists j | k <= j < |words| :: Contains(lower, words[j])
    decreases |words| - k
  {
    if k == |words| then false
    else if Contains(lower, words[k]) then true
    else AnyWordFrom(lower, words, k + 1)
  }

  /** `_generate_safe_response`. */
  function GenerateSafeResponse(question: string): string
  {
    var lower := Lower(question);
    if AnyWordFrom(lower, LegalWords, 0) then SafeResponses[1]
    else if AnyWordFrom(lower, HowWords, 0) then SafeResponses[0]
    else SafeResponses[2]
  }

  /** A legal question is sent to the legislation, a how/when/where question
      the plain refusal, anything else the low-confidence refusal; the fourth message
      is never chosen. */
  lemma SafeResponseChoice(question: string)
    ensures MentionsAny(question, LegalWords) ==> GenerateSafeResponse(question) == SafeResponses[1]
    ensures !MentionsAny(question, LegalWords) && MentionsAny(question, HowWords)
            ==> GenerateSafeResponse(question) == SafeResponses[0]
    ensures !MentionsAny(question, LegalWords) && !MentionsAny(question, HowWords)
            ==> GenerateSafeResponse(question) == SafeResponses[2]
    ensures GenerateSafeResponse(question) in SafeResponses[..3]
  {
    assert SafeResponses[..3] == [SafeResponses[0], SafeResponses[1], SafeResponses[2]];
  }

  /** `_add_disclaimer_if_needed`. */
  function AddDisclaimerIfNeeded(response: string, confidence: real): string
  {
    if confidence < 0.95 then response + Disclaimer else response
  }

  /** The answer itself is always kept as it is; the disclaimer follows it exactly when
      the confidence is below 0.95. */
  lemma DisclaimerKeepsAnswer(response: string, confidence: real)
    ensures var r := AddDisclaimerIfNeeded(response, confidence);
            && |r| >= |response| && r[..|response|] == response
            && (confidence >= 0.95 ==> r == response)
            && (confidence < 0.95 ==> r[|response|..] == Disclaimer)
  {
  }

  // ---------------------------------------------------------------- the gate

  /** The confidence the final check compares: the raw confidence times the context
      multiplier and, when a date or percentage is suspicious, 0.8. The uncertainty
      penalty does not carry over into it. */
  function FinalConfidence(engine: Engine, response: string, confidence: real, question: string): real
  {
    Penalised(confidence, CheckContextualConsistency(response, question), ValidateNumbersAndDates(engine, response))
  }

  /** The arithmetic of stages 4 and 5: the context multiplier, then 0.8 for suspicious numbers. */
  function Penalised(confidence: real, contextScore: real, numbersValid: bool): real
  {
    var withContext := confidence * contextScore;
    if numbersValid then withContext else withContext * 0.8
  }

  /** For a non-negative confidence, the final confidence is one of four fractions of it,
      never more than the confidence itself and never less than 0.56 of it. */
  lemma FinalConfidenceBounds(engine: Engine, response: string, confidence: real, question: string)
    requires confidence >= 0.0
    ensures var f := FinalConfidence(engine, response, confidence, question);
            && (f == confidence || f == 0.7 * confidence || f == 0.8 * confidence || f == 0.56 * confidence)
            && 0.56 * confidence <= f <= confidence
  {
  }

  /** The verdict `validate_response` returns: whether the answer may be sent, the text
      to send, and the confidence it reports. */
  function Validation(threshold: real, engine: Engine, response: string, confidence: real, question: string)
    : (bool, string, real)
  {
    if confidence < threshold then (false, MsgConfiancaInsuficiente, 0.1)
    else if CheckUncertaintyPhrases(response) && MaxReal(0.1, confidence - 0.3) < threshold then
      (false, MsgIncerteza, MaxReal(0.1, confidence - 0.3))
    else FinalVerdict(threshold, engine, response, confidence, question)
  }

  /** The verdict of stages 3 to 7, once the answer has passed the first two. */
  function FinalVerdict(threshold: real, engine: Engine, response: string, confidence: real, question: string)
    : (bool, string, real)
  {
    var finalConfidence := FinalConfidence(engine, response, confidence, question);
    if finalConfidence < threshold then (false, GenerateSafeResponse(question), finalConfidence)
    else (true, AddDisclaimerIfNeeded(response, finalConfidence), finalConfidence)
  }

  /** The stages of the gate: a confidence below the threshold is refused with the fixed
      message and 0.1, before anything else is looked at; an uncertain answer whose
      penalised confidence falls below the threshold is refused with the uncertainty
      message and that confidence; otherwise the verdict is decided by the final
      confidence alone, a refusal carrying the safe response for the question and an
      acceptance the answer itself, disclaimer added below 0.95. */
  lemma ValidationStages(threshold: real, engine: Engine, response: string, confidence: real, question: string)
    ensures var (ok, text, reported) := Validation(threshold, engine, response, confidence, question);
            && (confidence < threshold ==> !ok && text == MsgConfiancaInsuficiente && reported == 0.1)
            && (confidence >= threshold && CheckUncertaintyPhrases(response)
                && MaxReal(0.1, confidence - 0.3) < threshold ==>
                  !ok && text == MsgIncerteza && reported == MaxReal(0.1, confidence - 0.3))
            && (PassesEarlyStages(threshold, response, confidence) ==>
                  && reported == FinalConfidence(engine, response, confidence, question)
                  && (ok <==> reported >= threshold)
                  && (ok ==> text[..|response|] == response)
                  && (ok ==> (reported < 0.95 <==> text != response))
                  && (!ok ==> text == GenerateSafeResponse(question)))
            && (ok ==> PassesEarlyStages(threshold, response, confidence) && reported >= threshold)
  {
  }

  /** Whether the answer survives the first threshold check and the uncertainty check. */
  predicate PassesEarlyStages(threshold: real, response: string, confidence: real)
  {
    confidence >= threshold
    && !(CheckUncertaintyPhrases(response) && MaxReal(0.1, confidence - 0.3) < threshold)
  }

  class AntiHallucinationManager {
    var confidenceThreshold: real

    constructor(threshold: real := 0.9)
      ensures confidenceThreshold == threshold
    {
      confidenceThreshold := threshold;
    }

    /** `validate_response`: the stages in order, each able to end the validation. */
    method ValidateResponse(engine: Engine, response: string, confidenceScore: real, userQuestion: string)
      returns (isValid: bool, validatedResponse: string, adjustedConfidence: real)
      ensures (isValid, validatedResponse, adjustedConfidence)
              == Validation(confidenceThreshold, engine, response, confidenceScore, userQuestion)
    {
      // 1. threshold
      if confidenceScore < confidenceThreshold {
        return false, MsgConfiancaInsuficiente, 0.1;
      }

      // 2. uncertainty phrases
      var uncertaintyDetected := CheckUncertaintyPhrases(response);
      if uncertaintyDetected {
        var adjusted := MaxReal(0.1, confidenceScore - 0.3);
        if adjusted < confidenceThreshold {
          return false, MsgIncerteza, adjusted;
        }
      }

      isValid, validatedResponse, adjustedConfidence := FinalStages(engine, response, confidenceScore, userQuestion);
    }

    /** Stages 3 to 7 of `validate_response`. */
    method FinalStages(engine: Engine, response: string, confidenceScore: real, userQuestion: string)
      returns (isValid: bool, validatedResponse: string, adjustedConfidence: real)
      ensures (isValid, validatedResponse, adjustedConfidence)
              == FinalVerdict(confidenceThreshold, engine, response, confidenceScore, userQuestion)
    {
      var finalConfidence := PenalisedConfidence(engine, response, confidenceScore, userQuestion);

      // 6. final check
      if finalConfidence < confidenceThreshold {
        return false, GenerateSafeResponse(userQuestion), finalConfidence;
      }

      // 7. disclaimer
      var validated := AddDisclaimerIfNeeded(response, finalConfidence);
      return true, validated, finalConfidence;
    }

    /** Stages 3 to 5 of `validate_response`: the confidence the final check compares. */
    method PenalisedConfidence(engine: Engine, response: string, confidenceScore: real, userQuestion: string)
      returns (finalConfidence: real)
      ensures finalConfidence == Penalised(confidenceScore, CheckContextualConsistency(response, userQuestion),
                                           ValidateNumbersAndDates(engine, response))
    {
      var withContext := ContextStages(response, confidenceScore, userQuestion);
      finalConfidence := NumbersStage(engine, response, withContext);
    }

    /** Stage 5: 0.8 of the confidence when a date or a percentage is suspicious. */
    method NumbersStage(engine: Engine, response: string, confidence: real) returns (finalConfidence: real)
      ensures finalConfidence == if ValidateNumbersAndDates(engine, response) then confidence else confidence * 0.8
    {
      finalConfidence := confidence;
      var numbersValid := ValidateNumbersAndDates(engine, response);
      if !numbersValid {
        finalConfidence := finalConfidence * 0.8;
      }
    }

    /** Stages 3 and 4: the legal-reference check, which never penalises, and the
        context multiplier. */
    method ContextStages(response: string, confidenceScore: real, userQuestion: string)
      returns (withContext: real)
      ensures withContext == confidenceScore * CheckContextualConsistency(response, userQuestion)
    {
      // 3. legal references
      var confidence := confidenceScore;
      var legalRefsValid := ValidateLegalReferences(response);
      if !legalRefsValid {
        confidence := confidence * 0.7;
      }

      // 4. contextual consistency
      var contextScore := CheckContextualConsistency(response, userQuestion);
      withContext := confidence * contextScore;
    }

    /** `adjust_threshold`: only a threshold in [0.5, 1.0] is taken. */
    method AdjustThreshold(newThreshold: real)
      modifies this
      ensures 0.5 <= newThreshold <= 1.0 ==> confidenceThreshold == newThreshold
      ensures !(0.5 <= newThreshold <= 1.0) ==> confidenceThreshold == old(confidenceThreshold)
    {
      if 0.5 <= newThreshold <= 1.0 {
        confidenceThreshold := newThreshold;
      }
    }
  }

  /** An uncertain answer is accepted only when its confidence minus the 0.3 penalty
      (floored at 0.1) still reaches the threshold; an accepted answer always had at
      least the threshold, and its final confidence never exceeds the input one. */
  lemma AcceptedAnswer(engine: Engine, threshold: real, response: string, confidence: real, question: string)
    requires PassesEarlyStages(threshold, response, confidence)
    requires FinalConfidence(engine, response, confidence, question) >= threshold
    requires threshold > 0.1
    ensures confidence >= threshold
    ensures CheckUncertaintyPhrases(response) ==> confidence - 0.3 >= threshold
    ensures FinalConfidence(engine, response, confidence, question) <= confidence
  {
    FinalConfidenceBounds(engine, response, confidence, question);
  }
}
