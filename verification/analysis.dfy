/** `generate_analysis`: the gates an input passes before the model is
    asked (non-empty sheet, meaningful input, moderation, token budget), the
    request it then sends, and how the provider's failures are reported.
    The provider, the tokenizer and the preview renderer are oracles. */
module Analysis {
  import opened Outcome
  import opened Text
  import opened Tables
  import opened Provider
  import opened InputGuard
  import opened Prompt

  const MaxInputTokens := 1024
  const PreviewRows := 20

  /** Everything outside the pipeline it depends on: the (possibly missing)
      provider client, the tokenizer (`None` when it fails) and the
      renderer of a table preview to text. */
  datatype Services = Services(client: Option<Client>, tokenize: string -> Option<nat>, render: Table -> string)

  /** Why an analysis was refused or failed. */
  datatype Failure =
    | EmptyTable
    | Meaningless
    | Unsafe
    | TooLarge
    | RateLimit
    | Connection
    | ApiFailure(detail: string)
    | Unexpected(detail: string)
    | ModerationCrash(detail: string)

  /** The exception class a failure is raised as; callers catch by class. */
  datatype ErrorClass = ValueErrorClass | RuntimeErrorClass | OtherClass

  function ClassOf(f: Failure): ErrorClass {
    match f
    case EmptyTable | Meaningless | Unsafe | TooLarge => ValueErrorClass
    case RateLimit | Connection | ApiFailure(_) | Unexpected(_) => RuntimeErrorClass
    case ModerationCrash(_) => OtherClass
  }

  /** The text of the exception raised for a failure. Each fixed message is
      written as its first words and the rest, so that the characters that
      tell the messages apart sit in a short literal. */
  function Message(f: Failure): string {
    match f
    case EmptyTable => "A planilha " + "enviada está vazia e não pode ser analisada."
    case Meaningless =>
      "A entrada fornecida " + "parece ser aleatória ou sem sentido. Por favor, forneça um contexto ou pergunta clara."
    case Unsafe => "A entrada (contexto " + "ou pergunta) foi sinalizada como insegura e não pode ser processada."
    case TooLarge => "A entrada excede " + "o limite de 1024 tokens."
    case RateLimit => "Limite de requisições " + "da API atingido. Tente mais tarde."
    case Connection => "Erro de conexão " + "com a API da OpenAI. Verifique sua rede."
    case ApiFailure(d) => "Erro na API da OpenAI: " + d
    case Unexpected(d) => "Um erro inesperado ocorreu: " + d
    case ModerationCrash(d) => d
  }

  /** The refusals' messages all open with `A`, and their third and
      eleventh characters tell them apart. */
  lemma {:induction false} GateSignature(f: Failure)
    requires ClassOf(f) == ValueErrorClass
    ensures |Message(f)| > 10 && Message(f)[0] == 'A'
    ensures [Message(f)[2], Message(f)[10]] ==
      match f
      case EmptyTable => "p "
      case Meaningless => "ef"
      case Unsafe => "e("
      case TooLarge => "ee"
      case _ => ""
  {
    match f
    case EmptyTable =>
    case Meaningless =>
    case Unsafe =>
    case TooLarge =>
  }

  /** The provider failures' messages do not open with `A`, and their first
      and sixth characters tell them apart. */
  lemma {:induction false} ProviderSignature(f: Failure)
    requires ClassOf(f) == RuntimeErrorClass
    ensures |Message(f)| > 5 && Message(f)[0] != 'A'
    ensures [Message(f)[0], Message(f)[5]] ==
      match f
      case RateLimit => "Le"
      case Connection => "Ed"
      case ApiFailure(_) => "En"
      case Unexpected(_) => "Ur"
      case _ => ""
  {
    match f
    case RateLimit =>
    case Connection =>
    case ApiFailure(_) =>
    case Unexpected(_) =>
  }

  /** The four refusals (empty sheet, meaningless, unsafe, too large) are
      reported with four different messages. */
  lemma {:induction false} GateMessagesDiffer(f: Failure, f': Failure)
    requires ClassOf(f) == ValueErrorClass && ClassOf(f') == ValueErrorClass
    requires f != f'
    ensures Message(f) != Message(f')
  {
    GateSignature(f);
    GateSignature(f');
  }

  /** Different provider failures are reported with different messages; the
      provider's own detail is kept whole at the end of the message. */
  lemma {:induction false} ProviderMessagesDiffer(f: Failure, f': Failure)
    requires ClassOf(f) == RuntimeErrorClass && ClassOf(f') == RuntimeErrorClass
    requires f != f'
    ensures Message(f) != Message(f')
  {
    if (f.ApiFailure? && f'.ApiFailure?) || (f.Unexpected? && f'.Unexpected?) {
      var p := if f.ApiFailure? then "Erro na API da OpenAI: " else "Um erro inesperado ocorreu: ";
      assert Message(f) == p + f.detail && Message(f') == p + f'.detail;
      assert (p + f.detail)[|p|..] == f.detail;
      assert (p + f'.detail)[|p|..] == f'.detail;
    } else {
      ProviderSignature(f);
      ProviderSignature(f');
    }
  }

  /** Every failure other than a moderation crash (which passes the
      moderation error's own text through) has a message of its own: two
      different failures are never reported with the same text. */
  lemma {:induction false} MessagesDiffer(f: Failure, f': Failure)
    requires !f.ModerationCrash? && !f'.ModerationCrash?
    requires f != f'
    ensures Message(f) != Message(f')
  {
    if ClassOf(f) == ClassOf(f') == ValueErrorClass {
      GateMessagesDiffer(f, f');
    } else if ClassOf(f) == ClassOf(f') {
      ProviderMessagesDiffer(f, f');
    } else if ClassOf(f) == ValueErrorClass {
      GateSignature(f);
      ProviderSignature(f');
    } else {
      ProviderSignature(f);
      GateSignature(f');
    }
  }

  /** Python truthiness of the optional question: present and non-empty. */
  predicate Asks(question: Option<string>) {
    question.Some? && |question.value| > 0
  }

  /** The question as it reaches the prompt: dropped when it is not truthy. */
  function AskedQuestion(question: Option<string>): (q: Option<string>)
    ensures q.Some? <==> Asks(question)
    ensures q.Some? ==> q == question
  {
    if Asks(question) then question else None
  }

  /** The text every gate checks: the question when one is asked, the
      context otherwise. */
  function ValidatedInput(context: string, question: Option<string>): (v: string)
    ensures Asks(question) ==> v == question.value
    ensures !Asks(question) ==> v == context
  {
    if Asks(question) then question.value else context
  }

  /** The request sent to the provider: the first rows of the sheet
      rendered as text, with the context and the asked question. */
  function Request(svc: Services, t: Table, context: string, question: Option<string>): Envelope {
    BuildEnvelope(context, svc.render(Head(t, PreviewRows)), AskedQuestion(question))
  }

  /** How a chat reply becomes the result: the content, or the failure
      each exception class is reported as. */
  function FromReply(reply: ChatReply): (r: Result<string, Failure>)
    ensures r.Ok? <==> reply.Reply?
    ensures r.Ok? ==> r.value == reply.content
    ensures r.Err? ==> ClassOf(r.error) == RuntimeErrorClass
    ensures reply.RateLimited? ==> r == Err(RateLimit)
    ensures reply.ConnectionFailed? ==> r == Err(Connection)
    ensures reply.ProviderError? ==> r == Err(ApiFailure(reply.detail))
    ensures reply.OtherError? ==> r == Err(Unexpected(reply.detail))
  {
    match reply
    case Reply(content) => Ok(content)
    case RateLimited => Err(RateLimit)
    case ConnectionFailed => Err(Connection)
    case ProviderError(d) => Err(ApiFailure(d))
    case OtherError(d) => Err(Unexpected(d))
  }

  /** Different provider failures are reported with different messages. */
  lemma {:induction false} ReplyFailuresDiffer(a: ChatReply, b: ChatReply)
    requires !a.Reply? && !b.Reply? && a != b
    ensures FromReply(a).Err? && FromReply(b).Err?
    ensures Message(FromReply(a).error) != Message(FromReply(b).error)
  {
    MessagesDiffer(FromReply(a).error, FromReply(b).error);
  }

  /** The outcome of each check on the validated text `v`. */
  datatype Checks = Checks(empty: bool, meaningful: bool, safety: SafetyVerdict, withinLimit: bool)

  function RunChecks(svc: Services, t: Table, v: string): (c: Checks)
    ensures c.safety == Verdict(true) ==> svc.client.Some?
  {
    Checks(IsEmpty(t), IsInputMeaningful(v), IsInputSafe(svc.client, v), IsWithinTokenLimit(v, MaxInputTokens, svc.tokenize))
  }

  /** The checks in the order `generate_analysis` applies them: the
      failure of the first one that refuses, `None` when all pass. */
  function FirstFailure(c: Checks): (g: Option<Failure>)
    ensures g.None? <==> !c.empty && c.meaningful && c.safety == Verdict(true) && c.withinLimit
    ensures g.Some? ==> ClassOf(g.value) == (if g.value.ModerationCrash? then OtherClass else ValueErrorClass)
    ensures c.empty ==> g == Some(EmptyTable)
    ensures !c.empty && !c.meaningful ==> g == Some(Meaningless)
    ensures !c.empty && c.meaningful && c.safety.Raised? ==> g == Some(ModerationCrash(c.safety.detail))
    ensures !c.empty && c.meaningful && c.safety == Verdict(false) ==> g == Some(Unsafe)
    ensures !c.empty && c.meaningful && c.safety == Verdict(true) && !c.withinLimit ==> g == Some(TooLarge)
  {
    if c.empty then Some(EmptyTable)
    else if !c.meaningful then Some(Meaningless)
    else
      match c.safety
      case Raised(d) => Some(ModerationCrash(d))
      case Verdict(safe) =>
        if !safe then Some(Unsafe)
        else if !c.withinLimit then Some(TooLarge)
        else None
  }

  function FirstFailedGate(svc: Services, t: Table, v: string): (g: Option<Failure>)
    ensures g.None? ==> svc.client.Some?
  {
    FirstFailure(RunChecks(svc, t, v))
  }

  /** `generate_analysis`: the first gate that refuses decides the failure;
      when all pass, the provider is asked once with the request and its
      reply decides the result. */
  function GenerateAnalysis(svc: Services, t: Table, context: string, question: Option<string>): (r: Result<string, Failure>)
    ensures IsEmpty(t) ==> r == Err(EmptyTable)
    ensures var g := FirstFailedGate(svc, t, ValidatedInput(context, question));
      && (g.Some? ==> r == Err(g.value))
      && (g.None? ==> svc.client.Some? && var e := Request(svc, t, context, question);
                      r == FromReply(svc.client.value.chat(e.system, e.user)))
  {
    var g := FirstFailedGate(svc, t, ValidatedInput(context, question));
    if g.Some? then Err(g.value)
    else
      var e := Request(svc, t, context, question);
      FromReply(svc.client.value.chat(e.system, e.user))
  }

  /** A result comes from the provider exactly when every gate passed; a
      gate failure is a `ValueError` unless the moderation call itself
      raised, and a provider failure is a `RuntimeError`. */
  lemma FailureClasses(svc: Services, t: Table, context: string, question: Option<string>)
    ensures var r := GenerateAnalysis(svc, t, context, question);
      var g := FirstFailedGate(svc, t, ValidatedInput(context, question));
      && (r.Ok? ==> g.None?)
      && (r.Err? && ClassOf(r.error) == ValueErrorClass <==> g.Some? && !g.value.ModerationCrash?)
      && (r.Err? && ClassOf(r.error) == OtherClass <==> g.Some? && g.value.ModerationCrash?)
      && (r.Err? && ClassOf(r.error) == RuntimeErrorClass <==> g.None? && r.Err?)
  {
    var g := FirstFailedGate(svc, t, ValidatedInput(context, question));
    if g.None? {
      var e := Request(svc, t, context, question);
      assert GenerateAnalysis(svc, t, context, question) == FromReply(svc.client.value.chat(e.system, e.user));
    } else {
      assert g == FirstFailure(RunChecks(svc, t, ValidatedInput(context, question)));
    }
  }

  /** A successful result is the content of the provider's reply to the
      request. */
  lemma ResultIsTheReply(svc: Services, t: Table, context: string, question: Option<string>)
    requires GenerateAnalysis(svc, t, context, question).Ok?
    ensures svc.client.Some?
    ensures var e := Request(svc, t, context, question);
      svc.client.value.chat(e.system, e.user) == Reply(GenerateAnalysis(svc, t, context, question).value)
  {
  }

  /** An empty sheet is refused whatever the input and whoever answers. */
  lemma EmptyTableConsultsNothing(svc: Services, svc': Services, t: Table, context: string, question: Option<string>)
    requires IsEmpty(t)
    ensures GenerateAnalysis(svc, t, context, question) == GenerateAnalysis(svc', t, context, question)
  {
  }

  /** Gibberish is refused before the moderation call: the client, the
      tokenizer and the renderer do not matter. */
  lemma MeaninglessConsultsNoProvider(svc: Services, svc': Services, t: Table, context: string, question: Option<string>)
    requires !IsEmpty(t) && !IsInputMeaningful(ValidatedInput(context, question))
    ensures GenerateAnalysis(svc, t, context, question) == Err(Meaningless)
    ensures GenerateAnalysis(svc', t, context, question) == Err(Meaningless)
  {
  }

  /** When a gate refuses, the chat endpoint is never consulted: replacing
      it changes nothing. */
  lemma GateFailureIgnoresChat(svc: Services, chat': (Instruction, string) -> ChatReply, t: Table, context: string,
                               question: Option<string>)
    requires svc.client.Some?
    requires FirstFailedGate(svc, t, ValidatedInput(context, question)).Some?
    ensures var svc' := svc.(client := Some(svc.client.value.(chat := chat')));
      GenerateAnalysis(svc', t, context, question) == GenerateAnalysis(svc, t, context, question)
  {
    var svc' := svc.(client := Some(svc.client.value.(chat := chat')));
    var v := ValidatedInput(context, question);
    assert IsInputSafe(svc'.client, v) == IsInputSafe(svc.client, v);
    assert FirstFailedGate(svc', t, v) == FirstFailedGate(svc, t, v);
  }

  /** A follow-up is validated on its question alone, an initial analysis
      (or an empty question) on the context. */
  lemma ValidatesQuestionOrContext(svc: Services, t: Table, context: string, q: string)
    requires !IsEmpty(t) && |q| > 0
    ensures !IsInputMeaningful(q) ==> GenerateAnalysis(svc, t, context, Some(q)) == Err(Meaningless)
    ensures !IsInputMeaningful(context) ==> GenerateAnalysis(svc, t, context, Some("")) == Err(Meaningless)
    ensures GenerateAnalysis(svc, t, context, Some("")) == GenerateAnalysis(svc, t, context, None)
  {
    assert ValidatedInput(context, Some("")) == ValidatedInput(context, None);
    assert Request(svc, t, context, Some("")) == Request(svc, t, context, None);
  }

  /** Without a client every non-empty, meaningful input is refused as
      unsafe. */
  lemma NoClientIsUnsafe(svc: Services, t: Table, context: string, question: Option<string>)
    requires svc.client.None?
    requires !IsEmpty(t) && IsInputMeaningful(ValidatedInput(context, question))
    ensures GenerateAnalysis(svc, t, context, question) == Err(Unsafe)
  {
  }

  /** The request carries the follow-up instruction exactly when a
      question is asked, and its user message reads back as the context,
      the preview of at most 20 rows and the asked question, provided none
      of them contains its own closing tag. */
  lemma RequestCarriesInputs(svc: Services, t: Table, context: string, question: Option<string>)
    requires WellFormed(t)
    requires !Contains(context, ContextClose)
    requires !Contains(svc.render(Head(t, PreviewRows)), DataClose)
    requires Asks(question) ==> !Contains(question.value, QuestionClose)
    ensures var e := Request(svc, t, context, question);
      && (e.system == FollowUpInstruction <==> Asks(question))
      && ParseUserMessage(e.user)
         == Some(Sections(context, svc.render(Head(t, PreviewRows)), AskedQuestion(question)))
    ensures RowCount(Head(t, PreviewRows)) == Min(PreviewRows, RowCount(t))
  {
    ParseInvertsUserMessage(context, svc.render(Head(t, PreviewRows)), AskedQuestion(question));
    HeadKeepsPrefix(t, PreviewRows);
  }
}
