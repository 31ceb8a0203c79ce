/** The page's session state and the four things a visitor can do to it:
    upload a sheet, ask for the analysis, draw a chart, ask a follow-up
    question. Each action is one run of the page script; the history keeps
    the analysis first and then the charts and answers in order, with at
    most two of each per analysis. */
module Session {
  import opened Outcome
  import opened Text
  import opened Tables
  import opened Plotting
  import opened Analysis

  const MaxGraphs := 2
  const MaxFollowUps := 2
  const MaxUploadBytes := 2 * 1024 * 1024

  datatype Item =
    | AnalysisItem(content: string)
    | GraphItem(figure: Figure)
    | FollowUpItem(question: string, answer: string)

  datatype State = State(history: seq<Item>, df: Option<Table>, context: string, graphCount: nat, followUpCount: nat)

  /** A fresh session. */
  const Initial := State([], None, "", 0, 0)

  /** What the page shows besides the history after an action. */
  datatype Notice =
    | Quiet
    | Warning(text: string)
    | ErrorBox(text: string)
    | Crash(text: string)  // an exception the script does not catch

  datatype Step = Step(state: State, notice: Notice)

  /** An uploaded file: its size and what reading it as a sheet gives (the
      table, or the reader's error text). */
  datatype Upload = Upload(size: nat, read: Result<Table, string>)

  // ---------------------------------------------------------------------
  // Counting the history
  // ---------------------------------------------------------------------

  function Graphs(h: seq<Item>): nat {
    if |h| == 0 then 0 else Graphs(h[..|h| - 1]) + (if h[|h| - 1].GraphItem? then 1 else 0)
  }

  function FollowUps(h: seq<Item>): nat {
    if |h| == 0 then 0 else FollowUps(h[..|h| - 1]) + (if h[|h| - 1].FollowUpItem? then 1 else 0)
  }

  /** The session invariant: the counters stay within their limits and
      count the charts and answers in the history; a non-empty history
      starts with the one analysis it holds. */
  predicate Consistent(s: State) {
    && s.graphCount <= MaxGraphs
    && s.followUpCount <= MaxFollowUps
    && (|s.history| == 0 ==> s.graphCount == 0 && s.followUpCount == 0)
    && (|s.history| > 0 ==>
          && s.history[0].AnalysisItem?
          && (forall i :: 0 < i < |s.history| ==> !s.history[i].AnalysisItem?)
          && Graphs(s.history) == s.graphCount
          && FollowUps(s.history) == s.followUpCount)
  }

  // ---------------------------------------------------------------------
  // Actions
  // ---------------------------------------------------------------------

  /** The upload block: a file over 2 MB is refused and changes nothing; a
      file that cannot be read clears the sheet; a readable one becomes the
      sheet and the context box's text becomes the context. */
  function UploadStep(s: State, file: Option<Upload>, contextInput: string): (r: Step)
    ensures file.None? ==> r == Step(s, Quiet)
    ensures file.Some? && file.value.size > MaxUploadBytes ==>
      r == Step(s, ErrorBox("Arquivo muito grande. O limite é de 2MB."))
    ensures r.state.history == s.history && r.state.graphCount == s.graphCount
    ensures r.state.followUpCount == s.followUpCount
    ensures r.state.df != s.df ==> file.Some? && file.value.size <= MaxUploadBytes
    ensures file.Some? && file.value.size <= MaxUploadBytes ==>
      && r.state.df == (if file.value.read.Ok? then Some(file.value.read.value) else None)
      && r.state.context == (if file.value.read.Ok? then contextInput else s.context)
  {
    match file
    case None => Step(s, Quiet)
    case Some(f) =>
      if f.size > MaxUploadBytes then Step(s, ErrorBox("Arquivo muito grande. O limite é de 2MB."))
      else
        match f.read
        case Ok(t) => Step(s.(df := Some(t), context := contextInput), Quiet)
        case Err(e) => Step(s.(df := None), ErrorBox("Erro ao ler o arquivo Excel: " + e))
  }

  /** The analysis button runs only with a sheet, a non-blank context and a
      client. */
  predicate CanAnalyze(s: State, svc: Services) {
    s.df.Some? && Strip(s.context) != [] && svc.client.Some?
  }

  /** The analysis button: refuses without a sheet or context, or without a
      client; otherwise clears the history and both counters and then
      records the analysis, or reports why there is none. */
  function AnalyzeStep(s: State, svc: Services): (r: Step)
    ensures !CanAnalyze(s, svc) ==> r.state == s
    ensures CanAnalyze(s, svc) ==>
      && r.state.df == s.df && r.state.context == s.context
      && r.state.graphCount == 0 && r.state.followUpCount == 0
      && var g := GenerateAnalysis(svc, s.df.value, s.context, None);
         && (g.Ok? ==> r.state.history == [AnalysisItem(g.value)] && r.notice == Quiet)
         && (g.Err? ==> r.state.history == [])
         && (g.Err? && ClassOf(g.error) == OtherClass ==> r.notice == ErrorBox("Ocorreu um erro inesperado: " + Message(g.error)))
         && (g.Err? && ClassOf(g.error) != OtherClass ==> r.notice == ErrorBox("Erro na Análise: " + Message(g.error)))
  {
    if s.df.None? || Strip(s.context) == [] then
      Step(s, Warning("Por favor, carregue uma planilha e descreva o contexto antes de analisar."))
    else if svc.client.None? then
      Step(s, ErrorBox("Cliente da OpenAI não inicializado. Verifique a chave da API."))
    else
      var cleared := s.(history := [], graphCount := 0, followUpCount := 0);
      match GenerateAnalysis(svc, s.df.value, s.context, None)
      case Ok(content) => Step(cleared.(history := [AnalysisItem(content)]), Quiet)
      case Err(f) =>
        if ClassOf(f) == OtherClass then Step(cleared, ErrorBox("Ocorreu um erro inesperado: " + Message(f)))
        else Step(cleared, ErrorBox("Erro na Análise: " + Message(f)))
  }

  /** The chart form is shown below a non-empty history while a sheet is
      loaded and fewer than two charts were drawn. */
  predicate GraphOffered(s: State) {
    |s.history| > 0 && s.df.Some? && s.graphCount < MaxGraphs
  }

  /** The chart form: on success the figure is appended and the counter
      goes up by one; a refused chart changes nothing. */
  function GraphStep(s: State, chartType: string, colX: string, colY: string): (r: Step)
    ensures !GraphOffered(s) ==> r.state == s
    ensures GraphOffered(s) ==>
      var p := CreatePlot(s.df.value, chartType, colX, colY).result;
      && (p.Ok? ==> r.state == s.(history := s.history + [GraphItem(p.value)], graphCount := s.graphCount + 1))
      && (p.Err? ==> r == Step(s, ErrorBox("Erro ao gerar gráfico: " + ErrorMessage(p.error))))
  {
    if !GraphOffered(s) then Step(s, Quiet)
    else
      match CreatePlot(s.df.value, chartType, colX, colY).result
      case Ok(fig) => Step(s.(history := s.history + [GraphItem(fig)], graphCount := s.graphCount + 1), Quiet)
      case Err(e) => Step(s, ErrorBox("Erro ao gerar gráfico: " + ErrorMessage(e)))
  }

  /** The question form is shown below a non-empty history while a sheet
      is loaded and fewer than two questions were answered. */
  predicate FollowUpOffered(s: State) {
    |s.history| > 0 && s.df.Some? && s.followUpCount < MaxFollowUps
  }

  /** The question form: an empty question does nothing; an answer is
      appended with its question and the counter goes up by one; a failure
      changes nothing, and one the form does not catch escapes. */
  function FollowUpStep(s: State, svc: Services, question: string): (r: Step)
    ensures !FollowUpOffered(s) || |question| == 0 ==> r.state == s
    ensures FollowUpOffered(s) && |question| > 0 ==>
      var g := GenerateAnalysis(svc, s.df.value, s.context, Some(question));
      && (g.Ok? ==> r.state == s.(history := s.history + [FollowUpItem(question, g.value)],
                                  followUpCount := s.followUpCount + 1))
      && (g.Err? ==> r.state == s)
      && (g.Err? && ClassOf(g.error) == OtherClass ==> r.notice == Crash(Message(g.error)))
      && (g.Err? && ClassOf(g.error) != OtherClass ==> r.notice == ErrorBox("Erro na Pergunta: " + Message(g.error)))
  {
    if !FollowUpOffered(s) || |question| == 0 then Step(s, Quiet)
    else
      match GenerateAnalysis(svc, s.df.value, s.context, Some(question))
      case Ok(answer) =>
        Step(s.(history := s.history + [FollowUpItem(question, answer)], followUpCount := s.followUpCount + 1), Quiet)
      case Err(f) =>
        if ClassOf(f) == OtherClass then Step(s, Crash(Message(f)))
        else Step(s, ErrorBox("Erro na Pergunta: " + Message(f)))
  }

  /** What the chart and question panels say: nothing below an empty
      history or without a sheet, the limit warning once it is reached, or
      how many remain. */
  datatype Panel = Hidden | LimitReached(text: string) | Remaining(count: nat)

  function GraphPanel(s: State): (p: Panel)
    ensures p.Remaining? <==> GraphOffered(s)
    ensures p.LimitReached? <==> |s.history| > 0 && s.df.Some? && s.graphCount >= MaxGraphs
    ensures p.Remaining? ==> p.count == MaxGraphs - s.graphCount
  {
    if |s.history| == 0 || s.df.None? then Hidden
    else if s.graphCount >= MaxGraphs then LimitReached("Você atingiu o limite de 2 gráficos por análise.")
    else Remaining(MaxGraphs - s.graphCount)
  }

  function FollowUpPanel(s: State): (p: Panel)
    ensures p.Remaining? <==> FollowUpOffered(s)
    ensures p.LimitReached? <==> |s.history| > 0 && s.df.Some? && s.followUpCount >= MaxFollowUps
    ensures p.Remaining? ==> p.count == MaxFollowUps - s.followUpCount
  {
    if |s.history| == 0 || s.df.None? then Hidden
    else if s.followUpCount >= MaxFollowUps then LimitReached("Você atingiu o limite de 2 perguntas por análise.")
    else Remaining(MaxFollowUps - s.followUpCount)
  }

  // ---------------------------------------------------------------------
  // Sessions as sequences of actions
  // ---------------------------------------------------------------------

  datatype Action =
    | UploadAction(file: Option<Upload>, contextInput: string)
    | AnalyzeAction
    | GraphAction(chartType: string, colX: string, colY: string)
    | FollowUpAction(question: string)

  function Apply(s: State, svc: Services, a: Action): Step {
    match a
    case UploadAction(file, contextInput) => UploadStep(s, file, contextInput)
    case AnalyzeAction => AnalyzeStep(s, svc)
    case GraphAction(chartType, colX, colY) => GraphStep(s, chartType, colX, colY)
    case FollowUpAction(question) => FollowUpStep(s, svc, question)
  }

  function Run(s: State, svc: Services, actions: seq<Action>): State
    decreases |actions|
  {
    if |actions| == 0 then s else Run(Apply(s, svc, actions[0]).state, svc, actions[1..])
  }

  // ---------------------------------------------------------------------
  // Properties
  // ---------------------------------------------------------------------

  lemma {:induction false} CountsAppend(h: seq<Item>, x: Item)
    ensures Graphs(h + [x]) == Graphs(h) + (if x.GraphItem? then 1 else 0)
    ensures FollowUps(h + [x]) == FollowUps(h) + (if x.FollowUpItem? then 1 else 0)
  {
    assert (h + [x])[..|h + [x]| - 1] == h;
  }

  lemma {:induction false} SingleAnalysisCounts(c: string)
    ensures Graphs([AnalysisItem(c)]) == 0 && FollowUps([AnalysisItem(c)]) == 0
  {
    var e: seq<Item> := [];
    CountsAppend(e, AnalysisItem(c));
  }

  /** A consistent history holds the analysis and exactly as many other
      items as the two counters say, so never more than five. */
  lemma {:induction false} HistoryLength(s: State)
    requires Consistent(s)
    ensures |s.history| == if |s.history| == 0 then 0 else 1 + s.graphCount + s.followUpCount
    ensures |s.history| <= 1 + MaxGraphs + MaxFollowUps
  {
    if |s.history| > 0 {
      ItemsAfterFirst(s.history);
    }
  }

  /** In a history whose only analysis is the first item, every other item
      is a chart or an answer. */
  lemma {:induction false} ItemsAfterFirst(h: seq<Item>)
    requires |h| > 0 && h[0].AnalysisItem?
    requires forall i :: 0 < i < |h| ==> !h[i].AnalysisItem?
    ensures |h| == 1 + Graphs(h) + FollowUps(h)
    decreases |h|
  {
    if |h| == 1 {
      SingleAnalysisCounts(h[0].content);
      assert h == [AnalysisItem(h[0].content)];
    } else {
      var p, x := h[..|h| - 1], h[|h| - 1];
      assert p[0].AnalysisItem? && forall i :: 0 < i < |p| ==> !p[i].AnalysisItem? by {
        forall i | 0 <= i < |p| ensures p[i] == h[i] { }
      }
      ItemsAfterFirst(p);
      assert h == p + [x];
      CountsAppend(p, x);
      assert !x.AnalysisItem?;
    }
  }

  lemma {:induction false} UploadKeepsConsistent(s: State, file: Option<Upload>, contextInput: string)
    requires Consistent(s)
    ensures Consistent(UploadStep(s, file, contextInput).state)
  {
  }

  lemma {:induction false} AnalyzeKeepsConsistent(s: State, svc: Services)
    requires Consistent(s)
    ensures Consistent(AnalyzeStep(s, svc).state)
  {
    if CanAnalyze(s, svc) {
      var g := GenerateAnalysis(svc, s.df.value, s.context, None);
      if g.Ok? {
        SingleAnalysisCounts(g.value);
      }
    }
  }

  /** Appending a chart or an answer, with its counter raised by one, keeps
      the session consistent. */
  lemma {:induction false} AppendKeepsConsistent(s: State, x: Item, s': State)
    requires Consistent(s) && |s.history| > 0 && !x.AnalysisItem?
    requires x.GraphItem? ==> s.graphCount < MaxGraphs
    requires x.FollowUpItem? ==> s.followUpCount < MaxFollowUps
    requires s'.history == s.history + [x]
    requires s'.graphCount == s.graphCount + (if x.GraphItem? then 1 else 0)
    requires s'.followUpCount == s.followUpCount + (if x.FollowUpItem? then 1 else 0)
    ensures Consistent(s')
  {
    var h := s'.history;
    CountsAppend(s.history, x);
    assert forall i :: 0 < i < |h| ==> !h[i].AnalysisItem? by {
      forall i | 0 < i < |h| ensures !h[i].AnalysisItem? {
        if i < |s.history| { assert h[i] == s.history[i]; }
      }
    }
  }

  lemma {:induction false} GraphKeepsConsistent(s: State, chartType: string, colX: string, colY: string)
    requires Consistent(s)
    ensures Consistent(GraphStep(s, chartType, colX, colY).state)
  {
    if GraphOffered(s) {
      var p := CreatePlot(s.df.value, chartType, colX, colY).result;
      if p.Ok? {
        AppendKeepsConsistent(s, GraphItem(p.value), GraphStep(s, chartType, colX, colY).state);
      }
    }
  }

  lemma {:induction false} FollowUpKeepsConsistent(s: State, svc: Services, question: string)
    requires Consistent(s)
    ensures Consistent(FollowUpStep(s, svc, question).state)
  {
    if FollowUpOffered(s) && |question| > 0 {
      var g := GenerateAnalysis(svc, s.df.value, s.context, Some(question));
      if g.Ok? {
        AppendKeepsConsistent(s, FollowUpItem(question, g.value), FollowUpStep(s, svc, question).state);
      }
    }
  }

  lemma {:induction false} ApplyKeepsConsistent(s: State, svc: Services, a: Action)
    requires Consistent(s)
    ensures Consistent(Apply(s, svc, a).state)
  {
    match a
    case UploadAction(file, contextInput) => UploadKeepsConsistent(s, file, contextInput);
    case AnalyzeAction => AnalyzeKeepsConsistent(s, svc);
    case GraphAction(chartType, colX, colY) => GraphKeepsConsistent(s, chartType, colX, colY);
    case FollowUpAction(question) => FollowUpKeepsConsistent(s, svc, question);
  }

  /** Whatever a visitor does, starting from a fresh session: the counters
      never pass their limits, the history starts with its one analysis and
      holds at most two charts and two answers. */
  lemma {:induction false} RunKeepsConsistent(s: State, svc: Services, actions: seq<Action>)
    requires Consistent(s)
    ensures Consistent(Run(s, svc, actions))
    ensures |Run(s, svc, actions).history| <= 1 + MaxGraphs + MaxFollowUps
    decreases |actions|
  {
    if |actions| == 0 {
      HistoryLength(s);
    } else {
      ApplyKeepsConsistent(s, svc, actions[0]);
      RunKeepsConsistent(Apply(s, svc, actions[0]).state, svc, actions[1..]);
    }
  }

  lemma InitialIsConsistent()
    ensures Consistent(Initial)
  {
  }

  /** A follow-up answer is the provider's reply to a request carrying the
      session's current context, the preview of its sheet and the new
      question, under the follow-up instruction; earlier answers are not
      sent. */
  lemma {:induction false} FollowUpAsksAboutSessionData(s: State, svc: Services, question: string)
    requires FollowUpOffered(s) && |question| > 0
    requires GenerateAnalysis(svc, s.df.value, s.context, Some(question)).Ok?
    ensures svc.client.Some?
    ensures var e := Request(svc, s.df.value, s.context, Some(question));
      && e.user == Prompt.UserMessage(s.context, svc.render(Head(s.df.value, PreviewRows)), Some(question))
      && e.system == Prompt.FollowUpInstruction
      && FollowUpStep(s, svc, question).state.history
         == s.history + [FollowUpItem(question, svc.client.value.chat(e.system, e.user).content)]
  {
    ResultIsTheReply(svc, s.df.value, s.context, Some(question));
  }

  /** The panels count down: while a form is offered it says how many
      remain, the limit less the charts (answers) already in the history,
      between one and the limit. */
  lemma PanelsCountDown(s: State)
    requires Consistent(s)
    ensures GraphPanel(s).Remaining? ==>
      && GraphPanel(s).count == MaxGraphs - Graphs(s.history)
      && 1 <= GraphPanel(s).count <= MaxGraphs
    ensures FollowUpPanel(s).Remaining? ==>
      && FollowUpPanel(s).count == MaxFollowUps - FollowUps(s.history)
      && 1 <= FollowUpPanel(s).count <= MaxFollowUps
  {
  }
}
