/**
 * The conversation controller: the message list, the input draft, the
 * `loading` admission flag, the append-only query history with its recall
 * cursor, the history panel, and the bulk `processQueries` action.
 *
 * Each event handler is specified by a function on a snapshot of the
 * component's fields (`ChatState`); the `ChatComponent` class updates its
 * fields in place and is proved to follow those functions. The HTTP calls
 * are not modelled: their success and error callbacks are methods of their own.
 */
module Chat {
  import opened Wrappers
  import opened Text
  import opened Models

  const WelcomeText := "Welcome! Ask me anything about NCAA basketball data."
  const ErrorPrefix := "Sorry, I encountered an error: "
  const ProcessErrorPrefix := "\U{201A}\U{00F9}\U{00E5} Error processing queries: "

  /** The keys `onInputKeyDown` distinguishes. */
  datatype Key = Enter(shift: bool) | ArrowUp | ArrowDown | OtherKey

  /**
   * The component's fields. `pending` is the query captured by the
   * subscription of the outstanding `sendMessage` call, if any.
   */
  datatype ChatState = ChatState(
    messages: seq<ChatMessage>,
    inputMessage: string,
    loading: bool,
    processingQueries: bool,
    elapsedTime: nat,
    showProcessQueriesButton: bool,
    historyPanelEnabled: bool,
    queryHistory: seq<string>,
    historyIndex: Option<nat>,
    showHistory: bool,
    draftBeforeHistory: string,
    pending: Option<string>)

  /** A query as `sendMessage` stores it: non-empty, with no whitespace at either end. */
  predicate IsTrimmed(q: string) {
    q != [] && !IsWhitespace(q[0]) && !IsWhitespace(q[|q| - 1])
  }

  predicate NoAdjacentDuplicates(h: seq<string>) {
    forall i :: 0 < i < |h| ==> h[i - 1] != h[i]
  }

  /**
   * What every handler preserves: history has no two equal neighbours and
   * holds only non-empty trimmed queries; the recall cursor is absent or
   * addresses the entry shown in the input; no draft is saved without a
   * recall; `loading` means a request is outstanding, for the newest history
   * entry; the panel is open only when enabled and non-empty.
   */
  predicate Inv(s: ChatState) {
    var h := s.queryHistory;
    NoAdjacentDuplicates(h) &&
    (forall i :: 0 <= i < |h| ==> IsTrimmed(h[i])) &&
    (s.historyIndex.Some? ==> s.historyIndex.value < |h| && s.inputMessage == h[s.historyIndex.value]) &&
    (s.historyIndex.None? ==> s.draftBeforeHistory == []) &&
    (s.loading <==> s.pending.Some?) &&
    (s.pending.Some? ==> |h| > 0 && h[|h| - 1] == s.pending.value) &&
    (s.showHistory ==> s.historyPanelEnabled && |h| > 0)
  }

  /** The fields as the component is created (feature flags come from configuration). */
  function Initial(historyPanelEnabled: bool, showProcessQueriesButton: bool): (s: ChatState)
    ensures Inv(s)
  {
    ChatState([], [], false, false, 0, showProcessQueriesButton, historyPanelEnabled, [], None, false, [], None)
  }

  /** `ngOnInit` / `addWelcomeMessage`. */
  function AfterWelcome(s: ChatState): (r: ChatState)
    requires Inv(s)
    ensures Inv(r)
    ensures r.messages == s.messages + [ChatMessage(WelcomeText, false, None, None)]
    ensures r == s.(messages := r.messages)
  {
    s.(messages := s.messages + [ChatMessage(WelcomeText, false, None, None)])
  }

  /**
   * `addQueryToHistory`: the query is appended unless it is empty or equal
   * to the newest entry; earlier entries never change.
   */
  function AddedToHistory(h: seq<string>, query: string): (r: seq<string>)
    ensures NoAdjacentDuplicates(h) ==> NoAdjacentDuplicates(r)
    ensures r == h || r == h + [query]
    ensures query != [] ==> |r| > 0 && r[|r| - 1] == query
  {
    if query == [] then h
    else if |h| > 0 && h[|h| - 1] == query then h
    else h + [query]
  }

  /**
   * `sendMessage` up to the HTTP call: ignored exactly when the trimmed
   * input is empty or a request is outstanding; otherwise the trimmed query
   * goes into history, recall is reset, a user message is appended, the input
   * is cleared and `loading` starts.
   */
  function AfterSend(s: ChatState): (r: ChatState)
    requires Inv(s)
    ensures Inv(r)
    ensures r == s <==> Trim(s.inputMessage) == [] || s.loading
    ensures r != s ==>
      var q := Trim(s.inputMessage);
      r.messages == s.messages + [ChatMessage(q, true, None, None)] &&
      r.inputMessage == [] && r.loading && r.pending == Some(q) && r.elapsedTime == 0 &&
      r.historyIndex.None? && r.queryHistory[|r.queryHistory| - 1] == q &&
      r == s.(queryHistory := AddedToHistory(s.queryHistory, q), historyIndex := None, draftBeforeHistory := [],
              messages := r.messages, inputMessage := [], loading := true, elapsedTime := 0, pending := Some(q))
  {
    var query := Trim(s.inputMessage);
    if query == [] || s.loading then s
    else
      s.(queryHistory := AddedToHistory(s.queryHistory, query),
         historyIndex := None,
         draftBeforeHistory := [],
         messages := s.messages + [ChatMessage(query, true, None, None)],
         inputMessage := [],
         loading := true,
         elapsedTime := 0,
         pending := Some(query))
  }

  /**
   * The `next` callback of `sendMessage`: one bot message carrying the query,
   * the response and the time taken; `loading` ends.
   */
  function AfterSuccess(s: ChatState, response: ChatResponse, timeTaken: int): (r: ChatState)
    requires Inv(s) && s.pending.Some?
    ensures Inv(r)
    ensures !r.loading && r.elapsedTime == 0
    ensures |r.messages| == |s.messages| + 1 && r.messages[..|s.messages|] == s.messages
    ensures r.messages[|s.messages|] == ChatMessage(s.pending.value, false, Some(response), Some(timeTaken))
    ensures r == s.(messages := r.messages, loading := false, elapsedTime := 0, pending := None)
  {
    s.(messages := s.messages + [ChatMessage(s.pending.value, false, Some(response), Some(timeTaken))],
       loading := false,
       elapsedTime := 0,
       pending := None)
  }

  /** A string-valued operand of `||` that selects itself: present and non-empty. */
  predicate Truthy(o: Option<string>) {
    o.Some? && o.value != []
  }

  /** Where `cs[0] || cs[1] || ...` stops: the first truthy operand, or |cs| when none is. */
  function FirstTruthy(cs: seq<Option<string>>): (k: nat)
    ensures k <= |cs|
    ensures forall j :: 0 <= j < k ==> !Truthy(cs[j])
    ensures k < |cs| ==> Truthy(cs[k])
  {
    if cs == [] || Truthy(cs[0]) then 0 else 1 + FirstTruthy(cs[1..])
  }

  /** `error.error?.message || error.message || fallback`. */
  function ErrorDetail(e: HttpError, fallback: string): string {
    var cs := [e.serverMessage, e.message];
    var k := FirstTruthy(cs);
    if k < |cs| then cs[k].value else fallback
  }

  /** The text of the error message: the server's message, else the transport's, else the fallback. */
  lemma ErrorDetailChoice(e: HttpError, fallback: string)
    ensures ErrorDetail(e, fallback)
      == if Truthy(e.serverMessage) then e.serverMessage.value
         else if Truthy(e.message) then e.message.value
         else fallback
  {
    var cs := [e.serverMessage, e.message];
    if !Truthy(e.serverMessage) {
      assert cs[1..] == [e.message];
      assert [e.message][1..] == [];
      assert FirstTruthy(cs) == 1 + FirstTruthy([e.message]);
    }
  }

  /**
   * The `error` callback of `sendMessage`: one bot message with the error
   * text and the time taken; `loading` ends.
   */
  function AfterError(s: ChatState, error: HttpError, timeTaken: int): (r: ChatState)
    requires Inv(s) && s.pending.Some?
    ensures Inv(r)
    ensures !r.loading && r.elapsedTime == 0
    ensures |r.messages| == |s.messages| + 1 && r.messages[..|s.messages|] == s.messages
    ensures r.messages[|s.messages|] == ChatMessage(ErrorPrefix + ErrorDetail(error, "Unknown error"), false, None, Some(timeTaken))
    ensures r == s.(messages := r.messages, loading := false, elapsedTime := 0, pending := None)
  {
    s.(messages := s.messages + [ChatMessage(ErrorPrefix + ErrorDetail(error, "Unknown error"), false, None, Some(timeTaken))],
       loading := false,
       elapsedTime := 0,
       pending := None)
  }

  /**
   * `onInputKeyDown`: Enter without Shift submits; ArrowUp recalls older
   * entries (saving the draft on the first press, stopping at the oldest);
   * ArrowDown walks back towards the newest and, past it, restores the
   * draft. Nothing happens while loading; arrows do nothing with no history.
   */
  function AfterKeyDown(s: ChatState, key: Key): (r: ChatState)
    requires Inv(s)
    ensures Inv(r)
    ensures s.loading ==> r == s
    ensures s.queryHistory == [] && (key == ArrowUp || key == ArrowDown) ==> r == s
    ensures key == Enter(false) ==> r == AfterSend(s)
    ensures key == Enter(true) || key == OtherKey ==> r == s
    ensures key != Enter(false) ==> r.queryHistory == s.queryHistory && r.messages == s.messages
  {
    if key == Enter(false) then
      if !s.loading then AfterSend(s) else s
    else if key == ArrowUp then AfterArrowUp(s)
    else if key == ArrowDown then AfterArrowDown(s)
    else s
  }

  /**
   * The ArrowUp branch of `onInputKeyDown`: the first press saves the draft
   * and shows the newest entry, later ones move to older entries and stop at
   * the oldest.
   */
  function AfterArrowUp(s: ChatState): (r: ChatState)
    requires Inv(s)
    ensures Inv(r)
    ensures s.loading || s.queryHistory == [] ==> r == s
    ensures r.queryHistory == s.queryHistory && r.messages == s.messages && r.loading == s.loading
  {
    var h := s.queryHistory;
    if s.loading || |h| == 0 then s
    else
      var idx :=
        if s.historyIndex.None? then |h| - 1
        else if s.historyIndex.value > 0 then s.historyIndex.value - 1
        else s.historyIndex.value;
      var draft := if s.historyIndex.None? then s.inputMessage else s.draftBeforeHistory;
      s.(draftBeforeHistory := draft, historyIndex := Some(idx), inputMessage := h[idx])
  }

  /**
   * The ArrowDown branch of `onInputKeyDown`: moves to newer entries and,
   * past the newest, restores the saved draft and ends the recall.
   */
  function AfterArrowDown(s: ChatState): (r: ChatState)
    requires Inv(s)
    ensures Inv(r)
    ensures s.loading || s.queryHistory == [] || s.historyIndex.None? ==> r == s
    ensures r.queryHistory == s.queryHistory && r.messages == s.messages && r.loading == s.loading
  {
    var h := s.queryHistory;
    if s.loading || |h| == 0 || s.historyIndex.None? then s
    else if s.historyIndex.value < |h| - 1 then
      s.(historyIndex := Some(s.historyIndex.value + 1), inputMessage := h[s.historyIndex.value + 1])
    else
      s.(inputMessage := s.draftBeforeHistory, historyIndex := None, draftBeforeHistory := [])
  }

  /** Whether `onInputKeyDown` calls `preventDefault` on the event. */
  predicate PreventsDefault(s: ChatState, key: Key) {
    key == Enter(false) || ((key == ArrowUp || key == ArrowDown) && !s.loading && |s.queryHistory| > 0)
  }

  /**
   * An `(input)` event: the two-way binding stores the new text, then
   * `handleInputChange` cancels any recall in progress.
   */
  function AfterInputChange(s: ChatState, text: string): (r: ChatState)
    requires Inv(s)
    ensures Inv(r)
    ensures r.inputMessage == text && r.historyIndex.None? && r.draftBeforeHistory == []
    ensures r == s.(inputMessage := text, historyIndex := None, draftBeforeHistory := [])
  {
    var t := s.(inputMessage := text);
    if t.historyIndex.Some? then t.(historyIndex := None, draftBeforeHistory := []) else t
  }

  /** `toggleHistoryPanel`: flips the panel unless the feature is off or history is empty. */
  function AfterToggle(s: ChatState): (r: ChatState)
    requires Inv(s)
    ensures Inv(r)
    ensures !s.historyPanelEnabled || s.queryHistory == [] ==> r == s
    ensures s.historyPanelEnabled && s.queryHistory != [] ==> r == s.(showHistory := !s.showHistory)
  {
    if !s.historyPanelEnabled || |s.queryHistory| == 0 then s else s.(showHistory := !s.showHistory)
  }

  /** `closeHistoryPanel`. */
  function AfterClose(s: ChatState): (r: ChatState)
    requires Inv(s)
    ensures Inv(r) && !r.showHistory
    ensures r == s.(showHistory := false)
  {
    s.(showHistory := false)
  }

  /**
   * `loadHistoryItem`: an index outside the history is ignored; otherwise
   * the entry is put into the input and becomes the recall cursor, with no
   * saved draft.
   */
  function AfterLoadHistoryItem(s: ChatState, index: int): (r: ChatState)
    requires Inv(s)
    ensures Inv(r)
    ensures !(0 <= index < |s.queryHistory|) ==> r == s
    ensures 0 <= index < |s.queryHistory| ==>
      r == s.(inputMessage := s.queryHistory[index], historyIndex := Some(index), draftBeforeHistory := [])
  {
    if index < 0 || index >= |s.queryHistory| then s
    else s.(inputMessage := s.queryHistory[index], historyIndex := Some(index), draftBeforeHistory := [])
  }

  /** `processQueries` up to the HTTP call: ignored while a run is in progress. */
  function AfterProcessStart(s: ChatState): (r: ChatState)
    requires Inv(s)
    ensures Inv(r) && r.processingQueries
    ensures s.processingQueries ==> r == s
    ensures !s.processingQueries ==> r == s.(processingQueries := true)
  {
    if s.processingQueries then s else s.(processingQueries := true)
  }

  /** `response.processingTimeMs || processingTime`: the reported time unless absent or zero. */
  function ReportedTime(processingTimeMs: Option<int>, measured: int): int {
    if processingTimeMs.Some? && processingTimeMs.value != 0 then processingTimeMs.value else measured
  }

  /**
   * The `next` callback of `processQueries`: the flag is cleared and one bot
   * message with the summary is appended.
   */
  function AfterProcessSuccess(s: ChatState, summary: string, processingTimeMs: Option<int>, measured: int): (r: ChatState)
    requires Inv(s)
    ensures Inv(r) && !r.processingQueries
    ensures |r.messages| == |s.messages| + 1 && r.messages[..|s.messages|] == s.messages
    ensures r.messages[|s.messages|] == ChatMessage(summary, false, None, Some(ReportedTime(processingTimeMs, measured)))
    ensures r == s.(processingQueries := false, messages := r.messages)
  {
    s.(processingQueries := false,
       messages := s.messages + [ChatMessage(summary, false, None, Some(ReportedTime(processingTimeMs, measured)))])
  }

  /**
   * The `error` callback of `processQueries`: the flag is cleared and one
   * bot message with the error text is appended.
   */
  function AfterProcessError(s: ChatState, error: HttpError, measured: int): (r: ChatState)
    requires Inv(s)
    ensures Inv(r) && !r.processingQueries
    ensures |r.messages| == |s.messages| + 1 && r.messages[..|s.messages|] == s.messages
    ensures r.messages[|s.messages|] == ChatMessage(ProcessErrorPrefix + ErrorDetail(error, "Unknown error occurred"), false, None, Some(measured))
    ensures r == s.(processingQueries := false, messages := r.messages)
  {
    s.(processingQueries := false,
       messages := s.messages + [ChatMessage(ProcessErrorPrefix + ErrorDetail(error, "Unknown error occurred"), false, None, Some(measured))])
  }

  // ---------------------------------------------------------------------------
  // The component
  // ---------------------------------------------------------------------------

  class ChatComponent {
    var messages: seq<ChatMessage>
    var inputMessage: string
    var loading: bool
    var processingQueries: bool
    var elapsedTime: nat
    const showProcessQueriesButton: bool
    const historyPanelEnabled: bool
    var queryHistory: seq<string>
    var historyIndex: Option<nat>
    var showHistory: bool
    var draftBeforeHistory: string
    var pending: Option<string>

    ghost function State(): ChatState
      reads this
    {
      ChatState(messages, inputMessage, loading, processingQueries, elapsedTime, showProcessQueriesButton,
                historyPanelEnabled, queryHistory, historyIndex, showHistory, draftBeforeHistory, pending)
    }

    ghost predicate Valid()
      reads this
    {
      Inv(State())
    }

    constructor (historyPanelEnabled: bool, showProcessQueriesButton: bool)
      ensures Valid() && State() == Initial(historyPanelEnabled, showProcessQueriesButton)
    {
      messages := [];
      inputMessage := [];
      loading := false;
      processingQueries := false;
      elapsedTime := 0;
      this.showProcessQueriesButton := showProcessQueriesButton;
      this.historyPanelEnabled := historyPanelEnabled;
      queryHistory := [];
      historyIndex := None;
      showHistory := false;
      draftBeforeHistory := [];
      pending := None;
    }

    method OnInit()
      requires Valid()
      modifies this
      ensures Valid() && State() == AfterWelcome(old(State()))
    {
      messages := messages + [ChatMessage(WelcomeText, false, None, None)];
    }

    method SendMessage()
      requires Valid()
      modifies this
      ensures Valid() && State() == AfterSend(old(State()))
    {
      ghost var s0 := State();
      var query := Trim(inputMessage);
      if query == [] || loading {
        return;
      }
      AddQueryToHistory(query);
      ResetHistoryNavigation();
      messages := messages + [ChatMessage(query, true, None, None)];
      inputMessage := [];
      loading := true;
      elapsedTime := 0;
      pending := Some(query);
      assert State() == AfterSend(s0);
    }

    method CompleteSuccess(response: ChatResponse, timeTaken: int)
      requires Valid() && pending.Some?
      modifies this
      ensures Valid() && State() == AfterSuccess(old(State()), response, timeTaken)
    {
      messages := messages + [ChatMessage(pending.value, false, Some(response), Some(timeTaken))];
      loading := false;
      elapsedTime := 0;
      pending := None;
    }

    method CompleteError(error: HttpError, timeTaken: int)
      requires Valid() && pending.Some?
      modifies this
      ensures Valid() && State() == AfterError(old(State()), error, timeTaken)
    {
      messages := messages + [ChatMessage(ErrorPrefix + ErrorDetail(error, "Unknown error"), false, None, Some(timeTaken))];
      loading := false;
      elapsedTime := 0;
      pending := None;
    }

    method OnInputKeyDown(key: Key) returns (prevented: bool)
      requires Valid()
      modifies this
      ensures Valid() && State() == AfterKeyDown(old(State()), key)
      ensures prevented == PreventsDefault(old(State()), key)
    {
      if key == Enter(false) {
        prevented := true;
        if !loading {
          SendMessage();
        }
        return;
      }
      prevented := false;
      if loading || |queryHistory| == 0 {
        return;
      }
      if key == ArrowUp {
        prevented := true;
        RecallOlder();
      } else if key == ArrowDown {
        prevented := true;
        RecallNewer();
      }
    }

    /** The ArrowUp branch of `onInputKeyDown`. */
    method RecallOlder()
      requires Valid() && !loading && |queryHistory| > 0
      modifies this
      ensures Valid() && State() == AfterArrowUp(old(State()))
    {
      ghost var s0 := State();
      OlderStep(s0);
      if historyIndex.None? {
        draftBeforeHistory := inputMessage;
        historyIndex := Some(|queryHistory| - 1);
      } else if historyIndex.value > 0 {
        historyIndex := Some(historyIndex.value - 1);
      }
      if historyIndex.Some? {
        inputMessage := queryHistory[historyIndex.value];
      }
    }

    /** The ArrowDown branch of `onInputKeyDown`. */
    method RecallNewer()
      requires Valid() && !loading && |queryHistory| > 0
      modifies this
      ensures Valid() && State() == AfterArrowDown(old(State()))
    {
      ghost var s0 := State();
      NewerStep(s0);
      if historyIndex.None? {
        return;
      }
      if historyIndex.value < |queryHistory| - 1 {
        historyIndex := Some(historyIndex.value + 1);
        inputMessage := queryHistory[historyIndex.value];
      } else {
        inputMessage := draftBeforeHistory;
        ResetHistoryNavigation();
      }
    }

    /** The `(input)` event: `text` is what the two-way binding writes into `inputMessage`. */
    method HandleInputChange(text: string)
      requires Valid()
      modifies this
      ensures Valid() && State() == AfterInputChange(old(State()), text)
    {
      inputMessage := text;
      if historyIndex.Some? {
        ResetHistoryNavigation();
      }
    }

    method ToggleHistoryPanel()
      requires Valid()
      modifies this
      ensures Valid() && State() == AfterToggle(old(State()))
    {
      if !historyPanelEnabled || |queryHistory| == 0 {
        return;
      }
      showHistory := !showHistory;
    }

    method CloseHistoryPanel()
      requires Valid()
      modifies this
      ensures Valid() && State() == AfterClose(old(State()))
    {
      showHistory := false;
    }

    method LoadHistoryItem(index: int)
      requires Valid()
      modifies this
      ensures Valid() && State() == AfterLoadHistoryItem(old(State()), index)
    {
      if index < 0 || index >= |queryHistory| {
        return;
      }
      inputMessage := queryHistory[index];
      historyIndex := Some(index);
      draftBeforeHistory := [];
    }

    method AddQueryToHistory(query: string)
      modifies this
      ensures State() == old(State()).(queryHistory := AddedToHistory(old(queryHistory), query))
    {
      if query == [] {
        return;
      }
      if |queryHistory| > 0 && queryHistory[|queryHistory| - 1] == query {
        return;
      }
      queryHistory := queryHistory + [query];
    }

    method ResetHistoryNavigation()
      modifies this
      ensures State() == old(State()).(historyIndex := None, draftBeforeHistory := [])
    {
      historyIndex := None;
      draftBeforeHistory := [];
    }

    method ProcessQueries()
      requires Valid()
      modifies this
      ensures Valid() && State() == AfterProcessStart(old(State()))
    {
      if processingQueries {
        return;
      }
      processingQueries := true;
    }

    /** `summary` is the statistics text the callback builds from the response. */
    method CompleteProcessSuccess(summary: string, processingTimeMs: Option<int>, measured: int)
      requires Valid() && processingQueries
      modifies this
      ensures Valid() && State() == AfterProcessSuccess(old(State()), summary, processingTimeMs, measured)
    {
      processingQueries := false;
      messages := messages + [ChatMessage(summary, false, None, Some(ReportedTime(processingTimeMs, measured)))];
    }

    method CompleteProcessError(error: HttpError, measured: int)
      requires Valid() && processingQueries
      modifies this
      ensures Valid() && State() == AfterProcessError(old(State()), error, measured)
    {
      processingQueries := false;
      messages := messages + [ChatMessage(ProcessErrorPrefix + ErrorDetail(error, "Unknown error occurred"), false, None, Some(measured))];
    }
  }

  // ---------------------------------------------------------------------------
  // formatTime
  // ---------------------------------------------------------------------------

  /**
   * `formatTime`: milliseconds below one second as "<ms>ms", whole seconds
   * below a minute as "<s>s", otherwise "<m>m <s>s". Math.floor on a
   * division by a positive constant is Dafny's `/`. Every rendering ends in
   * 's', and it ends in "ms" exactly in the sub-second case.
   */
  function FormatTime(milliseconds: int): (r: string)
    ensures |r| >= 2 && r[|r| - 1] == 's'
    ensures r[|r| - 2] == 'm' <==> milliseconds < 1000
  {
    var seconds := milliseconds / 1000;
    if seconds < 1 then IntToString(milliseconds) + "ms"
    else if seconds < 60 then NatToString(seconds) + "s"
    else NatToString(seconds / 60) + "m " + NatToString(seconds % 60) + "s"
  }

  lemma FormatTimeBelowOneSecond(milliseconds: int)
    requires milliseconds < 1000
    ensures FormatTime(milliseconds) == IntToString(milliseconds) + "ms"
  {
  }

  /** A duration of k whole seconds (1 <= k < 60, any sub-second remainder) prints as "<k>s". */
  lemma FormatTimeSeconds(milliseconds: int, k: nat)
    requires 1 <= k < 60
    requires 1000 * k <= milliseconds < 1000 * (k + 1)
    ensures FormatTime(milliseconds) == NatToString(k) + "s"
  {
    assert milliseconds / 1000 == k;
  }

  /**
   * A duration of m minutes and sec seconds (m >= 1, sec < 60, any
   * sub-second remainder) prints as "<m>m <sec>s".
   */
  lemma FormatTimeMinutes(milliseconds: int, m: nat, sec: nat)
    requires m >= 1 && sec < 60
    requires 1000 * (60 * m + sec) <= milliseconds < 1000 * (60 * m + sec + 1)
    ensures FormatTime(milliseconds) == NatToString(m) + "m " + NatToString(sec) + "s"
  {
    var seconds := milliseconds / 1000;
    assert seconds == 60 * m + sec;
    assert seconds / 60 == m && seconds % 60 == sec;
  }

  // ---------------------------------------------------------------------------
  // Properties of the controller
  // ---------------------------------------------------------------------------

  /**
   * A user exchange: an accepted submission followed by the success
   * callback appends exactly the user message with the trimmed query and a
   * bot message carrying the same query and the response, and ends loading.
   */
  lemma SuccessfulExchange(s: ChatState, response: ChatResponse, timeTaken: int)
    requires Inv(s) && !s.loading && Trim(s.inputMessage) != []
    ensures var s1 := AfterSend(s);
      s1.pending.Some? &&
      var r := AfterSuccess(s1, response, timeTaken);
      var q := Trim(s.inputMessage);
      r.messages == s.messages + [ChatMessage(q, true, None, None), ChatMessage(q, false, Some(response), Some(timeTaken))] &&
      !r.loading && r.inputMessage == [] && r.historyIndex.None? &&
      |r.queryHistory| > 0 && r.queryHistory[|r.queryHistory| - 1] == q
  {
  }

  /**
   * A failed exchange appends the user message and one error message whose
   * text is the fixed prefix followed by the chosen detail.
   */
  lemma FailedExchange(s: ChatState, error: HttpError, timeTaken: int)
    requires Inv(s) && !s.loading && Trim(s.inputMessage) != []
    ensures var s1 := AfterSend(s);
      s1.pending.Some? &&
      var r := AfterError(s1, error, timeTaken);
      r.messages == s.messages + [ChatMessage(Trim(s.inputMessage), true, None, None),
                                  ChatMessage(ErrorPrefix + ErrorDetail(error, "Unknown error"), false, None, Some(timeTaken))] &&
      !r.loading
  {
  }

  /**
   * Submitting the same query again after the first exchange completed
   * leaves the history as the first submission left it.
   */
  lemma RepeatedQueryStoredOnce(s: ChatState, response: ChatResponse, timeTaken: int, retyped: string)
    requires Inv(s) && !s.loading && Trim(s.inputMessage) != []
    requires Trim(retyped) == Trim(s.inputMessage)
    ensures var s1 := AfterSend(s);
      s1.pending.Some? &&
      var s2 := AfterInputChange(AfterSuccess(s1, response, timeTaken), retyped);
      var s3 := AfterSend(s2);
      s3.queryHistory == s1.queryHistory && |s3.messages| == |s2.messages| + 1
  {
  }

  /** One ArrowUp press with history to recall from. */
  lemma OlderStep(s: ChatState)
    requires Inv(s) && !s.loading && |s.queryHistory| > 0
    ensures var h := s.queryHistory;
      var j := if s.historyIndex.None? then |h| - 1
               else if s.historyIndex.value > 0 then s.historyIndex.value - 1
               else 0;
      AfterArrowUp(s)
        == s.(draftBeforeHistory := if s.historyIndex.None? then s.inputMessage else s.draftBeforeHistory,
              historyIndex := Some(j), inputMessage := h[j])
  {
  }

  /** One ArrowDown press with history to walk back through. */
  lemma NewerStep(s: ChatState)
    requires Inv(s) && !s.loading && |s.queryHistory| > 0
    ensures s.historyIndex.None? ==> AfterArrowDown(s) == s
    ensures s.historyIndex.Some? && s.historyIndex.value + 1 < |s.queryHistory| ==>
      AfterArrowDown(s)
        == s.(historyIndex := Some(s.historyIndex.value + 1), inputMessage := s.queryHistory[s.historyIndex.value + 1])
    ensures s.historyIndex.Some? && s.historyIndex.value + 1 == |s.queryHistory| ==>
      AfterArrowDown(s) == s.(inputMessage := s.draftBeforeHistory, historyIndex := None, draftBeforeHistory := [])
  {
  }

  /** `n` presses of ArrowUp. */
  function PressUp(s: ChatState, n: nat): (r: ChatState)
    requires Inv(s)
    ensures Inv(r)
  {
    if n == 0 then s else AfterArrowUp(PressUp(s, n - 1))
  }

  /** `n` presses of ArrowDown. */
  function PressDown(s: ChatState, n: nat): (r: ChatState)
    requires Inv(s)
    ensures Inv(r)
  {
    if n == 0 then s else AfterArrowDown(PressDown(s, n - 1))
  }

  /**
   * Recalling from a draft: after n >= 1 presses of ArrowUp the draft is
   * saved and the input shows the entry n back from the newest, stopping at
   * the oldest; nothing else changes.
   */
  lemma {:induction false} OlderFromDraft(s: ChatState, n: nat)
    requires Inv(s) && !s.loading && |s.queryHistory| > 0 && s.historyIndex.None?
    requires n >= 1
    ensures var h := s.queryHistory;
      var j := if n <= |h| then |h| - n else 0;
      PressUp(s, n) == s.(draftBeforeHistory := s.inputMessage, historyIndex := Some(j), inputMessage := h[j])
  {
    if n > 1 {
      OlderFromDraft(s, n - 1);
      OlderStep(PressUp(s, n - 1));
    } else {
      OlderStep(s);
    }
  }

  /**
   * Walking forward: from recalled entry i, k presses of ArrowDown with
   * i + k still inside the history show entry i + k, keeping the saved draft.
   */
  lemma {:induction false} NewerWalk(s: ChatState, k: nat)
    requires Inv(s) && !s.loading && s.historyIndex.Some?
    requires s.historyIndex.value + k < |s.queryHistory|
    ensures var j := s.historyIndex.value + k;
      PressDown(s, k) == s.(historyIndex := Some(j), inputMessage := s.queryHistory[j])
  {
    if k > 0 {
      NewerWalk(s, k - 1);
    }
  }

  /**
   * Walking past the newest entry: from recalled entry i, |history| - i
   * presses of ArrowDown restore the saved draft and end the recall.
   */
  lemma NewerPastNewestRestoresDraft(s: ChatState)
    requires Inv(s) && !s.loading && s.historyIndex.Some?
    ensures PressDown(s, |s.queryHistory| - s.historyIndex.value)
      == s.(inputMessage := s.draftBeforeHistory, historyIndex := None, draftBeforeHistory := [])
  {
    var k := |s.queryHistory| - s.historyIndex.value - 1;
    NewerWalk(s, k);
    NewerStep(PressDown(s, k));
  }

  /** ArrowUp then ArrowDown from a draft gives back exactly the state before. */
  lemma UpThenDownRestores(s: ChatState)
    requires Inv(s) && !s.loading && |s.queryHistory| > 0 && s.historyIndex.None?
    ensures AfterKeyDown(AfterKeyDown(s, ArrowUp), ArrowDown) == s
  {
  }

  /**
   * The general round trip: any number of ArrowUp presses from a draft,
   * followed by enough ArrowDown presses to walk past the newest entry,
   * gives back exactly the state before, draft included.
   */
  lemma RecallRoundTrip(s: ChatState, n: nat)
    requires Inv(s) && !s.loading && |s.queryHistory| > 0 && s.historyIndex.None?
    requires n >= 1
    ensures var h := s.queryHistory;
      var j := if n <= |h| then |h| - n else 0;
      PressDown(PressUp(s, n), |h| - j) == s
  {
    OlderFromDraft(s, n);
    NewerPastNewestRestoresDraft(PressUp(s, n));
  }
}
