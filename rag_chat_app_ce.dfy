/**
 * The programming-language expert page, which answers from the retrieval
 * chain and cites the sources of the retrieved context.
 */
module RagChatAppCE {
  import opened Common
  import opened Session
  import opened Citations
  import VectorStore

  const SelectedModelKey: string := "selected_model"
  const StoreKey: string := "rag_ce_store"
  const MessagesKey: string := "rag_ce_messages"
  const ConfigKey: string := "rag_ce_config"
  const ConfigSessionId: string := "rag_abc123"

  /** The page's session keys and their initial values. */
  function Defaults(): map<string, Value>
  {
    map[SelectedModelKey := NoneValue, StoreKey := Store(map[]),
        MessagesKey := Messages([]), ConfigKey := Config(ConfigSessionId)]
  }

  /** The retrieval chain's answer and the context documents it retrieved. */
  datatype RagResponse = RagResponse(answer: string, context: seq<Document>)

  /** The outcome of invoking the retrieval chain; it is not guarded, so a failure escapes. */
  datatype Invocation = Answered(response: RagResponse) | InvokeRaised

  /** The assistant message recorded for a response: the answer with its citation suffix. */
  function RecordedAnswer(response: RagResponse): string
  {
    CitedAnswer(response.answer, Dedup(SourcesOf(response.context)))
  }

  /** What the recorded answer says: the answer, the marker, and each context source once in first-seen order. */
  lemma RecordedAnswerCitesContext(response: RagResponse)
    ensures RecordedAnswer(response)[..|response.answer|] == response.answer
    ensures RecordedAnswer(response)[|response.answer|..] ==
              SourceMarker + Strings.Join(SourceSeparator, Dedup(SourcesOf(response.context)))
    ensures response.context == [] ==> RecordedAnswer(response) == response.answer + SourceMarker
    ensures forall d :: d in response.context ==>
              Occurs(d.source, RecordedAnswer(response)[|response.answer| + |SourceMarker|..])
  {
    var sources := Dedup(SourcesOf(response.context));
    forall d | d in response.context
      ensures Occurs(d.source, RecordedAnswer(response)[|response.answer| + |SourceMarker|..])
    {
      EverySourceIsCited(response.answer, response.context, d);
    }
  }

  class RagChatAppCE {
    const session: SessionState
    const vStore: VectorStore.VectorStore

    /** `__init__`: initialise the page's session keys, then create the index store. */
    constructor (session: SessionState, indexRoot: map<string, VectorIndex>,
                 buildFails: seq<Document> -> bool,
                 s3Load: VectorStore.S3Request -> Option<seq<Document>>,
                 loadFails: VectorIndex -> bool)
      modifies session
      ensures this.session == session && vStore.session == session
      ensures vStore.indexRoot == indexRoot && vStore.vectorStore == None
      ensures session.vars == VectorStore.ClearedIfPresent(WithDefaults(old(session.vars), Defaults()))
    {
      this.session := session;
      InitializeSessionState(session);
      vStore := new VectorStore.VectorStore(session, indexRoot, buildFails, s3Load, loadFails);
    }

    /** `initialize_session_state`: give each absent page key its initial value. */
    static method InitializeSessionState(session: SessionState)
      modifies session
      ensures session.vars == WithDefaults(old(session.vars), Defaults())
    {
      session.SetDefault(SelectedModelKey, NoneValue);
      session.SetDefault(StoreKey, Store(map[]));
      WithDefaultsStep(old(session.vars), map[SelectedModelKey := NoneValue], StoreKey, Store(map[]));
      session.SetDefault(MessagesKey, Messages([]));
      WithDefaultsStep(old(session.vars), map[SelectedModelKey := NoneValue, StoreKey := Store(map[])],
                       MessagesKey, Messages([]));
      session.SetDefault(ConfigKey, Config(ConfigSessionId));
      WithDefaultsStep(old(session.vars),
                       map[SelectedModelKey := NoneValue, StoreKey := Store(map[]), MessagesKey := Messages([])],
                       ConfigKey, Config(ConfigSessionId));
    }

    /** `clear_chat`: on the button, empty the message list and the history store. */
    method ClearChat(pressed: bool)
      modifies session
      ensures pressed ==> session.vars == old(session.vars)[MessagesKey := Messages([])][StoreKey := Store(map[])]
      ensures !pressed ==> session.vars == old(session.vars)
    {
      if pressed {
        session.Assign(MessagesKey, Messages([]));
        session.Assign(StoreKey, Store(map[]));
      }
    }

    /** `get_session_history` over the page's history store. */
    method GetSessionHistory(sessionId: string) returns (h: ChatMessageHistory)
      requires session.HasStore(StoreKey)
      modifies session
      ensures session.HasStore(StoreKey)
      ensures (session.vars[StoreKey].histories, h) == GetOrCreate(old(session.vars[StoreKey].histories), sessionId, h)
      ensures forall k :: k != StoreKey ==>
                (k in session.vars <==> k in old(session.vars)) &&
                (k in session.vars ==> session.vars[k] == old(session.vars[k]))
      ensures sessionId !in old(session.vars[StoreKey].histories) ==> fresh(h) && h.messages == []
    {
      h := session.GetSessionHistory(StoreKey, sessionId);
    }

    /**
     * `handle_user_input`: record the prompt, invoke the chain (which gets or
     * creates the history of the configured session id), collect the sources
     * of its context, and record the answer with its citation suffix unless
     * displaying it fails (then st.stop()).
     */
    method HandleUserInput(prompt: string, invocation: Invocation, displayFails: bool) returns (outcome: TurnOutcome)
      requires session.HasMessages(MessagesKey) && session.HasStore(StoreKey)
      requires ConfigKey in session.vars && session.vars[ConfigKey].Config?
      modifies session
      ensures session.HasMessages(MessagesKey) && session.HasStore(StoreKey)
      ensures session.vars[MessagesKey] == Messages(AfterTurn(old(session.vars[MessagesKey].log), prompt,
                if invocation.Answered? && !displayFails then Some(RecordedAnswer(invocation.response)) else None))
      ensures prompt == "" ==> session.vars == old(session.vars)
      ensures prompt != "" ==>
                GotOrCreated(old(session.vars[StoreKey].histories), session.vars[StoreKey].histories,
                             old(session.vars[ConfigKey].sessionId))
      ensures prompt != "" && old(session.vars[ConfigKey].sessionId) !in old(session.vars[StoreKey].histories) ==>
                fresh(session.vars[StoreKey].histories[old(session.vars[ConfigKey].sessionId)]) &&
                session.vars[StoreKey].histories[old(session.vars[ConfigKey].sessionId)].messages == []
      ensures forall k :: k != MessagesKey && k != StoreKey ==>
                (k in session.vars <==> k in old(session.vars)) && (k in session.vars ==> session.vars[k] == old(session.vars[k]))
      ensures outcome == if prompt == "" then NoPrompt
                         else if invocation.InvokeRaised? then TurnRaised
                         else if displayFails then TurnStopped
                         else Recorded
    {
      if prompt == "" {
        return NoPrompt;
      }
      session.AppendMessage(MessagesKey, Message(User, prompt));
      var history := session.GetSessionHistory(StoreKey, session.vars[ConfigKey].sessionId);
      if invocation.InvokeRaised? {
        return TurnRaised;
      }
      var response := invocation.response;
      var contextList := CollectSources(response.context);
      var answer := response.answer + SourceMarker + Strings.Join(SourceSeparator, contextList);
      if displayFails {
        return TurnStopped;
      }
      session.AppendMessage(MessagesKey, Message(Assistant, answer));
      assert old(session.vars[MessagesKey].log) + [Message(User, prompt)] + [Message(Assistant, answer)]
          == old(session.vars[MessagesKey].log) + [Message(User, prompt), Message(Assistant, answer)];
      outcome := Recorded;
    }
  }
}
