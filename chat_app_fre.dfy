/**
 * The financial-risk expert page: a streaming chat over a per-session
 * conversation history, with no retrieval and no upload.
 */
module ChatAppFRE {
  import opened Common
  import opened Session

  const SelectedModelKey: string := "selected_model"
  const StoreKey: string := "fre_store"
  const MessagesKey: string := "fre_messages"
  const ConfigKey: string := "fre_config"
  const ConfigSessionId: string := "def123"

  /** The page's session keys and their initial values. */
  function Defaults(): map<string, Value>
  {
    map[SelectedModelKey := NoneValue, StoreKey := Store(map[]),
        MessagesKey := Messages([]), ConfigKey := Config(ConfigSessionId)]
  }

  class ChatAppFRE {
    const session: SessionState

    constructor (session: SessionState)
      modifies session
      ensures this.session == session
      ensures session.vars == WithDefaults(old(session.vars), Defaults())
    {
      this.session := session;
      InitializeSessionState(session);
    }

    /** `initialize_session_state`: give each absent page key its initial value. */
    static method InitializeSessionState(session: SessionState)
      modifies session
      ensures session.vars == WithDefaults(old(session.vars), Defaults())
    {
      ghost var d: map<string, Value> := map[SelectedModelKey := NoneValue];
      session.SetDefault(SelectedModelKey, NoneValue);
      session.SetDefault(StoreKey, Store(map[]));
      WithDefaultsStep(old(session.vars), d, StoreKey, Store(map[]));
      d := d[StoreKey := Store(map[])];
      session.SetDefault(MessagesKey, Messages([]));
      WithDefaultsStep(old(session.vars), d, MessagesKey, Messages([]));
      d := d[MessagesKey := Messages([])];
      session.SetDefault(ConfigKey, Config(ConfigSessionId));
      WithDefaultsStep(old(session.vars), d, ConfigKey, Config(ConfigSessionId));
      d := d[ConfigKey := Config(ConfigSessionId)];
      assert d == Defaults();
    }

    /** `clear_chat`: on the button, empty the message list and the history store (then rerun). */
    method ClearChat(pressed: bool)
      modifies session
      ensures pressed ==> session.vars == old(session.vars)[MessagesKey := Messages([])][StoreKey := Store(map[])]
      ensures !pressed ==> session.vars == old(session.vars)
    {
      if pressed {
        session.Assign(MessagesKey, Messages([]));
        session.Assign(StoreKey, Store(map[]));
      }
    }

    /** `get_session_history` over the page's history store. */
    method GetSessionHistory(sessionId: string) returns (h: ChatMessageHistory)
      requires session.HasStore(StoreKey)
      modifies session
      ensures session.HasStore(StoreKey)
      ensures (session.vars[StoreKey].histories, h) == GetOrCreate(old(session.vars[StoreKey].histories), sessionId, h)
      ensures forall k :: k != StoreKey ==>
                (k in session.vars <==> k in old(session.vars)) &&
                (k in session.vars ==> session.vars[k] == old(session.vars[k]))
      ensures sessionId !in old(session.vars[StoreKey].histories) ==> fresh(h) && h.messages == []
    {
      h := session.GetSessionHistory(StoreKey, sessionId);
    }

    /**
     * `handle_user_input`: record the prompt, stream the reply through the
     * chain (which gets or creates the history of the configured session id)
     * and record the reply unless streaming raises.
     */
    method HandleUserInput(prompt: string, stream: Stream) returns (outcome: TurnOutcome)
      requires session.HasMessages(MessagesKey) && session.HasStore(StoreKey)
      requires ConfigKey in session.vars && session.vars[ConfigKey].Config?
      modifies session
      ensures session.HasMessages(MessagesKey) && session.HasStore(StoreKey)
      ensures session.vars[MessagesKey] == Messages(AfterTurn(old(session.vars[MessagesKey].log), prompt,
                                                              if stream.Streamed? then Some(stream.text) else None))
      ensures prompt == "" ==> session.vars == old(session.vars)
      ensures prompt != "" ==>
                GotOrCreated(old(session.vars[StoreKey].histories), session.vars[StoreKey].histories,
                             old(session.vars[ConfigKey].sessionId))
      ensures prompt != "" && old(session.vars[ConfigKey].sessionId) !in old(session.vars[StoreKey].histories) ==>
                fresh(session.vars[StoreKey].histories[old(session.vars[ConfigKey].sessionId)]) &&
                session.vars[StoreKey].histories[old(session.vars[ConfigKey].sessionId)].messages == []
      ensures forall k :: k != MessagesKey && k != StoreKey ==>
                (k in session.vars <==> k in old(session.vars)) && (k in session.vars ==> session.vars[k] == old(session.vars[k]))
      ensures outcome == if prompt == "" then NoPrompt else if stream.StreamRaised? then TurnStopped else Recorded
    {
      outcome := session.StreamedTurn(MessagesKey, StoreKey, session.vars[ConfigKey].sessionId, prompt, stream);
    }
  }
}
