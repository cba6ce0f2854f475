/**
 * The per-browser-session key/value store the chat pages keep their state in,
 * and the operations the three chat pages share over it: initialise absent
 * keys, get-or-create a conversation history, reset a key, and record a turn
 * in the message list.
 */
module Session {
  import opened Common

  /** A conversation history; the chat chain reads and extends it through the reference the store hands out. */
  class ChatMessageHistory {
    var messages: seq<Message>

    constructor ()
      ensures messages == []
    {
      messages := [];
    }
  }

  /** The values the pages keep under session keys. */
  datatype Value =
    | NoneValue
    | Flag(flag: bool)
    | Text(text: string)
    | Store(histories: map<string, ChatMessageHistory>)
    | Messages(log: seq<Message>)
    | Config(sessionId: string)

  /** The state an initialisation leaves, for a map of keys and their initial values. */
  function WithDefaults(vars: map<string, Value>, defaults: map<string, Value>): map<string, Value>
  {
    defaults + vars
  }

  /** What an initialisation leaves: every default key present, every key that was present untouched. */
  lemma WithDefaultsKeepsPresentKeys(vars: map<string, Value>, defaults: map<string, Value>)
    ensures WithDefaults(vars, defaults).Keys == vars.Keys + defaults.Keys
    ensures forall k :: k in vars ==> WithDefaults(vars, defaults)[k] == vars[k]
    ensures forall k :: k in defaults && k !in vars ==> WithDefaults(vars, defaults)[k] == defaults[k]
  {
  }

  /** Initialising a second time, as every rerun of a page does, changes nothing. */
  lemma InitialisationIsIdempotent(vars: map<string, Value>, defaults: map<string, Value>)
    ensures WithDefaults(WithDefaults(vars, defaults), defaults) == WithDefaults(vars, defaults)
  {
  }

  /** Initialising one more key extends the defaults by that key. */
  lemma WithDefaultsStep(vars: map<string, Value>, defaults: map<string, Value>, key: string, v: Value)
    requires key !in defaults
    ensures WithDefaults(WithDefaults(vars, defaults), map[key := v]) == WithDefaults(vars, defaults[key := v])
  {
    var lhs := WithDefaults(WithDefaults(vars, defaults), map[key := v]);
    var rhs := WithDefaults(vars, defaults[key := v]);
    assert lhs.Keys == rhs.Keys;
    forall k | k in lhs ensures lhs[k] == rhs[k] {
    }
  }

  /**
   * Get-or-create on a history store: the history stored under `id`, or
   * `blank` stored under `id` when there was none. The second component is
   * the history handed out.
   */
  function GetOrCreate<H>(store: map<string, H>, id: string, blank: H): (result: (map<string, H>, H))
    ensures id in result.0 && result.1 == result.0[id]
    ensures id in store ==> result.0 == store && result.1 == store[id]
    ensures id !in store ==> result.1 == blank && result.0.Keys == store.Keys + {id}
    ensures forall other :: other != id ==>
              (other in result.0 <==> other in store) &&
              (other in store ==> result.0[other] == store[other])
  {
    if id in store then (store, store[id]) else (store[id := blank], blank)
  }

  /** `after` is the store a get-or-create of `id` on `before` leaves, whatever blank history it used. */
  predicate GotOrCreated(before: map<string, ChatMessageHistory>, after: map<string, ChatMessageHistory>, id: string)
  {
    id in after && after == GetOrCreate(before, id, after[id]).0
  }

  /** A second get-or-create with the same id adds nothing and hands out the same history. */
  lemma GetOrCreateTwice<H>(store: map<string, H>, id: string, blank1: H, blank2: H)
    ensures GetOrCreate(GetOrCreate(store, id, blank1).0, id, blank2) == GetOrCreate(store, id, blank1)
  {
  }

  /**
   * The message list after one turn: nothing without a prompt; otherwise the
   * user's message, followed by the assistant's reply unless the turn stopped
   * before recording it (`reply == None`).
   */
  function AfterTurn(log: seq<Message>, prompt: string, reply: Option<string>): (r: seq<Message>)
    ensures prompt == "" ==> r == log
    ensures prompt != "" ==> |r| == |log| + (if reply.Some? then 2 else 1)
    ensures r[..|log|] == log
    ensures prompt != "" ==> r[|log|] == Message(User, prompt)
    ensures prompt != "" && reply.Some? ==> r[|log| + 1] == Message(Assistant, reply.value)
  {
    if prompt == "" then log
    else if reply.None? then log + [Message(User, prompt)]
    else log + [Message(User, prompt), Message(Assistant, reply.value)]
  }

  /** The outcome of streaming the chain's reply to the page. */
  datatype Stream = Streamed(text: string) | StreamRaised

  /** How a page's input handler ended. */
  datatype TurnOutcome =
    | NoPrompt        // nothing was submitted
    | Recorded        // both messages were recorded
    | TurnStopped     // st.stop() after the user message
    | TurnRaised      // an exception escaped after the user message

  /** `st.session_state` of one browser session. */
  class SessionState {
    var vars: map<string, Value>

    constructor (initial: map<string, Value>)
      ensures vars == initial
    {
      vars := initial;
    }

    predicate HasStore(key: string)
      reads this
    {
      key in vars && vars[key].Store?
    }

    predicate HasMessages(key: string)
      reads this
    {
      key in vars && vars[key].Messages?
    }

    /** `if key not in st.session_state: st.session_state.key = v` */
    method SetDefault(key: string, v: Value)
      modifies this
      ensures vars == WithDefaults(old(vars), map[key := v])
    {
      if key !in vars {
        vars := vars[key := v];
      }
    }

    /** `st.session_state.key = v` */
    method Assign(key: string, v: Value)
      modifies this
      ensures vars == old(vars)[key := v]
    {
      vars := vars[key := v];
    }

    /**
     * `get_session_history`: the history stored under `sessionId` in the
     * store kept under `storeKey`, created empty and stored when absent.
     */
    method GetSessionHistory(storeKey: string, sessionId: string) returns (h: ChatMessageHistory)
      requires HasStore(storeKey)
      modifies this
      ensures HasStore(storeKey)
      ensures (vars[storeKey].histories, h) == GetOrCreate(old(vars[storeKey].histories), sessionId, h)
      ensures forall k :: k != storeKey ==> (k in vars <==> k in old(vars)) && (k in vars ==> vars[k] == old(vars[k]))
      ensures sessionId in old(vars[storeKey].histories) ==> vars == old(vars)
      ensures sessionId !in old(vars[storeKey].histories) ==> fresh(h) && h.messages == []
    {
      var store := vars[storeKey].histories;
      if sessionId !in store {
        var blank := new ChatMessageHistory();
        vars := vars[storeKey := Store(store[sessionId := blank])];
      }
      h := vars[storeKey].histories[sessionId];
    }

    /** `st.session_state.key.append(m)` */
    method AppendMessage(key: string, m: Message)
      requires HasMessages(key)
      modifies this
      ensures vars == old(vars)[key := Messages(old(vars[key].log) + [m])]
    {
      vars := vars[key := Messages(vars[key].log + [m])];
    }

    /**
     * The input handler of the two streaming pages: record the prompt, stream
     * the reply through the chain, and record the reply unless streaming
     * raised (then st.stop()). The chain fetches its history with the page's
     * get-or-create under the configured session id before it produces anything.
     */
    method StreamedTurn(key: string, storeKey: string, sessionId: string, prompt: string, stream: Stream)
      returns (outcome: TurnOutcome)
      requires HasMessages(key) && HasStore(storeKey) && key != storeKey
      modifies this
      ensures HasMessages(key) && HasStore(storeKey)
      ensures vars[key] == Messages(AfterTurn(old(vars[key].log), prompt, if stream.Streamed? then Some(stream.text) else None))
      ensures prompt == "" ==> vars == old(vars)
      ensures prompt != "" ==> GotOrCreated(old(vars[storeKey].histories), vars[storeKey].histories, sessionId)
      ensures prompt != "" && sessionId !in old(vars[storeKey].histories) ==>
                fresh(vars[storeKey].histories[sessionId]) && vars[storeKey].histories[sessionId].messages == []
      ensures forall k :: k != key && k != storeKey ==> (k in vars <==> k in old(vars)) && (k in vars ==> vars[k] == old(vars[k]))
      ensures outcome == (if prompt == "" then NoPrompt else if stream.StreamRaised? then TurnStopped else Recorded)
    {
      if prompt == "" {
        return NoPrompt;
      }
      AppendMessage(key, Message(User, prompt));
      var history := GetSessionHistory(storeKey, sessionId);
      if stream.StreamRaised? {
        return TurnStopped;
      }
      AppendMessage(key, Message(Assistant, stream.text));
      assert old(vars[key].log) + [Message(User, prompt)] + [Message(Assistant, stream.text)]
          == old(vars[key].log) + [Message(User, prompt), Message(Assistant, stream.text)];
      outcome := Recorded;
    }
  }
}
