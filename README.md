# RAG chatbot: session state, citations, uploads and the index registry

This project models the logic inside a Streamlit chatbot. The chatbot has three expert pages and one console tool:

- the programming-language page (`rag_chat_app_ce.py`) answers from a retrieval chain and cites its sources;
- the natural-language page (`chat_app_nle.py`) streams replies and can take an uploaded PDF, DOCX or TXT file as context;
- the financial-risk page (`chat_app_fre.py`) streams replies over a conversation history;
- the console tool (`vector_db_management.py`) creates, resyncs and deletes named FAISS indexes;
- the retrieval page's index store (`vector_store.py`) loads or creates the index the page retrieves from.

Modules:

- `Common`: shared values such as documents, messages, a symbolic FAISS index and the exceptions that escape.
- `Strings`: Python's `join`, `split`, `split(c)[-1]` and ASCII `lower`, with their round trips.
- `Session`:
  - `st.session_state` as a class over a key/value map, with initialise-if-absent, assign and append;
  - `get_session_history` as get-or-create on a store of `ChatMessageHistory` objects (a class, so that "the same history" means the same object);
  - the message list after one turn.
- `Citations`: the source-collecting loop of the retrieval page, and the answer with its citation suffix.
- `RagChatAppCE`, `ChatAppNLE`, `ChatAppFRE`: one class per page, over the session state they share.
- `VectorStore`: the page-side index store. The index root directory is a map from index name to index.
- `VectorDbManagement`: the console tool.
  - Standard input is a sequence of lines read from a cursor. Reading past the end raises `EOFError`.
  - The index directory is a `Directory` value: whether it exists, and the indexes in it by name. A name such as `""` or `"."` makes `VECTOR_DB_DIR / name` the directory itself, so deleting or resyncing it removes every index.
  - The context directory is a map from folder name to the PDF documents it loads to, or to nothing when the loader raises.
  - The menu loop and one pass of it are each specified by a pure function (`Menu`, `MenuStep`) that the imperative method is proved against.

Widgets, environment variables and library calls are parameters:

- button presses, text boxes, select boxes and `input()` lines;
- a `buildFails` predicate for chunking, embedding and FAISS;
- an `s3Load` function for the S3 loader;
- a `loadFails` predicate for `FAISS.load_local`;
- a `FileLibrary` of md5, PDF, DOCX and UTF-8 calls.

`st.stop()` ends the modelled operation early, and the operation reports this in its outcome value. `st.rerun()` after a clear button ends the run; the clear methods return nothing, and the next run starts again from the cleared state.

Where the code does something other than its evident intent, the model follows the code:

- The S3 branch of `load_documents` always raises `KeyError`, because the AWS configuration helper reads a key of an empty dictionary.
- An unknown source type raises `UnboundLocalError`.
- `resync_vector_db` deletes the index before rebuilding it, so a failed rebuild loses the index (`ResyncFailureAfterLoadLosesIndex`).
- `reset_index` with no kept selection and no matching pick removes whichever index the select box defaults to.

## Model

| member | source | states |
|---|---|---|
| Strings.Split | rag_app_3/chat_app_nle.py:84 | `name.split(".")` has at least one piece and no piece contains the separator |
| Strings.JoinSplit | rag_app_3/chat_app_nle.py:84 | joining the pieces of a split with the separator gives back the original name |
| Strings.SplitJoin | rag_app_3/chat_app_nle.py:84 | splitting a join of separator-free pieces gives back the pieces |
| Strings.SplitWithoutSeparator | rag_app_3/chat_app_nle.py:84 | a name without '.' splits into itself alone |
| Strings.LastPiece | rag_app_3/chat_app_nle.py:84 | `split(".")[-1]` contains no '.' |
| Strings.LastPieceAfterLastSeparator | rag_app_3/chat_app_nle.py:84 | `split(".")[-1]` is exactly the text after the last '.' |
| Strings.LowerNormalises | rag_app_3/chat_app_nle.py:84 | `lower()` keeps the length, leaves no ASCII capital and is idempotent |
| Citations.Dedup | rag_app_3/rag_chat_app_ce.py:128-131 | the citation list has no source twice and holds exactly the sources of the context |
| Citations.DedupKeepsFirstOccurrenceOrder | rag_app_3/rag_chat_app_ce.py:129-131 | cited sources appear in the order of their first occurrence in the context |
| Citations.CollectSources | rag_app_3/rag_chat_app_ce.py:128-131 | the loop's list is duplicate-free, names every context source and nothing else, in first-seen order |
| Citations.CitedAnswer | rag_app_3/rag_chat_app_ce.py:132 | the answer is a prefix of the recorded text, followed by the source marker and the joined sources; with no sources the text ends in the marker |
| Citations.JoinedItemOccurs | rag_app_3/rag_chat_app_ce.py:132 | every item of a `", ".join` occurs in the joined text |
| Citations.EverySourceIsCited | rag_app_3/rag_chat_app_ce.py:129-132 | the source of every context document occurs in the citation suffix |
| Session.WithDefaultsKeepsPresentKeys | rag_app_3/rag_chat_app_ce.py:30-37 | initialisation adds exactly the absent default keys and keeps every present key's value |
| Session.InitialisationIsIdempotent | rag_app_3/rag_chat_app_ce.py:30-37 | initialising again, as every rerun does, changes nothing |
| Session.WithDefaultsStep | rag_app_3/chat_app_fre.py:24-31 | the sequence of per-key checks equals one initialisation with all defaults |
| Session.GetOrCreate | rag_app_3/rag_chat_app_ce.py:78-81 | a present id yields its history with the store unchanged; an absent id inserts one blank history; other ids are untouched |
| Session.GetOrCreateTwice | rag_app_3/chat_app_fre.py:59-62 | a repeated get with the same id adds nothing and returns the same history |
| Session.AfterTurn | rag_app_3/chat_app_fre.py:79-93 | no prompt leaves the log; otherwise the user message is appended first, then the reply if there is one; earlier messages are kept |
| Session.ChatMessageHistory.constructor | rag_app_3/chat_app_fre.py:61 | a new history is empty |
| Session.SessionState.SetDefault | rag_app_3/chat_app_fre.py:24-25 | a key is set only when absent |
| Session.SessionState.Assign | rag_app_3/chat_app_fre.py:54-55 | only the assigned key changes |
| Session.SessionState.GetSessionHistory | rag_app_3/chat_app_fre.py:58-62 | the store follows get-or-create, other keys are unchanged, a present id changes nothing, and an absent id yields a fresh empty history |
| Session.SessionState.AppendMessage | rag_app_3/chat_app_fre.py:81 | the message list grows by exactly the message |
| Session.SessionState.StreamedTurn | rag_app_3/chat_app_fre.py:78-93 | the log becomes the one-turn log; a failed stream leaves the user message and stops; with a prompt, the chain's history lookup gets or creates the configured session id's history (a new one is fresh and empty); no prompt changes nothing; other keys are unchanged |
| RagChatAppCE.RecordedAnswerCitesContext | rag_app_3/rag_chat_app_ce.py:128-138 | the recorded assistant text is the answer, the marker and each context source once, and names every context source |
| RagChatAppCE.RagChatAppCE.constructor | rag_app_3/rag_chat_app_ce.py:25-27 | the page keys are initialised, then the index store's keys present are reset |
| RagChatAppCE.RagChatAppCE.InitializeSessionState | rag_app_3/rag_chat_app_ce.py:29-37 | the session equals its initialisation with the page defaults |
| RagChatAppCE.RagChatAppCE.ClearChat | rag_app_3/rag_chat_app_ce.py:70-75 | the button empties the message list and the history store, and nothing else |
| RagChatAppCE.RagChatAppCE.GetSessionHistory | rag_app_3/rag_chat_app_ce.py:77-81 | get-or-create on the page's store; other keys are unchanged |
| RagChatAppCE.RagChatAppCE.HandleUserInput | rag_app_3/rag_chat_app_ce.py:119-138 | the user message comes before the assistant message, and the assistant message is the cited answer; a failed invoke or display keeps only the user message; with a prompt, the invoke gets or creates the history of the configured session id; other keys are unchanged |
| ChatAppNLE.Extension | rag_app_3/chat_app_nle.py:84 | the extension contains no '.' and no ASCII capital |
| ChatAppNLE.ExtensionAfterLastDot | rag_app_3/chat_app_nle.py:84 | the extension is the lower-cased text after the last '.' |
| ChatAppNLE.ExtensionWithoutDot | rag_app_3/chat_app_nle.py:84 | a name without '.' gives the whole name lower-cased |
| ChatAppNLE.ConcatAppend | rag_app_3/chat_app_nle.py:87-89 | the content of two page runs is the content of the first followed by the second |
| ChatAppNLE.PageInContent | rag_app_3/chat_app_nle.py:87-89 | each page's text sits in the content right after the text of the pages before it |
| ChatAppNLE.ExtractPdfText | rag_app_3/chat_app_nle.py:86-89 | the loop's content is the concatenation of the page texts in page order |
| ChatAppNLE.Extract | rag_app_3/chat_app_nle.py:85-96 | exactly pdf, docx and txt reach an extractor, and extraction raises exactly when the selected library call does |
| ChatAppNLE.ChatAppNLE.constructor | rag_app_3/chat_app_nle.py:32-33 | the page keys are initialised |
| ChatAppNLE.ChatAppNLE.InitializeSessionState | rag_app_3/chat_app_nle.py:35-49 | the session equals its initialisation with the seven page defaults |
| ChatAppNLE.ChatAppNLE.HandleFileUpload | rag_app_3/chat_app_nle.py:77-100 | no file or an unchanged hash changes nothing; an unsupported type or a failing extractor changes nothing; otherwise content and hash are stored together |
| ChatAppNLE.ChatAppNLE.ClearChat | rag_app_3/chat_app_nle.py:102-109 | the button resets messages, store, uploaded content and uploaded hash |
| ChatAppNLE.ChatAppNLE.GetSessionHistory | rag_app_3/chat_app_nle.py:111-115 | get-or-create on the page's store; other keys are unchanged |
| ChatAppNLE.ChatAppNLE.HandleUserInput | rag_app_3/chat_app_nle.py:131-151 | a failing context invoke escapes before anything is recorded; otherwise one streamed turn is recorded, and a failed stream leaves only the user message; the context invoke and the prompt's stream get or create the configured session id's history; with neither, nothing changes |
| ChatAppFRE.ChatAppFRE.constructor | rag_app_3/chat_app_fre.py:20-21 | the page keys are initialised |
| ChatAppFRE.ChatAppFRE.InitializeSessionState | rag_app_3/chat_app_fre.py:23-31 | the session equals its initialisation with the page defaults |
| ChatAppFRE.ChatAppFRE.ClearChat | rag_app_3/chat_app_fre.py:51-56 | the button empties the message list and the store, and nothing else |
| ChatAppFRE.ChatAppFRE.GetSessionHistory | rag_app_3/chat_app_fre.py:58-62 | get-or-create on the page's store; other keys are unchanged |
| ChatAppFRE.ChatAppFRE.HandleUserInput | rag_app_3/chat_app_fre.py:78-93 | one streamed turn is recorded; a failed stream leaves only the user message; with a prompt, the stream gets or creates the configured session id's history; other keys are unchanged |
| VectorStore.EnvOr | rag_app_3/vector_store.py:42 | a set, non-empty environment variable wins over the text box |
| VectorStore.AfterCredentials | rag_app_3/vector_store.py:42-53 | each credential prompt stores the resolved value, and later prompts run only after non-empty ones; no other key changes |
| VectorStore.IndexName | rag_app_3/vector_store.py:58 | the index name is the bucket name followed by "-index" |
| VectorStore.IndexNameInjective | rag_app_3/vector_store.py:58 | distinct buckets get distinct index names |
| VectorStore.Creation | rag_app_3/vector_store.py:40-68 | an incomplete input stops and a raising loader or build raises, each leaving the root as it was; a normal end adds `<bucket>-index` over the loaded documents with the gradient policy |
| VectorStore.ClearedIfPresent | rag_app_3/vector_store.py:14-21 | the four store keys that are present become None; no key is added and no other key changes |
| VectorStore.VectorStore.constructor | rag_app_3/vector_store.py:11-21 | nothing is loaded and the present store keys are reset |
| VectorStore.VectorStore.CreateIndex | rag_app_3/vector_store.py:40-68 | the session follows the credential prompts, the outcome and root are those of `Creation`, and nothing is loaded |
| VectorStore.VectorStore.GetRetriever | rag_app_3/vector_store.py:70-71 | with an index loaded, similarity search with k = 3 over it; without one, AttributeError |
| VectorStore.VectorStore.ResetIndex | rag_app_3/vector_store.py:73-84 | no indexes changes nothing; otherwise a normal end removes exactly one stored index, the kept or picked one; a kept name with no directory raises |
| VectorStore.VectorStore.LoadOrCreateIndex | rag_app_3/vector_store.py:27-38 | with indexes present, only the selection key changes, to the picked (or some present) index, which is loaded unless `load_local` raises; with none, the session follows the credential prompts and the root follows `Creation`, and a created index is then selected and loaded; every normal return leaves the selection loaded |
| VectorDbManagement.RootNames | vector_db_management.py:98-100 | `""`, `"."` and `"./"` name the index directory itself |
| VectorDbManagement.NonRootNames | vector_db_management.py:98-100 | an ordinary name and the absolute path `"/"` do not |
| VectorDbManagement.Exists | vector_db_management.py:85 | a path exists when it names a stored index, or names the directory and the directory exists |
| VectorDbManagement.Removed | vector_db_management.py:100 | `rmtree` removes one index, or the directory with every index for a name that denotes it, and keeps the directory consistent |
| VectorDbManagement.Saved | vector_db_management.py:79-80 | saving (re)creates the directory, stores the index under an ordinary name and keeps every other index |
| VectorDbManagement.LocalLoad | vector_db_management.py:45-56 | the loop returns the documents of the first folder that exists and is non-empty; every earlier answer was missing or empty; a folder whose loader raises ends the loop with that error; running out of input raises EOFError |
| VectorDbManagement.LoadLocal | vector_db_management.py:45-56 | the prompt loop computes `LocalLoad` |
| VectorDbManagement.Loaded | vector_db_management.py:43-68 | documents come only from the local branch and are non-empty, where the folder loop decides; s3 raises; any other source type raises UnboundLocalError |
| VectorDbManagement.LoadDocuments | vector_db_management.py:43-68 | the function computes `Loaded` |
| VectorDbManagement.Built | vector_db_management.py:70-81 | the index of the documents with the standard-deviation policy is saved under the name; a library failure changes nothing |
| VectorDbManagement.Resynced | vector_db_management.py:83-95 | an absent name reads nothing and changes nothing; a load error changes nothing; on success the path is removed and the index of the newly loaded documents saved; for an ordinary name no other index is touched |
| VectorDbManagement.ResyncFailureAfterLoadLosesIndex | vector_db_management.py:89-94 | delete-then-create: a rebuild failure after a successful load leaves the index gone |
| VectorDbManagement.MenuStep | vector_db_management.py:113-141 | each pass reads at least one line; it exits exactly on choice "4"; an invalid choice changes nothing; the directory stays consistent |
| VectorDbManagement.MenuStepTouchesOnlyNamedIndex | vector_db_management.py:113-134 | when the line after the choice does not denote the directory, one pass changes at most the index it names |
| VectorDbManagement.DeletingRootNameWipesDirectory | vector_db_management.py:132-134 | choice 3 with a name denoting the existing directory removes the directory and every index |
| VectorDbManagement.DeclinedResyncKeepsIndex | vector_db_management.py:117-123 | choice 1 on an existing name with an answer other than "y" changes nothing |
| VectorDbManagement.Menu | vector_db_management.py:105-141 | a normal exit happens right after a "4" choice line |
| VectorDbManagement.ExitNeedsChoiceFour | vector_db_management.py:136-138 | without a "4" in the remaining input, the loop can only end by an exception |
| VectorDbManagement.MenuKeepsDirectoryConsistent | vector_db_management.py:105-141 | a whole session keeps the directory consistent: nothing is stored without the directory, and no index is named like the directory |
| VectorDbManagement.UnnamedIndexesSurvive | vector_db_management.py:105-141 | in a session where no line denotes the directory, an index whose name is never typed survives unchanged |
| VectorDbManagement.VectorDbDirectory.CreateVectorDb | vector_db_management.py:70-81 | the directory becomes `Built` of the old one |
| VectorDbManagement.VectorDbDirectory.DeleteVectorDb | vector_db_management.py:97-103 | an existing path is removed as `Removed` says; a path that does not exist changes nothing |
| VectorDbManagement.VectorDbDirectory.ResyncVectorDb | vector_db_management.py:83-95 | status, cursor and directory are those of `Resynced` |
| VectorDbManagement.VectorDbDirectory.RunMenuStep | vector_db_management.py:113-141 | step, cursor and directory are those of `MenuStep` |
| VectorDbManagement.VectorDbDirectory.RunMenu | vector_db_management.py:105-141 | the loop ends as `Menu` says, with the directory it says |

## Left out

- Page layout, markdown, `display_chat_messages` and `run`: these are rendering only, and `home.py`, `streamlit_app.py` and `prompts.py` are not part of this model.
- `setup_sidebar` of the three pages: provider selection, LLM setup, the Sync/Reset buttons of the retrieval page and the upload toggle of the language page. These are widget wiring over operations that are modelled separately.
- `setup_chain` and everything in LangChain (prompt templates, history-aware retrieval, `RunnableWithMessageHistory`). How a chain reads and extends a `ChatMessageHistory` is a foreign call; the model keeps the histories as objects but never changes their messages.
- Answers and streams are parameters. LLM calls, embeddings, semantic chunking, FAISS and similarity are library internals using floating point. An index is the pair of its documents and its breakpoint policy.
- md5, PyPDF2, docx2txt and UTF-8 decoding are opaque functions. Extracting the text of a single page is not modelled; the pages' texts are given.
- `get_aws_config`: as written it raises `KeyError` on its first line, and the model records only that outcome for the S3 branch.
- Paths in the console tool: a name whose pieces are all empty or `.` denotes the index directory itself. Other names are plain map keys. So absolute names (`VECTOR_DB_DIR / "/x"` leaves the directory), `..` pieces, nested names such as `a/b`, and aliases such as `a/` for `a` are not given path meaning. An index saved into the directory itself under such a name is not listed as a named index.
- MenuStepTouchesOnlyNamedIndex, UnnamedIndexesSurvive: these hold only for input where no name line denotes the directory; `DeletingRootNameWipesDirectory` states what happens otherwise.
- Paths on the retrieval page: index names come from the directory listing, so the root-denoting names do not arise there.
- `ResetIndex`: `reset_index` picks from the directory listing, which has an order. The model says only that some present index is removed when neither the kept selection nor the pick names one.
- `LoadOrCreateIndex`: the selectbox's choice among existing indexes is the `pick` parameter when it is present, and otherwise an unspecified present index.
- `Strings.Lower`: Python's `str.lower` is Unicode-aware; the model lower-cases ASCII letters only.
- Logging, `load_dotenv`, the LLM cache and all `st.info`/`st.warning`/`st.toast` messages: they change no modelled state.
- Both Streamlit's `chat_input` returning `None` and an empty prompt are falsy; the model writes both as the empty string.
- Concurrency between browser sessions: each `SessionState` object is one session.
