/**
 * The natural-language expert page: a streaming chat that can take an
 * uploaded PDF, DOCX or TXT file as extra context. The upload is re-processed
 * only when its content hash changes.
 */
module ChatAppNLE {
  import opened Common
  import opened Session
  import opened Strings

  const SelectedModelKey: string := "selected_model"
  const StoreKey: string := "nle_store"
  const MessagesKey: string := "nle_messages"
  const ConfigKey: string := "nle_config"
  const UseFileUploadKey: string := "use_file_upload"
  const ContentKey: string := "uploaded_file_content"
  const HashKey: string := "uploaded_file_hash"
  const ConfigSessionId: string := "def123"

  /** The page's session keys and their initial values. */
  function Defaults(): map<string, Value>
  {
    map[SelectedModelKey := NoneValue, StoreKey := Store(map[]), MessagesKey := Messages([]),
        ConfigKey := Config(ConfigSessionId), UseFileUploadKey := Flag(false),
        ContentKey := NoneValue, HashKey := NoneValue]
  }

  /** A file handed over by the sidebar uploader. */
  datatype UploadedFile = UploadedFile(name: string, bytes: seq<byte>)

  /**
   * The library calls the upload handler makes: the MD5 hex digest, the text
   * of each PDF page, the text of a DOCX file and UTF-8 decoding; None stands
   * for the call raising.
   */
  datatype FileLibrary = FileLibrary(
    md5Hex: seq<byte> -> string,
    pdfPages: seq<byte> -> Option<seq<string>>,
    docxText: seq<byte> -> Option<string>,
    utf8Decode: seq<byte> -> Option<string>)

  /** How the upload handler ended. */
  datatype UploadOutcome =
    | NoFile              // nothing uploaded
    | AlreadyProcessed    // same hash as the stored one: no work done
    | UnsupportedType     // error shown, nothing stored
    | ExtractorRaised     // a library call raised, nothing stored
    | Processed           // content and hash stored

  /** What extraction yields for a file. */
  datatype Extraction = Extracted(text: string) | Unsupported | ExtractionRaised

  /** The extension that selects an extractor: the text after the last '.', lower-cased. */
  function Extension(name: string): (e: string)
    ensures '.' !in e
    ensures forall i :: 0 <= i < |e| ==> !('A' <= e[i] <= 'Z')
  {
    var piece := LastPiece(name, '.');
    LowerNormalises(piece);
    assert forall i :: 0 <= i < |piece| ==> piece[i] != '.';
    Lower(piece)
  }

  /** With a '.' in the name, the extension is the lower-cased text after the last one. */
  lemma ExtensionAfterLastDot(name: string, k: nat)
    requires k < |name| && name[k] == '.' && '.' !in name[k + 1..]
    ensures Extension(name) == Lower(name[k + 1..])
  {
    LastPieceAfterLastSeparator(name, '.', k);
  }

  /** Without a '.', the extension is the whole name lower-cased. */
  lemma ExtensionWithoutDot(name: string)
    requires '.' !in name
    ensures Extension(name) == Lower(name)
  {
    SplitWithoutSeparator(name, '.');
  }

  /** Page texts in page order, as the page loop accumulates them. */
  function Concat(pages: seq<string>): string
    decreases |pages|
  {
    if pages == [] then "" else Concat(pages[..|pages| - 1]) + pages[|pages| - 1]
  }

  /** Concatenation distributes over appending page lists. */
  lemma {:induction false} ConcatAppend(a: seq<string>, b: seq<string>)
    ensures Concat(a + b) == Concat(a) + Concat(b)
    decreases |b|
  {
    if b != [] {
      var b' := b[..|b| - 1];
      ConcatAppend(a, b');
      assert (a + b)[..|a + b| - 1] == a + b';
    } else {
      assert a + b == a;
    }
  }

  /** Page `i` sits in the content right after the text of the pages before it. */
  lemma PageInContent(pages: seq<string>, i: nat)
    requires i < |pages|
    ensures |Concat(pages[..i + 1])| == |Concat(pages[..i])| + |pages[i]| <= |Concat(pages)|
    ensures Concat(pages)[..|Concat(pages[..i])|] == Concat(pages[..i])
    ensures Concat(pages)[|Concat(pages[..i])|..|Concat(pages[..i + 1])|] == pages[i]
  {
    ConcatAppend(pages[..i + 1], pages[i + 1..]);
    assert pages[..i + 1] + pages[i + 1..] == pages;
    assert pages[..i + 1][..i] == pages[..i];
    ConcatAppend(pages[..i], [pages[i]]);
    assert pages[..i] + [pages[i]] == pages[..i + 1];
    assert Concat([pages[i]]) == pages[i] by {
      assert [pages[i]][..0] == [];
    }
  }

  /** `content += page.extract_text()` over the pages of a PDF. */
  method ExtractPdfText(pages: seq<string>) returns (content: string)
    ensures content == Concat(pages)
  {
    content := "";
    var i := 0;
    while i < |pages|
      invariant 0 <= i <= |pages|
      invariant content == Concat(pages[..i])
    {
      assert pages[..i + 1][..i] == pages[..i];
      content := content + pages[i];
      i := i + 1;
    }
    assert pages[..|pages|] == pages;
  }

  /** The extractor the extension selects, applied to the file's bytes. */
  function Extract(extension: string, bytes: seq<byte>, lib: FileLibrary): (r: Extraction)
    ensures r.Unsupported? <==> extension !in {"pdf", "docx", "txt"}
    ensures r.ExtractionRaised? <==>
              (extension == "pdf" && lib.pdfPages(bytes).None?) ||
              (extension == "docx" && lib.docxText(bytes).None?) ||
              (extension == "txt" && lib.utf8Decode(bytes).None?)
  {
    if extension == "pdf" then
      (match lib.pdfPages(bytes)
       case Some(pages) => Extracted(Concat(pages))
       case None => ExtractionRaised)
    else if extension == "docx" then
      (match lib.docxText(bytes)
       case Some(text) => Extracted(text)
       case None => ExtractionRaised)
    else if extension == "txt" then
      (match lib.utf8Decode(bytes)
       case Some(text) => Extracted(text)
       case None => ExtractionRaised)
    else Unsupported
  }

  /** Whether the stored upload content is truthy: a non-empty text. */
  predicate HasUploadedText(content: Value)
  {
    content.Text? && content.text != ""
  }

  class ChatAppNLE {
    const session: SessionState

    constructor (session: SessionState)
      modifies session
      ensures this.session == session
      ensures session.vars == WithDefaults(old(session.vars), Defaults())
    {
      this.session := session;
      InitializeSessionState(session);
    }

    /** `initialize_session_state`: give each absent page key its initial value. */
    static method InitializeSessionState(session: SessionState)
      modifies session
      ensures session.vars == WithDefaults(old(session.vars), Defaults())
    {
      ghost var d: map<string, Value> := map[];
      assert session.vars == WithDefaults(old(session.vars), d);
      session.SetDefault(SelectedModelKey, NoneValue);
      WithDefaultsStep(old(session.vars), d, SelectedModelKey, NoneValue);
      d := d[SelectedModelKey := NoneValue];
      session.SetDefault(StoreKey, Store(map[]));
      WithDefaultsStep(old(session.vars), d, StoreKey, Store(map[]));
      d := d[StoreKey := Store(map[])];
      session.SetDefault(MessagesKey, Messages([]));
      WithDefaultsStep(old(session.vars), d, MessagesKey, Messages([]));
      d := d[MessagesKey := Messages([])];
      session.SetDefault(ConfigKey, Config(ConfigSessionId));
      WithDefaultsStep(old(session.vars), d, ConfigKey, Config(ConfigSessionId));
      d := d[ConfigKey := Config(ConfigSessionId)];
      session.SetDefault(UseFileUploadKey, Flag(false));
      WithDefaultsStep(old(session.vars), d, UseFileUploadKey, Flag(false));
      d := d[UseFileUploadKey := Flag(false)];
      session.SetDefault(ContentKey, NoneValue);
      WithDefaultsStep(old(session.vars), d, ContentKey, NoneValue);
      d := d[ContentKey := NoneValue];
      session.SetDefault(HashKey, NoneValue);
      WithDefaultsStep(old(session.vars), d, HashKey, NoneValue);
      d := d[HashKey := NoneValue];
      assert d == Defaults() by { assert d.Keys == Defaults().Keys; }
    }

    /**
     * `handle_file_upload`: hash the upload; when the hash differs from the
     * stored one, extract the text by extension and store text and hash.
     */
    method HandleFileUpload(upload: Option<UploadedFile>, lib: FileLibrary) returns (outcome: UploadOutcome)
      requires HashKey in session.vars
      modifies session
      ensures upload.None? ==> outcome == NoFile && session.vars == old(session.vars)
      ensures upload.Some? && old(session.vars[HashKey]) == Text(lib.md5Hex(upload.value.bytes)) ==>
                outcome == AlreadyProcessed && session.vars == old(session.vars)
      ensures upload.Some? && old(session.vars[HashKey]) != Text(lib.md5Hex(upload.value.bytes)) ==>
                match Extract(Extension(upload.value.name), upload.value.bytes, lib)
                case Unsupported => outcome == UnsupportedType && session.vars == old(session.vars)
                case ExtractionRaised => outcome == ExtractorRaised && session.vars == old(session.vars)
                case Extracted(text) =>
                  outcome == Processed &&
                  session.vars == old(session.vars)[ContentKey := Text(text)][HashKey := Text(lib.md5Hex(upload.value.bytes))]
    {
      if upload.None? {
        return NoFile;
      }
      var file := upload.value;
      var fileHash := lib.md5Hex(file.bytes);
      if Text(fileHash) == session.vars[HashKey] {
        return AlreadyProcessed;
      }
      var fileExtension := Extension(file.name);
      var content: string;
      if fileExtension == "pdf" {
        var pages := lib.pdfPages(file.bytes);
        if pages.None? {
          return ExtractorRaised;
        }
        content := ExtractPdfText(pages.value);
      } else if fileExtension == "docx" {
        var text := lib.docxText(file.bytes);
        if text.None? {
          return ExtractorRaised;
        }
        content := text.value;
      } else if fileExtension == "txt" {
        var text := lib.utf8Decode(file.bytes);
        if text.None? {
          return ExtractorRaised;
        }
        content := text.value;
      } else {
        return UnsupportedType;
      }
      session.Assign(ContentKey, Text(content));
      session.Assign(HashKey, Text(fileHash));
      outcome := Processed;
    }

    /** `clear_chat`: on the button, empty messages and store and forget the upload. */
    method ClearChat(pressed: bool)
      modifies session
      ensures pressed ==> session.vars == old(session.vars)[MessagesKey := Messages([])][StoreKey := Store(map[])]
                                            [ContentKey := NoneValue][HashKey := NoneValue]
      ensures !pressed ==> session.vars == old(session.vars)
    {
      if pressed {
        session.Assign(MessagesKey, Messages([]));
        session.Assign(StoreKey, Store(map[]));
        session.Assign(ContentKey, NoneValue);
        session.Assign(HashKey, NoneValue);
      }
    }

    /** `get_session_history` over the page's history store. */
    method GetSessionHistory(sessionId: string) returns (h: ChatMessageHistory)
      requires session.HasStore(StoreKey)
      modifies session
      ensures session.HasStore(StoreKey)
      ensures (session.vars[StoreKey].histories, h) == GetOrCreate(old(session.vars[StoreKey].histories), sessionId, h)
      ensures forall k :: k != StoreKey ==>
                (k in session.vars <==> k in old(session.vars)) &&
                (k in session.vars ==> session.vars[k] == old(session.vars[k]))
      ensures sessionId !in old(session.vars[StoreKey].histories) ==> fresh(h) && h.messages == []
    {
      h := session.GetSessionHistory(StoreKey, sessionId);
    }

    /**
     * `handle_user_input`: first hand a non-empty uploaded text to the chain
     * (unguarded, so a failure escapes before the prompt is read); then record
     * the prompt and, unless streaming raises, the streamed reply. Both chain
     * calls get or create the history of the configured session id.
     */
    method HandleUserInput(prompt: string, stream: Stream, contextInvokeRaises: bool) returns (outcome: TurnOutcome)
      requires session.HasMessages(MessagesKey) && session.HasStore(StoreKey) && ContentKey in session.vars
      requires ConfigKey in session.vars && session.vars[ConfigKey].Config?
      modifies session
      ensures session.HasMessages(MessagesKey) && session.HasStore(StoreKey)
      ensures HasUploadedText(old(session.vars[ContentKey])) && contextInvokeRaises ==>
                outcome == TurnRaised && session.vars[MessagesKey] == old(session.vars[MessagesKey])
      ensures !(HasUploadedText(old(session.vars[ContentKey])) && contextInvokeRaises) ==>
                session.vars[MessagesKey] == Messages(AfterTurn(old(session.vars[MessagesKey].log), prompt,
                                                                if stream.Streamed? then Some(stream.text) else None)) &&
                outcome == if prompt == "" then NoPrompt else if stream.StreamRaised? then TurnStopped else Recorded
      ensures !HasUploadedText(old(session.vars[ContentKey])) && prompt == "" ==> session.vars == old(session.vars)
      ensures HasUploadedText(old(session.vars[ContentKey])) || prompt != "" ==>
                GotOrCreated(old(session.vars[StoreKey].histories), session.vars[StoreKey].histories,
                             old(session.vars[ConfigKey].sessionId))
      ensures (HasUploadedText(old(session.vars[ContentKey])) || prompt != "") &&
              old(session.vars[ConfigKey].sessionId) !in old(session.vars[StoreKey].histories) ==>
                fresh(session.vars[StoreKey].histories[old(session.vars[ConfigKey].sessionId)]) &&
                session.vars[StoreKey].histories[old(session.vars[ConfigKey].sessionId)].messages == []
      ensures forall k :: k != MessagesKey && k != StoreKey ==>
                (k in session.vars <==> k in old(session.vars)) && (k in session.vars ==> session.vars[k] == old(session.vars[k]))
    {
      var sessionId := session.vars[ConfigKey].sessionId;
      if HasUploadedText(session.vars[ContentKey]) {
        var history := session.GetSessionHistory(StoreKey, sessionId);
        if contextInvokeRaises {
          return TurnRaised;
        }
      }
      outcome := session.StreamedTurn(MessagesKey, StoreKey, sessionId, prompt, stream);
    }
  }
}
