/** Values shared by the chat pages, the session state and the index lifecycle. */
module Common {

  datatype Option<+T> = None | Some(value: T)

  datatype Result<+T, +E> = Ok(value: T) | Err(error: E)

  type byte = b: int | 0 <= b < 256

  /** A loaded or retrieved document: its text and its `metadata['source']` entry. */
  datatype Document = Document(pageContent: string, source: string)

  /** The `role` of an entry in a page's message list. */
  datatype Role = User | Assistant

  /** One `{"role": ..., "content": ...}` entry of a page's message list. */
  datatype Message = Message(role: Role, content: string)

  /** The `breakpoint_threshold_type` given to the semantic chunker. */
  datatype Breakpoint = StandardDeviation | Gradient

  /**
   * A persisted FAISS index, kept symbolic: the documents it was built from
   * and the chunking policy used. Embedding, chunking and the index itself are
   * library internals and are not modelled beyond this.
   */
  datatype VectorIndex = FaissIndex(documents: seq<Document>, breakpoint: Breakpoint)

  /** Exceptions that escape the operations of the model. */
  datatype Error =
    | EOFError            // input() on an exhausted standard input
    | KeyError            // dictionary lookup of a missing key
    | AttributeError      // a missing session key or a None object used
    | UnboundLocalError   // a local variable read before assignment
    | FileNotFoundError   // rmtree of a path that does not exist
    | LibraryError        // a loader, embedding or FAISS call raised
}
