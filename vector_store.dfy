/**
 * The retrieval page's index store: a directory of named FAISS indices, the
 * index currently loaded, and the credential and selection keys it keeps in
 * the session. Sidebar widgets and environment variables are parameters; the
 * S3 loader and the FAISS build are given as functions.
 */
module VectorStore {
  import opened Common
  import opened Session

  const RegionKey: string := "aws_region_name"
  const AccessKeyKey: string := "aws_access_key"
  const SecretKeyKey: string := "aws_secret_access_key"
  const SelectedVectorKey: string := "selected_vector"

  const RegionEnv: string := "AWS_REGION_NAME"
  const AccessKeyEnv: string := "AWS_ACCESS_KEY"
  const SecretKeyEnv: string := "AWS_SECRET_ACCESS_KEY"

  /** The session keys the store resets when it is constructed. */
  const StoreKeys: set<string> := {RegionKey, AccessKeyKey, SecretKeyKey, SelectedVectorKey}

  /** The number of chunks the retriever returns. */
  const RetrieverK: nat := 3

  /** What the user typed into the sidebar's text boxes (empty when left blank). */
  datatype SidebarInputs = SidebarInputs(region: string, accessKey: string, secretKey: string, bucket: string)

  /** The arguments of the S3 directory loader. */
  datatype S3Request = S3Request(bucket: string, region: string, accessKey: string, secretKey: string)

  datatype SearchType = Similarity

  /** `as_retriever(search_type=..., search_kwargs={"k": ...})` over a loaded index. */
  datatype Retriever = Retriever(index: VectorIndex, searchType: SearchType, k: nat)

  /** How a store operation ended: normally, by st.stop(), or with an exception. */
  datatype Outcome = Done | Stopped | Raised(error: Error)

  /** `os.getenv(name) or typed`: an unset or empty variable falls back to the text box. */
  function EnvOr(env: map<string, string>, name: string, typed: string): (r: string)
    ensures name in env && env[name] != "" ==> r == env[name]
    ensures name !in env || env[name] == "" ==> r == typed
  {
    if name in env && env[name] != "" then env[name] else typed
  }

  function Region(env: map<string, string>, inputs: SidebarInputs): string
  {
    EnvOr(env, RegionEnv, inputs.region)
  }

  function AccessKey(env: map<string, string>, inputs: SidebarInputs): string
  {
    EnvOr(env, AccessKeyEnv, inputs.accessKey)
  }

  function SecretKey(env: map<string, string>, inputs: SidebarInputs): string
  {
    EnvOr(env, SecretKeyEnv, inputs.secretKey)
  }

  /** Region, access key, secret key and bucket name are all non-empty. */
  predicate InputsComplete(env: map<string, string>, inputs: SidebarInputs)
  {
    Region(env, inputs) != "" && AccessKey(env, inputs) != "" &&
    SecretKey(env, inputs) != "" && inputs.bucket != ""
  }

  /** The S3 request an index creation issues once the inputs are complete. */
  function Request(env: map<string, string>, inputs: SidebarInputs): S3Request
  {
    S3Request(inputs.bucket, Region(env, inputs), AccessKey(env, inputs), SecretKey(env, inputs))
  }

  /**
   * The session after the credential prompts: each credential is stored
   * before it is checked, and the prompts stop at the first empty one.
   */
  function AfterCredentials(vars: map<string, Value>, env: map<string, string>, inputs: SidebarInputs): (r: map<string, Value>)
    ensures RegionKey in r && r[RegionKey] == Text(Region(env, inputs))
    ensures Region(env, inputs) != "" ==> AccessKeyKey in r && r[AccessKeyKey] == Text(AccessKey(env, inputs))
    ensures Region(env, inputs) != "" && AccessKey(env, inputs) != "" ==>
              SecretKeyKey in r && r[SecretKeyKey] == Text(SecretKey(env, inputs))
    ensures r.Keys == vars.Keys + {RegionKey} + (if Region(env, inputs) != "" then {AccessKeyKey} else {}) +
                      (if Region(env, inputs) != "" && AccessKey(env, inputs) != "" then {SecretKeyKey} else {})
    ensures forall k :: k in vars && k != RegionKey && !(k == AccessKeyKey && Region(env, inputs) != "") &&
                        !(k == SecretKeyKey && Region(env, inputs) != "" && AccessKey(env, inputs) != "") ==>
              r[k] == vars[k]
  {
    var withRegion := vars[RegionKey := Text(Region(env, inputs))];
    if Region(env, inputs) == "" then withRegion
    else
      var withAccess := withRegion[AccessKeyKey := Text(AccessKey(env, inputs))];
      if AccessKey(env, inputs) == "" then withAccess
      else withAccess[SecretKeyKey := Text(SecretKey(env, inputs))]
  }

  /** The directory name of the index built from a bucket. */
  function IndexName(bucket: string): (r: string)
    ensures |r| == |bucket| + 6 && r[..|bucket|] == bucket && r[|bucket|..] == "-index"
  {
    bucket + "-index"
  }

  /** Distinct buckets get distinct index directories. */
  lemma IndexNameInjective(b1: string, b2: string)
    ensures IndexName(b1) == IndexName(b2) ==> b1 == b2
  {
    if IndexName(b1) == IndexName(b2) {
      assert b1 == IndexName(b1)[..|b1|];
    }
  }

  /** The session after construction: every store key that is present is reset to None, nothing is added. */
  function ClearedIfPresent(vars: map<string, Value>): (r: map<string, Value>)
    ensures r.Keys == vars.Keys
    ensures forall k :: k in vars && k in StoreKeys ==> r[k] == NoneValue
    ensures forall k :: k in vars && k !in StoreKeys ==> r[k] == vars[k]
  {
    map k | k in vars :: if k in StoreKeys then NoneValue else vars[k]
  }

  /**
   * What `_create_index` does to the index root: nothing when an input is
   * empty (it stops) or a library call raises; otherwise the bucket's
   * documents are saved as `<bucket>-index` with the gradient policy.
   */
  function Creation(root: map<string, VectorIndex>, env: map<string, string>, inputs: SidebarInputs,
                    s3Load: S3Request -> Option<seq<Document>>, buildFails: seq<Document> -> bool)
    : (r: (Outcome, map<string, VectorIndex>))
    ensures !InputsComplete(env, inputs) ==> r == (Stopped, root)
    ensures InputsComplete(env, inputs) && s3Load(Request(env, inputs)).None? ==> r == (Raised(LibraryError), root)
    ensures r.0 != Done ==> r.1 == root && r.0 in {Stopped, Raised(LibraryError)}
    ensures r.0 == Done ==>
              InputsComplete(env, inputs) && s3Load(Request(env, inputs)).Some? &&
              !buildFails(s3Load(Request(env, inputs)).value) &&
              r.1 == root[IndexName(inputs.bucket) := FaissIndex(s3Load(Request(env, inputs)).value, Gradient)]
  {
    if !InputsComplete(env, inputs) then (Stopped, root)
    else
      match s3Load(Request(env, inputs))
      case None => (Raised(LibraryError), root)
      case Some(docs) =>
        if buildFails(docs) then (Raised(LibraryError), root)
        else (Done, root[IndexName(inputs.bucket) := FaissIndex(docs, Gradient)])
  }

  class VectorStore {
    const session: SessionState
    /** The index root directory: index name to persisted index. */
    var indexRoot: map<string, VectorIndex>
    /** `self.vector_store`: the loaded index, if any. */
    var vectorStore: Option<VectorIndex>
    /** Whether chunking, embedding and FAISS building raise for a batch of documents. */
    const buildFails: seq<Document> -> bool
    /** `S3DirectoryLoader(...).load()`, or None when the loader raises. */
    const s3Load: S3Request -> Option<seq<Document>>

    /** Whether `FAISS.load_local` raises for a stored index (for instance one saved with another embedding). */
    const loadFails: VectorIndex -> bool

    constructor (session: SessionState, indexRoot: map<string, VectorIndex>,
                 buildFails: seq<Document> -> bool, s3Load: S3Request -> Option<seq<Document>>,
                 loadFails: VectorIndex -> bool)
      modifies session
      ensures this.session == session && this.indexRoot == indexRoot
      ensures this.buildFails == buildFails && this.s3Load == s3Load && this.loadFails == loadFails
      ensures vectorStore == None
      ensures session.vars == ClearedIfPresent(old(session.vars))
    {
      this.session := session;
      this.indexRoot := indexRoot;
      this.buildFails := buildFails;
      this.s3Load := s3Load;
      this.loadFails := loadFails;
      vectorStore := None;
      new;
      if RegionKey in session.vars { session.Assign(RegionKey, NoneValue); }
      if AccessKeyKey in session.vars { session.Assign(AccessKeyKey, NoneValue); }
      if SecretKeyKey in session.vars { session.Assign(SecretKeyKey, NoneValue); }
      if SelectedVectorKey in session.vars { session.Assign(SelectedVectorKey, NoneValue); }
      assert session.vars == ClearedIfPresent(old(session.vars));
    }

    /**
     * `_create_index`: prompt for region, access key, secret key and bucket,
     * stopping at the first empty one; then load the bucket, build an index
     * with the gradient policy and save it as `<bucket>-index`.
     */
    method CreateIndex(env: map<string, string>, inputs: SidebarInputs) returns (outcome: Outcome)
      modifies this, session
      ensures vectorStore == old(vectorStore)
      ensures session.vars == AfterCredentials(old(session.vars), env, inputs)
      ensures (outcome, indexRoot) == Creation(old(indexRoot), env, inputs, s3Load, buildFails)
    {
      var region := EnvOr(env, RegionEnv, inputs.region);
      session.Assign(RegionKey, Text(region));
      if region == "" {
        return Stopped;
      }
      var accessKey := EnvOr(env, AccessKeyEnv, inputs.accessKey);
      session.Assign(AccessKeyKey, Text(accessKey));
      if accessKey == "" {
        return Stopped;
      }
      var secretKey := EnvOr(env, SecretKeyEnv, inputs.secretKey);
      session.Assign(SecretKeyKey, Text(secretKey));
      if secretKey == "" {
        return Stopped;
      }
      if inputs.bucket == "" {
        return Stopped;
      }
      var indexName := IndexName(inputs.bucket);
      var loaded := s3Load(S3Request(inputs.bucket, region, accessKey, secretKey));
      if loaded.None? {
        return Raised(LibraryError);
      }
      if buildFails(loaded.value) {
        return Raised(LibraryError);
      }
      indexRoot := indexRoot[indexName := FaissIndex(loaded.value, Gradient)];
      outcome := Done;
    }

    /** `get_retriever`: similarity search returning the top three chunks of the loaded index. */
    function GetRetriever(): (r: Result<Retriever, Error>)
      reads this
      ensures r.Ok? <==> vectorStore.Some?
      ensures r.Ok? ==> r.value == Retriever(vectorStore.value, Similarity, RetrieverK)
      ensures r.Err? ==> r.error == AttributeError
    {
      if vectorStore.None? then Err(AttributeError)
      else Ok(Retriever(vectorStore.value, Similarity, RetrieverK))
    }

    /**
     * `reset_index`: delete the directory of the selected index, the one kept
     * in the session or, when none is kept, the one picked in the sidebar.
     */
    method ResetIndex(pick: string) returns (outcome: Outcome)
      modifies this
      ensures vectorStore == old(vectorStore)
      ensures old(indexRoot) == map[] ==> outcome == Done && indexRoot == old(indexRoot)
      ensures outcome.Done? && old(indexRoot) != map[] ==>
                exists name :: name in old(indexRoot) && indexRoot == old(indexRoot) - {name}
      ensures !outcome.Done? ==> indexRoot == old(indexRoot)
      ensures old(indexRoot) != map[] && SelectedVectorKey in session.vars &&
              session.vars[SelectedVectorKey].Text? && session.vars[SelectedVectorKey].text != "" ==>
                var kept := session.vars[SelectedVectorKey].text;
                if kept in old(indexRoot) then outcome == Done && indexRoot == old(indexRoot) - {kept}
                else outcome == Raised(FileNotFoundError)
      ensures old(indexRoot) != map[] && SelectedVectorKey !in session.vars ==> outcome == Raised(AttributeError)
      ensures old(indexRoot) != map[] && SelectedVectorKey in session.vars && pick in old(indexRoot) && pick != "" &&
              !(session.vars[SelectedVectorKey].Text? && session.vars[SelectedVectorKey].text != "") ==>
                outcome == Done && indexRoot == old(indexRoot) - {pick}
    {
      if indexRoot == map[] {
        return Done;
      }
      if SelectedVectorKey !in session.vars {
        return Raised(AttributeError);
      }
      var kept := session.vars[SelectedVectorKey];
      var selected: string;
      if kept.Text? && kept.text != "" {
        selected := kept.text;
      } else if pick in indexRoot {
        selected := pick;
      } else {
        selected :| selected in indexRoot;
      }
      if selected == "" {
        return Stopped;
      }
      if selected !in indexRoot {
        return Raised(FileNotFoundError);
      }
      indexRoot := indexRoot - {selected};
      outcome := Done;
    }

    /** The selection kept in the session names a stored index, and that index is the loaded one. */
    predicate SelectionLoaded()
      reads this, session
    {
      SelectedVectorKey in session.vars && session.vars[SelectedVectorKey].Text? &&
      session.vars[SelectedVectorKey].text in indexRoot &&
      vectorStore == Some(indexRoot[session.vars[SelectedVectorKey].text])
    }

    /**
     * `load_or_create_index`: with indexes stored, keep the picked one as the
     * selection and load it; with none, create one and run again.
     */
    method LoadOrCreateIndex(pick: string, env: map<string, string>, inputs: SidebarInputs) returns (outcome: Outcome)
      modifies this, session
      ensures outcome.Done? ==> SelectionLoaded()
      ensures old(indexRoot) != map[] ==>
                indexRoot == old(indexRoot) &&
                SelectedVectorKey in session.vars && session.vars[SelectedVectorKey].Text? &&
                session.vars[SelectedVectorKey].text in indexRoot &&
                session.vars == old(session.vars)[SelectedVectorKey := session.vars[SelectedVectorKey]] &&
                (pick in old(indexRoot) ==> session.vars[SelectedVectorKey] == Text(pick)) &&
                if loadFails(indexRoot[session.vars[SelectedVectorKey].text])
                then outcome == Raised(LibraryError) && vectorStore == old(vectorStore)
                else outcome == Done && vectorStore == Some(indexRoot[session.vars[SelectedVectorKey].text])
      ensures old(indexRoot) == map[] ==>
                var (created, root) := Creation(map[], env, inputs, s3Load, buildFails);
                indexRoot == root &&
                (created != Done ==>
                   outcome == created && vectorStore == old(vectorStore) &&
                   session.vars == AfterCredentials(old(session.vars), env, inputs)) &&
                (created == Done ==>
                   session.vars == AfterCredentials(old(session.vars), env, inputs)[SelectedVectorKey := Text(IndexName(inputs.bucket))] &&
                   if loadFails(root[IndexName(inputs.bucket)])
                   then outcome == Raised(LibraryError) && vectorStore == old(vectorStore)
                   else outcome == Done && vectorStore == Some(root[IndexName(inputs.bucket)]))
      decreases if indexRoot == map[] then 1 else 0
    {
      if indexRoot != map[] {
        var selected: string;
        if pick in indexRoot {
          selected := pick;
        } else {
          selected :| selected in indexRoot;
        }
        session.Assign(SelectedVectorKey, Text(selected));
        if loadFails(indexRoot[selected]) {
          return Raised(LibraryError);
        }
        vectorStore := Some(indexRoot[selected]);
        return Done;
      }
      outcome := CreateIndex(env, inputs);
      if outcome != Done {
        return;
      }
      assert indexRoot.Keys == {IndexName(inputs.bucket)};
      outcome := LoadOrCreateIndex(pick, env, inputs);
    }
  }
}
