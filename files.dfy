/** The file endpoints of backend/endpoints/files.py: listing, deleting and
    uploading the files of the session's vector store, and turning an
    uploaded image into a `data:` URL (RFC 2397) with a base64 payload.

    Every endpoint catches what its body raises and answers with a 500
    carrying the exception's text, so none of them raises. */
module Files {
  import opened Common
  import opened Remote
  import opened Session
  import Base64

  /** One entry of the `files` list: `{"file_id": ..., "filename": ...}`. */
  datatype FileEntry = FileEntry(fileId: Id, filename: string)

  /** The calls the session initialiser may make. */
  predicate SessionCall(c: Call) {
    c.ListVectorStores? || c.CreateVectorStore? || c.RetrieveAssistant? || c.CreateAssistant? || c.CreateThread?
  }

  // ---------------------------------------------------------------- upload_image

  /** The image type named in the data URL, by the file name's extension,
      ignoring case; `jpeg` when no other applies. */
  function ImageType(filename: string): (t: string)
    ensures t == "png" <==> EndsWith(Lower(filename), ".png")
    ensures t == "gif" <==> !EndsWith(Lower(filename), ".png") && EndsWith(Lower(filename), ".gif")
    ensures t == "webp" <==> !EndsWith(Lower(filename), ".png") && !EndsWith(Lower(filename), ".gif")
                              && EndsWith(Lower(filename), ".webp")
    ensures t == "jpeg" <==> !EndsWith(Lower(filename), ".png") && !EndsWith(Lower(filename), ".gif")
                              && !EndsWith(Lower(filename), ".webp")
  {
    var lower := Lower(filename);
    if EndsWith(lower, ".png") then "png"
    else if EndsWith(lower, ".gif") then "gif"
    else if EndsWith(lower, ".webp") then "webp"
    else "jpeg"
  }

  /** The header of the data URL, up to and without the comma. */
  function DataUrlHeader(filename: string): (h: string)
    ensures ',' !in h
  {
    var t := ImageType(filename);
    assert t == "png" || t == "gif" || t == "webp" || t == "jpeg";
    "data:image/" + t + ";base64"
  }

  /** `upload_image`: the URL the endpoint answers with. The payload after
      the only comma is the base64 text of the bytes. */
  function DataUrl(filename: string, data: seq<byte>): (url: string)
    ensures url == DataUrlHeader(filename) + "," + Base64.Encode(data)
    ensures StartsWith(url, "data:image/" + ImageType(filename) + ";base64,")
  {
    var header := DataUrlHeader(filename);
    var payload := Base64.Encode(data);
    assert (header + "," + payload)[..|"data:image/" + ImageType(filename) + ";base64,"|]
        == "data:image/" + ImageType(filename) + ";base64,";
    header + "," + payload
  }

  /** Splitting the URL on commas gives the header and the payload, and the
      payload decodes to the uploaded bytes. */
  lemma DataUrlParts(filename: string, data: seq<byte>)
    ensures Split(DataUrl(filename, data), ',') == [DataUrlHeader(filename), Base64.Encode(data)]
    ensures Base64.Decode(Split(DataUrl(filename, data), ',')[1]) == Some(data)
  {
    var header := DataUrlHeader(filename);
    var payload := Base64.Encode(data);
    SplitAtSeparator(header, payload, ',');
    SplitNoSeparator(payload, ',');
    SplitNoSeparator(header, ',');
    Base64.DecodeEncode(data);
  }

  // ---------------------------------------------------------------- list_files

  /** The entries kept from the metadata lookups: one per lookup that
      returned the file's metadata, in order; a lookup that raised drops
      its file. */
  function Kept(fileIds: seq<Id>, replies: seq<Reply>): (r: seq<FileEntry>)
    requires |replies| == |fileIds|
    ensures |r| <= |fileIds|
  {
    if fileIds == [] then []
    else
      var tail := Kept(fileIds[1..], replies[1..]);
      match replies[0]
      case Ok(FileObject(name)) => [FileEntry(fileIds[0], name)] + tail
      case _ => tail
  }

  /** Every file whose lookup returned its metadata is listed under its name. */
  lemma {:induction false} KeptComplete(fileIds: seq<Id>, replies: seq<Reply>, k: nat)
    requires |replies| == |fileIds| && k < |fileIds|
    requires replies[k].Ok? && replies[k].value.FileObject?
    ensures FileEntry(fileIds[k], replies[k].value.filename) in Kept(fileIds, replies)
  {
    if k > 0 {
      KeptComplete(fileIds[1..], replies[1..], k - 1);
    }
  }

  /** Every listed entry is a file of the store whose lookup returned that name. */
  lemma {:induction false} KeptSound(fileIds: seq<Id>, replies: seq<Reply>, e: FileEntry)
    requires |replies| == |fileIds|
    requires e in Kept(fileIds, replies)
    ensures exists k :: 0 <= k < |fileIds| && fileIds[k] == e.fileId && replies[k] == Ok(FileObject(e.filename))
  {
    var tail := Kept(fileIds[1..], replies[1..]);
    if replies[0] == Ok(FileObject(e.filename)) && fileIds[0] == e.fileId {
    } else {
      assert e in tail;
      KeptSound(fileIds[1..], replies[1..], e);
      var k :| 0 <= k < |fileIds| - 1 && fileIds[1..][k] == e.fileId && replies[1..][k] == Ok(FileObject(e.filename));
      assert fileIds[k + 1] == e.fileId && replies[k + 1] == Ok(FileObject(e.filename));
    }
  }

  /** When every lookup succeeds, every file is listed, in the store's order. */
  lemma {:induction false} KeptAll(fileIds: seq<Id>, replies: seq<Reply>)
    requires |replies| == |fileIds|
    requires forall k :: 0 <= k < |replies| ==> replies[k].Ok? && replies[k].value.FileObject?
    ensures var r := Kept(fileIds, replies);
      |r| == |fileIds| && forall k :: 0 <= k < |r| ==> r[k] == FileEntry(fileIds[k], replies[k].value.filename)
  {
    if fileIds != [] {
      KeptAll(fileIds[1..], replies[1..]);
    }
  }

  /** The entry one lookup contributes. */
  function Entry(fileId: Id, name: Outcome<string>): seq<FileEntry>
    requires !name.Hung?
  {
    if name.Returned? then [FileEntry(fileId, name.value)] else []
  }

  /** The metadata lookups of `list_files`: one `files.retrieve` per file of
      the store, in order; a failed lookup is logged and skipped, so the
      loop never raises. When all lookups are answered, the result is the
      entries kept from their replies. */
  function Lookups(fileIds: seq<Id>, script: Script): (r: Exchange<seq<FileEntry>>)
    ensures !r.outcome.Threw?
    ensures fileIds == [] ==> r == Exchange(Returned([]), [], script)
  {
    if fileIds == [] then Exchange(Returned([]), [], script)
    else
      var name := AsFilename(NextReply(script));
      if name.Hung? then Exchange(Hung, [RetrieveFile(fileIds[0])], AfterCall(script))
      else Gathered(Entry(fileIds[0], name), [RetrieveFile(fileIds[0])], Lookups(fileIds[1..], AfterCall(script)))
  }

  /** The lookups are made one per file, in order; when all are answered,
      one reply per file was used and the result is the entries kept from
      those replies. */
  lemma {:induction false} LookupsResult(fileIds: seq<Id>, script: Script)
    ensures var r := Lookups(fileIds, script);
      |r.calls| <= |fileIds|
      && (forall k :: 0 <= k < |r.calls| ==> r.calls[k] == RetrieveFile(fileIds[k]))
      && (r.outcome.Returned? ==>
            |r.calls| == |fileIds| <= |script| && r.rest == script[|fileIds|..]
            && r.outcome.value == Kept(fileIds, script[..|fileIds|]))
  {
    if fileIds != [] {
      var name := AsFilename(NextReply(script));
      if !name.Hung? {
        var tail := Lookups(fileIds[1..], AfterCall(script));
        LookupsResult(fileIds[1..], AfterCall(script));
        var r := Lookups(fileIds, script);
        assert r.calls == [RetrieveFile(fileIds[0])] + tail.calls;
        if r.outcome.Returned? {
          assert script[1..][..|fileIds| - 1] == script[..|fileIds|][1..];
          assert script[1..][|fileIds| - 1..] == script[|fileIds|..];
        }
      }
    }
  }

  /** One pass of the lookup loop: an answered lookup is followed by the
      lookups of the remaining files. */
  lemma LookupsStep(fileIds: seq<Id>, i: nat, script: Script)
    requires i < |fileIds| && !AsFilename(NextReply(script)).Hung?
    ensures Lookups(fileIds[i..], script)
         == Gathered(Entry(fileIds[i], AsFilename(NextReply(script))), [RetrieveFile(fileIds[i])], Lookups(fileIds[i + 1..], AfterCall(script)))
  {
    assert fileIds[i..][1..] == fileIds[i + 1..];
  }

  /** Every listed entry's file was looked up. */
  lemma LookupsLookUpListed(fileIds: seq<Id>, script: Script)
    ensures var r := Lookups(fileIds, script);
      r.outcome.Returned? ==> forall e :: e in r.outcome.value ==> RetrieveFile(e.fileId) in r.calls
  {
    var r := Lookups(fileIds, script);
    LookupsResult(fileIds, script);
    if r.outcome.Returned? {
      forall e | e in r.outcome.value
        ensures RetrieveFile(e.fileId) in r.calls
      {
        KeptSound(fileIds, script[..|fileIds|], e);
        var k :| 0 <= k < |fileIds| && fileIds[k] == e.fileId && script[..|fileIds|][k] == Ok(FileObject(e.filename));
        assert r.calls[k] == RetrieveFile(e.fileId);
      }
    }
  }

  /** The `for file in vector_store_files.data` loop of `list_files`. */
  method LookUpFiles(fileIds: seq<Id>, script: Script) returns (e: Exchange<seq<FileEntry>>)
    ensures e == Lookups(fileIds, script)
  {
    var entries: seq<FileEntry> := [];
    var calls: seq<Call> := [];
    var rest := script;
    assert fileIds[0..] == fileIds;
    GatheredNothing(Lookups(fileIds, script));
    for i := 0 to |fileIds|
      invariant Lookups(fileIds, script) == Gathered(entries, calls, Lookups(fileIds[i..], rest))
    {
      var name := AsFilename(NextReply(rest));
      if name.Hung? {
        assert fileIds[i..][0] == fileIds[i];
        return Exchange(Hung, calls + [RetrieveFile(fileIds[i])], AfterCall(rest));
      }
      LookupsStep(fileIds, i, rest);
      GatheredTwice(entries, calls, Entry(fileIds[i], name), [RetrieveFile(fileIds[i])], Lookups(fileIds[i + 1..], AfterCall(rest)));
      entries, calls, rest := entries + Entry(fileIds[i], name), calls + [RetrieveFile(fileIds[i])], AfterCall(rest);
    }
    assert fileIds[|fileIds|..] == [];
    assert entries + [] == entries && calls + [] == calls;
    e := Exchange(Returned(entries), calls, rest);
  }

  /** `GET /files`: initialises the session only when it has no vector
      store, lists that store's files, and answers with the entries whose
      metadata could be looked up. An exception of the initialiser or of the
      listing becomes a 500. */
  function FileListing(ids: Ids, configured: Option<Id>, instructions: string, script: Script): (r: Handled<Response<seq<FileEntry>>>)
    ensures !r.outcome.Threw?
    ensures forall c :: c in r.calls && SessionCall(c) ==> !IsSet(ids.vectorStore)
    ensures IsSet(ids.vectorStore) ==> r.ids == ids && r.calls != [] && r.calls[0] == ListVectorStoreFiles(ids.vectorStore)
    ensures IsSet(ids.vectorStore) && script != [] && script[0].Err?
         ==> r.outcome == Returned(ServerError(script[0].error)) && r.calls == [ListVectorStoreFiles(ids.vectorStore)]
    ensures r.outcome.Returned? && r.outcome.value.Success? ==>
      ListVectorStoreFiles(r.ids.vectorStore) in r.calls
      && forall e :: e in r.outcome.value.body ==> RetrieveFile(e.fileId) in r.calls
  {
    var init := if IsSet(ids.vectorStore) then Step(ids, [], script, Returned(()))
                else Initialization(ids, configured, instructions, script);
    match init.outcome
    case Hung => Handled(init.ids, Hung, init.calls, init.rest)
    case Threw(err) => Handled(init.ids, Returned(ServerError(err)), init.calls, init.rest)
    case Returned(_) =>
      var listed := [ListVectorStoreFiles(init.ids.vectorStore)];
      var calls := init.calls + listed;
      match AsIds(NextReply(init.rest))
      case Hung => Handled(init.ids, Hung, calls, AfterCall(init.rest))
      case Threw(err) => Handled(init.ids, Returned(ServerError(err)), calls, AfterCall(init.rest))
      case Returned(fileIds) =>
        var looked := Lookups(fileIds, AfterCall(init.rest));
        var outcome := if looked.outcome.Hung? then Hung else Returned(Success(looked.outcome.value));
        LookupsLookUpListed(fileIds, AfterCall(init.rest));
        LookupsResult(fileIds, AfterCall(init.rest));
        assert forall c :: c in looked.calls ==> c.RetrieveFile?;
        Handled(init.ids, outcome, calls + looked.calls, looked.rest)
  }

  /** A successful listing answers with exactly the entries kept from the
      lookups of the listed files: the replies right after the listing
      reply, one per file, in the order listed. With a vector store already
      set, the listing reply is the first one. */
  lemma FileListingKept(ids: Ids, configured: Option<Id>, instructions: string, script: Script)
    ensures var r := FileListing(ids, configured, instructions, script);
      r.outcome.Returned? && r.outcome.value.Success? ==>
        exists n ::
          && 0 <= n < |script| && script[n].Ok? && script[n].value.Listed?
          && n + 1 + |script[n].value.ids| <= |script|
          && r.outcome.value.body == Kept(script[n].value.ids, script[n + 1..n + 1 + |script[n].value.ids|])
    ensures var r := FileListing(ids, configured, instructions, script);
      IsSet(ids.vectorStore) && script != [] && script[0].Ok? && script[0].value.Listed? && r.outcome.Returned? ==>
        |script[0].value.ids| < |script|
        && r.outcome.value == Success(Kept(script[0].value.ids, script[1..1 + |script[0].value.ids|]))
  {
    var r := FileListing(ids, configured, instructions, script);
    var init := ListingInit(ids, configured, instructions, script);
    ListingInitSuffix(ids, configured, instructions, script);
    ListingSuccess(ids, configured, instructions, script);
    if r.outcome.Returned? && r.outcome.value.Success? {
      KeptAfterListing(script, init.rest, r.outcome.value.body);
    }
  }

  /** Lookups answered from the replies after a listing reply keep the
      entries of those replies. */
  lemma KeptAfterListing(script: Script, rest: Script, body: seq<FileEntry>)
    requires Suffix(rest, script) && rest != [] && rest[0].Ok? && rest[0].value.Listed?
    requires Lookups(rest[0].value.ids, rest[1..]).outcome == Returned(body)
    ensures exists n ::
              && 0 <= n < |script| && script[n].Ok? && script[n].value.Listed?
              && n + 1 + |script[n].value.ids| <= |script|
              && body == Kept(script[n].value.ids, script[n + 1..n + 1 + |script[n].value.ids|])
    ensures rest == script ==>
      |script[0].value.ids| < |script| && body == Kept(script[0].value.ids, script[1..1 + |script[0].value.ids|])
  {
    var n := |script| - |rest|;
    var fileIds := rest[0].value.ids;
    assert script[n] == rest[0];
    LookupsResult(fileIds, rest[1..]);
    assert rest[1..][..|fileIds|] == script[n + 1..n + 1 + |fileIds|];
  }

  /** The session step `list_files` starts with. */
  function ListingInit(ids: Ids, configured: Option<Id>, instructions: string, script: Script): Step {
    if IsSet(ids.vectorStore) then Step(ids, [], script, Returned(()))
    else Initialization(ids, configured, instructions, script)
  }

  lemma ListingInitSuffix(ids: Ids, configured: Option<Id>, instructions: string, script: Script)
    ensures Suffix(ListingInit(ids, configured, instructions, script).rest, script)
    ensures IsSet(ids.vectorStore) ==> ListingInit(ids, configured, instructions, script).rest == script
  {
    if !IsSet(ids.vectorStore) {
      InitializationSuffix(ids, configured, instructions, script);
    }
  }

  lemma ListingSuccess(ids: Ids, configured: Option<Id>, instructions: string, script: Script)
    ensures var r := FileListing(ids, configured, instructions, script);
      var init := ListingInit(ids, configured, instructions, script);
      r.outcome.Returned? && r.outcome.value.Success? ==>
        init.outcome.Returned? && init.rest != [] && init.rest[0].Ok? && init.rest[0].value.Listed?
        && Lookups(init.rest[0].value.ids, init.rest[1..]).outcome == Returned(r.outcome.value.body)
  {
  }

  // ---------------------------------------------------------------- upload

  /** `POST /upload`: initialises the session only when it has no vector
      store, then uploads the file to that store. */
  function FileUpload(ids: Ids, configured: Option<Id>, instructions: string, filename: string, data: seq<byte>, script: Script): (r: Handled<Response<string>>)
    ensures !r.outcome.Threw?
    ensures forall c :: c in r.calls && SessionCall(c) ==> !IsSet(ids.vectorStore)
    ensures IsSet(ids.vectorStore) ==> r.ids == ids && r.calls == [UploadToVectorStore(ids.vectorStore, filename, data)]
    ensures r.outcome.Returned? && r.outcome.value.Success? ==>
      r.calls != [] && r.calls[|r.calls| - 1] == UploadToVectorStore(r.ids.vectorStore, filename, data)
      && r.outcome.value.body == "File uploaded successfully"
  {
    var init := if IsSet(ids.vectorStore) then Step(ids, [], script, Returned(()))
                else Initialization(ids, configured, instructions, script);
    match init.outcome
    case Hung => Handled(init.ids, Hung, init.calls, init.rest)
    case Threw(err) => Handled(init.ids, Returned(ServerError(err)), init.calls, init.rest)
    case Returned(_) =>
      var calls := init.calls + [UploadToVectorStore(init.ids.vectorStore, filename, data)];
      var outcome :=
        match AsDone(NextReply(init.rest))
        case Hung => Hung
        case Threw(err) => Returned(ServerError(err))
        case Returned(_) => Returned(Success("File uploaded successfully"));
      Handled(init.ids, outcome, calls, AfterCall(init.rest))
  }

  // ---------------------------------------------------------------- delete_file

  const DeletionFailed := "400: Failed to delete file"

  /** `DELETE /files/{file_id}`: removes the file from the vector store and
      then from the file store, and succeeds only when both report it
      deleted. The 400 raised otherwise is caught by the endpoint's own
      handler and answered as a 500. */
  function FileDeletion(vectorStore: Option<Id>, fileId: Id, script: Script): (r: Exchange<Response<string>>)
    ensures !r.outcome.Threw?
    ensures r.calls == [DeleteVectorStoreFile(vectorStore, fileId)]
         || r.calls == [DeleteVectorStoreFile(vectorStore, fileId), DeleteFile(fileId)]
    ensures r.outcome == Returned(Success("File deleted successfully"))
        <==> |script| >= 2 && script[0] == Ok(Deletion(true)) && script[1] == Ok(Deletion(true))
    ensures |script| >= 2 && script[0].Ok? && script[0].value.Deletion? && script[1].Ok? && script[1].value.Deletion?
         && !(script[0].value.deleted && script[1].value.deleted)
         ==> r.outcome == Returned(Failure(500, DeletionFailed)) && |r.calls| == 2
    ensures script != [] && script[0].Err? ==> r.outcome == Returned(ServerError(script[0].error)) && |r.calls| == 1
  {
    var first := [DeleteVectorStoreFile(vectorStore, fileId)];
    match AsDeleted(NextReply(script))
    case Hung => Exchange(Hung, first, AfterCall(script))
    case Threw(err) => Exchange(Returned(ServerError(err)), first, AfterCall(script))
    case Returned(fromStore) =>
      var rest := AfterCall(script);
      var calls := first + [DeleteFile(fileId)];
      match AsDeleted(NextReply(rest))
      case Hung => Exchange(Hung, calls, AfterCall(rest))
      case Threw(err) => Exchange(Returned(ServerError(err)), calls, AfterCall(rest))
      case Returned(fromFiles) =>
        var answer := if fromStore && fromFiles then Success("File deleted successfully")
                      else Failure(500, DeletionFailed);
        Exchange(Returned(answer), calls, AfterCall(rest))
  }

  // ---------------------------------------------------------------- delete_all_files

  /** The two stores files are deleted from. */
  datatype Store = VectorStore(id: Option<Id>) | FileStore

  function DeletionCall(store: Store, fileId: Id): Call {
    match store
    case VectorStore(id) => DeleteVectorStoreFile(id, fileId)
    case FileStore => DeleteFile(fileId)
  }

  function DeletionCalls(store: Store, fileIds: seq<Id>): (r: seq<Call>)
    ensures |r| == |fileIds|
    ensures forall k :: 0 <= k < |r| ==> r[k] == DeletionCall(store, fileIds[k])
  {
    if fileIds == [] then [] else [DeletionCall(store, fileIds[0])] + DeletionCalls(store, fileIds[1..])
  }

  /** Deleting every listed file of a store, one call each, in order; the
      first deletion that raises ends it. What a deletion reports is not
      looked at. */
  function DeleteEach(store: Store, fileIds: seq<Id>, script: Script): (r: Exchange<()>)
    ensures |r.rest| <= |script|
    ensures fileIds == [] ==> r == Exchange(Returned(()), [], script)
  {
    if fileIds == [] then Exchange(Returned(()), [], script)
    else
      var head := [DeletionCall(store, fileIds[0])];
      match AsDeleted(NextReply(script))
      case Hung => Exchange(Hung, head, AfterCall(script))
      case Threw(err) => Exchange(Threw(err), head, AfterCall(script))
      case Returned(_) => After(head, DeleteEach(store, fileIds[1..], AfterCall(script)))
  }

  /** The deletions are made one per file, in the listing's order, and stop
      at the first that raises. */
  lemma {:induction false} DeleteEachCalls(store: Store, fileIds: seq<Id>, script: Script)
    ensures var r := DeleteEach(store, fileIds, script);
      |r.calls| <= |fileIds| && r.calls == DeletionCalls(store, fileIds[..|r.calls|])
  {
    var r := DeleteEach(store, fileIds, script);
    if fileIds == [] {
      assert fileIds[..0] == [];
    } else {
      var head := [DeletionCall(store, fileIds[0])];
      var n := |r.calls|;
      if AsDeleted(NextReply(script)).Returned? {
        var tail := DeleteEach(store, fileIds[1..], AfterCall(script));
        DeleteEachCalls(store, fileIds[1..], AfterCall(script));
        assert r.calls == head + tail.calls;
        assert fileIds[..n][1..] == fileIds[1..][..|tail.calls|];
      } else {
        assert r.calls == head;
        assert fileIds[..1][1..] == [];
      }
      assert DeletionCalls(store, fileIds[..n]) == [DeletionCall(store, fileIds[0])] + DeletionCalls(store, fileIds[..n][1..]);
    }
  }

  /** When no deletion raises, every file was deleted and one reply per
      file was used. */
  lemma {:induction false} DeleteEachReturned(store: Store, fileIds: seq<Id>, script: Script)
    ensures var r := DeleteEach(store, fileIds, script);
      r.outcome.Returned? ==> |fileIds| <= |script| && r.rest == script[|fileIds|..] && |r.calls| == |fileIds|
  {
    if fileIds != [] && AsDeleted(NextReply(script)).Returned? {
      DeleteEachReturned(store, fileIds[1..], AfterCall(script));
      if DeleteEach(store, fileIds[1..], AfterCall(script)).outcome.Returned? {
        assert script[1..][|fileIds| - 1..] == script[|fileIds|..];
      }
    }
  }

  /** A deletion raises only on an error reply: when every reply the
      deletions read is a deletion status, and there are enough of them, all
      the files are deleted. */
  lemma {:induction false} DeleteEachCompletes(store: Store, fileIds: seq<Id>, script: Script)
    requires |fileIds| <= |script|
    requires forall k :: 0 <= k < |fileIds| ==> script[k].Ok? && script[k].value.Deletion?
    ensures DeleteEach(store, fileIds, script).outcome.Returned?
  {
    if fileIds != [] {
      assert script[0].Ok? && script[0].value.Deletion?;
      assert forall k :: 0 <= k < |fileIds| - 1 ==> script[1..][k] == script[k + 1];
      DeleteEachCompletes(store, fileIds[1..], AfterCall(script));
    }
  }

  /** One pass of a deletion loop: a deletion answered without an exception
      is followed by the deletions of the remaining files. */
  lemma DeleteEachStep(store: Store, fileIds: seq<Id>, i: nat, script: Script)
    requires i < |fileIds| && AsDeleted(NextReply(script)).Returned?
    ensures DeleteEach(store, fileIds[i..], script)
         == After([DeletionCall(store, fileIds[i])], DeleteEach(store, fileIds[i + 1..], AfterCall(script)))
  {
    assert fileIds[i..][1..] == fileIds[i + 1..];
  }

  /** `DELETE /files`: lists the vector store's files and deletes each from
      the store, then lists the file store and deletes each file. */
  function DeleteAll(vectorStore: Option<Id>, script: Script): (r: Exchange<Response<string>>)
    ensures !r.outcome.Threw?
    ensures r.calls != [] && r.calls[0] == ListVectorStoreFiles(vectorStore)
    ensures r.outcome.Returned? && r.outcome.value.Success? ==>
      script != [] && script[0].Ok? && script[0].value.Listed?
      && var inStore := script[0].value.ids;
         |script| > |inStore| + 1 && script[|inStore| + 1].Ok? && script[|inStore| + 1].value.Listed?
         && r.calls == [ListVectorStoreFiles(vectorStore)] + DeletionCalls(VectorStore(vectorStore), inStore)
                      + [ListFiles] + DeletionCalls(FileStore, script[|inStore| + 1].value.ids)
  {
    var listing := [ListVectorStoreFiles(vectorStore)];
    match AsIds(NextReply(script))
    case Hung => Exchange(Hung, listing, AfterCall(script))
    case Threw(err) => Exchange(Returned(ServerError(err)), listing, AfterCall(script))
    case Returned(inStore) =>
      var first := DeleteEach(VectorStore(vectorStore), inStore, AfterCall(script));
      var calls := listing + first.calls;
      match first.outcome
      case Hung => Exchange(Hung, calls, first.rest)
      case Threw(err) => Exchange(Returned(ServerError(err)), calls, first.rest)
      case Returned(_) =>
        var calls' := calls + [ListFiles];
        match AsIds(NextReply(first.rest))
        case Hung => Exchange(Hung, calls', AfterCall(first.rest))
        case Threw(err) => Exchange(Returned(ServerError(err)), calls', AfterCall(first.rest))
        case Returned(inFiles) =>
          var second := DeleteEach(FileStore, inFiles, AfterCall(first.rest));
          var outcome :=
            match second.outcome
            case Hung => Hung
            case Threw(err) => Returned(ServerError(err))
            case Returned(_) => Returned(Success("All files deleted successfully"));
          DeleteEachCalls(VectorStore(vectorStore), inStore, AfterCall(script));
          DeleteEachReturned(VectorStore(vectorStore), inStore, AfterCall(script));
          DeleteEachCalls(FileStore, inFiles, AfterCall(first.rest));
          DeleteEachReturned(FileStore, inFiles, AfterCall(first.rest));
          assert second.outcome.Returned? ==> inFiles[..|second.calls|] == inFiles;
          assert inStore[..|first.calls|] == inStore;
          assert script[1..][|inStore|..] == script[|inStore| + 1..];
          Exchange(outcome, calls' + second.calls, second.rest)
  }

  /** A `for file in ...` loop of `delete_all_files`. */
  method DeleteEvery(store: Store, fileIds: seq<Id>, script: Script) returns (e: Exchange<()>)
    ensures e == DeleteEach(store, fileIds, script)
  {
    var calls: seq<Call> := [];
    var rest := script;
    assert fileIds[0..] == fileIds;
    for i := 0 to |fileIds|
      invariant DeleteEach(store, fileIds, script) == After(calls, DeleteEach(store, fileIds[i..], rest))
    {
      var head := [DeletionCall(store, fileIds[i])];
      match AsDeleted(NextReply(rest)) {
        case Hung =>
          assert fileIds[i..][0] == fileIds[i];
          return Exchange(Hung, calls + head, AfterCall(rest));
        case Threw(err) =>
          assert fileIds[i..][0] == fileIds[i];
          return Exchange(Threw(err), calls + head, AfterCall(rest));
        case Returned(_) =>
      }
      DeleteEachStep(store, fileIds, i, rest);
      assert calls + (head + DeleteEach(store, fileIds[i + 1..], AfterCall(rest)).calls)
          == calls + head + DeleteEach(store, fileIds[i + 1..], AfterCall(rest)).calls;
      calls, rest := calls + head, AfterCall(rest);
    }
    assert fileIds[|fileIds|..] == [];
    assert calls + [] == calls;
    e := Exchange(Returned(()), calls, rest);
  }

  /** `DELETE /files` on the session's vector store. */
  method DeleteAllFiles(a: Assistant, script: Script) returns (e: Exchange<Response<string>>)
    ensures e == DeleteAll(a.vectorStoreId, script)
  {
    var listing := [ListVectorStoreFiles(a.vectorStoreId)];
    var inStore;
    match AsIds(NextReply(script)) {
      case Hung => return Exchange(Hung, listing, AfterCall(script));
      case Threw(err) => return Exchange(Returned(ServerError(err)), listing, AfterCall(script));
      case Returned(ids) => inStore := ids;
    }
    var first := DeleteEvery(VectorStore(a.vectorStoreId), inStore, AfterCall(script));
    var calls := listing + first.calls;
    match first.outcome {
      case Hung => return Exchange(Hung, calls, first.rest);
      case Threw(err) => return Exchange(Returned(ServerError(err)), calls, first.rest);
      case Returned(_) =>
    }
    calls := calls + [ListFiles];
    var inFiles;
    match AsIds(NextReply(first.rest)) {
      case Hung => return Exchange(Hung, calls, AfterCall(first.rest));
      case Threw(err) => return Exchange(Returned(ServerError(err)), calls, AfterCall(first.rest));
      case Returned(ids) => inFiles := ids;
    }
    var second := DeleteEvery(FileStore, inFiles, AfterCall(first.rest));
    var outcome :=
      match second.outcome
      case Hung => Hung
      case Threw(err) => Returned(ServerError(err))
      case Returned(_) => Returned(Success("All files deleted successfully"));
    e := Exchange(outcome, calls + second.calls, second.rest);
  }

  /** `GET /files` on the global session. */
  method ListFilesOf(a: Assistant, configured: Option<Id>, script: Script) returns (outcome: Outcome<Response<seq<FileEntry>>>, calls: seq<Call>, rest: Script)
    modifies a
    ensures Handled(a.State(), outcome, calls, rest) == FileListing(old(a.State()), configured, a.instructions, script)
  {
    calls, rest := [], script;
    if !IsSet(a.vectorStoreId) {
      var init;
      init, calls, rest := a.Initialize(configured, script);
      match init {
        case Hung => return Hung, calls, rest;
        case Threw(err) => return Returned(ServerError(err)), calls, rest;
        case Returned(_) =>
      }
    }
    calls := calls + [ListVectorStoreFiles(a.vectorStoreId)];
    var fileIds;
    match AsIds(NextReply(rest)) {
      case Hung => return Hung, calls, AfterCall(rest);
      case Threw(err) => return Returned(ServerError(err)), calls, AfterCall(rest);
      case Returned(ids) => fileIds := ids;
    }
    var looked := LookUpFiles(fileIds, AfterCall(rest));
    outcome := if looked.outcome.Hung? then Hung else Returned(Success(looked.outcome.value));
    calls, rest := calls + looked.calls, looked.rest;
  }

  /** `POST /upload` on the global session. */
  method UploadFile(a: Assistant, configured: Option<Id>, filename: string, data: seq<byte>, script: Script) returns (outcome: Outcome<Response<string>>, calls: seq<Call>, rest: Script)
    modifies a
    ensures Handled(a.State(), outcome, calls, rest) == FileUpload(old(a.State()), configured, a.instructions, filename, data, script)
  {
    calls, rest := [], script;
    if !IsSet(a.vectorStoreId) {
      var init;
      init, calls, rest := a.Initialize(configured, script);
      match init {
        case Hung => return Hung, calls, rest;
        case Threw(err) => return Returned(ServerError(err)), calls, rest;
        case Returned(_) =>
      }
    }
    calls := calls + [UploadToVectorStore(a.vectorStoreId, filename, data)];
    match AsDone(NextReply(rest)) {
      case Hung => outcome := Hung;
      case Threw(err) => outcome := Returned(ServerError(err));
      case Returned(_) => outcome := Returned(Success("File uploaded successfully"));
    }
    rest := AfterCall(rest);
  }
}
