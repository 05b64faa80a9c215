/** `DELETE /api/delete`: removes one of the caller's projects and its two
    images. */
module DeleteRoute {
  import opened Outcomes
  import opened Projects
  import Naming
  import Paths

  /** What `null.split('/')` throws (line 56). */
  const NullOutputMessage := "Cannot read properties of null (reading 'split')"

  /** The bucket after `remove([name])`, issued only when the name is not
      empty (lines 58-63). */
  function RemovedIfNamed(bucket: set<string>, name: string): (b: set<string>)
    ensures name != "" ==> b == bucket - {name}
    ensures name == "" ==> b == bucket
  {
    if name != "" then bucket - {name} else bucket
  }

  /** Lines 58-63: each non-empty name is removed from its own bucket. */
  method RemoveBlobs(store: Store, inputPath: string, outputPath: string)
    modifies store`inputBucket, store`outputBucket
    ensures store.inputBucket == RemovedIfNamed(old(store.inputBucket), inputPath)
    ensures store.outputBucket == RemovedIfNamed(old(store.outputBucket), outputPath)
  {
    if inputPath != "" {
      store.inputBucket := store.inputBucket - {inputPath};
    }
    if outputPath != "" {
      store.outputBucket := store.outputBucket - {outputPath};
    }
  }

  method Delete(store: Store, user: Option<UserId>, projectId: Option<string>, deletion: Call<()>)
    returns (reply: Reply)
    requires store.Valid()
    modifies store`rows, store`inputBucket, store`outputBucket
    ensures store.Valid()
    ensures TableAdvances(old(store.rows), store.rows)
    // unauthenticated, or no such project of the caller's: nothing removed
    ensures user.None? ==>
      && reply == Reply(401, Error("Unauthorized"))
      && store.rows == old(store.rows)
      && store.inputBucket == old(store.inputBucket) && store.outputBucket == old(store.outputBucket)
    ensures user.Some? && Lookup(old(store.rows), projectId, user.value).None? ==>
      && reply == Reply(404, Error("Project not found"))
      && store.rows == old(store.rows)
      && store.inputBucket == old(store.inputBucket) && store.outputBucket == old(store.outputBucket)
    // a project never generated has no output URL: the route throws before
    // removing anything
    ensures user.Some? && Lookup(old(store.rows), projectId, user.value).Some?
            && old(store.rows)[projectId.value].outputImageUrl.None? ==>
      && reply == Reply(500, Error(NullOutputMessage))
      && store.rows == old(store.rows)
      && store.inputBucket == old(store.inputBucket) && store.outputBucket == old(store.outputBucket)
    // otherwise each non-empty blob name is removed from its own bucket
    ensures user.Some? && Lookup(old(store.rows), projectId, user.value).Some?
            && old(store.rows)[projectId.value].outputImageUrl.Some? ==>
      var p := old(store.rows)[projectId.value];
      && store.inputBucket == RemovedIfNamed(old(store.inputBucket), Paths.BlobName(p.inputImageUrl))
      && store.outputBucket == RemovedIfNamed(old(store.outputBucket), Paths.BlobName(p.outputImageUrl.value))
      && reply == (if deletion.Throws? then Reply(500, Error(deletion.message)) else Reply(200, Deleted))
    // and then the row goes unless the database refuses
    ensures user.Some? && Lookup(old(store.rows), projectId, user.value).Some?
            && old(store.rows)[projectId.value].outputImageUrl.Some? ==>
      && (deletion.Throws? ==> store.rows == old(store.rows))
      && (deletion.Returns? ==>
            && store.rows == RemoveOwned(old(store.rows), projectId, user.value)
            && store.rows.Keys == old(store.rows).Keys - {projectId.value}
            && Lookup(store.rows, projectId, user.value).None?)
  {
    if user.None? {
      return Reply(401, Error("Unauthorized"));
    }
    var project := Lookup(store.rows, projectId, user.value);
    if project.None? {
      return Reply(404, Error("Project not found"));
    }
    var inputPath := Paths.BlobName(project.value.inputImageUrl);
    if project.value.outputImageUrl.None? {
      return Reply(500, Error(NullOutputMessage));
    }
    var outputPath := Paths.BlobName(project.value.outputImageUrl.value);
    RemoveBlobs(store, inputPath, outputPath);
    if deletion.Throws? {
      return Reply(500, Error(deletion.message));
    }
    var remaining := RemoveOwned(store.rows, projectId, user.value);
    RemoveOwnedForgets(store.rows, projectId, user.value);
    RemoveOwnedFound(store.rows, projectId, user.value);
    store.rows := remaining;
    reply := Reply(200, Deleted);
  }

  /** Deleting removes the very blobs the checkout and generate routes
      stored, provided the uploaded file's name holds no '/'. */
  lemma RemovesStoredBlobs(inputBase: string, outputBase: string, uploadTime: nat, fileName: string, generateTime: nat)
    requires '/' !in fileName
    ensures Paths.BlobName(Paths.PublicUrl(inputBase, Naming.InputFilename(uploadTime, fileName)))
         == Naming.InputFilename(uploadTime, fileName)
    ensures Paths.BlobName(Paths.PublicUrl(outputBase, Naming.OutputFilename(generateTime)))
         == Naming.OutputFilename(generateTime)
  {
    Naming.FilenamesHaveNoSlash(uploadTime, fileName);
    Naming.FilenamesHaveNoSlash(generateTime, fileName);
    Paths.BlobNameOfPublicUrl(inputBase, Naming.InputFilename(uploadTime, fileName));
    Paths.BlobNameOfPublicUrl(outputBase, Naming.OutputFilename(generateTime));
  }
}
