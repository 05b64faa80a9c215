/** `POST /api/generate`: runs the paid generation of one project. */
module GenerateRoute {
  import opened Outcomes
  import opened Projects
  import Naming
  import Paths

  /** The JavaScript values Replicate's `run` may resolve to. A `FileOutput`
      is an object with a `url()` method, which yields a `Url` object. */
  datatype JsValue =
    | Undefined
    | Null
    | Bool(b: bool)
    | Number(n: int)
    | Str(s: string)
    | Array(items: seq<JsValue>)
    | FileOutput(href: string)
    | Url(href: string)
    | PlainObject

  predicate Truthy(v: JsValue) {
    match v
    case Undefined => false
    case Null => false
    case Bool(b) => b
    case Number(n) => n != 0
    case Str(s) => s != ""
    case _ => true
  }

  /** `output && typeof output === 'object' && 'url' in output` */
  predicate HasUrlMethod(v: JsValue) {
    v.FileOutput?
  }

  /** The output URL taken from the model's output (lines 99-111): the
      result of `url()`, the first element of a non-empty array, or the
      string itself; `None` when the chosen value is falsy or no shape
      applies, where the route throws. */
  function OutputUrl(output: JsValue): (r: Option<JsValue>)
    ensures r.Some? ==> Truthy(r.value)
    ensures output.FileOutput? ==> r == Some(Url(output.href))
    ensures output.Array? && |output.items| > 0 ==>
      r == if Truthy(output.items[0]) then Some(output.items[0]) else None
    ensures output.Str? ==> r == if output.s == "" then None else Some(output)
    ensures !output.FileOutput? && !(output.Array? && |output.items| > 0) && !output.Str? ==> r.None?
  {
    var chosen :=
      if Truthy(output) && HasUrlMethod(output) then Url(output.href)
      else if output.Array? && |output.items| > 0 then output.items[0]
      else if output.Str? then output
      else Null;
    if Truthy(chosen) then Some(chosen) else None
  }

  /** Outcome of the guards at lines 24-68. */
  datatype Gate = Proceed(id: ProjectId, user: UserId) | Refuse(reply: Reply)

  /** The guards, checked in order: signed in, a project id given, the
      project exists and is the caller's, it is paid, it is not completed. */
  function Guard(rows: Table, user: Option<UserId>, projectId: Option<string>): (g: Gate)
    ensures g.Proceed? <==>
      && user.Some? && Present(projectId) && projectId.value in rows
      && rows[projectId.value].owner == user.value
      && rows[projectId.value].paymentStatus == Paid
      && rows[projectId.value].status != Completed
    ensures g.Proceed? ==> user == Some(g.user) && projectId == Some(g.id)
    ensures user.None? ==> g == Refuse(Reply(401, Error("Unauthorized")))
    ensures user.Some? && !Present(projectId) ==> g == Refuse(Reply(400, Error("Missing projectId")))
    ensures user.Some? && Present(projectId) && Lookup(rows, projectId, user.value).None? ==>
      g == Refuse(Reply(404, Error("Project not found")))
    ensures user.Some? && Present(projectId) && Lookup(rows, projectId, user.value).Some? ==>
      var p := Lookup(rows, projectId, user.value).value;
      && (p.paymentStatus != Paid ==> g == Refuse(Reply(402, Error("Payment required"))))
      && (p.paymentStatus == Paid && p.status == Completed ==> g == Refuse(Reply(400, Error("Already generated"))))
  {
    if user.None? then Refuse(Reply(401, Error("Unauthorized")))
    else if !Present(projectId) then Refuse(Reply(400, Error("Missing projectId")))
    else match Lookup(rows, projectId, user.value)
      case None => Refuse(Reply(404, Error("Project not found")))
      case Some(project) =>
        if project.paymentStatus != Paid then Refuse(Reply(402, Error("Payment required")))
        else if project.status == Completed then Refuse(Reply(400, Error("Already generated")))
        else Proceed(projectId.value, user.value)
  }

  /** A caller learns nothing about other users' projects: the guards
      answer the same whatever rows the other users own. */
  lemma GuardSeesOnlyOwnRows(rows: Table, others: Table, user: UserId, projectId: Option<string>)
    requires OwnedBy(rows, user) == OwnedBy(others, user)
    ensures Guard(rows, Some(user), projectId) == Guard(others, Some(user), projectId)
  {
    LookupSeesOnlyOwnRows(rows, others, projectId, user);
  }

  /** A row left in `processing` by an earlier failed attempt is not
      blocked: a paid project can be generated again until it completes. */
  lemma ProcessingIsRetried(rows: Table, user: UserId, id: ProjectId)
    requires id != "" && id in rows && rows[id].owner == user
    requires rows[id].paymentStatus == Paid && rows[id].status == Processing
    ensures Guard(rows, Some(user), Some(id)) == Proceed(id, user)
  {
  }

  /** The collaborators' answers after the row is marked processing:
      Replicate's `run`, the download of its image, the clock, the upload
      of the image and the final update. */
  datatype Environment = Environment(
    inference: Call<JsValue>,
    download: Call<()>,
    now: nat,
    upload: Call<()>,
    update: Call<()>)

  const NoOutputUrl := "No valid output URL from Replicate"

  /** Whether the generated image reaches the output bucket. */
  predicate Uploads(env: Environment) {
    && env.inference.Returns?
    && OutputUrl(env.inference.value).Some?
    && env.download.Returns?
    && env.upload.Returns?
  }

  /** The message of the first step that failed. */
  function FailureMessage(env: Environment): string
    requires !(Uploads(env) && env.update.Returns?)
  {
    if env.inference.Throws? then env.inference.message
    else if OutputUrl(env.inference.value).None? then NoOutputUrl
    else if env.download.Throws? then env.download.message
    else if env.upload.Throws? then env.upload.message
    else env.update.message
  }

  method Post(store: Store, user: Option<UserId>, projectId: Option<string>, env: Environment)
    returns (reply: Reply)
    requires store.Valid()
    modifies store`rows, store`outputBucket
    ensures store.Valid()
    ensures TableAdvances(old(store.rows), store.rows)
    ensures var g := Guard(old(store.rows), user, projectId);
      // refused by a guard: nothing changes
      && (g.Refuse? ==>
            reply == g.reply && store.rows == old(store.rows) && store.outputBucket == old(store.outputBucket))
      && (g.Proceed? ==>
            var name := Naming.OutputFilename(env.now);
            var url := Paths.PublicUrl(store.outputBase, name);
            var before := old(store.rows)[g.id];
            && store.outputBucket == (if Uploads(env) then old(store.outputBucket) + {name} else old(store.outputBucket))
            // success: only that row changes, to completed with the stored image
            && (Uploads(env) && env.update.Returns? ==>
                  && reply == Reply(200, Generated(url, g.id))
                  && store.rows == old(store.rows)[g.id := before.(status := Completed, outputImageUrl := Some(url))])
            // any later failure: the row is left processing, and the reply is 500
            && (!(Uploads(env) && env.update.Returns?) ==>
                  && reply == Reply(500, Error(FailureMessage(env)))
                  && store.rows == old(store.rows)[g.id := before.(status := Processing)]))
  {
    var gate := Guard(store.rows, user, projectId);
    if gate.Refuse? {
      return gate.reply;
    }
    var id, owner := gate.id, gate.user;
    MarkProcessingPreserves(store.rows, id);
    store.rows := MarkProcessing(store.rows, id);
    if env.inference.Throws? {
      return Reply(500, Error(env.inference.message));
    }
    var outputUrl := OutputUrl(env.inference.value);
    if outputUrl.None? {
      return Reply(500, Error(NoOutputUrl));
    }
    if env.download.Throws? {
      return Reply(500, Error(env.download.message));
    }
    var outFilename := Naming.OutputFilename(env.now);
    if env.upload.Throws? {
      return Reply(500, Error(env.upload.message));
    }
    store.outputBucket := store.outputBucket + {outFilename};
    var outPublic := Paths.PublicUrl(store.outputBase, outFilename);
    if env.update.Throws? {
      return Reply(500, Error(env.update.message));
    }
    MarkCompletedPreserves(store.rows, id, owner, outPublic);
    store.rows := MarkCompleted(store.rows, id, owner, outPublic);
    reply := Reply(200, Generated(outPublic, id));
  }
}
