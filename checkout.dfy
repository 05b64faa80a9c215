/** `POST /api/create-checkout-session`: stores the uploaded image, inserts a
    pending project, and opens a Stripe checkout session for it. */
module CheckoutRoute {
  import opened Outcomes
  import opened Projects
  import Naming
  import Paths

  /** The uploaded form field `image`. */
  datatype ImageFile = ImageFile(name: string, contentType: string)

  /** What Stripe returns for a created session. */
  datatype Session = Session(id: string, url: string)

  datatype LineItem = LineItem(
    currency: string,
    productName: string,
    description: string,
    unitAmountCents: nat,
    quantity: nat)

  /** The request sent to Stripe to open a checkout session. */
  datatype SessionRequest = SessionRequest(
    paymentMethodTypes: seq<string>,
    lineItems: seq<LineItem>,
    mode: string,
    successUrl: string,
    cancelUrl: string,
    metadataProjectId: ProjectId,
    metadataUserId: UserId,
    clientReferenceId: UserId)

  /** The collaborators' answers during one request: the clock, the
      upload, the id the database gives the new row, Stripe, and the
      site's base URL. */
  datatype Environment = Environment(
    now: nat,
    upload: Call<()>,
    insert: Call<ProjectId>,
    session: Call<Session>,
    siteUrl: string)

  const UnitAmountCents: nat := 200
  const ProductName := "Génération d'image IA"
  const DuplicateKey := "duplicate key value violates unique constraint"

  function Charged(items: seq<LineItem>): nat {
    if items == [] then 0
    else Charged(items[..|items| - 1]) + items[|items| - 1].unitAmountCents * items[|items| - 1].quantity
  }

  /** The session request for project `id` of `user`: one card payment of a
      single item at the fixed price, described by the start of the prompt,
      with the project and the owner echoed back in its metadata. */
  function SessionRequestFor(id: ProjectId, user: UserId, prompt: string, siteUrl: string): (req: SessionRequest)
    ensures Charged(req.lineItems) == PriceCents
    ensures |req.lineItems| == 1 && req.lineItems[0].currency == "eur"
    ensures req.lineItems[0].description == Naming.Description(prompt)
    ensures req.metadataProjectId == id && req.metadataUserId == user && req.clientReferenceId == user
  {
    var item := LineItem("eur", ProductName, Naming.Description(prompt), UnitAmountCents, 1);
    assert [item][..0] == [];
    SessionRequest(
      ["card"],
      [item],
      "payment",
      siteUrl + "/dashboard?session_id={CHECKOUT_SESSION_ID}",
      siteUrl + "/dashboard?canceled=true",
      id, user, user)
  }

  /** The amount charged depends on nothing the caller sends. */
  lemma ChargeIndependentOfRequest(id: ProjectId, user: UserId, prompt: string, siteUrl: string,
                                   id': ProjectId, user': UserId, prompt': string, siteUrl': string)
    ensures SessionRequestFor(id, user, prompt, siteUrl).lineItems[0].unitAmountCents
         == SessionRequestFor(id', user', prompt', siteUrl').lineItems[0].unitAmountCents
    ensures Charged(SessionRequestFor(id, user, prompt, siteUrl).lineItems)
         == Charged(SessionRequestFor(id', user', prompt', siteUrl').lineItems)
         == NewProject(user, "", prompt).paymentAmountCents
  {
  }

  /** The database's answer to the insert: a generated id that is already
      taken violates the primary key. */
  function InsertOutcome(rows: Table, insert: Call<ProjectId>): (r: Call<ProjectId>)
    ensures r.Returns? ==> r.value !in rows
    ensures insert.Returns? && insert.value !in rows ==> r == insert
    ensures insert.Returns? && insert.value in rows ==> r == Throws(DuplicateKey)
    ensures insert.Throws? ==> r == insert
  {
    if insert.Returns? && insert.value in rows then Throws(DuplicateKey) else insert
  }

  method Post(store: Store, user: Option<UserId>, image: Option<ImageFile>, prompt: Option<string>, env: Environment)
    returns (reply: Reply, sent: Option<SessionRequest>)
    requires store.Valid()
    modifies store
    ensures store.Valid()
    ensures store.outputBucket == old(store.outputBucket)
    ensures TableAdvances(old(store.rows), store.rows)
    // unauthenticated, or a missing field: refused, nothing stored
    ensures user.None? ==>
      reply == Reply(401, Error("Unauthorized")) && sent.None? &&
      store.rows == old(store.rows) && store.inputBucket == old(store.inputBucket)
    ensures user.Some? && (image.None? || !Present(prompt)) ==>
      reply == Reply(400, Error("Missing image or prompt")) && sent.None? &&
      store.rows == old(store.rows) && store.inputBucket == old(store.inputBucket)
    ensures user.Some? && image.Some? && Present(prompt) ==>
      var name := Naming.InputFilename(env.now, image.value.name);
      var inserted := InsertOutcome(old(store.rows), env.insert);
      // the upload failed: nothing stored
      && (env.upload.Throws? ==>
            reply == Reply(500, Error(env.upload.message)) && sent.None? &&
            store.rows == old(store.rows) && store.inputBucket == old(store.inputBucket))
      // the upload succeeded: the blob stays whatever happens next
      && (env.upload.Returns? ==> store.inputBucket == old(store.inputBucket) + {name})
      && (env.upload.Returns? && inserted.Throws? ==>
            reply == Reply(500, Error(inserted.message)) && sent.None? && store.rows == old(store.rows))
      // the row is inserted before Stripe is called, and stays if Stripe fails
      && (env.upload.Returns? && inserted.Returns? ==>
            && store.rows == old(store.rows)[inserted.value := NewProject(user.value, Paths.PublicUrl(store.inputBase, name), prompt.value)]
            && sent == Some(SessionRequestFor(inserted.value, user.value, prompt.value, env.siteUrl))
            && reply == match env.session
                        case Throws(m) => Reply(500, Error(m))
                        case Returns(s) => Reply(200, CheckoutStarted(s.id, s.url)))
  {
    sent := None;
    if user.None? {
      return Reply(401, Error("Unauthorized")), sent;
    }
    if image.None? || !Present(prompt) {
      return Reply(400, Error("Missing image or prompt")), sent;
    }
    var file := image.value;
    var text := prompt.value;
    var filename := Naming.InputFilename(env.now, file.name);
    if env.upload.Throws? {
      return Reply(500, Error(env.upload.message)), sent;
    }
    store.inputBucket := store.inputBucket + {filename};
    var inputImageUrl := Paths.PublicUrl(store.inputBase, filename);
    var inserted := InsertOutcome(store.rows, env.insert);
    if inserted.Throws? {
      return Reply(500, Error(inserted.message)), sent;
    }
    var id := inserted.value;
    store.rows := store.rows[id := NewProject(user.value, inputImageUrl, text)];
    sent := Some(SessionRequestFor(id, user.value, text, env.siteUrl));
    match env.session {
      case Throws(m) =>
        reply := Reply(500, Error(m));
      case Returns(s) =>
        reply := Reply(200, CheckoutStarted(s.id, s.url));
    }
  }
}
