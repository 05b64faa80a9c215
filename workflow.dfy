/** The whole flow of one project, driven through the route handlers'
    contracts alone: checkout, payment notification, generation, delete. */
module Workflow {
  import opened Outcomes
  import opened Projects
  import CheckoutRoute
  import WebhookRoute
  import GenerateRoute
  import DeleteRoute
  import Naming
  import Paths

  /** Checkout, a refused early generation, payment, and a redelivered
      payment notification. */
  method CheckoutThenPay()
  {
    var store := new Store("https://files/input", "https://files/output");
    var alice := "alice";
    var id := "p1";

    // checkout: one pending row owned by the caller, at the fixed price
    var env := CheckoutRoute.Environment(7, Returns(()), Returns(id),
                                         Returns(CheckoutRoute.Session("cs_1", "https://pay")), "https://site");
    var reply, sent := CheckoutRoute.Post(store, Some(alice), Some(CheckoutRoute.ImageFile("cat.jpg", "image/jpeg")),
                                         Some("turn cat into astronaut"), env);
    assert reply == Reply(200, CheckoutStarted("cs_1", "https://pay")) && sent.Some?;
    assert store.rows[id].status == Pending && store.rows[id].paymentStatus == Unpaid;
    assert store.rows[id].paymentAmountCents == 200;
    var request := sent.value;

    // generation before payment is refused and changes nothing
    var genEnv := GenerateRoute.Environment(Returns(GenerateRoute.Str("https://replicate/out.png")),
                                            Returns(()), 9, Returns(()), Returns(()));
    reply := GenerateRoute.Post(store, Some(alice), Some(id), genEnv);
    assert reply.status == 402 && store.rows[id].status == Pending;

    // the payment notification echoes the session's metadata
    var event := WebhookRoute.Event(WebhookRoute.CheckoutCompleted, "cs_1", Some("pi_1"),
                                    Some(request.metadataProjectId), Some(request.metadataUserId));
    var unpaid := store.rows;
    reply := WebhookRoute.Post(store, Some("t=1,v1=sig"), Returns(event), Returns(()));
    assert reply == Reply(200, Received) && store.rows[id].paymentStatus == Paid;

    // a second delivery changes nothing
    var paid := store.rows;
    WebhookRoute.RedeliveryIsIdempotent(unpaid, Some("t=1,v1=sig"), Returns(event), Returns(()));
    reply := WebhookRoute.Post(store, Some("t=1,v1=sig"), Returns(event), Returns(()));
    assert reply == Reply(200, Received) && store.rows == paid;
  }

  /** A paid project: others cannot generate it, its owner can, exactly
      once, and deleting it removes the row and both images. */
  method GenerateThenDelete(store: Store, id: ProjectId, alice: UserId, bob: UserId)
    requires store.Valid() && alice != bob
    requires id != "" && id in store.rows && store.rows[id].owner == alice
    requires store.rows[id].paymentStatus == Paid && store.rows[id].status == Pending
    requires store.rows[id].inputImageUrl == Paths.PublicUrl(store.inputBase, Naming.InputFilename(7, "cat.jpg"))
    modifies store
  {
    var paid := store.rows;
    var inputUrl := store.rows[id].inputImageUrl;
    var genEnv := GenerateRoute.Environment(Returns(GenerateRoute.Str("https://replicate/out.png")),
                                            Returns(()), 9, Returns(()), Returns(()));
    var reply;
    // another user cannot generate it
    reply := GenerateRoute.Post(store, Some(bob), Some(id), genEnv);
    assert reply.status == 404 && store.rows == paid;

    // the owner can: the row is completed with an output distinct from the input
    reply := GenerateRoute.Post(store, Some(alice), Some(id), genEnv);
    assert reply.status == 200 && store.rows[id].status == Completed;
    var outputUrl := store.rows[id].outputImageUrl.value;
    Naming.OutputNameDiffersFromInputNames(9, 7, "cat.jpg");
    Naming.FilenamesHaveNoSlash(7, "cat.jpg");
    DeleteRoute.RemovesStoredBlobs(store.inputBase, store.outputBase, 7, "cat.jpg", 9);
    assert outputUrl != inputUrl;

    // generating again is refused and keeps the output
    reply := GenerateRoute.Post(store, Some(alice), Some(id), genEnv);
    assert reply == Reply(400, Error("Already generated")) && store.rows[id].outputImageUrl == Some(outputUrl);

    // delete removes the row and both blobs; the owner then finds nothing
    reply := DeleteRoute.Delete(store, Some(alice), Some(id), Returns(()));
    assert reply == Reply(200, Deleted) && id !in store.rows;
    assert Naming.InputFilename(7, "cat.jpg") !in store.inputBucket;
    assert Naming.OutputFilename(9) !in store.outputBucket;
    reply := DeleteRoute.Delete(store, Some(alice), Some(id), Returns(()));
    assert reply.status == 404;
  }
}
