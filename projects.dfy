/** The `projects` table and the two image buckets that all four routes
    share, with the scoped queries the routes run against them. */
module Projects {
  import opened Outcomes

  type ProjectId = string
  type UserId = string

  datatype Status = Pending | Processing | Completed

  /** `payment_status`: 'pending' or 'paid'. */
  datatype PaymentStatus = Unpaid | Paid

  /** The fixed price, 2.00 EUR, in cents. */
  const PriceCents := 200

  /** One row of the `projects` table; its id is the key it is stored under. */
  datatype Project = Project(
    owner: UserId,
    inputImageUrl: string,
    outputImageUrl: Option<string>,
    prompt: string,
    status: Status,
    paymentStatus: PaymentStatus,
    paymentAmountCents: int,
    checkoutSessionId: Option<string>,
    paymentIntentId: Option<string>)

  type Table = map<ProjectId, Project>

  /** The row the checkout route inserts. */
  function NewProject(owner: UserId, inputImageUrl: string, prompt: string): (p: Project)
    ensures RowValid(p)
    ensures p.owner == owner && p.inputImageUrl == inputImageUrl && p.prompt == prompt
    ensures p.status == Pending && p.paymentStatus == Unpaid && p.outputImageUrl.None?
  {
    Project(owner, inputImageUrl, None, prompt, Pending, Unpaid, PriceCents, None, None)
  }

  /** What every stored row satisfies: the fixed price; generation only
      after payment; an output image exactly when completed; a paid row
      knows its checkout session. */
  predicate RowValid(p: Project) {
    && p.paymentAmountCents == PriceCents
    && (p.status != Pending ==> p.paymentStatus == Paid)
    && (p.outputImageUrl.Some? <==> p.status == Completed)
    && (p.paymentStatus == Paid ==> p.checkoutSessionId.Some?)
  }

  predicate TableValid(rows: Table) {
    forall id | id in rows :: RowValid(rows[id])
  }

  function StatusRank(s: Status): nat {
    match s
    case Pending => 0
    case Processing => 1
    case Completed => 2
  }

  /** A row may only move forward: owner, input, prompt and price never
      change, status and payment status never go back, and an output image,
      once set, stays. */
  predicate Advances(before: Project, after: Project) {
    && after.owner == before.owner
    && after.inputImageUrl == before.inputImageUrl
    && after.prompt == before.prompt
    && after.paymentAmountCents == before.paymentAmountCents
    && StatusRank(before.status) <= StatusRank(after.status)
    && (before.paymentStatus == Paid ==> after.paymentStatus == Paid)
    && (before.outputImageUrl.Some? ==> after.outputImageUrl == before.outputImageUrl)
  }

  predicate TableAdvances(before: Table, after: Table) {
    forall id | id in before && id in after :: Advances(before[id], after[id])
  }

  /** `select('*').eq('id', id).eq('user_id', user).single()`: the row only
      when it exists and belongs to `user`. */
  function Lookup(rows: Table, id: Option<ProjectId>, user: UserId): (r: Option<Project>)
    ensures r.Some? ==> id.Some? && id.value in rows && r.value == rows[id.value] && r.value.owner == user
    ensures r.None? ==> id.None? || id.value !in rows || rows[id.value].owner != user
  {
    if id.Some? && id.value in rows && rows[id.value].owner == user then Some(rows[id.value]) else None
  }

  /** The rows of one user: all that user's queries can ever see. */
  function OwnedBy(rows: Table, user: UserId): (own: Table)
    ensures own.Keys <= rows.Keys
    ensures forall id | id in rows :: id in own <==> rows[id].owner == user
    ensures forall id | id in own :: own[id] == rows[id]
  {
    map id | id in rows && rows[id].owner == user :: rows[id]
  }

  /** Cross-tenant isolation: an owner-scoped lookup answers the same
      whatever the other users' rows are, so it never tells a caller
      whether someone else's project exists. */
  lemma LookupSeesOnlyOwnRows(rows: Table, others: Table, id: Option<ProjectId>, user: UserId)
    requires OwnedBy(rows, user) == OwnedBy(others, user)
    ensures Lookup(rows, id, user) == Lookup(others, id, user)
  {
    if id.Some? {
      var k := id.value;
      assert k in rows && rows[k].owner == user ==> k in OwnedBy(rows, user);
      assert k in others && others[k].owner == user ==> k in OwnedBy(others, user);
    }
  }

  /** Whether row `k` matches `.eq('id', id).eq('user_id', user)`; a
      `user` that is absent matches no row. */
  predicate Scoped(rows: Table, k: ProjectId, id: ProjectId, user: Option<UserId>)
    requires k in rows
  {
    k == id && user == Some(rows[k].owner)
  }

  /** The webhook's `update({payment_status: 'paid', ...})` on every row
      matching id and owner. */
  function MarkPaid(rows: Table, id: ProjectId, user: Option<UserId>, session: string, intent: Option<string>): (r: Table)
    ensures r.Keys == rows.Keys
    ensures forall k | k in rows && k != id :: r[k] == rows[k]
    ensures id in rows ==>
      r[id] == if user == Some(rows[id].owner)
               then rows[id].(paymentStatus := Paid, checkoutSessionId := Some(session), paymentIntentId := intent)
               else rows[id]
  {
    map k | k in rows ::
      if Scoped(rows, k, id, user)
      then rows[k].(paymentStatus := Paid, checkoutSessionId := Some(session), paymentIntentId := intent)
      else rows[k]
  }

  /** Delivering the same payment twice leaves the table as delivering it
      once. */
  lemma MarkPaidIdempotent(rows: Table, id: ProjectId, user: Option<UserId>, session: string, intent: Option<string>)
    ensures MarkPaid(MarkPaid(rows, id, user, session, intent), id, user, session, intent)
         == MarkPaid(rows, id, user, session, intent)
  {
  }

  /** Marking a row paid keeps every row valid, only moves rows forward,
      and leaves every row's status and output image as they were. */
  lemma MarkPaidPreserves(rows: Table, id: ProjectId, user: Option<UserId>, session: string, intent: Option<string>)
    requires TableValid(rows)
    ensures var r := MarkPaid(rows, id, user, session, intent);
      && TableValid(r)
      && TableAdvances(rows, r)
      && forall k | k in r :: r[k].status == rows[k].status && r[k].outputImageUrl == rows[k].outputImageUrl
  {
  }

  /** The generate route's `update({status: 'processing'}).eq('id', id)`:
      scoped by id alone. */
  function MarkProcessing(rows: Table, id: ProjectId): (r: Table)
    ensures r.Keys == rows.Keys
    ensures forall k | k in rows && k != id :: r[k] == rows[k]
    ensures id in rows ==> r[id] == rows[id].(status := Processing)
  {
    map k | k in rows :: if k == id then rows[k].(status := Processing) else rows[k]
  }

  /** The generate route's `update({output_image_url, status: 'completed'})`
      on the row matching id and owner. */
  function MarkCompleted(rows: Table, id: ProjectId, user: UserId, url: string): (r: Table)
    ensures r.Keys == rows.Keys
    ensures forall k | k in rows && k != id :: r[k] == rows[k]
    ensures id in rows ==>
      r[id] == if rows[id].owner == user
               then rows[id].(status := Completed, outputImageUrl := Some(url))
               else rows[id]
  {
    map k | k in rows ::
      if Scoped(rows, k, id, Some(user))
      then rows[k].(status := Completed, outputImageUrl := Some(url))
      else rows[k]
  }

  /** Starting generation of a paid row that is not completed keeps the
      table valid and moves it forward. */
  lemma MarkProcessingPreserves(rows: Table, id: ProjectId)
    requires TableValid(rows)
    requires id in rows && rows[id].paymentStatus == Paid && rows[id].status != Completed
    ensures TableValid(MarkProcessing(rows, id))
    ensures TableAdvances(rows, MarkProcessing(rows, id))
  {
    var r := MarkProcessing(rows, id);
    assert RowValid(r[id]);
  }

  /** Completing a row that is processing keeps the table valid, moves it
      forward, and leaves its payment fields alone. */
  lemma MarkCompletedPreserves(rows: Table, id: ProjectId, user: UserId, url: string)
    requires TableValid(rows)
    requires id in rows && rows[id].status == Processing
    ensures var r := MarkCompleted(rows, id, user, url);
      && TableValid(r)
      && TableAdvances(rows, r)
      && r[id].paymentStatus == rows[id].paymentStatus
      && r[id].checkoutSessionId == rows[id].checkoutSessionId
      && r[id].paymentIntentId == rows[id].paymentIntentId
  {
    var r := MarkCompleted(rows, id, user, url);
    assert RowValid(r[id]);
  }

  /** The delete route's `delete().eq('id', id).eq('user_id', user)`. */
  function RemoveOwned(rows: Table, id: Option<ProjectId>, user: UserId): (r: Table)
    ensures r.Keys == if Lookup(rows, id, user).Some? then rows.Keys - {id.value} else rows.Keys
    ensures forall k | k in r :: r[k] == rows[k]
  {
    map k | k in rows && !(id == Some(k) && rows[k].owner == user) :: rows[k]
  }

  /** Once removed, the owner's lookup finds nothing; other rows, including
      other users' rows under any id, stay. */
  lemma RemoveOwnedForgets(rows: Table, id: Option<ProjectId>, user: UserId)
    requires TableValid(rows)
    ensures Lookup(RemoveOwned(rows, id, user), id, user).None?
    ensures TableValid(RemoveOwned(rows, id, user))
    ensures TableAdvances(rows, RemoveOwned(rows, id, user))
  {
  }

  /** When the caller owns the row, the scoped delete removes exactly it. */
  lemma RemoveOwnedFound(rows: Table, id: Option<ProjectId>, user: UserId)
    requires Lookup(rows, id, user).Some?
    ensures RemoveOwned(rows, id, user) == rows - {id.value}
  {
  }

  /** The project table plus the input and output buckets of the object
      store. */
  class Store {
    var rows: Table
    var inputBucket: set<string>
    var outputBucket: set<string>
    /** Base public URL of each bucket. */
    const inputBase: string
    const outputBase: string

    ghost predicate Valid()
      reads this
    {
      TableValid(rows)
    }

    constructor (inputBase: string, outputBase: string)
      ensures Valid()
      ensures rows == map[] && inputBucket == {} && outputBucket == {}
      ensures this.inputBase == inputBase && this.outputBase == outputBase
    {
      this.inputBase := inputBase;
      this.outputBase := outputBase;
      rows := map[];
      inputBucket := {};
      outputBucket := {};
    }
  }
}
