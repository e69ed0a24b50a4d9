/**
 * The payment confirmation page. On load it verifies the payment session named
 * by the `session_id` query parameter; once the payment is verified and a user
 * is signed in, it commits the order: it reads the order draft of the session
 * and the user's cart, inserts one `orders` row per cart row, then clears the
 * cart. Two page-lifetime flags, `orderSaved` and `processedSession`, guard the
 * commit against running twice.
 *
 * The remote calls are parameters: each step of a commit either succeeds,
 * reading or writing the tables held here, or fails.
 */
module Success {
  import opened Common

  /** A row of `order_drafts`; `session_id` is attached once a payment session
      exists. */
  datatype Draft = Draft(id: nat, sessionId: Option<string>)

  /** A row of `orders`. The total is kept in integer cents, as the payment
      session reports it; the purchase time is not modelled. */
  datatype OrderRecord = OrderRecord(
    userId: string,
    sessionId: string,
    totalCents: int,
    productId: nat,
    productType: string,
    size: Option<string>,
    draftId: nat)

  /** The verified payment session (`data.session`). */
  datatype Session = Session(amountTotal: int)

  /** How the cart clear turns out: it succeeds, it answers with an error
      (only logged), or the call throws, which reaches the routine's `catch`. */
  datatype ClearReply = Cleared | ClearError | ClearThrew

  /** How each remote step of one commit run turns out. A throw from the
      draft, cart or insert step has the same effect as an error answer. */
  datatype Replies = Replies(draftFails: bool, cartFails: bool, insertFails: bool, clear: ClearReply)

  datatype Tables = Tables(drafts: seq<Draft>, cart: seq<CartRow>, orders: seq<OrderRecord>)

  /** The two refs and the tables the commit reads and writes. */
  datatype Saver = Saver(orderSaved: bool, processed: Option<string>, db: Tables)

  // ---------------------------------------------------------------------------
  // One commit run: `saveOrderToDatabase`

  function DraftOfSession(sessionId: string): Draft -> bool
  {
    (d: Draft) => d.sessionId == Some(sessionId)
  }

  /** `.from("order_drafts").select("*").eq("session_id", id).single()`: the
      draft when exactly one row matches; no row, several rows or a failed
      request are all an error. */
  function SingleDraft(drafts: seq<Draft>, sessionId: string, fails: bool): (r: Option<Draft>)
    ensures r.Some? <==> !fails && |Filter(drafts, DraftOfSession(sessionId))| == 1
    ensures r.Some? ==> r.value in drafts && r.value.sessionId == Some(sessionId)
    ensures r.Some? ==> Filter(drafts, DraftOfSession(sessionId)) == [r.value]
  {
    var matching := Filter(drafts, DraftOfSession(sessionId));
    if fails || |matching| != 1 then None
    else
      assert matching[0] in matching;
      Some(matching[0])
  }

  /** The `cartItems.map(...)` building one order row per cart row. */
  function OrderRecords(rows: seq<CartRow>, userId: string, sessionId: string,
                        totalCents: int, draftId: nat): (r: seq<OrderRecord>)
    ensures |r| == |rows|
    ensures forall i :: 0 <= i < |rows| ==>
      && r[i].userId == userId && r[i].sessionId == sessionId
      && r[i].totalCents == totalCents && r[i].draftId == draftId
      && r[i].productId == rows[i].productId && r[i].productType == rows[i].productType
      && r[i].size == rows[i].size
  {
    if rows == [] then []
    else
      [OrderRecord(userId, sessionId, totalCents, rows[0].productId, rows[0].productType, rows[0].size, draftId)]
      + OrderRecords(rows[1..], userId, sessionId, totalCents, draftId)
  }

  function NotOfUser(userId: string): CartRow -> bool
  {
    (row: CartRow) => row.userId != userId
  }

  /** `.from('cart').delete().eq('user_id', userId)` */
  function ClearCart(cart: seq<CartRow>, userId: string): (r: seq<CartRow>)
    ensures forall row :: row in r <==> row in cart && row.userId != userId
    ensures forall x :: multiset(r)[x] == if x.userId != userId then multiset(cart)[x] else 0
    ensures Subsequence(r, cart)
  {
    FilterMultiset(cart, NotOfUser(userId));
    FilterIsSubsequence(cart, NotOfUser(userId));
    Filter(cart, NotOfUser(userId))
  }

  /** The guard written before the first await. */
  predicate Guarded(s: Saver, sessionId: string)
  {
    s.orderSaved || s.processed == Some(sessionId)
  }

  /** What one call of `saveOrderToDatabase` does to the flags and tables. When
      `session` is absent, building the order rows reads a field of undefined;
      the exception is caught and resets `orderSaved`. A throw from the cart
      clear reaches the same `catch` after the orders were inserted. */
  function Save(s: Saver, sessionId: string, session: Option<Session>, userId: string, r: Replies): (t: Saver)
    ensures Guarded(t, sessionId)
    ensures t.db.drafts == s.db.drafts && s.db.orders <= t.db.orders
  {
    if Guarded(s, sessionId) then s
    else
      var marked := s.(orderSaved := true, processed := Some(sessionId));
      var draft := SingleDraft(s.db.drafts, sessionId, r.draftFails);
      if draft.None? then marked.(orderSaved := false)
      else if r.cartFails then marked.(orderSaved := false)
      else
        var rows := RowsOfUser(s.db.cart, userId);
        if rows == [] then marked
        else if session.None? then marked.(orderSaved := false)
        else if r.insertFails then marked.(orderSaved := false)
        else
          var records := OrderRecords(rows, userId, sessionId, session.value.amountTotal, draft.value.id);
          var orders := s.db.orders + records;
          match r.clear
          case Cleared => marked.(db := s.db.(orders := orders, cart := ClearCart(s.db.cart, userId)))
          case ClearError => marked.(db := s.db.(orders := orders))
          case ClearThrew => marked.(orderSaved := false, db := s.db.(orders := orders))
  }

  /** A guarded call changes no table and no flag. */
  lemma GuardedSaveIsNoOp(s: Saver, sessionId: string, session: Option<Session>, userId: string, r: Replies)
    requires Guarded(s, sessionId)
    ensures Save(s, sessionId, session, userId, r) == s
  {
  }

  /** A call that passes the guard records its session; no path clears it. */
  lemma SaveRecordsSession(s: Saver, sessionId: string, session: Option<Session>, userId: string, r: Replies)
    ensures var t := Save(s, sessionId, session, userId, r);
      && (!Guarded(s, sessionId) ==> t.processed == Some(sessionId))
      && (Guarded(s, sessionId) ==> t.processed == s.processed)
  {
  }

  /** A missing draft (or a failed draft request) writes nothing and releases
      `orderSaved`. */
  lemma DraftMissing(s: Saver, sessionId: string, session: Option<Session>, userId: string, r: Replies)
    requires !Guarded(s, sessionId) && SingleDraft(s.db.drafts, sessionId, r.draftFails).None?
    ensures var t := Save(s, sessionId, session, userId, r);
      t.db == s.db && !t.orderSaved && t.processed == Some(sessionId)
  {
  }

  /** An empty cart ends the run without writes and keeps `orderSaved` set. */
  lemma EmptyCartSkips(s: Saver, sessionId: string, session: Option<Session>, userId: string, r: Replies)
    requires !Guarded(s, sessionId) && SingleDraft(s.db.drafts, sessionId, r.draftFails).Some?
    requires !r.cartFails && RowsOfUser(s.db.cart, userId) == []
    ensures var t := Save(s, sessionId, session, userId, r);
      t.db == s.db && t.orderSaved
  {
  }

  /** The rows a successful insert appends: one per cart row of the user, in
      cart order, each with the user, the session, the draft id, the session
      total and that row's product id, type and size. */
  lemma InsertedRecords(s: Saver, sessionId: string, session: Session, userId: string, r: Replies)
    requires !Guarded(s, sessionId) && SingleDraft(s.db.drafts, sessionId, r.draftFails).Some?
    requires !r.cartFails && RowsOfUser(s.db.cart, userId) != [] && !r.insertFails
    ensures var t := Save(s, sessionId, Some(session), userId, r);
      var rows := RowsOfUser(s.db.cart, userId);
      var draft := SingleDraft(s.db.drafts, sessionId, r.draftFails).value;
      && |t.db.orders| == |s.db.orders| + |rows|
      && t.db.orders[..|s.db.orders|] == s.db.orders
      && (forall i :: 0 <= i < |rows| ==>
            var o := t.db.orders[|s.db.orders| + i];
            && o.userId == userId && o.sessionId == sessionId && o.draftId == draft.id
            && o.totalCents == session.amountTotal
            && o.productId == rows[i].productId && o.productType == rows[i].productType
            && o.size == rows[i].size)
      && (t.orderSaved <==> r.clear != ClearThrew)
      && (r.clear == Cleared ==> t.db.cart == ClearCart(s.db.cart, userId))
      && (r.clear != Cleared ==> t.db.cart == s.db.cart)
  {
    var rows := RowsOfUser(s.db.cart, userId);
    var draft := SingleDraft(s.db.drafts, sessionId, r.draftFails).value;
    var records := OrderRecords(rows, userId, sessionId, session.amountTotal, draft.id);
    var t := Save(s, sessionId, Some(session), userId, r);
    var marked := s.(orderSaved := true, processed := Some(sessionId));
    assert t == match r.clear
      case Cleared => marked.(db := s.db.(orders := s.db.orders + records, cart := ClearCart(s.db.cart, userId)))
      case ClearError => marked.(db := s.db.(orders := s.db.orders + records))
      case ClearThrew => marked.(orderSaved := false, db := s.db.(orders := s.db.orders + records));
    assert t.db.orders == s.db.orders + records;
    forall i | 0 <= i < |rows|
      ensures t.db.orders[|s.db.orders| + i] == records[i]
    {
    }
  }

  /** The cart changes only in a run whose orders insert succeeded, and then
      it is the cart with the user's rows deleted. */
  lemma CartClearedOnlyAfterInsert(s: Saver, sessionId: string, session: Option<Session>, userId: string, r: Replies)
    ensures var t := Save(s, sessionId, session, userId, r);
      t.db.cart != s.db.cart ==>
        |t.db.orders| > |s.db.orders| && t.db.cart == ClearCart(s.db.cart, userId)
  {
    var t := Save(s, sessionId, session, userId, r);
    if t.db.cart != s.db.cart {
      assert !Guarded(s, sessionId) && r.clear == Cleared;
      assert t.db.cart == ClearCart(s.db.cart, userId);
    }
  }

  /** A failed insert leaves the cart and the orders as they were and releases
      `orderSaved`. */
  lemma InsertFailureKeepsCart(s: Saver, sessionId: string, session: Option<Session>, userId: string, r: Replies)
    requires !Guarded(s, sessionId) && SingleDraft(s.db.drafts, sessionId, r.draftFails).Some?
    requires !r.cartFails && RowsOfUser(s.db.cart, userId) != [] && r.insertFails
    ensures var t := Save(s, sessionId, session, userId, r);
      t.db == s.db && !t.orderSaved
  {
  }

  /** A failed cart fetch writes nothing and releases `orderSaved`. */
  lemma CartFetchFailureWritesNothing(s: Saver, sessionId: string, session: Option<Session>, userId: string, r: Replies)
    requires !Guarded(s, sessionId) && SingleDraft(s.db.drafts, sessionId, r.draftFails).Some? && r.cartFails
    ensures var t := Save(s, sessionId, session, userId, r);
      t.db == s.db && !t.orderSaved
  {
  }

  /** Missing session data makes building the order rows throw before the
      insert: nothing is written and the `catch` releases `orderSaved`. */
  lemma MissingSessionWritesNothing(s: Saver, sessionId: string, userId: string, r: Replies)
    requires !Guarded(s, sessionId) && SingleDraft(s.db.drafts, sessionId, r.draftFails).Some?
    requires !r.cartFails && RowsOfUser(s.db.cart, userId) != []
    ensures var t := Save(s, sessionId, None, userId, r);
      t.db == s.db && !t.orderSaved
  {
  }

  /** A cart clear that answers with an error is only logged: the orders stay
      inserted, the cart stays as it was and `orderSaved` stays set. */
  lemma ClearFailureOnlyLogged(s: Saver, sessionId: string, session: Session, userId: string, r: Replies)
    requires !Guarded(s, sessionId) && SingleDraft(s.db.drafts, sessionId, r.draftFails).Some?
    requires !r.cartFails && RowsOfUser(s.db.cart, userId) != [] && !r.insertFails && r.clear == ClearError
    ensures var t := Save(s, sessionId, Some(session), userId, r);
      t.db.cart == s.db.cart && |t.db.orders| > |s.db.orders| && t.orderSaved
  {
  }

  /** A cart clear that throws keeps the inserted orders and the cart, but the
      `catch` releases `orderSaved`. */
  lemma ClearThrowReleasesSaved(s: Saver, sessionId: string, session: Session, userId: string, r: Replies)
    requires !Guarded(s, sessionId) && SingleDraft(s.db.drafts, sessionId, r.draftFails).Some?
    requires !r.cartFails && RowsOfUser(s.db.cart, userId) != [] && !r.insertFails && r.clear == ClearThrew
    ensures var t := Save(s, sessionId, Some(session), userId, r);
      && t.db.cart == s.db.cart && |t.db.orders| > |s.db.orders|
      && !t.orderSaved && t.processed == Some(sessionId)
  {
  }

  /** A run inserted orders. */
  predicate Inserted(before: Saver, after: Saver)
  {
    |after.db.orders| > |before.db.orders|
  }

  /** A run that inserted orders has recorded its session, and leaves
      `orderSaved` set unless the cart clear threw. */
  lemma InsertLeavesGuard(s: Saver, sessionId: string, session: Option<Session>, userId: string, r: Replies)
    requires Inserted(s, Save(s, sessionId, session, userId, r))
    ensures var t := Save(s, sessionId, session, userId, r);
      t.processed == Some(sessionId) && (t.orderSaved <==> r.clear != ClearThrew)
  {
  }

  /** A call inserts a batch of orders exactly when it passes the guard, finds
      its single draft, reads a non-empty cart, has session data and its insert
      succeeds. */
  lemma InsertsExactlyWhen(s: Saver, sessionId: string, session: Option<Session>, userId: string, r: Replies)
    ensures Inserted(s, Save(s, sessionId, session, userId, r)) <==>
      && !Guarded(s, sessionId) && SingleDraft(s.db.drafts, sessionId, r.draftFails).Some?
      && !r.cartFails && RowsOfUser(s.db.cart, userId) != [] && session.Some? && !r.insertFails
  {
  }

  // ---------------------------------------------------------------------------
  // Sequences of commit calls

  datatype Call = Call(sessionId: string, session: Option<Session>, userId: string, replies: Replies)

  function Run(s: Saver, calls: seq<Call>): Saver
    decreases |calls|
  {
    if calls == [] then s
    else
      var c := calls[0];
      Run(Save(s, c.sessionId, c.session, c.userId, c.replies), calls[1..])
  }

  /** How many calls of a run inserted a batch of orders. */
  function Batches(s: Saver, calls: seq<Call>): nat
    decreases |calls|
  {
    if calls == [] then 0
    else
      var c := calls[0];
      var t := Save(s, c.sessionId, c.session, c.userId, c.replies);
      (if Inserted(s, t) then 1 else 0) + Batches(t, calls[1..])
  }

  /** Whatever the session ids and the other outcomes, as long as no cart
      clear throws, at most one batch of orders is inserted, and none once
      `orderSaved` is set. */
  lemma {:induction false} AtMostOneBatch(s: Saver, calls: seq<Call>)
    ensures (forall c :: c in calls ==> c.replies.clear != ClearThrew) ==>
              Batches(s, calls) <= 1 && (s.orderSaved ==> Batches(s, calls) == 0)
    decreases |calls|
  {
    if calls != [] && forall c :: c in calls ==> c.replies.clear != ClearThrew {
      var c := calls[0];
      var t := Save(s, c.sessionId, c.session, c.userId, c.replies);
      assert c in calls;
      assert forall d :: d in calls[1..] ==> d in calls;
      AtMostOneBatch(t, calls[1..]);
      if Inserted(s, t) {
        InsertLeavesGuard(s, c.sessionId, c.session, c.userId, c.replies);
      }
    }
  }

  /** A cart clear that throws reopens the guard for other session ids: two
      calls with different ids insert two batches. */
  lemma ThrownClearAllowsSecondBatch()
    ensures var row := CartRow("u", "apparel", 7, None, None);
      var s := Saver(false, None, Tables([Draft(1, Some("a")), Draft(2, Some("b"))], [row], []));
      var first := Call("a", Some(Session(100)), "u", Replies(false, false, false, ClearThrew));
      var second := Call("b", Some(Session(100)), "u", Replies(false, false, false, Cleared));
      Batches(s, [first, second]) == 2
  {
    var row := CartRow("u", "apparel", 7, None, None);
    var drafts := [Draft(1, Some("a")), Draft(2, Some("b"))];
    var s := Saver(false, None, Tables(drafts, [row], []));
    var first := Call("a", Some(Session(100)), "u", Replies(false, false, false, ClearThrew));
    var second := Call("b", Some(Session(100)), "u", Replies(false, false, false, Cleared));
    assert Filter(drafts, DraftOfSession("a")) == [Draft(1, Some("a"))] by {
      assert Filter(drafts[1..], DraftOfSession("a")) == [];
    }
    assert Filter(drafts, DraftOfSession("b")) == [Draft(2, Some("b"))] by {
      assert drafts[1..] == [Draft(2, Some("b"))];
      assert Filter(drafts[1..][1..], DraftOfSession("b")) == [];
    }
    assert RowsOfUser([row], "u") == [row];
    var t := Save(s, "a", Some(Session(100)), "u", first.replies);
    assert |t.db.orders| == 1 && t.db.cart == [row] && !t.orderSaved;
    var t2 := Save(t, "b", Some(Session(100)), "u", second.replies);
    assert |t2.db.orders| == 2;
    assert [first, second][1..] == [second];
    assert [second][1..] == [];
    assert Batches(t2, []) == 0;
    assert Batches(t, [second]) == 1;
    assert Batches(s, [first, second]) == 1 + Batches(t, [second]);
  }

  /** Calls that all carry a session already guarded insert nothing. */
  lemma {:induction false} GuardedBatchesZero(s: Saver, sessionId: string, calls: seq<Call>)
    requires Guarded(s, sessionId)
    requires forall c :: c in calls ==> c.sessionId == sessionId
    ensures Batches(s, calls) == 0
    decreases |calls|
  {
    if calls != [] {
      assert calls[0] in calls;
      assert forall c :: c in calls[1..] ==> c in calls;
      GuardedBatchesZero(s, sessionId, calls[1..]);
    }
  }

  /** With one session id, as on one page, at most one batch is inserted
      whatever the outcomes, a thrown cart clear included. */
  lemma SameSessionAtMostOneBatch(s: Saver, calls: seq<Call>)
    requires forall c :: c in calls ==> c.sessionId == calls[0].sessionId
    ensures Batches(s, calls) <= 1
  {
    if calls != [] {
      var c := calls[0];
      var t := Save(s, c.sessionId, c.session, c.userId, c.replies);
      assert forall d :: d in calls[1..] ==> d in calls;
      GuardedBatchesZero(t, c.sessionId, calls[1..]);
    }
  }

  /** Once a session is guarded, further calls for it change nothing. */
  lemma {:induction false} GuardedRunIsNoOp(s: Saver, sessionId: string, calls: seq<Call>)
    requires Guarded(s, sessionId)
    requires forall c :: c in calls ==> c.sessionId == sessionId
    ensures Run(s, calls) == s
    decreases |calls|
  {
    if calls != [] {
      assert calls[0] in calls;
      assert forall c :: c in calls[1..] ==> c in calls;
      GuardedRunIsNoOp(s, sessionId, calls[1..]);
    }
  }

  /** With one session id, only the first call has any effect: a failure
      releases `orderSaved`, but `processedSession` still blocks every retry. */
  lemma OnlyFirstCallCounts(s: Saver, calls: seq<Call>)
    requires calls != []
    requires forall c :: c in calls ==> c.sessionId == calls[0].sessionId
    ensures var c := calls[0];
      Run(s, calls) == Save(s, c.sessionId, c.session, c.userId, c.replies)
  {
    var c := calls[0];
    var t := Save(s, c.sessionId, c.session, c.userId, c.replies);
    assert forall d :: d in calls[1..] ==> d in calls;
    GuardedRunIsNoOp(t, c.sessionId, calls[1..]);
  }

  // ---------------------------------------------------------------------------
  // The page: payment verification and the two effects

  /** `verificationStatus`: 'loading', 'error' or 'success'. */
  datatype Status = Loading | Error | Succeeded

  /** The `verify-session` function: a failed or throwing call, or its answer. */
  datatype VerifyReply = VerifyFailed | Verified(success: bool, session: Option<Session>)

  datatype Page = Page(status: Status, sessionData: Option<Session>, saver: Saver)

  function InitialPage(db: Tables): Page
  {
    Page(Loading, None, Saver(false, None, db))
  }

  /** `searchParams.get('session_id')` is truthy. */
  predicate HasSessionId(param: Option<string>)
  {
    param.Some? && param.value != ""
  }

  /** The mount effect as written: it calls `verifyPayment` only for a present
      session id not yet processed, so a missing id leaves the status alone. */
  function Mount(p: Page, param: Option<string>, user: Option<string>, reply: VerifyReply, r: Replies): (q: Page)
    ensures q.status == p.status || q.status in {Error, Succeeded}
    ensures q.saver != p.saver ==> q.status == Succeeded && user.Some? && !p.saver.orderSaved
  {
    if !HasSessionId(param) || p.saver.processed == param then p
    else
      match reply
      case VerifyFailed => p.(status := Error)
      case Verified(success, session) =>
        if !success then p.(status := Error)
        else
          var verified := p.(status := Succeeded, sessionData := session);
          if user.Some? && !p.saver.orderSaved
          then verified.(saver := Save(p.saver, param.value, session, user.value, r))
          else verified
  }

  /** The effect that runs when the user, the session data or the status
      changes. */
  function UserArrives(p: Page, param: Option<string>, user: Option<string>, r: Replies): (q: Page)
    ensures q.status == p.status && q.sessionData == p.sessionData
    ensures q.saver != p.saver ==> p.status == Succeeded && user.Some? && !p.saver.orderSaved
  {
    if user.Some? && HasSessionId(param) && p.sessionData.Some? && p.status == Succeeded && !p.saver.orderSaved
    then p.(saver := Save(p.saver, param.value, p.sessionData, user.value, r))
    else p
  }

  /** A failed or unsuccessful verification gives 'error' and saves nothing. */
  lemma FailedVerificationSavesNothing(p: Page, param: Option<string>, user: Option<string>,
                                       reply: VerifyReply, r: Replies)
    requires HasSessionId(param) && p.saver.processed != param
    requires reply.VerifyFailed? || !reply.success
    ensures Mount(p, param, user, reply, r) == p.(status := Error)
  {
  }

  /** A page event: the mount effect or a change of the signed-in user. */
  datatype Event = MountEvent(user: Option<string>, reply: VerifyReply, replies: Replies)
                 | UserEvent(user: Option<string>, replies: Replies)

  function Step(p: Page, param: Option<string>, e: Event): Page
  {
    match e
    case MountEvent(user, reply, r) => Mount(p, param, user, reply, r)
    case UserEvent(user, r) => UserArrives(p, param, user, r)
  }

  function PageBatches(p: Page, param: Option<string>, events: seq<Event>): nat
    decreases |events|
  {
    if events == [] then 0
    else
      var q := Step(p, param, events[0]);
      (if Inserted(p.saver, q.saver) then 1 else 0) + PageBatches(q, param, events[1..])
  }

  /** Each page step commits through one `saveOrderToDatabase` call at most. */
  lemma StepIsOneSave(p: Page, param: Option<string>, e: Event)
    ensures var q := Step(p, param, e);
      q.saver == p.saver
      || (HasSessionId(param) && exists session, userId, r ::
            q.saver == Save(p.saver, param.value, session, userId, r))
  {
  }

  /** However the effects and their remote outcomes interleave, one page
      inserts at most one batch of orders. */
  lemma {:induction false} PageAtMostOneBatch(p: Page, param: Option<string>, events: seq<Event>)
    ensures PageBatches(p, param, events) <= 1
    ensures HasSessionId(param) && Guarded(p.saver, param.value) ==> PageBatches(p, param, events) == 0
    decreases |events|
  {
    if events != [] {
      var q := Step(p, param, events[0]);
      StepIsOneSave(p, param, events[0]);
      PageAtMostOneBatch(q, param, events[1..]);
      if q.saver != p.saver {
        // the step ran one commit call for the page's session id, which
        // leaves that id guarded for every later step
        var session, userId, r :| q.saver == Save(p.saver, param.value, session, userId, r);
        assert Guarded(q.saver, param.value);
      }
    }
  }

  // ---------------------------------------------------------------------------
  // Finding: a missing session id

  /** As written, a load without a usable `session_id` never leaves
      'loading': the mount effect's guard skips `verifyPayment`, whose own
      'error' branch for that case cannot run. */
  lemma MissingSessionIdStaysLoading(db: Tables, user: Option<string>, reply: VerifyReply, r: Replies)
    ensures Mount(InitialPage(db), None, user, reply, r).status == Loading
    ensures Mount(InitialPage(db), Some(""), user, reply, r).status == Loading
  {
  }

  /** The mount effect with the missing-id branch reachable, as `verifyPayment`
      intends: a missing id gives 'error'. */
  function MountIntended(p: Page, param: Option<string>, user: Option<string>, reply: VerifyReply, r: Replies): (q: Page)
    ensures !HasSessionId(param) ==> q == p.(status := Error)
    ensures q.status == p.status || q.status in {Error, Succeeded}
    ensures q.saver != p.saver ==> q.status == Succeeded && user.Some? && !p.saver.orderSaved
  {
    if !HasSessionId(param) then p.(status := Error)
    else Mount(p, param, user, reply, r)
  }

  /** With the intended branch, a fresh page always leaves 'loading', and it
      still commits only in the cases the written effect does. */
  lemma IntendedMountSettles(db: Tables, param: Option<string>, user: Option<string>, reply: VerifyReply, r: Replies)
    ensures MountIntended(InitialPage(db), param, user, reply, r).status != Loading
    ensures MountIntended(InitialPage(db), param, user, reply, r).saver
            == Mount(InitialPage(db), param, user, reply, r).saver
  {
  }

  // ---------------------------------------------------------------------------
  // The page as a component with state

  class SuccessPage {
    var status: Status
    var sessionData: Option<Session>
    var orderSaved: bool
    var processedSession: Option<string>
    var drafts: seq<Draft>
    var cart: seq<CartRow>
    var orders: seq<OrderRecord>

    function Snapshot(): Page
      reads this
    {
      Page(status, sessionData, Saver(orderSaved, processedSession, Tables(drafts, cart, orders)))
    }

    constructor (db: Tables)
      ensures Snapshot() == InitialPage(db)
    {
      status, sessionData := Loading, None;
      orderSaved, processedSession := false, None;
      drafts, cart, orders := db.drafts, db.cart, db.orders;
    }

    /** `saveOrderToDatabase`, step by step. */
    method SaveOrderToDatabase(sessionId: string, session: Option<Session>, userId: string, r: Replies)
      modifies this
      ensures Snapshot() == old(Snapshot()).(saver := Save(old(Snapshot()).saver, sessionId, session, userId, r))
    {
      if orderSaved || processedSession == Some(sessionId) {
        return;
      }
      orderSaved := true;
      processedSession := Some(sessionId);

      var orderDraft := SingleDraft(drafts, sessionId, r.draftFails);
      if orderDraft.None? {
        orderSaved := false;
        return;
      }

      if r.cartFails {
        orderSaved := false;
        return;
      }
      var cartItems := RowsOfUser(cart, userId);
      if |cartItems| == 0 {
        return;
      }

      if session.None? {
        // reading `amount_total` of undefined throws; the catch resets the flag
        orderSaved := false;
        return;
      }
      var orderRecords := OrderRecords(cartItems, userId, sessionId, session.value.amountTotal, orderDraft.value.id);

      if r.insertFails {
        orderSaved := false;
        return;
      }
      orders := orders + orderRecords;

      if r.clear == Cleared {
        cart := ClearCart(cart, userId);
      } else if r.clear == ClearThrew {
        // the throw reaches the `catch`, which resets the flag
        orderSaved := false;
      }
    }

    /** The mount effect and `verifyPayment`, as written. */
    method VerifyPaymentEffect(param: Option<string>, user: Option<string>, reply: VerifyReply, r: Replies)
      modifies this
      ensures Snapshot() == Mount(old(Snapshot()), param, user, reply, r)
    {
      if !HasSessionId(param) || processedSession == param {
        return;
      }
      var sessionId := param.value;
      if reply.VerifyFailed? || !reply.success {
        status := Error;
        return;
      }
      sessionData := reply.session;
      status := Succeeded;
      if user.Some? && !orderSaved {
        SaveOrderToDatabase(sessionId, reply.session, user.value, r);
      }
    }

    /** The effect on `[user, sessionData, verificationStatus]`. */
    method UserEffect(param: Option<string>, user: Option<string>, r: Replies)
      modifies this
      ensures Snapshot() == UserArrives(old(Snapshot()), param, user, r)
    {
      if user.Some? && HasSessionId(param) && sessionData.Some?
         && status == Succeeded && !orderSaved {
        SaveOrderToDatabase(param.value, sessionData, user.value, r);
      }
    }
  }
}
