/**
 * The `create-chat` server function: a chain of guards on the request, then
 * either the existing chat between the buyer and the seller for the listing,
 * or a newly created chat readable and updatable by both, deletable by the buyer.
 */
module CreateChat {
  import opened Wrappers

  /** The two fields read from the parsed JSON body; None when a field is absent. */
  datatype Body = Body(listingId: Option<string>, sellerId: Option<string>)

  /**
   * A request: the `x-appwrite-user-id` header (None when absent) and the body,
   * None when `JSON.parse` rejects it.
   */
  datatype Request = Request(userId: Option<string>, body: Option<Body>)

  /** The listing document, as far as the function reads it. */
  datatype Listing = Listing(userId: string, title: string)

  /** A row of the chats collection, as far as the duplicate query reads it. */
  datatype ChatRow = ChatRow(id: string, listingId: string, buyerId: string, sellerId: string)

  datatype Action = Read | Update | Delete
  /** `Permission.<action>(Role.user(userId))`. */
  datatype Permission = Permission(action: Action, userId: string)

  /** The document the function asks the database to create. */
  datatype ChatData = ChatData(buyerId: string, sellerId: string, listingId: string, listingTitle: string,
                               createdAt: string, updatedAt: string)
  datatype CreateCall = CreateCall(data: ChatData, permissions: seq<Permission>)

  /** The JSON reply and its status code; absent keys are None. */
  datatype Reply = Reply(status: nat, success: bool, chatId: Option<string>, existing: Option<bool>, error: Option<string>)

  /** What one invocation does: its reply, and the create call it issued, if any. */
  datatype Handled = Handled(reply: Reply, created: Option<CreateCall>)

  predicate Truthy(v: Option<string>) {
    v.Some? && v.value != ""
  }

  function Fail(status: nat, message: string): Reply {
    Reply(status, false, None, None, Some(message))
  }

  /** The rows `Query.equal` on listing, buyer and seller selects, in collection order. */
  function Matching(rows: seq<ChatRow>, listingId: string, buyerId: string, sellerId: string): (r: seq<ChatRow>)
    ensures forall x :: x in r <==> x in rows && x.listingId == listingId && x.buyerId == buyerId && x.sellerId == sellerId
    ensures |r| <= |rows|
  {
    if rows == [] then []
    else
      var rest := Matching(rows[1..], listingId, buyerId, sellerId);
      var x := rows[0];
      assert forall y :: y in rows <==> y == x || y in rows[1..];
      if x.listingId == listingId && x.buyerId == buyerId && x.sellerId == sellerId then [x] + rest else rest
  }

  /** The permission set of a new chat. */
  function ChatPermissions(buyerId: string, sellerId: string): (r: seq<Permission>)
    ensures forall p :: p in r ==> p.userId == buyerId || p.userId == sellerId
    ensures forall p :: p in r && p.action == Delete ==> p.userId == buyerId
    ensures Permission(Read, buyerId) in r && Permission(Read, sellerId) in r
    ensures Permission(Update, buyerId) in r && Permission(Update, sellerId) in r
  {
    [Permission(Read, buyerId), Permission(Read, sellerId),
     Permission(Update, buyerId), Permission(Update, sellerId),
     Permission(Delete, buyerId)]
  }

  predicate Grants(perms: seq<Permission>, action: Action, userId: string) {
    Permission(action, userId) in perms
  }

  /**
   * The handler. `listing` is what `getDocument` settles with, `rows` what the
   * duplicate query settles with (the whole collection, filtered here),
   * `created` what `createDocument` settles with, `now` the ISO time stamp.
   */
  function HandleCreateChat(req: Request, listing: Result<Listing>, rows: Result<seq<ChatRow>>,
                            created: Result<string>, now: string): (h: Handled)
    ensures h.reply.success <==> h.reply.status == 200
    ensures h.created.Some? ==> h.reply.status == 200 || h.reply.status == 500
  {
    if !Truthy(req.userId) then Handled(Fail(401, "Authentication required"), None)
    else if req.body.None? then Handled(Fail(400, "Invalid request body"), None)
    else
      var body := req.body.value;
      if !Truthy(body.listingId) || !Truthy(body.sellerId) then
        Handled(Fail(400, "listing_id and seller_id are required"), None)
      else
        var buyer, seller, listingId := req.userId.value, body.sellerId.value, body.listingId.value;
        if buyer == seller then Handled(Fail(400, "Cannot start chat with yourself"), None)
        else if listing.Err? then Handled(Fail(500, listing.error.message), None)
        else if listing.value.userId != seller then Handled(Fail(400, "Invalid seller for this listing"), None)
        else if rows.Err? then Handled(Fail(500, rows.error.message), None)
        else
          var found := Matching(rows.value, listingId, buyer, seller);
          if |found| > 0 then Handled(Reply(200, true, Some(found[0].id), Some(true), None), None)
          else
            var call := CreateCall(ChatData(buyer, seller, listingId, listing.value.title, now, now),
                                   ChatPermissions(buyer, seller));
            match created
            case Err(e) => Handled(Fail(500, e.message), Some(call))
            case Ok(id) => Handled(Reply(200, true, Some(id), Some(false), None), Some(call))
  }

  /** The request passes every guard that does not need the database. */
  predicate WellFormed(req: Request) {
    && Truthy(req.userId)
    && req.body.Some?
    && Truthy(req.body.value.listingId)
    && Truthy(req.body.value.sellerId)
    && req.userId.value != req.body.value.sellerId.value
  }

  /** A missing user header is answered 401 whatever the body, and nothing is created. */
  lemma UnauthenticatedFirst(req: Request, listing: Result<Listing>, rows: Result<seq<ChatRow>>, created: Result<string>, now: string)
    requires !Truthy(req.userId)
    ensures var h := HandleCreateChat(req, listing, rows, created, now);
      h.reply == Reply(401, false, None, None, Some("Authentication required")) && h.created.None?
  {
  }

  /**
   * Each local guard answers 400 in this order: unparsable body, then a missing
   * field, then a seller equal to the buyer; none of them creates anything.
   */
  lemma GuardOrder(req: Request, listing: Result<Listing>, rows: Result<seq<ChatRow>>, created: Result<string>, now: string)
    requires Truthy(req.userId) && !WellFormed(req)
    ensures var h := HandleCreateChat(req, listing, rows, created, now);
      && h.reply.status == 400 && h.created.None?
      && h.reply.error == Some(
           if req.body.None? then "Invalid request body"
           else if !Truthy(req.body.value.listingId) || !Truthy(req.body.value.sellerId) then "listing_id and seller_id are required"
           else "Cannot start chat with yourself")
  {
  }

  /** A listing owned by someone other than the claimed seller is refused, and nothing is created. */
  lemma SellerMismatchRefused(req: Request, l: Listing, rows: Result<seq<ChatRow>>, created: Result<string>, now: string)
    requires WellFormed(req) && l.userId != req.body.value.sellerId.value
    ensures var h := HandleCreateChat(req, Ok(l), rows, created, now);
      h.reply == Fail(400, "Invalid seller for this listing") && h.created.None?
  {
  }

  /**
   * When a chat for the same listing, buyer and seller exists, its first match
   * is returned as existing and nothing is created.
   */
  lemma ExistingChatReused(req: Request, l: Listing, rows: seq<ChatRow>, created: Result<string>, now: string, i: nat)
    requires WellFormed(req) && l.userId == req.body.value.sellerId.value
    requires i < |rows| && rows[i].listingId == req.body.value.listingId.value
    requires rows[i].buyerId == req.userId.value && rows[i].sellerId == req.body.value.sellerId.value
    ensures var h := HandleCreateChat(req, Ok(l), Ok(rows), created, now);
      && h.reply.success && h.reply.existing == Some(true) && h.created.None?
      && h.reply.chatId == Some(Matching(rows, req.body.value.listingId.value, req.userId.value, req.body.value.sellerId.value)[0].id)
  {
    assert rows[i] in Matching(rows, req.body.value.listingId.value, req.userId.value, req.body.value.sellerId.value);
  }

  /**
   * A created chat is the authenticated user's, as buyer, with the listing's
   * title and equal creation and update times; both parties may read and
   * update it and only the buyer may delete it.
   */
  lemma NewChatShape(req: Request, listing: Result<Listing>, rows: Result<seq<ChatRow>>, created: Result<string>, now: string)
    requires HandleCreateChat(req, listing, rows, created, now).created.Some?
    ensures var h := HandleCreateChat(req, listing, rows, created, now);
      var c := h.created.value; var buyer := req.userId.value; var seller := c.data.sellerId;
      && WellFormed(req) && listing.Ok? && rows.Ok?
      && c.data.buyerId == buyer && seller == req.body.value.sellerId.value && seller == listing.value.userId
      && c.data.listingId == req.body.value.listingId.value
      && c.data.listingTitle == listing.value.title && c.data.createdAt == c.data.updatedAt == now
      && Matching(rows.value, c.data.listingId, buyer, seller) == []
      && (forall u :: Grants(c.permissions, Read, u) <==> u == buyer || u == seller)
      && (forall u :: Grants(c.permissions, Update, u) <==> u == buyer || u == seller)
      && (forall u :: Grants(c.permissions, Delete, u) <==> u == buyer)
      && (h.reply.existing == Some(false) <==> created.Ok?)
  {
  }

  /**
   * The function succeeds exactly when the request is well formed, the listing
   * belongs to the seller, the query runs, and either a matching chat exists or
   * the creation goes through.
   */
  lemma SucceedsExactly(req: Request, listing: Result<Listing>, rows: Result<seq<ChatRow>>, created: Result<string>, now: string)
    ensures HandleCreateChat(req, listing, rows, created, now).reply.success <==>
      && WellFormed(req) && listing.Ok? && listing.value.userId == req.body.value.sellerId.value && rows.Ok?
      && (|Matching(rows.value, req.body.value.listingId.value, req.userId.value, req.body.value.sellerId.value)| > 0
          || created.Ok?)
  {
  }

  /** A failed database call is answered 500 with its message. */
  lemma DatabaseFailure500(req: Request, listing: Result<Listing>, rows: Result<seq<ChatRow>>, created: Result<string>, now: string)
    requires WellFormed(req)
    requires listing.Err? || (listing.value.userId == req.body.value.sellerId.value && rows.Err?)
    ensures var h := HandleCreateChat(req, listing, rows, created, now);
      h.reply == Fail(500, if listing.Err? then listing.error.message else rows.error.message) && h.created.None?
  {
  }
}
