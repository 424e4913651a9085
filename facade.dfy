/**
 * The client-side logic of the data-access façade (`DataService`,
 * utils/dataService.js): how the listing and barter-trade reads are filtered
 * and paginated, how the notification, barter-trade and status-update records
 * are composed, how an upload path is named, and the registry of realtime
 * subscriptions. A backend query is described by the predicates it applies to
 * a row and the row range it asks for; the backend itself is not modelled.
 */
module Facade {
  import opened JsValues

  // ---------------------------------------------------------------------
  // Query descriptions
  // ---------------------------------------------------------------------

  /** One row predicate of a backend query. */
  datatype Predicate =
    | Eq(column: string, value: Value)                // .eq(column, value)
    | Neq(column: string, value: Value)               // .neq(column, value)
    | ContainsIgnoringCase(column: string, needle: string)  // .ilike(column, `%needle%`)

  /** An inclusive row range, as `.range(from, to)` takes it. */
  datatype Range = Range(from: int, to: int)

  /** A read of `table` keeping the rows every predicate accepts, newest
      first (`.order('created_at', { ascending: false })`), within `range`. */
  datatype Query = Query(table: string, predicates: seq<Predicate>, range: Option<Range>)

  function LowerChar(c: char): char
  {
    if 'A' <= c <= 'Z' then (c as int + 32) as char else c
  }

  /** ASCII lower-casing, character by character. */
  function Lower(s: string): (r: string)
    ensures |r| == |s|
    ensures forall k :: 0 <= k < |s| ==> r[k] == LowerChar(s[k])
  {
    if s == [] then [] else [LowerChar(s[0])] + Lower(s[1..])
  }

  predicate OccursAt(needle: string, hay: string, i: int)
  {
    0 <= i <= |hay| - |needle| && hay[i..i + |needle|] == needle
  }

  predicate IsSubstring(needle: string, hay: string)
  {
    exists i :: 0 <= i <= |hay| - |needle| && OccursAt(needle, hay, i)
  }

  /** SQL semantics: a comparison with a missing or NULL column is not true. */
  predicate Holds(p: Predicate, row: Record)
  {
    match p
    case Eq(c, v) => c in row && row[c] != Null && row[c] == v
    case Neq(c, v) => c in row && row[c] != Null && row[c] != v
    case ContainsIgnoringCase(c, needle) =>
      c in row && row[c].Str? && IsSubstring(Lower(needle), Lower(row[c].s))
  }

  predicate Selects(q: Query, row: Record)
  {
    forall p :: p in q.predicates ==> Holds(p, row)
  }

  /** The optional filters of `getFoodListings`; an empty string or zero
      stands for a filter that is absent or falsy. */
  datatype ListingFilters = ListingFilters(
    category: string, listingType: string, location: string, userId: string,
    status: string, page: int, limit: int)

  /** `.range(from, to)` is applied only when both `page` and `limit` are truthy. */
  function Pagination(page: int, limit: int): Option<Range>
  {
    if page != 0 && limit != 0 then
      var from := (page - 1) * limit;
      Some(Range(from, from + limit - 1))
    else None
  }

  function EqIfGiven(column: string, value: string): seq<Predicate>
  {
    if value != "" then [Eq(column, Str(value))] else []
  }

  /** The query `getFoodListings` sends. */
  function FoodListingsQuery(f: ListingFilters): Query
  {
    Query("food_listings",
      [Eq("status", Str("active"))]
        + EqIfGiven("category", f.category)
        + EqIfGiven("listing_type", f.listingType)
        + (if f.location != "" then [ContainsIgnoringCase("location", f.location)] else [])
        + EqIfGiven("user_id", f.userId),
      Pagination(f.page, f.limit))
  }

  /** A column equals the given text, or the filter is absent. */
  predicate MatchesIfGiven(row: Record, column: string, value: string)
  {
    value == "" || (column in row && row[column] == Str(value))
  }

  /** Reference definition: the listings a caller of `getFoodListings` gets. */
  predicate ListingWanted(f: ListingFilters, row: Record)
  {
    && "status" in row && row["status"] == Str("active")
    && MatchesIfGiven(row, "category", f.category)
    && MatchesIfGiven(row, "listing_type", f.listingType)
    && (f.location == "" ||
        ("location" in row && row["location"].Str? && IsSubstring(Lower(f.location), Lower(row["location"].s))))
    && MatchesIfGiven(row, "user_id", f.userId)
  }

  /** Each returned listing carries its joined `users` record again as `donor`. */
  function WithDonor(row: Record): (r: Record)
    ensures Field(r, "donor") == Field(row, "users")
    ensures forall k :: k != "donor" ==> Field(r, k) == Field(row, k)
  {
    if "users" in row then row["donor" := row["users"]] else row - {"donor"}
  }

  /** The optional filters of `getBarterTrades`. */
  datatype BarterFilters = BarterFilters(kind: string, status: string, tradeType: string)

  /** The user-involvement predicate (`userId` empty stands for `null`). */
  function InvolvementPredicates(userId: string, kind: string): seq<Predicate>
  {
    if userId == "" then []
    else if kind == "offered" then [Eq("initiator_id", Str(userId))]
    else if kind == "received" then [Neq("initiator_id", Str(userId))]
    // `.or('initiator_id.eq.<userId>')`: a disjunction of one equality
    else [Eq("initiator_id", Str(userId))]
  }

  /** The query `getBarterTrades` sends. */
  function BarterTradesQuery(userId: string, f: BarterFilters): Query
  {
    Query("barter_trades",
      InvolvementPredicates(userId, f.kind)
        + EqIfGiven("status", f.status)
        + EqIfGiven("trade_type", f.tradeType),
      None)
  }

  /** The initiator column holds a value that is not NULL. */
  predicate HasInitiator(row: Record)
  {
    "initiator_id" in row && row["initiator_id"] != Null
  }

  // ---------------------------------------------------------------------
  // Properties of the queries
  // ---------------------------------------------------------------------

  /** `getFoodListings` selects exactly the active listings that pass every
      filter that was given. */
  lemma FoodListingsQueryMeaning(f: ListingFilters, row: Record)
    ensures Selects(FoodListingsQuery(f), row) <==> ListingWanted(f, row)
  {
    var q := FoodListingsQuery(f);
    if ListingWanted(f, row) {
      forall p | p in q.predicates ensures Holds(p, row) {
      }
    } else {
      assert Eq("status", Str("active")) in q.predicates;
      if f.category != "" { assert Eq("category", Str(f.category)) in q.predicates; }
      if f.listingType != "" { assert Eq("listing_type", Str(f.listingType)) in q.predicates; }
      if f.location != "" { assert ContainsIgnoringCase("location", f.location) in q.predicates; }
      if f.userId != "" { assert Eq("user_id", Str(f.userId)) in q.predicates; }
    }
  }

  /** The `status` filter is ignored: asking for pending listings still
      returns only active ones, so a pending listing is never selected. */
  lemma StatusFilterIgnored(f: ListingFilters, row: Record)
    ensures FoodListingsQuery(f.(status := "pending")) == FoodListingsQuery(f)
    ensures "status" in row && row["status"] == Str("pending") ==> !Selects(FoodListingsQuery(f), row)
  {
    assert Eq("status", Str("active")) in FoodListingsQuery(f).predicates;
  }

  /** A page spans exactly `limit` rows, and page `p + 1` starts right after
      page `p` ends. */
  lemma PaginationContiguous(page: int, limit: int)
    requires page != 0 && page + 1 != 0 && limit != 0
    ensures Pagination(page, limit).Some? && Pagination(page + 1, limit).Some?
    ensures Pagination(page, limit).value.to - Pagination(page, limit).value.from + 1 == limit
    ensures Pagination(page + 1, limit).value.from == Pagination(page, limit).value.to + 1
  {
    assert page * limit == (page - 1) * limit + limit;
  }

  /** Without both `page` and `limit` no range is applied. */
  lemma NoPaginationWithoutBoth(f: ListingFilters)
    requires f.page == 0 || f.limit == 0
    ensures FoodListingsQuery(f).range == None
  {
  }

  /** What `getBarterTrades` selects: `offered` and any unknown kind keep the
      user's own trades, `received` keeps trades with another initiator. */
  lemma BarterTradesQueryMeaning(userId: string, f: BarterFilters, row: Record)
    ensures Selects(BarterTradesQuery(userId, f), row) <==>
      && (userId != "" ==>
            if f.kind == "received" then HasInitiator(row) && row["initiator_id"] != Str(userId)
            else "initiator_id" in row && row["initiator_id"] == Str(userId))
      && MatchesIfGiven(row, "status", f.status)
      && MatchesIfGiven(row, "trade_type", f.tradeType)
  {
    var q := BarterTradesQuery(userId, f);
    if userId != "" {
      var p := if f.kind == "received" then Neq("initiator_id", Str(userId)) else Eq("initiator_id", Str(userId));
      assert InvolvementPredicates(userId, f.kind) == [p];
      assert p in q.predicates;
    }
    if f.status != "" { assert Eq("status", Str(f.status)) in q.predicates; }
    if f.tradeType != "" { assert Eq("trade_type", Str(f.tradeType)) in q.predicates; }
  }

  /** For a signed-in user, the `offered` and `received` reads split the trades
      that have an initiator: every such trade is in exactly one of them. */
  lemma OfferedReceivedPartition(userId: string, status: string, tradeType: string, row: Record)
    requires userId != "" && HasInitiator(row)
    ensures Selects(BarterTradesQuery(userId, BarterFilters("offered", status, tradeType)), row) <==>
      && Selects(BarterTradesQuery(userId, BarterFilters("", status, tradeType)), row)
      && row["initiator_id"] == Str(userId)
    ensures !(Selects(BarterTradesQuery(userId, BarterFilters("offered", status, tradeType)), row) &&
              Selects(BarterTradesQuery(userId, BarterFilters("received", status, tradeType)), row))
    ensures MatchesIfGiven(row, "status", status) && MatchesIfGiven(row, "trade_type", tradeType) ==>
      (Selects(BarterTradesQuery(userId, BarterFilters("offered", status, tradeType)), row) ||
       Selects(BarterTradesQuery(userId, BarterFilters("received", status, tradeType)), row))
  {
    BarterTradesQueryMeaning(userId, BarterFilters("offered", status, tradeType), row);
    BarterTradesQueryMeaning(userId, BarterFilters("received", status, tradeType), row);
    BarterTradesQueryMeaning(userId, BarterFilters("", status, tradeType), row);
  }

  // ---------------------------------------------------------------------
  // Records the façade composes
  // ---------------------------------------------------------------------

  /** The notification row for a reviewed claim. It carries no `user_id`.
      `foodTitle` is the title value as read: a string, or `Null`. */
  datatype Notification = Notification(
    title: string, message: string, kind: string, read: bool, claimId: Value, foodTitle: Value)

  /** The listing-title lookup of `sendClaimReviewNotification`: a row whose
      `title` is text or null, no row (or an error response), or a throw. */
  datatype TitleLookup = TitleFound(title: Option<string>) | TitleMissing | TitleThrew

  /** `${foodTitle}` for a title that is text or null. */
  function TitleText(t: Option<string>): string
  {
    if t.Some? then t.value else "null"
  }

  function TitleValue(t: Option<string>): Value
  {
    if t.Some? then Str(t.value) else Null
  }

  function ClaimReviewNotice(claimId: Value, foodTitle: Option<string>, approved: bool): Notification
  {
    var quoted := "Your claim for \"" + TitleText(foodTitle) + "\"";
    if approved then
      Notification("Food Claim Approved",
        quoted + " has been approved! Please check your email for pickup details.",
        "claim_approved", false, claimId, TitleValue(foodTitle))
    else
      Notification("Food Claim Declined",
        quoted + " was not approved. Please review the guidelines and try again.",
        "claim_declined", false, claimId, TitleValue(foodTitle))
  }

  /** How the notification insert went: its error response is never read. */
  datatype InsertOutcome = Inserted | InsertErrored | InsertThrew

  /** The insert `sendClaimReviewNotification` attempts, if any, and what it returns. */
  datatype ReviewSend = ReviewSend(attempted: Option<Notification>, returned: bool)

  /** Whether the claim row has a `food_id`, so that the title is looked up. */
  predicate LooksUpTitle(claim: Record)
  {
    FieldTruthy(claim, "food_id")
  }

  /** `sendClaimReviewNotification`: `claim` is the claim row (`None` when the
      lookup failed or threw), `lookup` how the listing-title lookup went. */
  function SendClaimReviewNotification(
    claimId: Value, approved: bool, claim: Option<Record>, lookup: TitleLookup, insert: InsertOutcome): ReviewSend
  {
    match claim
    case None => ReviewSend(None, false)
    case Some(c) =>
      if LooksUpTitle(c) && lookup.TitleThrew? then ReviewSend(None, false)
      else
        var foodTitle := if LooksUpTitle(c) && lookup.TitleFound? then lookup.title else Some("");
        ReviewSend(Some(ClaimReviewNotice(claimId, foodTitle, approved)), insert != InsertThrew)
  }

  /** A notification is attempted iff the claim was found and the title lookup
      did not throw; it reflects the decision, quotes the title (empty when no
      title was found, `null` for a null title); the answer is true iff the
      notification was attempted and its insert did not throw. */
  lemma ClaimReviewNotificationContents(
    claimId: Value, approved: bool, claim: Option<Record>, lookup: TitleLookup, insert: InsertOutcome)
    ensures var r := SendClaimReviewNotification(claimId, approved, claim, lookup, insert);
      && (r.attempted.Some? <==> claim.Some? && !(LooksUpTitle(claim.value) && lookup.TitleThrew?))
      && (r.returned <==> r.attempted.Some? && insert != InsertThrew)
      && (r.attempted.Some? ==>
            var n := r.attempted.value;
            var shown := if LooksUpTitle(claim.value) && lookup.TitleFound? then TitleText(lookup.title) else "";
            && n.kind == (if approved then "claim_approved" else "claim_declined")
            && n.title == (if approved then "Food Claim Approved" else "Food Claim Declined")
            && !n.read && n.claimId == claimId
            && "Your claim for \"" + shown + "\"" <= n.message
            && (n.foodTitle == Null <==> LooksUpTitle(claim.value) && lookup == TitleFound(None)))
  {
  }

  /** A backend update of the row with id `id`. */
  datatype Write = Update(table: string, patch: Record, id: Value)

  /** `updateFoodClaimStatus`: exactly one write, of the status alone; no
      notification is sent. */
  function UpdateFoodClaimStatus(claimId: Value, status: Value): (ws: seq<Write>)
    ensures |ws| == 1 && ws[0].Update? && ws[0].table == "food_claims"
    ensures ws[0].id == claimId && ws[0].patch.Keys == {"status"} && ws[0].patch["status"] == status
    ensures forall w :: w in ws ==> w.table != "notifications"
  {
    [Update("food_claims", map["status" := status], claimId)]
  }

  /** The columns `createBarterTrade` copies from the caller's data. */
  const CopiedTradeColumns: set<string> :=
    {"initiator_id", "offered_listing_id", "requested_items", "message", "analysis"}

  /** `{ ...pick }`: the listed keys that are present (an `undefined` value is
      dropped when the row is serialised). */
  function Pick(r: Record, keys: set<string>): Record
  {
    map k | k in r && k in keys :: r[k]
  }

  /** The row `createBarterTrade` inserts; `now` is the ISO timestamp. */
  function BarterTradeRow(tradeData: Record, now: string): (row: Record)
    ensures row.Keys == Pick(tradeData, CopiedTradeColumns).Keys + {"trade_type", "status", "created_at"}
    ensures forall k :: k in CopiedTradeColumns ==> Field(row, k) == Field(tradeData, k)
    ensures row["status"] == Str("pending")
    ensures row["trade_type"] == (if FieldTruthy(tradeData, "trade_type") then tradeData["trade_type"] else Str("direct"))
    ensures row["created_at"] == Str(now)
  {
    Pick(tradeData, CopiedTradeColumns)
      ["trade_type" := FieldOr(tradeData, "trade_type", Str("direct"))]
      ["status" := Str("pending")]
      ["created_at" := Str(now)]
  }

  /** A caller cannot choose the status or the id of a new trade. */
  lemma NewTradeIsPending(tradeData: Record, now: string)
    ensures BarterTradeRow(tradeData, now)["status"] == Str("pending")
    ensures "id" !in BarterTradeRow(tradeData, now)
  {
  }

  /** The patch `updateBarterTradeStatus` sends: `additionalData` is spread
      last, so its keys override `status` and `updated_at`. */
  function BarterStatusPatch(status: Value, now: string, additionalData: Record): (patch: Record)
    ensures patch.Keys == additionalData.Keys + {"status", "updated_at"}
    ensures forall k :: k in additionalData ==> patch[k] == additionalData[k]
    ensures "status" !in additionalData ==> patch["status"] == status
    ensures "updated_at" !in additionalData ==> patch["updated_at"] == Str(now)
  {
    map["status" := status, "updated_at" := Str(now)] + additionalData
  }

  // ---------------------------------------------------------------------
  // Upload path
  // ---------------------------------------------------------------------

  const DefaultBucket := "food-images"

  /** `name.split('.').pop()`: the text after the last dot, or the whole name. */
  function Extension(name: string): (ext: string)
    ensures '.' !in ext
    ensures '.' !in name ==> ext == name
    ensures '.' in name ==> exists stem :: name == stem + "." + ext
  {
    if name == [] then []
    else if name[|name| - 1] == '.' then
      assert name == name[..|name| - 1] + "." + [];
      []
    else
      var init := name[..|name| - 1];
      var e := Extension(init);
      assert name == init + [name[|name| - 1]];
      if '.' in init then
        var stem :| init == stem + "." + e;
        assert name == stem + "." + (e + [name[|name| - 1]]);
        e + [name[|name| - 1]]
      else
        e + [name[|name| - 1]]
  }

  /** The extension is exactly what follows the last dot. */
  lemma {:induction false} ExtensionAfterLastDot(stem: string, ext: string)
    requires '.' !in ext
    ensures Extension(stem + "." + ext) == ext
    decreases |ext|
  {
    var name := stem + "." + ext;
    if ext == [] {
      assert name[|name| - 1] == '.';
    } else {
      var ext' := ext[..|ext| - 1];
      assert name[..|name| - 1] == stem + "." + ext';
      ExtensionAfterLastDot(stem, ext');
      assert ext == ext' + [ext[|ext| - 1]];
    }
  }

  /** `uploadFile`'s object path: `<bucket>/<timestamp>-<random>.<ext>`;
      an omitted bucket (`None`) is the default one. */
  function UploadPath(bucket: Option<string>, timestamp: string, random: string, fileName: string): string
  {
    var b := if bucket.Some? then bucket.value else DefaultBucket;
    b + "/" + timestamp + "-" + random + "." + Extension(fileName)
  }

  lemma UploadPathShape(bucket: Option<string>, timestamp: string, random: string, stem: string, ext: string)
    requires '.' !in ext
    ensures var b := if bucket.Some? then bucket.value else DefaultBucket;
      var path := UploadPath(bucket, timestamp, random, stem + "." + ext);
      && b + "/" <= path
      && path == b + "/" + timestamp + "-" + random + "." + ext
    ensures bucket.None? ==> "food-images/" <= UploadPath(bucket, timestamp, random, stem + "." + ext)
  {
    ExtensionAfterLastDot(stem, ext);
  }

  // ---------------------------------------------------------------------
  // The subscriptions registry
  // ---------------------------------------------------------------------

  /** A realtime channel handle, as the backend SDK returns it. */
  type Handle = nat

  /** One registry entry; a JavaScript `Map` keeps its keys in insertion order. */
  datatype Entry = Entry(name: string, handle: Handle)

  /** The four change feeds the façade can subscribe to. */
  datatype Feed =
    | FoodListingsFeed
    | TradesFeed(userId: string)
    | BarterTradesFeed(userId: string)
    | NotificationsFeed(userId: string)

  /** The key each `subscribeTo*` stores its handle under. */
  function RegistryKey(f: Feed): string
  {
    match f
    case FoodListingsFeed => "food_listings"
    case TradesFeed(_) => "trades"
    case BarterTradesFeed(_) => "barter_trades"
    case NotificationsFeed(_) => "notifications"
  }

  /** The channel each feed opens and the row filter it asks for. */
  datatype Channel = Channel(name: string, table: string, filter: Option<string>)

  function FeedChannel(f: Feed): Channel
  {
    match f
    case FoodListingsFeed => Channel("food_listings_changes", "food_listings", None)
    case TradesFeed(u) =>
      Channel("trades_changes", "trades", Some("initiator_id=eq." + u + " OR recipient_id=eq." + u))
    case BarterTradesFeed(u) => Channel("barter_trades_changes", "barter_trades", Some("initiator_id=eq." + u))
    case NotificationsFeed(u) => Channel("notifications_changes", "notifications", Some("user_id=eq." + u))
  }

  /** Each feed's channel listens to the table its registry key names, under
      `<key>_changes`; only the listings feed is unfiltered. */
  lemma FeedChannelMatchesKey(f: Feed)
    ensures FeedChannel(f).table == RegistryKey(f)
    ensures FeedChannel(f).name == RegistryKey(f) + "_changes"
    ensures FeedChannel(f).filter.None? <==> f.FoodListingsFeed?
  {
  }

  /** Every filtered feed's filter names the user it was opened for. */
  lemma FeedFilterNamesUser(f: Feed)
    requires !f.FoodListingsFeed?
    ensures IsSubstring(f.userId, FeedChannel(f).filter.value)
  {
    match f
    case TradesFeed(u) =>
      UserIdOccurs("initiator_id=eq.", u, " OR recipient_id=eq." + u);
      assert "initiator_id=eq." + u + " OR recipient_id=eq." + u
          == "initiator_id=eq." + u + (" OR recipient_id=eq." + u);
    case BarterTradesFeed(u) =>
      UserIdOccurs("initiator_id=eq.", u, "");
    case NotificationsFeed(u) =>
      UserIdOccurs("user_id=eq.", u, "");
  }

  lemma UserIdOccurs(pre: string, u: string, post: string)
    ensures IsSubstring(u, pre + u + post)
    ensures post == "" ==> IsSubstring(u, pre + u)
  {
    var s := pre + u + post;
    assert s[|pre|..|pre| + |u|] == u;
    assert OccursAt(u, s, |pre|);
    if post == "" {
      assert s == pre + u;
    }
  }

  /** Feeds of different kinds never share a registry key. */
  lemma RegistryKeysDistinct(f: Feed, g: Feed)
    ensures RegistryKey(f) == RegistryKey(g) <==>
      (f.FoodListingsFeed? == g.FoodListingsFeed? && f.TradesFeed? == g.TradesFeed?
       && f.BarterTradesFeed? == g.BarterTradesFeed?)
  {
  }

  ghost predicate DistinctNames(es: seq<Entry>)
  {
    forall i, j :: 0 <= i < j < |es| ==> es[i].name != es[j].name
  }

  /** `subscriptions.get(name)` */
  function Lookup(es: seq<Entry>, name: string): (h: Option<Handle>)
    ensures h.Some? <==> exists i :: 0 <= i < |es| && es[i].name == name
    ensures h.Some? ==> Entry(name, h.value) in es
  {
    if es == [] then None
    else if es[0].name == name then Some(es[0].handle)
    else Lookup(es[1..], name)
  }

  /** `subscriptions.set(name, h)`: an existing key keeps its position and
      gets the new handle; a new key goes last. */
  function Put(es: seq<Entry>, name: string, h: Handle): (r: seq<Entry>)
  {
    if es == [] then [Entry(name, h)]
    else if es[0].name == name then [Entry(name, h)] + es[1..]
    else [es[0]] + Put(es[1..], name, h)
  }

  /** `subscriptions.delete(name)` */
  function Remove(es: seq<Entry>, name: string): (r: seq<Entry>)
    ensures |r| <= |es|
    ensures forall e :: e in r ==> e in es && e.name != name
  {
    if es == [] then []
    else if es[0].name == name then Remove(es[1..], name)
    else [es[0]] + Remove(es[1..], name)
  }

  function Handles(es: seq<Entry>): (hs: seq<Handle>)
    ensures |hs| == |es|
    ensures forall i :: 0 <= i < |es| ==> hs[i] == es[i].handle
  {
    if es == [] then [] else Handles(es[..|es| - 1]) + [es[|es| - 1].handle]
  }

  lemma {:induction false} PutLookup(es: seq<Entry>, name: string, h: Handle, other: string)
    ensures Lookup(Put(es, name, h), name) == Some(h)
    ensures other != name ==> Lookup(Put(es, name, h), other) == Lookup(es, other)
    decreases |es|
  {
    if es != [] && es[0].name != name {
      PutLookup(es[1..], name, h, other);
    }
  }

  /** `Map.set` on a present key replaces its value in place; on an absent
      key it appends the new entry. */
  lemma {:induction false} PutInPlace(es: seq<Entry>, name: string, h: Handle)
    requires DistinctNames(es)
    ensures (exists i :: 0 <= i < |es| && es[i].name == name) ==>
      && |Put(es, name, h)| == |es|
      && forall i :: 0 <= i < |es| ==> Put(es, name, h)[i] == (if es[i].name == name then Entry(name, h) else es[i])
    ensures (forall i :: 0 <= i < |es| ==> es[i].name != name) ==> Put(es, name, h) == es + [Entry(name, h)]
    decreases |es|
  {
    if es != [] {
      assert DistinctNames(es[1..]) by {
        forall i, j | 0 <= i < j < |es[1..]| ensures es[1..][i].name != es[1..][j].name {
          assert es[1..][i] == es[i + 1] && es[1..][j] == es[j + 1];
        }
      }
      PutInPlace(es[1..], name, h);
      if es[0].name == name {
        forall i | 1 <= i < |es| ensures es[i].name != name {
          assert es[0].name != es[i].name;
        }
      } else {
        if exists i :: 0 <= i < |es| && es[i].name == name {
          var i :| 0 <= i < |es| && es[i].name == name;
          assert es[1..][i - 1].name == name;
        }
        if forall i :: 0 <= i < |es| ==> es[i].name != name {
          assert forall i :: 0 <= i < |es[1..]| ==> es[1..][i].name != name by {
            forall i | 0 <= i < |es[1..]| ensures es[1..][i].name != name {
              assert es[1..][i] == es[i + 1];
            }
          }
          assert [es[0]] + (es[1..] + [Entry(name, h)]) == es + [Entry(name, h)];
        }
      }
    }
  }

  /** Hence the handles stay in insertion order: a replaced handle keeps its
      place, a new one goes last. */
  lemma HandlesAfterPut(es: seq<Entry>, name: string, h: Handle)
    requires DistinctNames(es)
    ensures (exists i :: 0 <= i < |es| && es[i].name == name) ==>
      && |Handles(Put(es, name, h))| == |es|
      && forall i :: 0 <= i < |es| ==>
           Handles(Put(es, name, h))[i] == (if es[i].name == name then h else Handles(es)[i])
    ensures (forall i :: 0 <= i < |es| ==> es[i].name != name) ==>
      Handles(Put(es, name, h)) == Handles(es) + [h]
  {
    PutInPlace(es, name, h);
  }

  lemma {:induction false} PutKeepsNamesDistinct(es: seq<Entry>, name: string, h: Handle)
    requires DistinctNames(es)
    ensures DistinctNames(Put(es, name, h))
    ensures forall e :: e in Put(es, name, h) ==> e == Entry(name, h) || (e in es && e.name != name)
    decreases |es|
  {
    if es != [] && es[0].name != name {
      PutKeepsNamesDistinct(es[1..], name, h);
      var r := Put(es, name, h);
      assert r == [es[0]] + Put(es[1..], name, h);
      forall i, j | 0 <= i < j < |r| ensures r[i].name != r[j].name {
        if i == 0 {
          assert r[j] in Put(es[1..], name, h);
          if r[j] != Entry(name, h) {
            assert r[j] in es[1..];
          }
        } else {
          assert r[i] == Put(es[1..], name, h)[i - 1] && r[j] == Put(es[1..], name, h)[j - 1];
        }
      }
    }
  }

  lemma {:induction false} RemoveLookup(es: seq<Entry>, name: string, other: string)
    ensures Lookup(Remove(es, name), name) == None
    ensures other != name ==> Lookup(Remove(es, name), other) == Lookup(es, other)
    decreases |es|
  {
    if es != [] {
      RemoveLookup(es[1..], name, other);
    }
  }

  /** Deleting a key twice is the same as deleting it once. */
  lemma {:induction false} RemoveIdempotent(es: seq<Entry>, name: string)
    ensures Remove(Remove(es, name), name) == Remove(es, name)
    decreases |es|
  {
    if es != [] {
      RemoveIdempotent(es[1..], name);
    }
  }

  lemma {:induction false} RemoveKeepsNamesDistinct(es: seq<Entry>, name: string)
    requires DistinctNames(es)
    ensures DistinctNames(Remove(es, name))
    decreases |es|
  {
    if es != [] {
      RemoveKeepsNamesDistinct(es[1..], name);
      if es[0].name != name {
        var t := Remove(es[1..], name);
        forall x | x in t ensures x.name != es[0].name {
          var k :| 0 <= k < |es[1..]| && es[1..][k] == x;
          assert es[k + 1] == x;
        }
        PrependKeepsNamesDistinct(es[0], t);
      }
    }
  }

  lemma PrependKeepsNamesDistinct(e: Entry, t: seq<Entry>)
    requires DistinctNames(t)
    requires forall x :: x in t ==> x.name != e.name
    ensures DistinctNames([e] + t)
  {
    forall i, j | 0 <= i < j < |[e] + t| ensures ([e] + t)[i].name != ([e] + t)[j].name {
      assert ([e] + t)[j] == t[j - 1];
      if i == 0 {
        assert t[j - 1] in t;
      } else {
        assert ([e] + t)[i] == t[i - 1];
      }
    }
  }

  /** The façade's realtime-subscription registry (`this.subscriptions`).
      `channels` records, in order, the channels its `subscribeTo*` methods
      opened, and `closed` the handles whose `unsubscribe()` was called. */
  class DataService {
    var subscriptions: seq<Entry>
    var channels: seq<Channel>
    var closed: seq<Handle>

    ghost predicate Valid()
      reads this
    {
      DistinctNames(subscriptions)
    }

    constructor ()
      ensures Valid() && subscriptions == [] && channels == [] && closed == []
    {
      subscriptions := [];
      channels := [];
      closed := [];
    }

    /** `subscribeTo*`: opens the feed's channel, stores its handle under the
        feed's key, replacing a previous handle there without unsubscribing
        it, and returns the handle. */
    method SubscribeTo(feed: Feed, handle: Handle) returns (r: Handle)
      requires Valid()
      modifies this`subscriptions, this`channels
      ensures Valid()
      ensures r == handle
      ensures channels == old(channels) + [FeedChannel(feed)]
      ensures subscriptions == Put(old(subscriptions), RegistryKey(feed), handle)
      ensures Lookup(subscriptions, RegistryKey(feed)) == Some(handle)
      ensures forall n :: n != RegistryKey(feed) ==> Lookup(subscriptions, n) == Lookup(old(subscriptions), n)
    {
      PutKeepsNamesDistinct(subscriptions, RegistryKey(feed), handle);
      forall n | true
        ensures Lookup(Put(subscriptions, RegistryKey(feed), handle), RegistryKey(feed)) == Some(handle)
        ensures n != RegistryKey(feed) ==> Lookup(Put(subscriptions, RegistryKey(feed), handle), n) == Lookup(subscriptions, n)
      {
        PutLookup(subscriptions, RegistryKey(feed), handle, n);
      }
      channels := channels + [FeedChannel(feed)];
      subscriptions := Put(subscriptions, RegistryKey(feed), handle);
      r := handle;
    }

    /** `unsubscribe(name)`: a no-op for an absent name; otherwise that
        handle is closed once and only its key is deleted. */
    method Unsubscribe(name: string)
      requires Valid()
      modifies this`subscriptions, this`closed
      ensures Valid()
      ensures Lookup(old(subscriptions), name).None? ==>
        subscriptions == old(subscriptions) && closed == old(closed)
      ensures Lookup(old(subscriptions), name).Some? ==>
        && closed == old(closed) + [Lookup(old(subscriptions), name).value]
        && subscriptions == Remove(old(subscriptions), name)
      ensures Lookup(subscriptions, name).None?
      ensures forall n :: n != name ==> Lookup(subscriptions, n) == Lookup(old(subscriptions), n)
    {
      forall n | true
        ensures Lookup(Remove(subscriptions, name), name) == None
        ensures n != name ==> Lookup(Remove(subscriptions, name), n) == Lookup(subscriptions, n)
      {
        RemoveLookup(subscriptions, name, n);
      }
      var h := Lookup(subscriptions, name);
      if h.Some? {
        closed := closed + [h.value];
        RemoveKeepsNamesDistinct(subscriptions, name);
        subscriptions := Remove(subscriptions, name);
      }
    }

    /** `unsubscribeAll()`: every stored handle is closed, in insertion order,
        and the registry is left empty. */
    method UnsubscribeAll()
      requires Valid()
      modifies this`subscriptions, this`closed
      ensures Valid()
      ensures closed == old(closed) + Handles(old(subscriptions))
      ensures subscriptions == []
    {
      var i := 0;
      while i < |subscriptions|
        invariant 0 <= i <= |subscriptions|
        invariant subscriptions == old(subscriptions)
        invariant closed == old(closed) + Handles(subscriptions[..i])
      {
        assert subscriptions[..i + 1][..i] == subscriptions[..i];
        closed := closed + [subscriptions[i].handle];
        i := i + 1;
      }
      assert subscriptions[..i] == subscriptions;
      subscriptions := [];
    }
  }
}
