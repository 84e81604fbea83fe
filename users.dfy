/** The paginated listing of `src/users.rs`: one page per request, each
    later request carrying the previous page's continuation token. */
module Users {
  import opened Wrappers
  import opened Json
  import opened Http

  const UsersUrl: string := "https://person.api.dev.sso.allizom.org/v2/users"
  const NoItems: string := "no items / next_page"

  /** One page: its profiles and the token for the next page, if any. */
  datatype Batch = Batch(items: seq<Json>, nextPage: Option<string>)

  /** Why a listing stopped without a result. `Failed` carries the page's
      error text; `Panicked` is the panic of serde_json's mutable indexing on
      a reply that is neither an object nor null; `OutOfFuel` is the model's
      page bound being used up. */
  datatype FetchError = Failed(message: string) | Panicked | OutOfFuel

  /** The request for one page; the `nextPage` header is present exactly
      when a token is supplied, and holds that token. */
  function BatchRequest(token: Option<string>, bearer: string): (req: Request)
    ensures req.verb == Get && req.url == UsersUrl && req.bearer == Some(bearer) && req.body.None?
    ensures token.None? ==> req.headers == []
    ensures token.Some? ==> req.headers == [("nextPage", token.value)]
  {
    Request(Get, UsersUrl, Some(bearer), if token.Some? then [("nextPage", token.value)] else [], None)
  }

  /** The shape check on a decoded reply: `Items` must be an array, and
      `nextPage` continues the listing only if it is a string. */
  function BatchOf(reply: Json): (r: Result<Batch, FetchError>)
    ensures !(reply.Null? || reply.Obj?) ==> r == Failure(Panicked)
    ensures (reply.Null? || reply.Obj?) ==>
      (r.Success? <==> Index(reply, "Items").Arr?)
    ensures (reply.Null? || reply.Obj?) && r.Failure? ==> r.error == Failed(NoItems)
    ensures r.Success? ==>
      && r.value.items == Index(reply, "Items").items
      && r.value.nextPage == AsStr(Index(reply, "nextPage"))
  {
    if !(reply.Null? || reply.Obj?) then Failure(Panicked)
    else
      match Index(reply, "Items")
      case Arr(items) => Success(Batch(items, AsStr(Index(reply, "nextPage"))))
      case _ => Failure(Failed(NoItems))
  }

  /** `get_single_user_batch`: send the page request, decode the reply, then
      check its shape. Transport and decoding errors keep their text. */
  function SingleBatch(net: Transport, bearer: string, token: Option<string>): (r: Result<Batch, FetchError>)
    ensures SendJson(net, BatchRequest(token, bearer)).Failure? ==>
      r == Failure(Failed(SendJson(net, BatchRequest(token, bearer)).error))
    ensures SendJson(net, BatchRequest(token, bearer)).Success? ==>
      r == BatchOf(SendJson(net, BatchRequest(token, bearer)).value)
  {
    match SendJson(net, BatchRequest(token, bearer))
    case Failure(e) => Failure(Failed(e))
    case Success(reply) => BatchOf(reply)
  }

  /** The listing from `token` on, visiting at most `fuel` pages: the items
      of each page in page order, or the first error met. A failing first
      page is the result; a listing that succeeds starts with the first
      page's items. */
  function Pages(net: Transport, bearer: string, token: Option<string>, fuel: nat): (r: Result<seq<Json>, FetchError>)
    ensures fuel == 0 ==> r == Failure(OutOfFuel)
    ensures fuel > 0 && SingleBatch(net, bearer, token).Failure? ==> r == Failure(SingleBatch(net, bearer, token).error)
    ensures r.Success? ==> SingleBatch(net, bearer, token).Success? && SingleBatch(net, bearer, token).value.items <= r.value
    decreases fuel
  {
    if fuel == 0 then Failure(OutOfFuel)
    else
      match SingleBatch(net, bearer, token)
      case Failure(e) => Failure(e)
      case Success(b) =>
        if b.nextPage.None? then Success(b.items)
        else
          match Pages(net, bearer, b.nextPage, fuel - 1)
          case Failure(e) => Failure(e)
          case Success(rest) => Success(b.items + rest)
  }

  /** `prefix` placed before a listing's items; an error stays as it is. */
  function Prepend(prefix: seq<Json>, r: Result<seq<Json>, FetchError>): Result<seq<Json>, FetchError> {
    match r
    case Success(items) => Success(prefix + items)
    case Failure(e) => Failure(e)
  }

  /** Nothing placed before a listing leaves it as it is. */
  lemma PrependNothing(r: Result<seq<Json>, FetchError>)
    ensures Prepend([], r) == r
  {
    if r.Success? {
      assert [] + r.value == r.value;
    }
  }

  /** Placing two prefixes one after the other places their concatenation. */
  lemma PrependTwice(prefix: seq<Json>, more: seq<Json>, r: Result<seq<Json>, FetchError>)
    ensures Prepend(prefix, Prepend(more, r)) == Prepend(prefix + more, r)
  {
    if r.Success? {
      assert prefix + (more + r.value) == (prefix + more) + r.value;
    }
  }

  /** One step of the listing: a page that arrives ends it, or is followed
      by the listing from its token with one page less. */
  lemma PagesStep(net: Transport, bearer: string, token: Option<string>, fuel: nat)
    requires fuel > 0 && SingleBatch(net, bearer, token).Success?
    ensures var b := SingleBatch(net, bearer, token).value;
      Pages(net, bearer, token, fuel) ==
        if b.nextPage.None? then Success(b.items) else Prepend(b.items, Pages(net, bearer, b.nextPage, fuel - 1))
  {
  }

  /** `get_users`: the loop that walks the pages, bounded by `fuel` pages. */
  method GetUsers(bearer: string, net: Transport, fuel: nat) returns (r: Result<seq<Json>, FetchError>)
    ensures r == Pages(net, bearer, None, fuel)
  {
    var page: Option<string> := None;
    var res: seq<Json> := [];
    var left := fuel;
    PrependNothing(Pages(net, bearer, None, fuel));
    while true
      invariant Prepend(res, Pages(net, bearer, page, left)) == Pages(net, bearer, None, fuel)
      decreases left
    {
      if left == 0 {
        return Failure(OutOfFuel);
      }
      var batch := SingleBatch(net, bearer, page);
      if batch.Failure? {
        return Failure(batch.error);
      }
      PagesStep(net, bearer, page, left);
      var Batch(items, nextPage) := batch.value;
      if nextPage.None? {
        res := res + items;
        break;
      }
      PrependTwice(res, items, Pages(net, bearer, nextPage, left - 1));
      res := res + items;
      page := nextPage;
      left := left - 1;
    }
    r := Success(res);
  }

  /** The items of pages, concatenated in page order. */
  function Concat(bs: seq<Batch>): seq<Json> {
    if bs == [] then [] else bs[0].items + Concat(bs[1..])
  }

  /** `bs` are successive pages fetched from `token` on: the first with
      `token`, each later one with its predecessor's `nextPage`, every page
      before the last carrying a token. */
  ghost predicate Linked(net: Transport, bearer: string, token: Option<string>, bs: seq<Batch>) {
    && (|bs| > 0 ==> SingleBatch(net, bearer, token) == Success(bs[0]))
    && forall i :: 0 <= i < |bs| - 1 ==>
         bs[i].nextPage.Some? && SingleBatch(net, bearer, bs[i].nextPage) == Success(bs[i + 1])
  }

  /** A complete listing: linked pages of which only the last has no token. */
  ghost predicate Chain(net: Transport, bearer: string, token: Option<string>, bs: seq<Batch>) {
    |bs| > 0 && Linked(net, bearer, token, bs) && bs[|bs| - 1].nextPage.None?
  }

  /** The token that the page after `bs` is requested with. */
  function NextToken(token: Option<string>, bs: seq<Batch>): Option<string> {
    if bs == [] then token else bs[|bs| - 1].nextPage
  }

  lemma LinkedTail(net: Transport, bearer: string, token: Option<string>, bs: seq<Batch>)
    requires |bs| > 1 && Linked(net, bearer, token, bs)
    ensures Linked(net, bearer, bs[0].nextPage, bs[1..])
  {
  }

  /** A complete listing of at most `fuel` pages is what the loop returns:
      the concatenation of its pages' items. */
  lemma {:induction false} ChainGivesPages(net: Transport, bearer: string, token: Option<string>, bs: seq<Batch>, fuel: nat)
    requires Chain(net, bearer, token, bs) && |bs| <= fuel
    ensures Pages(net, bearer, token, fuel) == Success(Concat(bs))
    decreases |bs|
  {
    if |bs| == 1 {
      assert Concat(bs) == bs[0].items + Concat([]) == bs[0].items;
    } else {
      LinkedTail(net, bearer, token, bs);
      ChainGivesPages(net, bearer, bs[0].nextPage, bs[1..], fuel - 1);
    }
  }

  /** Conversely, every listing that succeeds is the concatenation of a
      complete chain of at most `fuel` pages. */
  lemma {:induction false} PagesGiveChain(net: Transport, bearer: string, token: Option<string>, fuel: nat)
    returns (bs: seq<Batch>)
    requires Pages(net, bearer, token, fuel).Success?
    ensures Chain(net, bearer, token, bs) && |bs| <= fuel
    ensures Pages(net, bearer, token, fuel).value == Concat(bs)
    decreases fuel
  {
    var b := SingleBatch(net, bearer, token).value;
    if b.nextPage.None? {
      bs := [b];
      assert Concat(bs) == b.items + Concat([]) == b.items;
    } else {
      var rest := PagesGiveChain(net, bearer, b.nextPage, fuel - 1);
      bs := [b] + rest;
      assert bs[1..] == rest;
      forall i | 0 <= i < |bs| - 1
        ensures bs[i].nextPage.Some? && SingleBatch(net, bearer, bs[i].nextPage) == Success(bs[i + 1])
      {
        if i > 0 { assert bs[i] == rest[i - 1] && bs[i + 1] == rest[i]; }
      }
    }
  }

  /** An error on any page reached aborts the whole listing with that
      error; no partial list of items is returned. */
  lemma {:induction false} PageErrorAborts(net: Transport, bearer: string, token: Option<string>, bs: seq<Batch>, fuel: nat)
    requires Linked(net, bearer, token, bs)
    requires forall i :: 0 <= i < |bs| ==> bs[i].nextPage.Some?
    requires |bs| < fuel
    requires SingleBatch(net, bearer, NextToken(token, bs)).Failure?
    ensures Pages(net, bearer, token, fuel) == Failure(SingleBatch(net, bearer, NextToken(token, bs)).error)
    decreases |bs|
  {
    if bs != [] {
      if |bs| > 1 {
        LinkedTail(net, bearer, token, bs);
        assert NextToken(bs[0].nextPage, bs[1..]) == NextToken(token, bs);
      }
      PageErrorAborts(net, bearer, bs[0].nextPage, bs[1..], fuel - 1);
    }
  }

  /** The token of the `k`-th request from `token` on, following each
      page's `nextPage`. */
  function TokenAfter(net: Transport, bearer: string, token: Option<string>, k: nat): Option<string>
    decreases k
  {
    if k == 0 then token
    else
      match SingleBatch(net, bearer, token)
      case Success(b) => TokenAfter(net, bearer, b.nextPage, k - 1)
      case Failure(_) => None
  }

  /** The page requested with `token` arrives and hands out another token. */
  ghost predicate Continues(net: Transport, bearer: string, token: Option<string>) {
    SingleBatch(net, bearer, token).Success? && SingleBatch(net, bearer, token).value.nextPage.Some?
  }

  /** A server that keeps handing out another token on each of the first
      `fuel` pages the loop requests never ends the listing: the page bound
      is used up. */
  lemma {:induction false} EndlessTokensExhaustFuel(net: Transport, bearer: string, token: Option<string>, fuel: nat)
    requires forall k :: 0 <= k < fuel ==> Continues(net, bearer, TokenAfter(net, bearer, token, k))
    ensures Pages(net, bearer, token, fuel) == Failure(OutOfFuel)
    decreases fuel
  {
    if fuel > 0 {
      assert TokenAfter(net, bearer, token, 0) == token;
      var next := SingleBatch(net, bearer, token).value.nextPage;
      forall k | 0 <= k < fuel - 1
        ensures Continues(net, bearer, TokenAfter(net, bearer, next, k))
      {
        assert TokenAfter(net, bearer, token, k + 1) == TokenAfter(net, bearer, next, k);
      }
      EndlessTokensExhaustFuel(net, bearer, next, fuel - 1);
    }
  }
}
