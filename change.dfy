/** Uploads to the change API, `src/change.rs`: one profile (posted or
    deleted, optionally re-signed first) or many profiles in chunks of four.
    Loading the JSON file (`load_json`), signing (`sign_profile`) and the
    network are oracles; each method also returns the calls it made, in
    order, so that what was and was not sent can be stated. */
module Change {
  import opened Wrappers
  import opened Json
  import opened Http

  const UserUrl: string := "https://change.api.dev.sso.allizom.org/v2/user"
  const UsersUrl: string := "https://change.api.dev.sso.allizom.org/v2/users"
  const ChunkSize: nat := 4

  /** `{"status": "all good"}`, the reply of a bulk upload. */
  const AllGood: Json := Obj(map["status" := Str("all good")])

  /** A call into the outside world. */
  datatype Call = Loaded(path: string) | Signed(profile: Json) | Sent(request: Request)

  /** The request of the single-user paths. */
  function SingleRequest(verb: Verb, profile: Json, bearer: string): (req: Request)
    ensures req.verb == verb && req.url == UserUrl && req.bearer == Some(bearer)
    ensures req.headers == [] && req.body == Some(profile)
  {
    Request(verb, UserUrl, Some(bearer), [], Some(profile))
  }

  /** The reply of the single-user paths, with their error prefixes; a
      decoding error also shows the response. */
  function SingleReply(net: Transport, req: Request): (r: Result<Json, string>)
    ensures net.send(req).Failure? ==> r == Failure("change.api: " + net.send(req).error)
    ensures net.send(req).Success? && net.json(net.send(req).value).Failure? ==>
      r == Failure("change.api \U{2192} json: " + net.json(net.send(req).value).error +
                   " (" + net.send(req).value.debug + ")")
    ensures net.send(req).Success? && net.json(net.send(req).value).Success? ==>
      r == net.json(net.send(req).value)
  {
    match net.send(req)
    case Failure(e) => Failure("change.api: " + e)
    case Success(res) =>
      match net.json(res)
      case Failure(e) => Failure("change.api \U{2192} json: " + e + " (" + res.debug + ")")
      case Success(j) => Success(j)
  }

  /** What `post_single_user` and `delete_single_user` do: the file is
      loaded first and a load error returns at once; `sign_profile` is
      called exactly when `sign` is set and the load succeeded, and its
      error returns before anything is sent; otherwise exactly one request
      is sent, with the signed profile when `sign` is set and the loaded one
      when not, and its reply is the result. `calls` is the whole trace. */
  ghost predicate SingleUserOutcome(
    verb: Verb, path: string, sign: bool, bearer: string,
    load: string -> Result<Json, string>, signer: Json -> Result<Json, string>, net: Transport,
    r: Result<Json, string>, calls: seq<Call>)
  {
    var loaded := load(path);
    var signs := sign && loaded.Success?;
    var sends := loaded.Success? && (sign ==> signer(loaded.value).Success?);
    && calls == [Loaded(path)]
         + (if signs then [Signed(loaded.value)] else [])
         + (if sends then [Sent(SingleRequest(verb, if sign then signer(loaded.value).value else loaded.value, bearer))] else [])
    && (loaded.Failure? ==> r == Failure(loaded.error))
    && (signs && signer(loaded.value).Failure? ==> r == Failure(signer(loaded.value).error))
    && (sends ==>
          r == SingleReply(net, SingleRequest(verb, if sign then signer(loaded.value).value else loaded.value, bearer)))
  }

  /** The body shared by the two single-user paths; `verb` is `Post` for
      `post_single_user` and `Delete` for `delete_single_user`. */
  method ChangeSingleUser(
    verb: Verb, path: string, sign: bool, bearer: string,
    load: string -> Result<Json, string>, signer: Json -> Result<Json, string>, net: Transport)
    returns (r: Result<Json, string>, calls: seq<Call>)
    ensures SingleUserOutcome(verb, path, sign, bearer, load, signer, net, r, calls)
  {
    calls := [Loaded(path)];
    var loaded := load(path);
    if loaded.Failure? {
      r := Failure(loaded.error);
      return;
    }
    var profile := loaded.value;
    if sign {
      calls := calls + [Signed(profile)];
      var signed := signer(profile);
      if signed.Failure? {
        r := Failure(signed.error);
        return;
      }
      profile := signed.value;
    }
    var req := SingleRequest(verb, profile, bearer);
    calls := calls + [Sent(req)];
    r := SingleReply(net, req);
  }

  /** `post_single_user`. */
  method PostSingleUser(
    path: string, sign: bool, bearer: string,
    load: string -> Result<Json, string>, signer: Json -> Result<Json, string>, net: Transport)
    returns (r: Result<Json, string>, calls: seq<Call>)
    ensures SingleUserOutcome(Post, path, sign, bearer, load, signer, net, r, calls)
  {
    r, calls := ChangeSingleUser(Post, path, sign, bearer, load, signer, net);
  }

  /** `delete_single_user`. */
  method DeleteSingleUser(
    path: string, sign: bool, bearer: string,
    load: string -> Result<Json, string>, signer: Json -> Result<Json, string>, net: Transport)
    returns (r: Result<Json, string>, calls: seq<Call>)
    ensures SingleUserOutcome(Delete, path, sign, bearer, load, signer, net, r, calls)
  {
    r, calls := ChangeSingleUser(Delete, path, sign, bearer, load, signer, net);
  }

  /** `slice::chunks(n)`: consecutive pieces of `n` elements, the last one
      possibly shorter. */
  function Chunks<T>(s: seq<T>, n: nat): (cs: seq<seq<T>>)
    requires n > 0
    ensures |cs| == 0 <==> |s| == 0
    ensures |s| > 0 ==> cs[0] == s[..if |s| < n then |s| else n]
    decreases |s|
  {
    if |s| == 0 then []
    else if |s| <= n then [s]
    else [s[..n]] + Chunks(s[n..], n)
  }

  function Flatten<T>(cs: seq<seq<T>>): seq<T> {
    if cs == [] then [] else cs[0] + Flatten(cs[1..])
  }

  /** There are ceil(|s| / 4) chunks of four. */
  lemma {:induction false} ChunksCount<T>(s: seq<T>)
    ensures |Chunks(s, ChunkSize)| == (|s| + 3) / 4
    decreases |s|
  {
    if |s| > ChunkSize {
      ChunksCount(s[ChunkSize..]);
    }
  }

  /** Every chunk is non-empty and holds at most `n` elements; every chunk
      but the last holds exactly `n`. */
  lemma {:induction false} ChunksShape<T>(s: seq<T>, n: nat)
    requires n > 0
    ensures forall i :: 0 <= i < |Chunks(s, n)| ==> 0 < |Chunks(s, n)[i]| <= n
    ensures forall i :: 0 <= i < |Chunks(s, n)| - 1 ==> |Chunks(s, n)[i]| == n
    decreases |s|
  {
    if |s| > n {
      ChunksShape(s[n..], n);
      var cs := Chunks(s, n);
      assert cs[1..] == Chunks(s[n..], n);
      forall i | 1 <= i < |cs| ensures 0 < |cs[i]| <= n && (i < |cs| - 1 ==> |cs[i]| == n) {
        assert cs[i] == cs[1..][i - 1];
      }
    }
  }

  /** The chunks, put back together in order, are the input: nothing is
      dropped, duplicated or reordered. */
  lemma {:induction false} ChunksFlatten<T>(s: seq<T>, n: nat)
    requires n > 0
    ensures Flatten(Chunks(s, n)) == s
    decreases |s|
  {
    if |s| == 0 {
    } else if |s| <= n {
      assert Flatten([s]) == s + Flatten([]) == s;
    } else {
      var cs := Chunks(s, n);
      assert cs == [s[..n]] + Chunks(s[n..], n);
      assert cs[0] == s[..n] && cs[1..] == Chunks(s[n..], n);
      calc {
        Flatten(cs);
        s[..n] + Flatten(Chunks(s[n..], n));
        { ChunksFlatten(s[n..], n); }
        s[..n] + s[n..];
        { assert s == s[..n] + s[n..]; }
        s;
      }
    }
  }

  /** The request that uploads one chunk. */
  function BulkRequest(chunk: seq<Json>, bearer: string): (req: Request)
    ensures req.verb == Post && req.url == UsersUrl && req.bearer == Some(bearer)
    ensures req.headers == [] && req.body == Some(Arr(chunk))
  {
    Request(Post, UsersUrl, Some(bearer), [], Some(Arr(chunk)))
  }

  /** The reply check of one chunk, `res.json().map_err(..)?;`. The decoded
      value is never used, so its type falls back to `()`, which serde_json
      reads from a `null` body only: the chunk passes exactly when it is
      sent and the reply is `null`. */
  function BulkReply(net: Transport, req: Request): (r: Result<(), string>)
    ensures r.Success? <==> net.send(req).Success? && net.json(net.send(req).value) == Success(Null)
    ensures net.send(req).Failure? ==> r == Failure(net.send(req).error)
    ensures net.send(req).Success? && net.json(net.send(req).value).Failure? ==>
      r == Failure(net.json(net.send(req).value).error)
  {
    match net.send(req)
    case Failure(e) => Failure(e)
    case Success(res) =>
      match net.json(res)
      case Failure(e) => Failure(e)
      case Success(j) => if j == Null then Success(()) else Failure(net.unitError(res))
  }

  /** The reply check as intended: the chunk passes when it is sent and its
      reply is any JSON value. */
  function BulkReplyAsIntended(net: Transport, req: Request): (r: Result<(), string>)
    ensures r.Success? <==> SendJson(net, req).Success?
    ensures r.Failure? ==> SendJson(net, req) == Failure(r.error)
  {
    match SendJson(net, req)
    case Failure(e) => Failure(e)
    case Success(_) => Success(())
  }

  /** A chunk the change API answers with a status object, such as
      `{"status": "all good"}`, fails the check as written and passes the
      intended one; every reply that passes as written passes as intended. */
  lemma AsWrittenRejectsObjectReply(net: Transport, req: Request)
    ensures BulkReply(net, req).Success? ==> BulkReplyAsIntended(net, req).Success?
    ensures net.send(req).Success? && net.json(net.send(req).value) == Success(AllGood) ==>
      BulkReply(net, req).Failure? && BulkReplyAsIntended(net, req).Success?
  {
  }

  /** `post_lots_of_users`. The `sign` flag is taken and ignored: nothing in
      the contract depends on it. A loaded value that is not an array sends
      nothing and reports success; otherwise the chunks go out in order and
      the first chunk whose `BulkReply` fails ends the upload with that
      error, so no later chunk is sent. */
  method PostLotsOfUsers(
    path: string, sign: bool, bearer: string,
    load: string -> Result<Json, string>, net: Transport)
    returns (r: Result<Json, string>, calls: seq<Call>)
    ensures |calls| >= 1 && calls[0] == Loaded(path)
    ensures forall k :: 1 <= k < |calls| ==> calls[k].Sent?
    ensures load(path).Failure? ==> r == Failure(load(path).error) && calls == [Loaded(path)]
    ensures load(path).Success? && !load(path).value.Arr? ==> r == Success(AllGood) && calls == [Loaded(path)]
    ensures load(path).Success? && load(path).value.Arr? ==>
      var cs := Chunks(load(path).value.items, ChunkSize);
      && |calls| - 1 <= |cs|
      && (forall k :: 0 <= k < |calls| - 1 ==> calls[k + 1] == Sent(BulkRequest(cs[k], bearer)))
      && (forall k :: 0 <= k < |calls| - 2 ==> BulkReply(net, BulkRequest(cs[k], bearer)).Success?)
      && (r.Success? <==> forall k :: 0 <= k < |cs| ==> BulkReply(net, BulkRequest(cs[k], bearer)).Success?)
      && (r.Success? ==> |calls| - 1 == |cs| && r.value == AllGood)
      && (r.Failure? ==> |calls| >= 2 && BulkReply(net, calls[|calls| - 1].request) == Failure(r.error))
  {
    calls := [Loaded(path)];
    var loaded := load(path);
    if loaded.Failure? {
      return Failure(loaded.error), calls;
    }
    if loaded.value.Arr? {
      var cs := Chunks(loaded.value.items, ChunkSize);
      for i := 0 to |cs|
        invariant |calls| == i + 1 && calls[0] == Loaded(path)
        invariant forall k :: 1 <= k < |calls| ==> calls[k].Sent?
        invariant forall k :: 0 <= k < i ==> calls[k + 1] == Sent(BulkRequest(cs[k], bearer))
        invariant forall k :: 0 <= k < i ==> BulkReply(net, BulkRequest(cs[k], bearer)).Success?
      {
        var req := BulkRequest(cs[i], bearer);
        calls := calls + [Sent(req)];
        var res := net.send(req);
        if res.Failure? {
          return Failure(res.error), calls;
        }
        var reply := net.json(res.value);
        if reply.Failure? {
          return Failure(reply.error), calls;
        }
        if reply.value != Null {
          return Failure(net.unitError(res.value)), calls;
        }
      }
    }
    r := Success(AllGood);
  }
}
