/**
 * Calling the Admin over several addresses with bounded retry and failover.
 *
 * The loops of `post_to_admins` are proved against a rule that says, for any POSTs made so far, which
 * address the next POST goes to; a call is the POSTs that follow the rule until it names none.
 */
module AdminPost {
  import opened Options
  import opened Urls

  // ---------------------------------------------------------------- policy

  datatype Policy = Policy(
    retryCount: int,
    retryBackoff: real,
    failoverOnHttpError: bool,
    failoverOnInvalidJson: bool,
    failoverOnBusinessError: bool)

  const RETRY_COUNT_CAP := 10
  const RETRY_BACKOFF_CAP := 30.0

  function Min(a: int, b: int): int { if a <= b then a else b }
  function Max(a: int, b: int): int { if a >= b then a else b }
  function MinReal(a: real, b: real): real { if a <= b then a else b }
  function MaxReal(a: real, b: real): real { if a >= b then a else b }

  /** `AdminCallPolicy.from_config`: a number within its caps is kept, any other becomes the cap it is
      beyond, and the flags are those of the configuration. */
  function FromConfig(retryCount: int, retryBackoff: real, http: bool, json: bool, business: bool): (p: Policy)
    ensures 0 <= p.retryCount <= 10 && 0.0 <= p.retryBackoff <= 30.0
    ensures 0 <= retryCount <= 10 ==> p.retryCount == retryCount
    ensures retryCount < 0 ==> p.retryCount == 0
    ensures retryCount > 10 ==> p.retryCount == 10
    ensures 0.0 <= retryBackoff <= 30.0 ==> p.retryBackoff == retryBackoff
    ensures retryBackoff < 0.0 ==> p.retryBackoff == 0.0
    ensures retryBackoff > 30.0 ==> p.retryBackoff == 30.0
    ensures p.failoverOnHttpError == http && p.failoverOnInvalidJson == json && p.failoverOnBusinessError == business
  {
    Policy(Max(0, Min(retryCount, RETRY_COUNT_CAP)), MaxReal(0.0, MinReal(retryBackoff, RETRY_BACKOFF_CAP)),
           http, json, business)
  }

  function DefaultPolicy(stopOnBusinessResponse: bool): Policy {
    Policy(0, 0.0, true, true, !stopOnBusinessResponse)
  }

  // ---------------------------------------------------------------- replies

  /** A field of the JSON object an Admin answers with. */
  datatype Field = Null | Integer(value: int) | Text(text: string) | OtherType

  datatype Body = NotJson | NotObject | Fields(code: Field, msg: Field)

  datatype Reply = TimedOut | Unreachable | Response(status: int, body: Body)

  datatype ErrorType =
    | ConfigError | NetworkError | TimeoutError | HttpError
    | InvalidJson | InvalidResponse | BusinessError

  datatype CallResult = CallResult(
    code: Option<int>,
    msg: Option<string>,
    address: Option<string>,
    error: Option<ErrorType>,
    attemptCount: nat,
    httpStatus: Option<int>)

  predicate Success(r: CallResult) {
    r.error.None?
  }

  const SUCCESS_CODE := 200

  /** Why a POST failed, if it did. */
  function ErrorOf(reply: Reply): Option<ErrorType> {
    match reply
    case TimedOut => Some(TimeoutError)
    case Unreachable => Some(NetworkError)
    case Response(status, body) =>
      if status != 200 then Some(HttpError)
      else match body
        case NotJson => Some(InvalidJson)
        case NotObject => Some(InvalidResponse)
        case Fields(code, msg) =>
          if !code.Integer? || !(msg.Null? || msg.Text?) then Some(InvalidResponse)
          else if code.value == SUCCESS_CODE then None
          else Some(BusinessError)
  }

  predicate Transient(reply: Reply) {
    ErrorOf(reply) in {Some(NetworkError), Some(TimeoutError), Some(HttpError)}
  }

  /** `_should_failover` */
  predicate ShouldFailover(error: Option<ErrorType>, policy: Policy) {
    match error
    case Some(NetworkError) => true
    case Some(TimeoutError) => true
    case Some(HttpError) => policy.failoverOnHttpError
    case Some(InvalidJson) => policy.failoverOnInvalidJson
    case Some(InvalidResponse) => policy.failoverOnInvalidJson
    case Some(BusinessError) => policy.failoverOnBusinessError
    case Some(ConfigError) => false
    case None => false
  }

  function ResultOf(reply: Reply, address: string, attempts: nat): CallResult {
    var error := ErrorOf(reply);
    var answered := error.None? || error == Some(BusinessError);
    CallResult(
      if answered then Some(reply.body.code.value) else None,
      if answered && reply.body.msg.Text? then Some(reply.body.msg.text) else None,
      Some(address), error, attempts,
      if reply.Response? then Some(reply.status) else None)
  }

  const NO_ADDRESS: CallResult := CallResult(None, None, None, Some(ConfigError), 0, None)

  // ---------------------------------------------------------------- the rule

  /** One POST: the position of its address and what came of it. */
  datatype Post = Post(address: nat, url: string, reply: Reply)

  /** The POSTs made to address `a`. */
  function Tries(posts: seq<Post>, a: nat): nat {
    if posts == [] then 0
    else Tries(posts[..|posts| - 1], a) + (if posts[|posts| - 1].address == a then 1 else 0)
  }

  /** The address of the POST that follows `posts`, if another follows: the same one after a transient
      error while retries remain, the next one after an error that may fail over, or none. */
  function NextAddress(posts: seq<Post>, count: nat, policy: Policy): Option<nat> {
    if policy.retryCount < 0 then None
    else if posts == [] then (if count > 0 then Some(0) else None)
    else
      var last := posts[|posts| - 1];
      if Transient(last.reply) && Tries(posts, last.address) <= policy.retryCount then Some(last.address)
      else if ShouldFailover(ErrorOf(last.reply), policy) && last.address + 1 < count then Some(last.address + 1)
      else None
  }

  /** Each POST goes where the rule says and meets the reply the Admins had for it. */
  ghost predicate Follows(posts: seq<Post>, addresses: seq<string>, path: string, policy: Policy,
      replies: nat -> Reply) {
    forall i :: 0 <= i < |posts| ==>
      && NextAddress(posts[..i], |addresses|, policy) == Some(posts[i].address)
      && posts[i].address < |addresses|
      && posts[i].url == JoinUrl(addresses[posts[i].address], path)
      && posts[i].reply == replies(i)
  }

  /** A whole call. */
  ghost predicate IsCall(posts: seq<Post>, addresses: seq<string>, path: string, policy: Policy,
      replies: nat -> Reply) {
    Follows(posts, addresses, path, policy, replies) && NextAddress(posts, |addresses|, policy).None?
  }

  lemma TriesAppend(posts: seq<Post>, post: Post, a: nat)
    ensures Tries(posts + [post], a) == Tries(posts, a) + (if post.address == a then 1 else 0)
  {
    assert (posts + [post])[..|posts|] == posts;
  }

  lemma FollowsAppend(posts: seq<Post>, post: Post, addresses: seq<string>, path: string, policy: Policy,
      replies: nat -> Reply)
    requires Follows(posts, addresses, path, policy, replies)
    requires NextAddress(posts, |addresses|, policy) == Some(post.address) && post.address < |addresses|
    requires post.url == JoinUrl(addresses[post.address], path) && post.reply == replies(|posts|)
    ensures Follows(posts + [post], addresses, path, policy, replies)
  {
    hide NextAddress;
    var all := posts + [post];
    forall i | 0 <= i < |all| ensures NextAddress(all[..i], |addresses|, policy) == Some(all[i].address) {
      if i < |posts| { assert all[..i] == posts[..i]; } else { assert all[..i] == posts; }
    }
  }

  /** One POST of a call, from the ones before it. */
  lemma PostAt(posts: seq<Post>, addresses: seq<string>, path: string, policy: Policy, replies: nat -> Reply, i: nat)
    requires Follows(posts, addresses, path, policy, replies) && i < |posts|
    ensures posts[i].address < |addresses| && NextAddress(posts[..i], |addresses|, policy) == Some(posts[i].address)
    ensures posts[i] == Post(posts[i].address, JoinUrl(addresses[posts[i].address], path), replies(i))
  {
    hide NextAddress, JoinUrl;
  }

  lemma FollowsPrefix(posts: seq<Post>, addresses: seq<string>, path: string, policy: Policy,
      replies: nat -> Reply, n: nat)
    requires Follows(posts, addresses, path, policy, replies) && n <= |posts|
    ensures Follows(posts[..n], addresses, path, policy, replies)
  {
    hide NextAddress;
    forall i | 0 <= i < n ensures posts[..n][..i] == posts[..i] {}
  }

  /** The POSTs that fit on a number of addresses. */
  function Capacity(addresses: nat, policy: Policy): int {
    addresses * (policy.retryCount + 1)
  }

  lemma CapacityNext(a: nat, policy: Policy)
    ensures Capacity(a + 1, policy) == Capacity(a, policy) + policy.retryCount + 1
    ensures Capacity(0, policy) == 0
  {
  }

  lemma CapacityGrows(a: nat, b: nat, policy: Policy)
    requires a <= b && policy.retryCount >= 0
    ensures Capacity(a, policy) <= Capacity(b, policy)
    ensures policy.retryCount <= RETRY_COUNT_CAP ==> Capacity(b, policy) <= 11 * b
  {
    Product(a, b, policy.retryCount + 1);
    if policy.retryCount <= RETRY_COUNT_CAP { Product(policy.retryCount + 1, 11, b); }
  }

  lemma Product(a: nat, b: nat, c: nat)
    requires a <= b
    ensures a * c <= b * c && a * c == c * a && b * c == c * b
  {
    assert (b - a) * c >= 0;
  }

  /** Every address is tried at most `retryCount + 1` times, and those after the last one not at all. */
  ghost predicate Within(posts: seq<Post>, count: nat, policy: Policy)
    requires posts != []
  {
    var a := posts[|posts| - 1].address;
    && policy.retryCount >= 0
    && a < count
    && 1 <= Tries(posts, a) <= policy.retryCount + 1
    && |posts| <= Capacity(a, policy) + Tries(posts, a)
    && forall b: nat :: b > a ==> Tries(posts, b) == 0
  }

  lemma WithinNext(front: seq<Post>, post: Post, count: nat, policy: Policy)
    requires front != [] ==> Within(front, count, policy)
    requires NextAddress(front, count, policy) == Some(post.address)
    ensures Within(front + [post], count, policy)
  {
    hide ErrorOf, Transient, ShouldFailover, Capacity;
    var posts := front + [post];
    forall b: nat ensures Tries(posts, b) == Tries(front, b) + (if post.address == b then 1 else 0) {
      TriesAppend(front, post, b);
    }
    NoTries();
    CapacityNext(if front == [] then 0 else front[|front| - 1].address, policy);
    hide Tries;
  }

  /** How far the POSTs have come. */
  lemma {:induction false} Progress(posts: seq<Post>, addresses: seq<string>, path: string, policy: Policy,
      replies: nat -> Reply)
    requires Follows(posts, addresses, path, policy, replies) && posts != []
    ensures Within(posts, |addresses|, policy)
  {
    hide NextAddress, Within;
    var n := |posts| - 1;
    FollowsPrefix(posts, addresses, path, policy, replies, n);
    assert posts == posts[..n] + [posts[n]];
    if n > 0 { Progress(posts[..n], addresses, path, policy, replies); }
    assert NextAddress(posts[..n], |addresses|, policy) == Some(posts[n].address);
    WithinNext(posts[..n], posts[n], |addresses|, policy);
  }

  lemma NoTries()
    ensures forall b: nat :: Tries([], b) == 0
  {
  }

  // ---------------------------------------------------------------- the loops

  function Outcome(posts: seq<Post>, addresses: seq<string>): CallResult
    requires posts != [] ==> posts[|posts| - 1].address < |addresses|
  {
    if posts == [] then NO_ADDRESS
    else
      var last := posts[|posts| - 1];
      ResultOf(last.reply, addresses[last.address], |posts|)
  }

  /** The POSTs that repeat the address of the one before. */
  function Retries(posts: seq<Post>): nat {
    if |posts| < 2 then 0
    else
      var n := |posts| - 1;
      Retries(posts[..n]) + (if posts[n].address == posts[n - 1].address then 1 else 0)
  }

  /** One wait per retry, including the one to come after attempt `attempt` at the same address. */
  predicate Waits(posts: seq<Post>, policy: Policy, waits: nat, attempt: nat) {
    waits == if policy.retryBackoff > 0.0 then Retries(posts) + (if attempt > 0 then 1 else 0) else 0
  }

  /** Every address before `a` has been given up, the last one after an error that may fail over. */
  predicate Abandoned(posts: seq<Post>, a: nat, policy: Policy) {
    && posts != []
    && var last := posts[|posts| - 1];
      && a == last.address + 1
      && ShouldFailover(ErrorOf(last.reply), policy)
      && !(Transient(last.reply) && Tries(posts, last.address) <= policy.retryCount)
  }

  lemma AtNextAddress(posts: seq<Post>, a: nat, addresses: seq<string>, path: string, policy: Policy,
      replies: nat -> Reply)
    requires Follows(posts, addresses, path, policy, replies) && a < |addresses|
    requires posts == [] ==> a == 0
    requires posts != [] ==> Abandoned(posts, a, policy)
    ensures Tries(posts, a) == 0
    ensures policy.retryCount >= 0 ==> NextAddress(posts, |addresses|, policy) == Some(a)
    ensures policy.retryCount < 0 ==> posts == []
  {
    hide JoinUrl, ErrorOf, Transient, ShouldFailover, Follows;
    if posts != [] {
      Progress(posts, addresses, path, policy, replies);
      hide Tries;
    }
  }

  /** What follows a POST, in terms of its error and of the attempts made at its address. */
  lemma AfterPost(posts: seq<Post>, post: Post, count: nat, policy: Policy)
    requires policy.retryCount >= 0
    ensures
      var error := ErrorOf(post.reply);
      var again := Transient(post.reply) && Tries(posts, post.address) < policy.retryCount;
      && (error.None? ==> !again && !ShouldFailover(error, policy))
      && NextAddress(posts + [post], count, policy)
         == (if again then Some(post.address)
             else if ShouldFailover(error, policy) && post.address + 1 < count then Some(post.address + 1) else None)
      && (!again && ShouldFailover(error, policy) ==> Abandoned(posts + [post], post.address + 1, policy))
  {
    TriesAppend(posts, post, post.address);
    hide Tries;
  }

  lemma NothingLeft(posts: seq<Post>, count: nat, policy: Policy)
    requires if posts == [] then count == 0 || policy.retryCount < 0 else Abandoned(posts, count, policy)
    ensures NextAddress(posts, count, policy).None?
  {
  }

  lemma RetriesAppend(posts: seq<Post>, post: Post)
    ensures Retries(posts + [post])
            == Retries(posts) + (if posts != [] && posts[|posts| - 1].address == post.address then 1 else 0)
  {
    assert (posts + [post])[..|posts|] == posts;
  }

  /** A call in the middle of its attempts at address `a`, of which it has made `attempt`. */
  ghost predicate Trying(posts: seq<Post>, result: CallResult, waits: nat, a: nat, attempt: nat,
                         addresses: seq<string>, path: string, policy: Policy, replies: nat -> Reply) {
    && Follows(posts, addresses, path, policy, replies)
    && NextAddress(posts, |addresses|, policy) == Some(a) && a < |addresses|
    && Tries(posts, a) == attempt <= policy.retryCount
    && (attempt > 0 <==> posts != [] && posts[|posts| - 1].address == a)
    && (posts != [] ==> posts[|posts| - 1].address < |addresses|)
    && result == Outcome(posts, addresses)
    && Waits(posts, policy, waits, attempt)
  }

  /** A call that has made its attempts at address `a`: it is over, or the address is abandoned. */
  ghost predicate Tried(posts: seq<Post>, result: CallResult, waits: nat, a: nat,
                        addresses: seq<string>, path: string, policy: Policy, replies: nat -> Reply) {
    && Follows(posts, addresses, path, policy, replies)
    && posts != [] && posts[|posts| - 1].address == a < |addresses|
    && result == Outcome(posts, addresses)
    && Waits(posts, policy, waits, 0)
    && if Success(result) || !ShouldFailover(result.error, policy) then NextAddress(posts, |addresses|, policy).None?
       else Abandoned(posts, a + 1, policy)
  }

  /** One attempt is the last at its address, or another follows it after a wait. */
  lemma OneAttempt(before: seq<Post>, last: CallResult, waits: nat, a: nat, attempt: nat, addresses: seq<string>,
                   path: string, policy: Policy, replies: nat -> Reply)
    requires Trying(before, last, waits, a, attempt, addresses, path, policy, replies)
    ensures
      var reply := replies(|before|);
      var posts := before + [Post(a, JoinUrl(addresses[a], path), reply)];
      var result := ResultOf(reply, addresses[a], |posts|);
      var waits' := if policy.retryBackoff > 0.0 then waits + 1 else waits;
      if !Success(result) && Transient(reply) && attempt < policy.retryCount
      then Trying(posts, result, waits', a, attempt + 1, addresses, path, policy, replies)
      else Tried(posts, result, waits, a, addresses, path, policy, replies)
  {
    hide JoinUrl, ErrorOf, Transient, ShouldFailover, Follows, NextAddress, Abandoned;
    var post := Post(a, JoinUrl(addresses[a], path), replies(|before|));
    TriesAppend(before, post, a);
    RetriesAppend(before, post);
    FollowsAppend(before, post, addresses, path, policy, replies);
    AfterPost(before, post, |addresses|, policy);
    hide Tries, Retries;
  }

  lemma FirstAttempt(posts: seq<Post>, result: CallResult, waits: nat, a: nat, addresses: seq<string>, path: string,
                     policy: Policy, replies: nat -> Reply)
    requires policy.retryCount >= 0 && a < |addresses|
    requires Follows(posts, addresses, path, policy, replies)
    requires if posts == [] then a == 0 else Abandoned(posts, a, policy)
    requires result == Outcome(posts, addresses) && Waits(posts, policy, waits, 0)
    ensures Trying(posts, result, waits, a, 0, addresses, path, policy, replies)
  {
    AtNextAddress(posts, a, addresses, path, policy, replies);
    hide JoinUrl, ErrorOf, Transient, ShouldFailover, Follows, NextAddress, Tries, Retries;
  }

  /** The bounded retry at one address; `last` and `waited` are the result and the waits so far. */
  method TryAddress(a: nat, addresses: seq<string>, path: string, policy: Policy, replies: nat -> Reply,
                    before: seq<Post>, last: CallResult, waited: nat)
    returns (posts: seq<Post>, result: CallResult, waits: nat)
    requires a < |addresses| && Follows(before, addresses, path, policy, replies)
    requires if before == [] then a == 0 else Abandoned(before, a, policy)
    requires last == Outcome(before, addresses) && Waits(before, policy, waited, 0)
    ensures policy.retryCount < 0 ==> posts == before && result == last && waits == waited
    ensures policy.retryCount >= 0 ==> Tried(posts, result, waits, a, addresses, path, policy, replies)
  {
    var url := JoinUrl(addresses[a], path);
    posts, result, waits := before, last, waited;
    if policy.retryCount >= 0 { FirstAttempt(posts, result, waits, a, addresses, path, policy, replies); }
    hide *;
    var attempt := 0;
    while attempt < policy.retryCount + 1
      invariant policy.retryCount >= 0 ==>
                  0 <= attempt <= policy.retryCount
                  && Trying(posts, result, waits, a, attempt, addresses, path, policy, replies)
      invariant policy.retryCount < 0 ==> posts == before && result == last && waits == waited && attempt == 0
      decreases policy.retryCount + 1 - attempt
    {
      OneAttempt(posts, result, waits, a, attempt, addresses, path, policy, replies);
      var reply := replies(|posts|);
      posts := posts + [Post(a, url, reply)];
      result := ResultOf(reply, addresses[a], |posts|);
      if Success(result) || !Transient(reply) || attempt >= policy.retryCount {
        return;
      }
      if policy.retryBackoff > 0.0 { waits := waits + 1; }
      attempt := attempt + 1;
    }
  }

  /** `post_to_admins`; `replies(n)` is what the Admins have for POST `n`, and `waits` counts the waits of
      `retryBackoff` between attempts. */
  method PostToAdmins(addresses: seq<string>, path: string, given: Option<Policy>, stopOnBusinessResponse: bool,
                      replies: nat -> Reply)
    returns (result: CallResult, posts: seq<Post>, waits: nat)
    ensures Reports(posts, addresses, result)
    ensures
      var policy := if given.Some? then given.value else Policy(0, 0.0, true, true, !stopOnBusinessResponse);
      && IsCall(posts, addresses, path, policy, replies)
      && result == Outcome(posts, addresses)
      && waits == if policy.retryBackoff > 0.0 then Retries(posts) else 0
  {
    var policy := if given.Some? then given.value else DefaultPolicy(stopOnBusinessResponse);
    result := NO_ADDRESS;
    posts := [];
    waits := 0;
    var a := 0;
    while a < |addresses|
      invariant 0 <= a <= |addresses|
      invariant Follows(posts, addresses, path, policy, replies)
      invariant if posts == [] then a == 0 && result == NO_ADDRESS else Abandoned(posts, a, policy)
      invariant result == Outcome(posts, addresses) && Waits(posts, policy, waits, 0)
    {
      hide JoinUrl, ErrorOf, Transient, Follows, Tries, Retries, NextAddress, Abandoned, Outcome, ResultOf;
      posts, result, waits := TryAddress(a, addresses, path, policy, replies, posts, result, waits);
      if Success(result) || !ShouldFailover(result.error, policy) {
        if posts == [] { NothingLeft(posts, |addresses|, policy); }
        OutcomeReports(posts, addresses, result);
        return;
      }
      a := a + 1;
    }
    NothingLeft(posts, |addresses|, policy);
    OutcomeReports(posts, addresses, result);
  }

  // ---------------------------------------------------------------- what replies mean

  /** The fields of the body have the types the client expects. */
  predicate WellTyped(body: Body) {
    body.Fields? && body.code.Integer? && (body.msg.Null? || body.msg.Text?)
  }

  /** What a result says of a reply. */
  predicate Tells(reply: Reply, r: CallResult) {
    match reply
    case TimedOut => r.error == Some(TimeoutError) && r.code.None? && r.msg.None? && r.httpStatus.None?
    case Unreachable => r.error == Some(NetworkError) && r.code.None? && r.msg.None? && r.httpStatus.None?
    case Response(status, body) =>
      && r.httpStatus == Some(status)
      && (status != 200 ==> r.error == Some(HttpError))
      && (status == 200 && body.NotJson? ==> r.error == Some(InvalidJson))
      && (status == 200 && !body.NotJson? && !WellTyped(body) ==> r.error == Some(InvalidResponse))
      && (status == 200 && WellTyped(body) && body.code != Integer(200) ==> r.error == Some(BusinessError))
      && (status == 200 && WellTyped(body) && body.code == Integer(200) ==> r.error.None?)
      && (if status == 200 && WellTyped(body) then
            r.code == Some(body.code.value) && r.msg == (if body.msg.Text? then Some(body.msg.text) else None)
          else r.code.None? && r.msg.None?)
  }

  /** What the result of a call says: no address was tried, or what came of the last POST. */
  predicate Reports(posts: seq<Post>, addresses: seq<string>, result: CallResult) {
    if posts == [] then result == CallResult(None, None, None, Some(ConfigError), 0, None)
    else
      var last := posts[|posts| - 1];
      && Tells(last.reply, result)
      && last.address < |addresses| && result.address == Some(addresses[last.address])
      && result.attemptCount == |posts|
  }

  lemma OutcomeReports(posts: seq<Post>, addresses: seq<string>, result: CallResult)
    requires posts != [] ==> posts[|posts| - 1].address < |addresses|
    requires result == Outcome(posts, addresses)
    ensures Reports(posts, addresses, result)
  {
  }

  /** A call succeeds exactly if its last POST was answered with status 200, a code of 200 and a text or no
      text. */
  lemma SucceedsByReply(posts: seq<Post>, addresses: seq<string>, result: CallResult)
    requires Reports(posts, addresses, result)
    ensures Success(result) <==>
              && posts != []
              && (|| posts[|posts| - 1].reply == Response(200, Fields(Integer(200), Null))
                  || exists text :: posts[|posts| - 1].reply == Response(200, Fields(Integer(200), Text(text))))
  {
    if posts != [] && Success(result) {
      var reply := posts[|posts| - 1].reply;
      if reply.body.msg.Text? {
        assert reply == Response(200, Fields(Integer(200), Text(reply.body.msg.text)));
      }
    }
  }

  /** A reply after which the same address may be tried again. */
  predicate Repeatable(reply: Reply) {
    reply.TimedOut? || reply.Unreachable? || reply.status != 200
  }

  /** A reply after which the next address may be tried, by the flags of the policy. */
  predicate Passable(reply: Reply, policy: Policy) {
    || reply.TimedOut? || reply.Unreachable?
    || (reply.status != 200 && policy.failoverOnHttpError)
    || (reply.status == 200 && !WellTyped(reply.body) && policy.failoverOnInvalidJson)
    || (reply.status == 200 && WellTyped(reply.body) && reply.body.code != Integer(200)
        && policy.failoverOnBusinessError)
  }

  lemma RepliesMean(reply: Reply, policy: Policy)
    ensures Transient(reply) <==> Repeatable(reply)
    ensures ShouldFailover(ErrorOf(reply), policy) <==> Passable(reply, policy)
  {
  }

  /** `Tries` counts. */
  lemma {:induction false} TriesCount(posts: seq<Post>, a: nat)
    ensures Tries(posts, a) == |set i | 0 <= i < |posts| && posts[i].address == a|
  {
    if posts != [] {
      var n := |posts| - 1;
      TriesCount(posts[..n], a);
      var before := set i | 0 <= i < n && posts[..n][i].address == a;
      assert (set i | 0 <= i < |posts| && posts[i].address == a)
             == before + (if posts[n].address == a then {n} else {});
    }
  }

  /** What follows each POST of a call, by its reply: another at the same address if it may be repeated and
      the address has been tried at most `retryCount` times; else one at the next address, if there is one
      and the reply may be passed over; else nothing. */
  lemma NextPost(posts: seq<Post>, addresses: seq<string>, path: string, policy: Policy, replies: nat -> Reply, i: nat)
    requires IsCall(posts, addresses, path, policy, replies) && i < |posts|
    ensures
      var post := posts[i];
      var tried := |set k | 0 <= k <= i && posts[k].address == post.address|;
      var again := Repeatable(post.reply) && tried <= policy.retryCount;
      var over := Passable(post.reply, policy) && post.address + 1 < |addresses|;
      && (i + 1 < |posts| <==> again || over)
      && (i + 1 < |posts| ==> posts[i + 1].address == post.address + (if again then 0 else 1))
  {
    hide JoinUrl, ErrorOf, Transient, ShouldFailover, Repeatable, Passable, Follows;
    var post := posts[i];
    var front := posts[..i + 1];
    RepliesMean(post.reply, policy);
    TriesCount(front, post.address);
    assert (set k | 0 <= k < |front| && front[k].address == post.address)
           == set k | 0 <= k <= i && posts[k].address == post.address;
    PostAt(posts, addresses, path, policy, replies, i);
    if i + 1 < |posts| {
      PostAt(posts, addresses, path, policy, replies, i + 1);
    } else {
      assert front == posts;
    }
    hide Tries;
  }

  // ---------------------------------------------------------------- what every call does

  /** The POSTs visit a prefix of the addresses in order. */
  lemma {:induction false} VisitsPrefix(posts: seq<Post>, addresses: seq<string>, path: string, policy: Policy,
      replies: nat -> Reply, a: nat)
    requires Follows(posts, addresses, path, policy, replies) && posts != [] && a <= posts[|posts| - 1].address
    ensures exists i :: 0 <= i < |posts| && posts[i].address == a
    decreases |posts|
  {
    hide ErrorOf, Transient, ShouldFailover, Tries, JoinUrl, Follows;
    var n := |posts| - 1;
    if posts[n].address != a {
      FollowsPrefix(posts, addresses, path, policy, replies, n);
      PostAt(posts, addresses, path, policy, replies, n);
      hide NextAddress;
      OneFurther(posts[..n], |addresses|, policy);
      VisitsPrefix(posts[..n], addresses, path, policy, replies, a);
    }
  }

  /** The next POST stays at its address or goes one further. */
  lemma OneFurther(posts: seq<Post>, count: nat, policy: Policy)
    requires NextAddress(posts, count, policy).Some?
    ensures var b := NextAddress(posts, count, policy).value;
      if posts == [] then b == 0
      else b == posts[|posts| - 1].address || b == posts[|posts| - 1].address + 1
  {
    hide ErrorOf, Transient, ShouldFailover, Tries;
  }

  /** A POST is followed by one to the same address only after a transient error, and by one to the next
      address only after an error that may fail over and, if it was transient, when no retry was left; a
      success is the last POST. */
  lemma FollowedBy(posts: seq<Post>, addresses: seq<string>, path: string, policy: Policy, replies: nat -> Reply,
      i: nat)
    requires Follows(posts, addresses, path, policy, replies) && i + 1 < |posts|
    ensures ErrorOf(posts[i].reply).Some?
    ensures || (posts[i + 1].address == posts[i].address && Transient(posts[i].reply))
            || (&& posts[i + 1].address == posts[i].address + 1
                && ShouldFailover(ErrorOf(posts[i].reply), policy)
                && (Transient(posts[i].reply) ==> Tries(posts[..i + 1], posts[i].address) == policy.retryCount + 1))
  {
    hide JoinUrl, Follows, Within, Capacity;
    PostAt(posts, addresses, path, policy, replies, i + 1);
    assert posts[..i + 1][i] == posts[i];
    FollowsPrefix(posts, addresses, path, policy, replies, i + 1);
    Progress(posts[..i + 1], addresses, path, policy, replies);
    TriesWithin(posts[..i + 1], |addresses|, policy);
    hide Tries;
  }

  lemma TriesWithin(posts: seq<Post>, count: nat, policy: Policy)
    requires posts != [] && Within(posts, count, policy)
    ensures 1 <= Tries(posts, posts[|posts| - 1].address) <= policy.retryCount + 1
  {
  }

  /** Addresses never go back, and every attempt at an address but its last met a transient error. */
  lemma {:induction false} EarlierAttempts(posts: seq<Post>, addresses: seq<string>, path: string, policy: Policy,
      replies: nat -> Reply, i: nat, j: nat)
    requires Follows(posts, addresses, path, policy, replies) && i < j < |posts|
    ensures posts[i].address <= posts[j].address
    ensures posts[i].address == posts[j].address ==> Transient(posts[i].reply)
    decreases j - i
  {
    FollowedBy(posts, addresses, path, policy, replies, i);
    if i + 1 < j {
      EarlierAttempts(posts, addresses, path, policy, replies, i + 1, j);
    }
  }

  /** A call makes at most `addresses * (retries + 1)` POSTs, which is `11 * addresses` when the policy
      comes from the configuration. */
  lemma PostsAreBounded(posts: seq<Post>, addresses: seq<string>, path: string, policy: Policy, replies: nat -> Reply)
    requires IsCall(posts, addresses, path, policy, replies)
    ensures policy.retryCount < 0 ==> posts == []
    ensures policy.retryCount >= 0 ==> |posts| <= |addresses| * (policy.retryCount + 1)
    ensures policy.retryCount <= RETRY_COUNT_CAP ==> |posts| <= 11 * |addresses|
  {
    assert policy.retryCount >= 0 ==> |addresses| * (policy.retryCount + 1) == Capacity(|addresses|, policy);
    hide JoinUrl, ErrorOf, Transient, ShouldFailover, Tries, Capacity, Follows, NextAddress;
    if posts != [] {
      Progress(posts, addresses, path, policy, replies);
      var last := posts[|posts| - 1].address;
      CapacityNext(last, policy);
      CapacityGrows(last + 1, |addresses|, policy);
    }
    if policy.retryCount >= 0 { CapacityGrows(0, |addresses|, policy); CapacityNext(0, policy); }
  }

  /** Every POST that does not open a new address is a retry. */
  lemma {:induction false} RetriesCount(posts: seq<Post>, addresses: seq<string>, path: string, policy: Policy,
      replies: nat -> Reply)
    requires Follows(posts, addresses, path, policy, replies) && posts != []
    ensures Retries(posts) + posts[|posts| - 1].address + 1 == |posts|
  {
    hide ErrorOf, Transient, ShouldFailover, Tries, JoinUrl, Follows, Retries;
    var n := |posts| - 1;
    PostAt(posts, addresses, path, policy, replies, n);
    OneFurther(posts[..n], |addresses|, policy);
    hide NextAddress;
    assert posts == posts[..n] + [posts[n]];
    RetriesAppend(posts[..n], posts[n]);
    if n > 0 {
      FollowsPrefix(posts, addresses, path, policy, replies, n);
      RetriesCount(posts[..n], addresses, path, policy, replies);
    } else {
      NoRetries();
    }
  }

  lemma NoRetries()
    ensures Retries([]) == 0
  {
  }

  /** A call waits at most ten times per address under the clamp, so at most 300 seconds per address. */
  lemma WaitsAreBounded(posts: seq<Post>, addresses: seq<string>, path: string, policy: Policy, replies: nat -> Reply)
    requires IsCall(posts, addresses, path, policy, replies)
    requires policy.retryCount <= RETRY_COUNT_CAP && 0.0 <= policy.retryBackoff <= RETRY_BACKOFF_CAP
    ensures Retries(posts) <= RETRY_COUNT_CAP * |addresses|
    ensures Retries(posts) as real * policy.retryBackoff <= 300.0 * |addresses| as real
  {
    hide ErrorOf, Transient, ShouldFailover, Tries, JoinUrl, Follows, NextAddress, Capacity, Retries;
    if posts != [] {
      Progress(posts, addresses, path, policy, replies);
      RetriesCount(posts, addresses, path, policy, replies);
      var visited := posts[|posts| - 1].address + 1;
      CapacityNext(visited - 1, policy);
      CapacityGrows(visited, visited, policy);
      assert |posts| <= 11 * visited && visited <= |addresses|;
    } else {
      NoRetries();
    }
    WaitBound(Retries(posts), |addresses|, policy.retryBackoff);
  }

  lemma WaitBound(waits: nat, count: nat, backoff: real)
    requires waits <= RETRY_COUNT_CAP * count && 0.0 <= backoff <= RETRY_BACKOFF_CAP
    ensures waits as real * backoff <= 300.0 * count as real
  {
    assert waits as real * (RETRY_BACKOFF_CAP - backoff) >= 0.0;
    assert waits as real * backoff <= waits as real * RETRY_BACKOFF_CAP;
    assert waits as real <= 10.0 * count as real;
  }

  /** A call succeeds exactly when one of its POSTs did, and it counts the POSTs it made. */
  lemma SucceedsExactly(posts: seq<Post>, addresses: seq<string>, path: string, policy: Policy, replies: nat -> Reply)
    requires IsCall(posts, addresses, path, policy, replies)
    ensures posts != [] ==> posts[|posts| - 1].address < |addresses|
    ensures Success(Outcome(posts, addresses)) <==> exists i :: 0 <= i < |posts| && ErrorOf(posts[i].reply).None?
    ensures Outcome(posts, addresses).attemptCount == |posts|
  {
    forall i | 0 <= i < |posts| - 1 ensures ErrorOf(posts[i].reply).Some? {
      FollowedBy(posts, addresses, path, policy, replies, i);
    }
    hide ErrorOf, NextAddress;
  }

  /** A failed call ended in an error that may not fail over, or after the last address. */
  lemma GivesUpOnlyAtTheEnd(posts: seq<Post>, addresses: seq<string>, path: string, policy: Policy,
      replies: nat -> Reply)
    requires IsCall(posts, addresses, path, policy, replies) && posts != []
    requires ErrorOf(posts[|posts| - 1].reply).Some?
    ensures || !ShouldFailover(ErrorOf(posts[|posts| - 1].reply), policy)
            || posts[|posts| - 1].address == |addresses| - 1
  {
    Progress(posts, addresses, path, policy, replies);
  }

  /** The replies determine the call: no other sequence of POSTs follows the rule to its end. */
  lemma {:induction false} CallIsUnique(a: seq<Post>, b: seq<Post>, addresses: seq<string>, path: string,
      policy: Policy, replies: nat -> Reply)
    requires IsCall(a, addresses, path, policy, replies) && IsCall(b, addresses, path, policy, replies)
    ensures a == b
  {
    hide NextAddress, Follows;
    if |a| > |b| {
      CallIsNoPrefix(b, a, addresses, path, policy, replies);
    } else {
      CallIsNoPrefix(a, b, addresses, path, policy, replies);
    }
  }

  /** A call that is over is not continued by another. */
  lemma CallIsNoPrefix(a: seq<Post>, b: seq<Post>, addresses: seq<string>, path: string, policy: Policy,
      replies: nat -> Reply)
    requires Follows(a, addresses, path, policy, replies) && NextAddress(a, |addresses|, policy).None?
    requires Follows(b, addresses, path, policy, replies) && |a| <= |b|
    ensures a == b
  {
    hide NextAddress, Follows, JoinUrl;
    SamePrefix(a, b, addresses, path, policy, replies, |a|);
    assert a[..|a|] == a;
    if |a| < |b| {
      PostAt(b, addresses, path, policy, replies, |a|);
    }
    assert b[..|b|] == b;
  }

  lemma {:induction false} SamePrefix(a: seq<Post>, b: seq<Post>, addresses: seq<string>, path: string,
      policy: Policy, replies: nat -> Reply, n: nat)
    requires Follows(a, addresses, path, policy, replies) && Follows(b, addresses, path, policy, replies)
    requires n <= |a| && n <= |b|
    ensures a[..n] == b[..n]
  {
    hide NextAddress, JoinUrl, Follows;
    if n > 0 {
      SamePrefix(a, b, addresses, path, policy, replies, n - 1);
      PostAt(a, addresses, path, policy, replies, n - 1);
      PostAt(b, addresses, path, policy, replies, n - 1);
      assert a[n - 1] == b[n - 1];
      assert a[..n] == a[..n - 1] + [a[n - 1]] && b[..n] == b[..n - 1] + [b[n - 1]];
    }
  }
}
