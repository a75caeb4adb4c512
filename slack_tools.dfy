/**
 * The Slack tools: argument checks, the per-user loop of the bulk direct message with its
 * counters, the member filter of the user listing and the channel message. The Slack Web API
 * is an oracle: each call is given by its outcome (a response, a `SlackApiError` carrying the
 * API's error code, or any other exception with its message). `os.getenv("SLACK_BOT_TOKEN")`
 * is a parameter.
 */
module SlackTools {
  import opened Seqs
  import opened JsonValue

  const TokenRequired := "SLACK_BOT_TOKEN environment variable is required"
  const UserRequired := "At least one user ID is required"
  const MessageRequired := "Message text is required"
  const ChannelRequired := "Channel is required"

  // ---------------------------------------------------------------------------
  // send_slack_bulk_dm
  // ---------------------------------------------------------------------------

  /**
   * What opening the DM channel and posting to it does for one user: the channel id and the
   * message timestamp, or the exception raised by either call.
   */
  datatype DmOutcome = Delivered(channelId: Json, ts: Json) | DmApiError(code: string) | DmCrash(message: string)

  datatype SendRecord = SendRecord(userId: string, channelId: Json, timestamp: Json)
  datatype FailRecord = FailRecord(userId: string, error: string)

  datatype BulkDm =
    | BulkRefused(error: string)
    | BulkReport(successful: seq<SendRecord>, failed: seq<FailRecord>, totalUsers: nat, successCount: nat, failureCount: nat)

  /** The "error" of a failed send, by the kind of exception. */
  function FailureText(o: DmOutcome): string
  {
    match o
    case DmApiError(code) => "Slack API error: " + code
    case DmCrash(message) => "Unexpected error: " + message
    case Delivered(_, _) => ""
  }

  /**
   * The successful sends among the first `n` users, in order; `attempt(i, u)` is the outcome
   * of the `i`-th attempt, made for user `u`.
   */
  function Sent(ids: seq<string>, attempt: (nat, string) -> DmOutcome, n: nat): seq<SendRecord>
    requires n <= |ids|
  {
    if n == 0 then []
    else
      var o := attempt(n - 1, ids[n - 1]);
      Sent(ids, attempt, n - 1) + (if o.Delivered? then [SendRecord(ids[n - 1], o.channelId, o.ts)] else [])
  }

  /** The failed sends among the first `n` users, in order. */
  function Failed(ids: seq<string>, attempt: (nat, string) -> DmOutcome, n: nat): seq<FailRecord>
    requires n <= |ids|
  {
    if n == 0 then []
    else
      var o := attempt(n - 1, ids[n - 1]);
      Failed(ids, attempt, n - 1) + (if o.Delivered? then [] else [FailRecord(ids[n - 1], FailureText(o))])
  }

  /**
   * `send_slack_bulk_dm`: the token, then the user list, then the message are checked; then
   * every user is tried in turn, an exception for one user being recorded and the loop going on.
   */
  method SendSlackBulkDm(userIds: seq<string>, message: string, token: Option<string>, attempt: (nat, string) -> DmOutcome)
    returns (r: BulkDm)
    ensures !Given(token) ==> r == BulkRefused(TokenRequired)
    ensures Given(token) && userIds == [] ==> r == BulkRefused(UserRequired)
    ensures Given(token) && userIds != [] && message == "" ==> r == BulkRefused(MessageRequired)
    ensures Given(token) && userIds != [] && message != "" ==>
      r.BulkReport? && r.totalUsers == |userIds|
      && r.successful == Sent(userIds, attempt, |userIds|) && r.successCount == |r.successful|
      && r.failed == Failed(userIds, attempt, |userIds|) && r.failureCount == |r.failed|
  {
    if !Given(token) {
      return BulkRefused(TokenRequired);
    }
    if userIds == [] {
      return BulkRefused(UserRequired);
    }
    if message == "" {
      return BulkRefused(MessageRequired);
    }
    var successful: seq<SendRecord> := [];
    var failed: seq<FailRecord> := [];
    var successCount := 0;
    var failureCount := 0;
    for i := 0 to |userIds|
      invariant successful == Sent(userIds, attempt, i) && successCount == |successful|
      invariant failed == Failed(userIds, attempt, i) && failureCount == |failed|
    {
      var userId := userIds[i];
      match attempt(i, userId) {
        case Delivered(channelId, ts) =>
          successful := successful + [SendRecord(userId, channelId, ts)];
          successCount := successCount + 1;
        case DmApiError(code) =>
          failed := failed + [FailRecord(userId, "Slack API error: " + code)];
          failureCount := failureCount + 1;
        case DmCrash(msg) =>
          failed := failed + [FailRecord(userId, "Unexpected error: " + msg)];
          failureCount := failureCount + 1;
      }
    }
    r := BulkReport(successful, failed, |userIds|, successCount, failureCount);
  }

  /** Every user is counted once: successes and failures add up to the number of users tried. */
  lemma {:induction false} SendsPartitionUsers(ids: seq<string>, attempt: (nat, string) -> DmOutcome, n: nat)
    requires n <= |ids|
    ensures |Sent(ids, attempt, n)| + |Failed(ids, attempt, n)| == n
  {
    if n > 0 {
      SendsPartitionUsers(ids, attempt, n - 1);
    }
  }

  /**
   * A failure never stops the loop: every user tried has a record, among the successes when
   * the attempt delivered and among the failures (with the error text) otherwise.
   */
  lemma {:induction false} EveryUserRecorded(ids: seq<string>, attempt: (nat, string) -> DmOutcome, n: nat, i: nat)
    requires i < n <= |ids|
    ensures var o := attempt(i, ids[i]);
      (o.Delivered? ==> SendRecord(ids[i], o.channelId, o.ts) in Sent(ids, attempt, n))
      && (!o.Delivered? ==> FailRecord(ids[i], FailureText(o)) in Failed(ids, attempt, n))
  {
    if i < n - 1 {
      EveryUserRecorded(ids, attempt, n - 1, i);
    }
  }

  /** Records only grow at the end: the records of the first `m` users stay the first records once more users are tried. */
  lemma {:induction false} RecordsKeepUserOrder(ids: seq<string>, attempt: (nat, string) -> DmOutcome, m: nat, n: nat)
    requires m <= n <= |ids|
    ensures Sent(ids, attempt, m) <= Sent(ids, attempt, n)
    ensures Failed(ids, attempt, m) <= Failed(ids, attempt, n)
  {
    if m < n {
      RecordsKeepUserOrder(ids, attempt, m, n - 1);
    }
  }

  /** A report's counters add up: `success_count + failure_count == total_users`. */
  lemma ReportCountsAddUp(userIds: seq<string>, attempt: (nat, string) -> DmOutcome, r: BulkDm)
    requires r == BulkReport(Sent(userIds, attempt, |userIds|), Failed(userIds, attempt, |userIds|), |userIds|,
                             |Sent(userIds, attempt, |userIds|)|, |Failed(userIds, attempt, |userIds|)|)
    ensures r.successCount + r.failureCount == r.totalUsers
  {
    SendsPartitionUsers(userIds, attempt, |userIds|);
  }

  // ---------------------------------------------------------------------------
  // get_slack_users
  // ---------------------------------------------------------------------------

  /** What `users.list` does: the members and the `response_metadata` value if any, or an exception. */
  datatype ListOutcome =
    | Listed(members: seq<map<string, Json>>, metadata: Option<Json>)
    | ListApiError(code: string)
    | ListCrash(message: string)

  datatype SlackUser = SlackUser(
    id: Json, name: Json, realName: Json, displayName: Json, email: Json, isAdmin: Json, isOwner: Json, tz: Json)

  datatype UsersResult = UsersError(error: string) | Users(users: seq<SlackUser>, totalCount: nat, hasMore: bool)

  /** The page size asked of the API: the requested limit, capped at the API's maximum of 1000. */
  function RequestLimit(limit: int): (r: int)
    ensures r <= 1000
    ensures r == limit || r == 1000
    ensures limit <= 1000 ==> r == limit
  {
    if limit < 1000 then limit else 1000
  }

  /** A member is kept unless it is marked deleted or is a bot (missing flags count as false). */
  predicate Kept(m: map<string, Json>)
  {
    !Truthy(Get(m, "deleted", JBool(false))) && !Truthy(Get(m, "is_bot", JBool(false)))
  }

  /**
   * The user record of a kept member, or the message of the exception building it raises:
   * a `KeyError` for a missing id, an `AttributeError` for a profile that is not a dict.
   */
  function UserOf(m: map<string, Json>): (r: Result<SlackUser, string>)
    ensures r.Ok? <==> "id" in m && Get(m, "profile", JObj(map[])).JObj?
    ensures r.Ok? ==> r.value.id == m["id"]
  {
    if "id" !in m then Err("'id'")
    else
      var profile := Get(m, "profile", JObj(map[]));
      if !profile.JObj? then Err(NoGetMessage(profile))
      else
        Ok(SlackUser(m["id"], Get(m, "name", JStr("")), Get(m, "real_name", JStr("")),
                     Get(profile.fields, "display_name", JStr("")), Get(profile.fields, "email", JStr("")),
                     Get(m, "is_admin", JBool(false)), Get(m, "is_owner", JBool(false)), Get(m, "tz", JStr(""))))
  }

  /** The users of the first `n` members, or the first exception raised on the way. */
  function KeptUsers(members: seq<map<string, Json>>, n: nat): Result<seq<SlackUser>, string>
    requires n <= |members|
  {
    if n == 0 then Ok([])
    else match KeptUsers(members, n - 1)
      case Err(e) => Err(e)
      case Ok(users) =>
        var m := members[n - 1];
        if !Kept(m) then Ok(users)
        else match UserOf(m)
          case Err(e) => Err(e)
          case Ok(u) => Ok(users + [u])
  }

  /** `has_more`: whether the response carries a next cursor other than "". */
  function HasMore(metadata: Option<Json>): (r: Result<bool, string>)
    ensures metadata.None? ==> r == Ok(false)
    ensures r.Ok? <==> metadata.None? || metadata.value.JObj?
    ensures r.Ok? && metadata.Some? ==>
      (r.value <==> "next_cursor" in metadata.value.fields && metadata.value.fields["next_cursor"] != JStr(""))
  {
    var meta := if metadata.Some? then metadata.value else JObj(map[]);
    if !meta.JObj? then Err(NoGetMessage(meta))
    else Ok(Get(meta.fields, "next_cursor", JStr("")) != JStr(""))
  }

  /** The result built from the API's answer. */
  function UsersResponse(o: ListOutcome): (r: UsersResult)
  {
    match o
    case ListApiError(code) => UsersError("Slack API error: " + code)
    case ListCrash(message) => UsersError("An error occurred: " + message)
    case Listed(members, metadata) =>
      match KeptUsers(members, |members|)
      case Err(e) => UsersError("An error occurred: " + e)
      case Ok(users) =>
        match HasMore(metadata)
        case Err(e) => UsersError("An error occurred: " + e)
        case Ok(more) => Users(users, |users|, more)
  }

  /** `get_slack_users` as it runs: the loop appends a record for each kept member. */
  method GetSlackUsers(limit: int, token: Option<string>, list: int -> ListOutcome) returns (r: UsersResult)
    ensures !Given(token) ==> r == UsersError(TokenRequired)
    ensures Given(token) ==> r == UsersResponse(list(RequestLimit(limit)))
  {
    if !Given(token) {
      return UsersError(TokenRequired);
    }
    var response := list(RequestLimit(limit));
    match response {
      case ListApiError(code) =>
        return UsersError("Slack API error: " + code);
      case ListCrash(message) =>
        return UsersError("An error occurred: " + message);
      case Listed(members, metadata) =>
        var users: seq<SlackUser> := [];
        for i := 0 to |members|
          invariant KeptUsers(members, i) == Ok(users)
        {
          var member := members[i];
          if Kept(member) {
            var u := UserOf(member);
            if u.Err? {
              KeptUsersErrorSticks(members, i + 1, |members|);
              return UsersError("An error occurred: " + u.error);
            }
            users := users + [u.value];
          }
        }
        var more := HasMore(metadata);
        if more.Err? {
          return UsersError("An error occurred: " + more.error);
        }
        r := Users(users, |users|, more.value);
    }
  }

  /**
   * The listing keeps exactly the members that are neither deleted nor bots, in order, each
   * turned into its user record.
   */
  lemma {:induction false} KeptUsersAreFiltered(members: seq<map<string, Json>>, n: nat)
    requires n <= |members|
    ensures var r := KeptUsers(members, n);
      var kept := Filter(members[..n], Kept);
      r.Ok? ==> (|r.value| == |kept| && forall i :: 0 <= i < |kept| ==> UserOf(kept[i]) == Ok(r.value[i]))
  {
    if n > 0 {
      KeptUsersAreFiltered(members, n - 1);
      FilterSnoc(members, n - 1, Kept);
      var r := KeptUsers(members, n);
      var prev := KeptUsers(members, n - 1);
      if r.Ok? {
        assert prev.Ok?;
        var kept := Filter(members[..n], Kept);
        var before := Filter(members[..n - 1], Kept);
        if Kept(members[n - 1]) {
          assert kept == before + [members[n - 1]];
          assert r.value == prev.value + [UserOf(members[n - 1]).value];
          forall i | 0 <= i < |kept| ensures UserOf(kept[i]) == Ok(r.value[i]) {
            if i < |before| {
              assert kept[i] == before[i] && r.value[i] == prev.value[i];
            }
          }
        } else {
          assert kept == before;
        }
      }
    }
  }

  /** Once building a user has failed, the listing fails with that exception. */
  lemma {:induction false} KeptUsersErrorSticks(members: seq<map<string, Json>>, i: nat, n: nat)
    requires i <= n <= |members| && KeptUsers(members, i).Err?
    ensures KeptUsers(members, n) == KeptUsers(members, i)
  {
    if i < n {
      KeptUsersErrorSticks(members, i, n - 1);
    }
  }

  /** Building the users fails exactly when some kept member has no id or a profile that is not a dict. */
  lemma {:induction false} KeptUsersFailure(members: seq<map<string, Json>>, n: nat)
    requires n <= |members|
    ensures KeptUsers(members, n).Err? <==> exists i :: 0 <= i < n && Kept(members[i]) && UserOf(members[i]).Err?
  {
    if n > 0 {
      KeptUsersFailure(members, n - 1);
    }
  }

  /** A successful listing reports as many users as it returns, and more pages exactly when the cursor is non-empty. */
  lemma UsersCounted(o: ListOutcome)
    requires o.Listed? && o.metadata.Some? && o.metadata.value.JObj?
    ensures var r := UsersResponse(o);
      r.Users? ==> (r.totalCount == |r.users|
        && (r.hasMore <==> Get(o.metadata.value.fields, "next_cursor", JStr("")) != JStr("")))
  {
  }

  // ---------------------------------------------------------------------------
  // send_slack_channel_message
  // ---------------------------------------------------------------------------

  /** What `chat.postMessage` does: the response's channel, timestamp and optional message, or an exception. */
  datatype PostOutcome = Posted(channel: Json, ts: Json, message: Option<Json>) | PostApiError(code: string) | PostCrash(text: string)

  datatype ChannelResult = ChannelError(error: string) | ChannelSent(channel: Json, timestamp: Json, message: Json)

  /** `send_slack_channel_message`: token, then channel, then message are checked before the post. */
  function SendSlackChannelMessage(channel: string, message: string, token: Option<string>,
                                   post: (string, string) -> PostOutcome): (r: ChannelResult)
    ensures !Given(token) ==> r == ChannelError(TokenRequired)
    ensures Given(token) && channel == "" ==> r == ChannelError(ChannelRequired)
    ensures Given(token) && channel != "" && message == "" ==> r == ChannelError(MessageRequired)
    ensures r.ChannelSent? <==> Given(token) && channel != "" && message != "" && post(channel, message).Posted?
    ensures r.ChannelSent? ==> r.channel == post(channel, message).channel && r.timestamp == post(channel, message).ts
  {
    if !Given(token) then ChannelError(TokenRequired)
    else if channel == "" then ChannelError(ChannelRequired)
    else if message == "" then ChannelError(MessageRequired)
    else match post(channel, message)
      case PostApiError(code) => ChannelError("Slack API error: " + code)
      case PostCrash(text) => ChannelError("An error occurred: " + text)
      case Posted(ch, ts, m) => ChannelSent(ch, ts, if m.Some? then m.value else JNull)
  }
}
