/** What to tell people after a sweep: an end and the start that follows it make one message. */
module MaintenanceNotices {
  import opened Wrappers
  import opened Database

  datatype Ended = Ended(id: RowId, user: UserId, plan: PlanCode)
  datatype Started = Started(id: RowId, user: UserId, plan: PlanCode, expiresAt: int)

  datatype Notice =
    | SubscriptionExpired(user: UserId, id: RowId, plan: PlanCode)
    | SubscriptionRolledOver(user: UserId, id: RowId, plan: PlanCode, expiresAt: int, previousId: RowId,
        previousPlan: PlanCode)
    | SubscriptionStarted(user: UserId, id: RowId, plan: PlanCode, expiresAt: int)

  /** The promotion a Map keyed by user keeps. */
  function LastFor(promoted: seq<Started>, user: UserId): (r: Option<Started>)
    ensures r.Some? ==> r.value in promoted && r.value.user == user
    ensures r.None? <==> forall p | p in promoted :: p.user != user
  {
    if promoted == [] then None
    else
      var last := promoted[|promoted| - 1];
      if last.user == user then Some(last) else LastFor(promoted[..|promoted| - 1], user)
  }

  /** The keys of that Map, in insertion order. */
  function Keys(promoted: seq<Started>): seq<UserId> {
    if promoted == [] then []
    else
      var keys := Keys(promoted[..|promoted| - 1]);
      var user := promoted[|promoted| - 1].user;
      if user in keys then keys else keys + [user]
  }

  predicate HasEnded(expired: seq<Ended>, user: UserId) { exists e :: e in expired && e.user == user }

  /** One message for each end; a user's first end takes the promotion with it. */
  function EndNotices(expired: seq<Ended>, promoted: seq<Started>): (r: seq<Notice>)
    ensures |r| == |expired|
  {
    if expired == [] then []
    else
      var init, e := expired[..|expired| - 1], expired[|expired| - 1];
      var next := LastFor(promoted, e.user);
      EndNotices(init, promoted)
      + [if next.None? || HasEnded(init, e.user) then SubscriptionExpired(e.user, e.id, e.plan)
         else SubscriptionRolledOver(e.user, next.value.id, next.value.plan, next.value.expiresAt, e.id, e.plan)]
  }

  /** One message for each promotion that no end took. */
  function StartNotices(keys: seq<UserId>, expired: seq<Ended>, promoted: seq<Started>): seq<Notice> {
    if keys == [] then []
    else
      var init, user := keys[..|keys| - 1], keys[|keys| - 1];
      var next := LastFor(promoted, user);
      StartNotices(init, expired, promoted)
      + if next.None? || HasEnded(expired, user) then []
        else [SubscriptionStarted(user, next.value.id, next.value.plan, next.value.expiresAt)]
  }

  function Notices(expired: seq<Ended>, promoted: seq<Started>): seq<Notice> {
    EndNotices(expired, promoted) + StartNotices(Keys(promoted), expired, promoted)
  }

  /** The promotions no end has taken yet. */
  ghost predicate Pending(pending: map<UserId, Started>, promoted: seq<Started>, expired: seq<Ended>) {
    && (forall u :: u in pending <==> LastFor(promoted, u).Some? && !HasEnded(expired, u))
    && (forall u | u in pending :: pending[u] == LastFor(promoted, u).value)
  }

  method BuildMaintenanceNotifications(expired: seq<Ended>, promoted: seq<Started>) returns (notifications: seq<Notice>)
    ensures notifications == Notices(expired, promoted)
  {
    var pending, order := PromotionsByUser(promoted);
    notifications, pending := TellEnds(expired, promoted, pending);
    var started := TellStarts(expired, promoted, pending, order);
    notifications := notifications + started;
  }

  method TellStarts(ghost expired: seq<Ended>, ghost promoted: seq<Started>,
                    pending: map<UserId, Started>, order: seq<UserId>)
    returns (notifications: seq<Notice>)
    requires Pending(pending, promoted, expired)
    ensures notifications == StartNotices(order, expired, promoted)
  {
    notifications := [];
    for i := 0 to |order|
      invariant notifications == StartNotices(order[..i], expired, promoted)
    {
      StartNoticesMore(order[..i], order[i], expired, promoted);
      assert order[..i + 1] == order[..i] + [order[i]];
      if order[i] in pending {
        var next := pending[order[i]];
        notifications := notifications + [SubscriptionStarted(next.user, next.id, next.plan, next.expiresAt)];
      }
    }
    assert order[..|order|] == order;
  }

  method PromotionsByUser(promoted: seq<Started>) returns (pending: map<UserId, Started>, order: seq<UserId>)
    ensures order == Keys(promoted) && Pending(pending, promoted, [])
  {
    pending, order := map[], [];
    for i := 0 to |promoted|
      invariant order == Keys(promoted[..i]) && Pending(pending, promoted[..i], [])
    {
      assert promoted[..i + 1][..i] == promoted[..i];
      if promoted[i].user !in order {
        order := order + [promoted[i].user];
      }
      pending := pending[promoted[i].user := promoted[i]];
    }
    assert promoted[..|promoted|] == promoted;
  }

  method TellEnds(expired: seq<Ended>, promoted: seq<Started>, promotions: map<UserId, Started>)
    returns (notifications: seq<Notice>, pending: map<UserId, Started>)
    requires Pending(promotions, promoted, [])
    ensures notifications == EndNotices(expired, promoted) && Pending(pending, promoted, expired)
  {
    notifications, pending := [], promotions;
    for i := 0 to |expired|
      invariant notifications == EndNotices(expired[..i], promoted) && Pending(pending, promoted, expired[..i])
    {
      assert expired[..i + 1] == expired[..i] + [expired[i]];
      var ended := expired[i];
      EndNoticesMore(expired[..i], ended, promoted);
      PendingMore(pending, promoted, expired[..i], ended);
      if ended.user !in pending {
        notifications := notifications + [SubscriptionExpired(ended.user, ended.id, ended.plan)];
      } else {
        var next := pending[ended.user];
        pending := pending - {ended.user};
        notifications := notifications + [
          SubscriptionRolledOver(ended.user, next.id, next.plan, next.expiresAt, ended.id, ended.plan)];
      }
    }
    assert expired[..|expired|] == expired;
  }

  lemma StartNoticesMore(keys: seq<UserId>, user: UserId, expired: seq<Ended>, promoted: seq<Started>)
    ensures var next := LastFor(promoted, user);
            StartNotices(keys + [user], expired, promoted)
            == StartNotices(keys, expired, promoted)
               + if next.None? || HasEnded(expired, user) then []
                 else [SubscriptionStarted(user, next.value.id, next.value.plan, next.value.expiresAt)]
  {
    assert (keys + [user])[..|keys|] == keys;
  }

  lemma EndNoticesMore(expired: seq<Ended>, e: Ended, promoted: seq<Started>)
    ensures var next := LastFor(promoted, e.user);
            EndNotices(expired + [e], promoted)
            == EndNotices(expired, promoted)
               + [if next.None? || HasEnded(expired, e.user) then SubscriptionExpired(e.user, e.id, e.plan)
                  else SubscriptionRolledOver(e.user, next.value.id, next.value.plan, next.value.expiresAt, e.id,
                      e.plan)]
  {
    assert (expired + [e])[..|expired|] == expired;
  }

  lemma PendingMore(pending: map<UserId, Started>, promoted: seq<Started>, expired: seq<Ended>, e: Ended)
    requires Pending(pending, promoted, expired)
    ensures Pending(pending - {e.user}, promoted, expired + [e])
    ensures e.user !in pending ==> pending - {e.user} == pending
  {
    EndedMore(expired, e);
  }

  lemma EndedMore(expired: seq<Ended>, e: Ended)
    ensures forall u :: HasEnded(expired + [e], u) <==> HasEnded(expired, u) || u == e.user
  {
    assert e in expired + [e];
    assert forall u | HasEnded(expired, u) :: exists x :: x in expired + [e] && x.user == u;
  }

  // ---- Every event is told once ----

  /** The ends, and the starts, a user is told about. */
  function EndsTold(notices: seq<Notice>, user: UserId): seq<RowId> {
    if notices == [] then []
    else
      var n := notices[|notices| - 1];
      EndsTold(notices[..|notices| - 1], user)
      + if n.user != user || n.SubscriptionStarted? then []
        else [if n.SubscriptionRolledOver? then n.previousId else n.id]
  }

  function StartsTold(notices: seq<Notice>, user: UserId): seq<RowId> {
    if notices == [] then []
    else
      var n := notices[|notices| - 1];
      StartsTold(notices[..|notices| - 1], user) + if n.user != user || n.SubscriptionExpired? then [] else [n.id]
  }

  /** The ends, and the starts, that happened to the user. */
  function EndsOf(expired: seq<Ended>, user: UserId): seq<RowId> {
    if expired == [] then []
    else
      var e := expired[|expired| - 1];
      EndsOf(expired[..|expired| - 1], user) + if e.user == user then [e.id] else []
  }

  function StartsOf(promoted: seq<Started>, user: UserId): seq<RowId> {
    if promoted == [] then []
    else
      var p := promoted[|promoted| - 1];
      StartsOf(promoted[..|promoted| - 1], user) + if p.user == user then [p.id] else []
  }

  lemma {:induction false} ToldAppend(xs: seq<Notice>, ys: seq<Notice>, user: UserId)
    ensures EndsTold(xs + ys, user) == EndsTold(xs, user) + EndsTold(ys, user)
    ensures StartsTold(xs + ys, user) == StartsTold(xs, user) + StartsTold(ys, user)
    decreases |ys|
  {
    if ys == [] {
      assert xs + ys == xs;
    } else {
      assert (xs + ys)[..|xs + ys| - 1] == xs + ys[..|ys| - 1];
      ToldAppend(xs, ys[..|ys| - 1], user);
    }
  }

  lemma ToldOneMore(told: seq<Notice>, n: Notice, user: UserId)
    ensures EndsTold(told + [n], user) == EndsTold(told, user)
              + if n.user != user || n.SubscriptionStarted? then []
                  else [if n.SubscriptionRolledOver? then n.previousId else n.id]
    ensures StartsTold(told + [n], user) == StartsTold(told, user)
              + if n.user != user || n.SubscriptionExpired? then [] else [n.id]
  {
    assert (told + [n])[..|told|] == told;
  }

  lemma {:induction false} EndNoticesTell(expired: seq<Ended>, promoted: seq<Started>, user: UserId)
    ensures EndsTold(EndNotices(expired, promoted), user) == EndsOf(expired, user)
    ensures StartsTold(EndNotices(expired, promoted), user)
            == if HasEnded(expired, user) && LastFor(promoted, user).Some?
                then [LastFor(promoted, user).value.id] else []
    decreases |expired|
  {
    if expired != [] {
      var init, e := expired[..|expired| - 1], expired[|expired| - 1];
      assert expired == init + [e];
      EndNoticesTell(init, promoted, user);
      EndedMore(init, e);
      ToldOneMore(EndNotices(init, promoted), EndNotices(expired, promoted)[|init|], user);
    }
  }

  lemma {:induction false} StartNoticesTell(keys: seq<UserId>, expired: seq<Ended>, promoted: seq<Started>,
      user: UserId)
    requires forall i, j | 0 <= i < j < |keys| :: keys[i] != keys[j]
    ensures EndsTold(StartNotices(keys, expired, promoted), user) == []
    ensures StartsTold(StartNotices(keys, expired, promoted), user)
            == if user in keys && !HasEnded(expired, user) && LastFor(promoted, user).Some?
               then [LastFor(promoted, user).value.id] else []
    decreases |keys|
  {
    if keys != [] {
      var init, last := keys[..|keys| - 1], keys[|keys| - 1];
      assert keys == init + [last];
      StartNoticesTell(init, expired, promoted, user);
      var told := StartNotices(init, expired, promoted);
      var next := LastFor(promoted, last);
      if next.None? || HasEnded(expired, last) {
        assert StartNotices(keys, expired, promoted) == told;
      } else {
        ToldOneMore(told, SubscriptionStarted(last, next.value.id, next.value.plan, next.value.expiresAt), user);
      }
    }
  }

  lemma {:induction false} KeysAre(promoted: seq<Started>)
    ensures forall i, j | 0 <= i < j < |Keys(promoted)| :: Keys(promoted)[i] != Keys(promoted)[j]
    ensures forall u :: u in Keys(promoted) <==> LastFor(promoted, u).Some?
    decreases |promoted|
  {
    if promoted != [] {
      KeysAre(promoted[..|promoted| - 1]);
    }
  }

  lemma {:induction false} LastIsLast(promoted: seq<Started>, user: UserId)
    ensures LastFor(promoted, user).None? <==> StartsOf(promoted, user) == []
    ensures LastFor(promoted, user).Some? ==>
              LastFor(promoted, user).value.id == StartsOf(promoted, user)[|StartsOf(promoted, user)| - 1]
    decreases |promoted|
  {
    if promoted != [] {
      LastIsLast(promoted[..|promoted| - 1], user);
    }
  }

  lemma WhatIsTold(expired: seq<Ended>, promoted: seq<Started>, user: UserId)
    ensures EndsTold(Notices(expired, promoted), user) == EndsOf(expired, user)
    ensures StartsTold(Notices(expired, promoted), user)
            == if LastFor(promoted, user).Some? then [LastFor(promoted, user).value.id] else []
  {
    EndNoticesTell(expired, promoted, user);
    KeysAre(promoted);
    StartNoticesTell(Keys(promoted), expired, promoted, user);
    ToldAppend(EndNotices(expired, promoted), StartNotices(Keys(promoted), expired, promoted), user);
  }

  /** Every end is told once and in order; every start is told once exactly when the user has at most one. */
  lemma EveryEventToldOnce(expired: seq<Ended>, promoted: seq<Started>, user: UserId)
    ensures EndsTold(Notices(expired, promoted), user) == EndsOf(expired, user)
    ensures StartsTold(Notices(expired, promoted), user) == StartsOf(promoted, user) <==>
        |StartsOf(promoted, user)| <= 1
  {
    WhatIsTold(expired, promoted, user);
    LastIsLast(promoted, user);
  }

  lemma {:induction false} EndsOfAre(expired: seq<Ended>, user: UserId)
    ensures forall id :: id in EndsOf(expired, user) <==> exists e :: e in expired && e.user == user && e.id == id
    ensures (forall i, j | 0 <= i < j < |expired| :: expired[i].user != expired[j].user) ==>
        |EndsOf(expired, user)| <= 1
    decreases |expired|
  {
    if expired != [] {
      var init, e := expired[..|expired| - 1], expired[|expired| - 1];
      assert expired == init + [e];
      EndsOfAre(init, user);
      if |EndsOf(init, user)| > 0 {
        assert EndsOf(init, user)[0] in EndsOf(init, user);
      }
    }
  }

  lemma {:induction false} StartsOfAre(promoted: seq<Started>, user: UserId)
    ensures forall id :: id in StartsOf(promoted, user) <==> exists p :: p in promoted && p.user == user && p.id == id
    ensures (forall i, j | 0 <= i < j < |promoted| :: promoted[i].user != promoted[j].user) ==>
        |StartsOf(promoted, user)| <= 1
    decreases |promoted|
  {
    if promoted != [] {
      var init, p := promoted[..|promoted| - 1], promoted[|promoted| - 1];
      assert promoted == init + [p];
      StartsOfAre(init, user);
      if |StartsOf(init, user)| > 0 {
        assert StartsOf(init, user)[0] in StartsOf(init, user);
      }
    }
  }

  /** The notice says what really happened, to whom and with which plans and dates. */
  predicate Says(expired: seq<Ended>, promoted: seq<Started>, n: Notice) {
    match n
    case SubscriptionExpired(user, id, plan) => Ended(id, user, plan) in expired
    case SubscriptionRolledOver(user, id, plan, expiresAt, previousId, previousPlan) =>
      Started(id, user, plan, expiresAt) in promoted && Ended(previousId, user, previousPlan) in expired
    case SubscriptionStarted(user, id, plan, expiresAt) =>
      Started(id, user, plan, expiresAt) in promoted && !HasEnded(expired, user)
  }

  lemma {:induction false} EndNoticesSay(expired: seq<Ended>, promoted: seq<Started>)
    ensures forall n | n in EndNotices(expired, promoted) :: Says(expired, promoted, n) && !n.SubscriptionStarted?
    decreases |expired|
  {
    if expired != [] {
      var init, e := expired[..|expired| - 1], expired[|expired| - 1];
      assert expired == init + [e];
      EndNoticesSay(init, promoted);
      forall n | n in EndNotices(init, promoted)
        ensures Says(expired, promoted, n)
      {
        assert Says(init, promoted, n);
      }
    }
  }

  lemma {:induction false} StartNoticesSay(keys: seq<UserId>, expired: seq<Ended>, promoted: seq<Started>)
    ensures forall n | n in StartNotices(keys, expired, promoted) :: Says(expired, promoted, n)
    decreases |keys|
  {
    if keys != [] {
      StartNoticesSay(keys[..|keys| - 1], expired, promoted);
    }
  }

  /** No notice names a row, a user, a plan or a date that is not the event's own. */
  lemma NoticesSay(expired: seq<Ended>, promoted: seq<Started>)
    ensures forall n | n in Notices(expired, promoted) :: Says(expired, promoted, n)
  {
    EndNoticesSay(expired, promoted);
    StartNoticesSay(Keys(promoted), expired, promoted);
  }

  function EndedUsers(expired: seq<Ended>): set<UserId> { set e | e in expired :: e.user }

  function StartedUsers(promoted: seq<Started>): set<UserId> { set p | p in promoted :: p.user }

  /** A start and an end of the same user share a message. */
  lemma NoticeCount(expired: seq<Ended>, promoted: seq<Started>)
    requires forall i, j | 0 <= i < j < |promoted| :: promoted[i].user != promoted[j].user
    ensures |Notices(expired, promoted)|
            == |expired| + |promoted| - |EndedUsers(expired) * StartedUsers(promoted)|
  {
    KeysAre(promoted);
    KeyCount(promoted);
    StartCount(Keys(promoted), expired, promoted);
    var keys := set u | u in Keys(promoted);
    assert keys == StartedUsers(promoted);
    assert keys * EndedUsers(expired) == EndedUsers(expired) * StartedUsers(promoted);
  }

  lemma {:induction false} KeyCount(promoted: seq<Started>)
    requires forall i, j | 0 <= i < j < |promoted| :: promoted[i].user != promoted[j].user
    ensures |Keys(promoted)| == |promoted|
    decreases |promoted|
  {
    if promoted != [] {
      KeyCount(promoted[..|promoted| - 1]);
      KeysAre(promoted[..|promoted| - 1]);
    }
  }

  lemma {:induction false} StartCount(keys: seq<UserId>, expired: seq<Ended>, promoted: seq<Started>)
    requires forall i, j | 0 <= i < j < |keys| :: keys[i] != keys[j]
    requires forall u | u in keys :: LastFor(promoted, u).Some?
    ensures |StartNotices(keys, expired, promoted)| == |keys| - |(set u | u in keys) * EndedUsers(expired)|
    decreases |keys|
  {
    if keys == [] {
      assert (set u | u in keys) * EndedUsers(expired) == {};
    } else {
      var init, user := keys[..|keys| - 1], keys[|keys| - 1];
      assert keys == init + [user];
      StartCount(init, expired, promoted);
      OneUserMore(init, user, EndedUsers(expired));
    }
  }

  lemma OneUserMore(init: seq<UserId>, user: UserId, ended: set<UserId>)
    requires user !in init
    ensures |(set u | u in init + [user]) * ended| == |(set u | u in init) * ended| + if user in ended then 1 else 0
  {
    var before, after := (set u | u in init) * ended, (set u | u in init + [user]) * ended;
    assert user !in before;
    if user in ended {
      assert after == before + {user};
    } else {
      assert after == before;
    }
  }
}
