/** What the store promises its callers: ids are handed out in increasing order and never
    reused, an update touches one record, and each query returns what its name says. */
module StoreProps {
  import opened Wrappers
  import opened Schema
  import opened Seqs
  import opened StoreModel
  import Sorting
  import JsMath
  import Text

  /** `createBotSession` appends one record under a fresh, larger id, with the defaults
      for every field not supplied, and drops the supplied metadata. */
  lemma {:induction false} CreateBotSessionAppends(st: StoreState, ins: InsertSession, now: int)
    requires WellFormed(st)
    ensures var (st', s) := CreateBotSession(st, ins, now);
      && WellFormed(st')
      && s.id !in st.sessions
      && (forall id | id in st.sessions :: id < s.id && st'.sessions[id] == st.sessions[id])
      && Sessions(st') == Sessions(st) + [s]
      && st'.creators == st.creators && st'.activities == st.activities && st'.config == st.config
      && s.status == ins.status.GetOr(Idle)
      && s.invitesSent == ins.invitesSent.GetOr(0)
      && s.successfulInvites == ins.successfulInvites.GetOr(0)
      && s.errorCount == ins.errorCount.GetOr(0)
      && s.startTime == ins.startTime && s.endTime == ins.endTime && s.settings == ins.settings
      && s.metadata == None && s.createdAt == now
  {
    var (st', s) := CreateBotSession(st, ins, now);
    ListedIgnoresAbove(st.sessions, s.id, s, st.lastSessionId);
  }

  /** `createCreator` appends one record under a fresh, larger id; a zero follower count
      and an empty category are stored as null, every other supplied value as given. */
  lemma {:induction false} CreateCreatorAppends(st: StoreState, ins: InsertCreator, now: int)
    requires WellFormed(st)
    ensures var (st', c) := CreateCreator(st, ins, now);
      && WellFormed(st')
      && c.id !in st.creators
      && (forall id | id in st.creators :: id < c.id && st'.creators[id] == st.creators[id])
      && Creators(st') == Creators(st) + [c]
      && st'.sessions == st.sessions && st'.activities == st.activities && st'.config == st.config
      && c.username == ins.username
      && (c.followers.None? <==> ins.followers.None? || ins.followers == Some(0))
      && (c.followers.Some? ==> c.followers == ins.followers)
      && (c.category.None? <==> ins.category.None? || ins.category == Some(""))
      && (c.category.Some? ==> c.category == ins.category)
      && c.lastInvited == ins.lastInvited && c.inviteStatus == ins.inviteStatus
      && c.metadata == None && c.createdAt == now
  {
    var (st', c) := CreateCreator(st, ins, now);
    ListedIgnoresAbove(st.creators, c.id, c, st.lastCreatorId);
  }

  /** `logActivity` appends one record under a fresh, larger id. */
  lemma {:induction false} LogActivityAppends(st: StoreState, ins: InsertActivity, now: int)
    requires WellFormed(st)
    ensures var (st', a) := LogActivity(st, ins, now);
      && WellFormed(st')
      && a.id !in st.activities
      && (forall id | id in st.activities :: id < a.id && st'.activities[id] == st.activities[id])
      && Activities(st') == Activities(st) + [a]
      && st'.sessions == st.sessions && st'.creators == st.creators && st'.config == st.config
      && a.kind == ins.kind && a.description == ins.description && a.metadata == ins.metadata
      && a.createdAt == now
  {
    var (st', a) := LogActivity(st, ins, now);
    ListedIgnoresAbove(st.activities, a.id, a, st.lastActivityId);
  }

  /** `updateBotSession` on an unknown id changes nothing and returns `undefined`; on a
      known id it replaces that record alone, supplied keys overriding, and keeps its id. */
  lemma UpdateBotSessionLocal(st: StoreState, id: nat, u: SessionUpdate)
    requires WellFormed(st)
    ensures var (st', r) := UpdateBotSession(st, id, u);
      && WellFormed(st')
      && (id !in st.sessions ==> st' == st && r.None?)
      && (id in st.sessions ==>
            && r.Some? && r.value.id == id && st'.sessions[id] == r.value
            && |Sessions(st)| == st.lastSessionId
            && Sessions(st') == Sessions(st)[id - 1 := r.value]
            && r.value.status == u.status.GetOr(st.sessions[id].status)
            && r.value.invitesSent == u.invitesSent.GetOr(st.sessions[id].invitesSent)
            && r.value.successfulInvites == u.successfulInvites.GetOr(st.sessions[id].successfulInvites)
            && r.value.errorCount == u.errorCount.GetOr(st.sessions[id].errorCount)
            && (u.endTime.Some? ==> r.value.endTime == u.endTime)
            && (u.endTime.None? ==> r.value.endTime == st.sessions[id].endTime)
            && (u.metadata.Some? ==> r.value.metadata == u.metadata)
            && (u.metadata.None? ==> r.value.metadata == st.sessions[id].metadata)
            && r.value.startTime == st.sessions[id].startTime
            && r.value.settings == st.sessions[id].settings
            && r.value.createdAt == st.sessions[id].createdAt)
      && (forall k | k in st.sessions && k != id :: st'.sessions[k] == st.sessions[k])
      && st'.creators == st.creators && st'.activities == st.activities && st'.config == st.config
  {
    if id in st.sessions {
      var (st', r) := UpdateBotSession(st, id, u);
      ListedUpdate(st.sessions, id, r.value, st.lastSessionId);
    }
  }

  /** `updateCreator`: the same for creators. */
  lemma UpdateCreatorLocal(st: StoreState, id: nat, u: CreatorUpdate)
    requires WellFormed(st)
    ensures var (st', r) := UpdateCreator(st, id, u);
      && WellFormed(st')
      && (id !in st.creators ==> st' == st && r.None?)
      && (id in st.creators ==>
            && r.Some? && r.value.id == id && st'.creators[id] == r.value
            && |Creators(st)| == st.lastCreatorId
            && Creators(st') == Creators(st)[id - 1 := r.value]
            && r.value.username == st.creators[id].username
            && r.value.followers == u.followers.GetOr(st.creators[id].followers)
            && r.value.category == u.category.GetOr(st.creators[id].category)
            && (u.inviteStatus.Some? ==> r.value.inviteStatus == u.inviteStatus)
            && (u.inviteStatus.None? ==> r.value.inviteStatus == st.creators[id].inviteStatus)
            && (u.lastInvited.Some? ==> r.value.lastInvited == u.lastInvited)
            && (u.lastInvited.None? ==> r.value.lastInvited == st.creators[id].lastInvited)
            && (u.metadata.Some? ==> r.value.metadata == u.metadata)
            && (u.metadata.None? ==> r.value.metadata == st.creators[id].metadata)
            && r.value.createdAt == st.creators[id].createdAt)
      && (forall k | k in st.creators && k != id :: st'.creators[k] == st.creators[k])
      && st'.sessions == st.sessions && st'.activities == st.activities && st'.config == st.config
  {
    if id in st.creators {
      var (st', r) := UpdateCreator(st, id, u);
      ListedUpdate(st.creators, id, r.value, st.lastCreatorId);
    }
  }

  /** `getCurrentSession` finds a session exactly when one is running or paused, and then
      returns one created no earlier than any other running or paused session. */
  lemma CurrentSessionIsNewestActive(st: StoreState)
    ensures var r := CurrentSession(st);
      && (r.None? <==> forall i :: 0 <= i < |Sessions(st)| ==> !IsActiveSession(Sessions(st)[i]))
      && (r.Some? ==>
            && r.value in Sessions(st) && IsActiveSession(r.value)
            && forall i :: 0 <= i < |Sessions(st)| && IsActiveSession(Sessions(st)[i]) ==>
                 Sessions(st)[i].createdAt <= r.value.createdAt)
  {
    var f := Filter(Sessions(st), IsActiveSession);
    var srt := Sorting.SortDesc(f, SessionTime);
    Sorting.SortDescSortsAndPermutes(f, SessionTime);
    if srt != [] {
      assert srt[0] in multiset(f);
      forall i | 0 <= i < |Sessions(st)| && IsActiveSession(Sessions(st)[i])
        ensures Sessions(st)[i].createdAt <= srt[0].createdAt
      {
        var x := Sessions(st)[i];
        assert x in multiset(srt);
        var j :| 0 <= j < |srt| && srt[j] == x;
        if j > 0 {
          assert SessionTime(srt[j]) <= SessionTime(srt[0]);
        }
      }
    }
  }

  /** `getRecentSessions(limit)` for a non-negative limit: the `limit` newest sessions,
      newest first. */
  lemma RecentSessionsAreNewest(st: StoreState, limit: nat)
    ensures var r := RecentSessions(st, limit);
      && |r| == Min(limit, |Sessions(st)|)
      && Sorting.SortedDesc(r, SessionTime)
      && multiset(r) <= multiset(Sessions(st))
      && forall x, y :: x in Sessions(st) && x !in r && y in r ==> x.createdAt <= y.createdAt
  {
    Sorting.SortedPrefixIsTop(Sessions(st), SessionTime, Min(limit, |Sessions(st)|));
  }

  /** `getRecentActivities(limit)` for a non-negative limit: the `limit` newest
      activities, newest first. */
  lemma RecentActivitiesAreNewest(st: StoreState, limit: nat)
    ensures var r := RecentActivities(st, limit);
      && |r| == Min(limit, |Activities(st)|)
      && Sorting.SortedDesc(r, ActivityTime)
      && multiset(r) <= multiset(Activities(st))
      && forall x, y :: x in Activities(st) && x !in r && y in r ==> x.createdAt <= y.createdAt
  {
    Sorting.SortedPrefixIsTop(Activities(st), ActivityTime, Min(limit, |Activities(st)|));
  }

  /** `getActivitiesBySession(id)` holds every activity of that session and no other,
      newest first. */
  lemma ActivitiesBySessionExact(st: StoreState, sessionId: nat)
    ensures var r := ActivitiesBySession(st, sessionId);
      && Sorting.SortedDesc(r, ActivityTime)
      && (forall i :: 0 <= i < |r| ==> r[i].sessionId == Some(sessionId) && r[i] in Activities(st))
      && (forall i :: 0 <= i < |Activities(st)| && Activities(st)[i].sessionId == Some(sessionId) ==>
            Activities(st)[i] in r)
  {
    var f := Filter(Activities(st), (a: Activity) => a.sessionId == Some(sessionId));
    Sorting.SortDescSortsAndPermutes(f, ActivityTime);
    var r := Sorting.SortDesc(f, ActivityTime);
    forall i | 0 <= i < |r| ensures r[i].sessionId == Some(sessionId) && r[i] in Activities(st) {
      assert r[i] in multiset(f);
    }
    forall i | 0 <= i < |Activities(st)| && Activities(st)[i].sessionId == Some(sessionId)
      ensures Activities(st)[i] in r
    {
      assert Activities(st)[i] in f;
      assert Activities(st)[i] in multiset(r);
    }
  }

  /** `getCreatorsForInvitation(limit)` returns candidates only, in insertion order, at
      most `limit` of them, and leaves none out unless the limit was reached. */
  lemma CreatorsForInvitationSound(st: StoreState, limit: nat, now: int)
    ensures var r := CreatorsForInvitation(st, limit, now);
      && |r| <= limit
      && (forall i :: 0 <= i < |r| ==> r[i] in Creators(st) && InvitationCandidate(r[i], st.config, now))
      && r == Filter(Creators(st), (c: Creator) => InvitationCandidate(c, st.config, now))[..|r|]
      && (|r| < limit ==> forall i :: 0 <= i < |Creators(st)| && InvitationCandidate(Creators(st)[i], st.config, now) ==>
            Creators(st)[i] in r)
  {
    var f := Filter(Creators(st), (c: Creator) => InvitationCandidate(c, st.config, now));
    var r := CreatorsForInvitation(st, limit, now);
    forall i | 0 <= i < |r| ensures r[i] in Creators(st) && InvitationCandidate(r[i], st.config, now) {
      assert r[i] == f[i];
    }
    if |r| < limit {
      assert r == f;
    }
  }

  /** Accepted creators and pending-or-sent creators are disjoint, so together they never
      exceed the total. */
  lemma CreatorStatsBound(st: StoreState)
    ensures CreatorStats(st).active + CreatorStats(st).pending <= CreatorStats(st).total
  {
    CountDisjoint(Creators(st), IsAccepted, IsPendingOrSent);
  }

  /** The acceptance rate is the percentage rounded to the nearest integer, 0 with nothing
      sent, and within 0..100 while acceptances do not outnumber invitations. */
  lemma AcceptanceRateIsRoundedPercent(accepted: nat, sent: nat)
    ensures sent == 0 ==> AcceptanceRate(accepted, sent) == 0
    ensures sent > 0 ==> -0.5 < AcceptanceRate(accepted, sent) as real - (accepted as real / sent as real) * 100.0 <= 0.5
    ensures accepted <= sent ==> 0 <= AcceptanceRate(accepted, sent) <= 100
  {
    if sent > 0 {
      var q := accepted as real / sent as real;
      var r := AcceptanceRate(accepted, sent);
      assert r == JsMath.Round(q * 100.0);
      assert r as real - 0.5 <= q * 100.0 < r as real + 0.5;
      if accepted <= sent {
        QuotientAtMostOne(accepted as real, sent as real);
        assert 0.0 <= q * 100.0 <= 100.0;
      }
    }
  }

  lemma QuotientAtMostOne(a: real, b: real)
    requires 0.0 <= a <= b && b > 0.0
    ensures 0.0 <= a / b <= 1.0
  {
    assert a / b * b == a;
  }

  /** The dashboard counts today's invitations (never more than all activities), its
      progress is those invitations, the revenue estimate is 50 per accepted creator, and
      the target is the daily limit, 500 when unset or zero. */
  lemma MetricsFacts(st: StoreState, startOfDay: int)
    ensures var m := Metrics(st, startOfDay);
      && m.invitesSent <= |Activities(st)|
      && m.dailyCurrent == m.invitesSent
      && m.estimatedRevenue == 50 * m.activeCreators
      && m.activeCreators == CreatorStats(st).active
      && (st.config.Some? && st.config.value.dailyLimit.Some? && st.config.value.dailyLimit.value != 0 ==>
            m.dailyTarget == st.config.value.dailyLimit.value)
      && (st.config.None? || st.config.value.dailyLimit.None? || st.config.value.dailyLimit == Some(0) ==>
            m.dailyTarget == 500)
  {
    var today := Filter(Activities(st), (a: Activity) => a.createdAt >= startOfDay);
    CountIsFilterLength(today, IsInviteSent);
  }

  /** For a non-negative uptime the text splits it into whole hours and the remaining
      whole minutes. */
  lemma UptimePartsBounds(ms: int)
    requires ms >= 0
    ensures var (h, m) := UptimeParts(ms);
      && h >= 0 && 0 <= m < 60
      && h * HOUR_MS + m * MINUTE_MS <= ms < h * HOUR_MS + (m + 1) * MINUTE_MS
  {
    var (h, m) := UptimeParts(ms);
    var rem := JsMath.Rem(ms, HOUR_MS);
    assert rem == ms - h * HOUR_MS;
  }

  lemma UptimeExamples()
    ensures Uptime(7559000) == "2h 5m"
    ensures Uptime(59000) == "0m"
  {
    assert UptimeParts(7559000) == (2, 5);
    assert UptimeParts(59000) == (0, 0);
    assert Text.NatToString(2) == "2";
    assert Text.NatToString(5) == "5";
    assert Text.NatToString(0) == "0";
  }

  /** `getBotStatus` reports the current session's status, `idle` without one, and an
      uptime of "0m" unless that session has a start time. */
  lemma StatusFacts(st: StoreState, now: int, startOfDay: int)
    ensures var b := Status(st, now, startOfDay);
      && b.currentSession == CurrentSession(st)
      && (b.currentSession.None? ==> b.status == Idle && b.uptime == "0m")
      && (b.currentSession.Some? ==> b.status == b.currentSession.value.status && IsActiveSession(b.currentSession.value))
      && b.todayInvites == Metrics(st, startOfDay).invitesSent
  {
    CurrentSessionIsNewestActive(st);
  }

  /** `updateBotConfig` keeps the id, takes every supplied field, keeps every other one,
      stamps `updatedAt`, and touches no other table. */
  lemma UpdateBotConfigMerges(st: StoreState, u: ConfigUpdate, now: int)
    ensures var (st', c) := UpdateBotConfig(st, u, now);
      var base := st.config.GetOr(BLANK_CONFIG);
      && st'.config == Some(c)
      && c.id == base.id && c.updatedAt == now
      && (u.minFollowers.Some? ==> c.minFollowers == u.minFollowers)
      && (u.minFollowers.None? ==> c.minFollowers == base.minFollowers)
      && (u.maxFollowers.Some? ==> c.maxFollowers == u.maxFollowers)
      && (u.maxFollowers.None? ==> c.maxFollowers == base.maxFollowers)
      && (u.dailyLimit.Some? ==> c.dailyLimit == u.dailyLimit)
      && (u.dailyLimit.None? ==> c.dailyLimit == base.dailyLimit)
      && (u.actionDelay.Some? ==> c.actionDelay == u.actionDelay)
      && (u.actionDelay.None? ==> c.actionDelay == base.actionDelay)
      && c.categories == u.categories.GetOr(base.categories)
      && c.subCategories == u.subCategories.GetOr(base.subCategories)
      && c.productNames == u.productNames.GetOr(base.productNames)
      && c.isActive == u.isActive.GetOr(base.isActive)
      && st'.sessions == st.sessions && st'.creators == st.creators && st'.activities == st.activities
  {
  }
}
