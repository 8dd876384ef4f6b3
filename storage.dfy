/** `MemStorage` of server/storage.ts: the tables are fields the methods replace, and each
    method leaves the store in the state the matching `StoreModel` function computes. */
module Storage {
  import opened Wrappers
  import opened Schema
  import opened StoreModel
  import StoreProps
  import Sorting
  import Seqs

  class MemStorage {
    var sessions: map<nat, Session>
    var creators: map<nat, Creator>
    var activities: map<nat, Activity>
    var config: Option<BotConfig>
    var lastSessionId: nat
    var lastCreatorId: nat
    var lastActivityId: nat

    function State(): StoreState
      reads this
    {
      StoreState(sessions, creators, activities, config, lastSessionId, lastCreatorId, lastActivityId)
    }

    ghost predicate Valid()
      reads this
    {
      WellFormed(State())
    }

    /** Installs the default configuration; `now` is the construction time. */
    constructor (now: int)
      ensures Valid()
      ensures State() == Initial(now)
    {
      sessions := map[];
      creators := map[];
      activities := map[];
      config := Some(DefaultConfig(now));
      lastSessionId := 0;
      lastCreatorId := 0;
      lastActivityId := 0;
    }

    method CreateBotSession(ins: InsertSession, now: int) returns (s: Session)
      requires Valid()
      modifies this
      ensures Valid()
      ensures (State(), s) == StoreModel.CreateBotSession(old(State()), ins, now)
    {
      StoreProps.CreateBotSessionAppends(State(), ins, now);
      lastSessionId := lastSessionId + 1;
      s := NewSession(lastSessionId, ins, now);
      sessions := sessions[s.id := s];
    }

    method UpdateBotSession(id: nat, u: SessionUpdate) returns (r: Option<Session>)
      requires Valid()
      modifies this
      ensures Valid()
      ensures (State(), r) == StoreModel.UpdateBotSession(old(State()), id, u)
    {
      StoreProps.UpdateBotSessionLocal(State(), id, u);
      if id in sessions {
        var s := ApplySessionUpdate(sessions[id], u);
        sessions := sessions[id := s];
        r := Some(s);
      } else {
        r := None;
      }
    }

    method CreateCreator(ins: InsertCreator, now: int) returns (c: Creator)
      requires Valid()
      modifies this
      ensures Valid()
      ensures (State(), c) == StoreModel.CreateCreator(old(State()), ins, now)
    {
      StoreProps.CreateCreatorAppends(State(), ins, now);
      lastCreatorId := lastCreatorId + 1;
      c := NewCreator(lastCreatorId, ins, now);
      creators := creators[c.id := c];
    }

    method UpdateCreator(id: nat, u: CreatorUpdate) returns (r: Option<Creator>)
      requires Valid()
      modifies this
      ensures Valid()
      ensures (State(), r) == StoreModel.UpdateCreator(old(State()), id, u)
    {
      StoreProps.UpdateCreatorLocal(State(), id, u);
      if id in creators {
        var c := ApplyCreatorUpdate(creators[id], u);
        creators := creators[id := c];
        r := Some(c);
      } else {
        r := None;
      }
    }

    method LogActivity(ins: InsertActivity, now: int) returns (a: Activity)
      requires Valid()
      modifies this
      ensures Valid()
      ensures (State(), a) == StoreModel.LogActivity(old(State()), ins, now)
    {
      StoreProps.LogActivityAppends(State(), ins, now);
      lastActivityId := lastActivityId + 1;
      a := NewActivity(lastActivityId, ins, now);
      activities := activities[a.id := a];
    }

    method UpdateBotConfig(u: ConfigUpdate, now: int) returns (c: BotConfig)
      requires Valid()
      modifies this
      ensures Valid()
      ensures (State(), c) == StoreModel.UpdateBotConfig(old(State()), u, now)
    {
      c := ApplyConfigUpdate(config.GetOr(BLANK_CONFIG), u).(updatedAt := now);
      config := Some(c);
    }

    /** `getCurrentSession`: filters, sorts a fresh array newest first, takes the head. */
    method GetCurrentSession() returns (r: Option<Session>)
      ensures r == CurrentSession(State())
    {
      var active := Seqs.Filter(Sessions(State()), IsActiveSession);
      var a := new Session[|active|](i requires 0 <= i < |active| => active[i]);
      assert a[..] == active;
      Sorting.SortInPlace(a, SessionTime);
      if a.Length == 0 {
        r := None;
      } else {
        r := Some(a[0]);
      }
    }

    /** `getRecentSessions(limit)` */
    method GetRecentSessions(limit: int) returns (r: seq<Session>)
      ensures r == RecentSessions(State(), limit)
    {
      var all := Sessions(State());
      var a := new Session[|all|](i requires 0 <= i < |all| => all[i]);
      assert a[..] == all;
      Sorting.SortInPlace(a, SessionTime);
      r := Seqs.JsSlice(a[..], limit);
    }

    /** `getRecentActivities(limit)` */
    method GetRecentActivities(limit: int) returns (r: seq<Activity>)
      ensures r == RecentActivities(State(), limit)
    {
      var all := Activities(State());
      var a := new Activity[|all|](i requires 0 <= i < |all| => all[i]);
      assert a[..] == all;
      Sorting.SortInPlace(a, ActivityTime);
      r := Seqs.JsSlice(a[..], limit);
    }

    /** `getActivitiesBySession(sessionId)` */
    method GetActivitiesBySession(sessionId: nat) returns (r: seq<Activity>)
      ensures r == ActivitiesBySession(State(), sessionId)
    {
      var mine := Seqs.Filter(Activities(State()), (a: Activity) => a.sessionId == Some(sessionId));
      var a := new Activity[|mine|](i requires 0 <= i < |mine| => mine[i]);
      assert a[..] == mine;
      Sorting.SortInPlace(a, ActivityTime);
      r := a[..];
    }

    /** `getCreatorByUsername(username)`: the first creator in insertion order with that
        username. */
    method GetCreatorByUsername(username: string) returns (r: Option<Creator>)
      ensures r == CreatorByUsername(State(), username)
      ensures r.Some? ==> r.value.username == username
    {
      var cs := Creators(State());
      var i := 0;
      while i < |cs|
        invariant 0 <= i <= |cs|
        invariant FindByUsername(cs, username) == FindByUsername(cs[i..], username)
      {
        if cs[i].username == username {
          return Some(cs[i]);
        }
        assert cs[i..][1..] == cs[i + 1..];
        i := i + 1;
      }
      r := None;
    }

    /** `getCreatorsForInvitation(limit)` at time `now`. */
    method GetCreatorsForInvitation(limit: int, now: int) returns (r: seq<Creator>)
      ensures r == CreatorsForInvitation(State(), limit, now)
    {
      var cfg := config;
      var candidates := Seqs.Filter(Creators(State()), (c: Creator) => InvitationCandidate(c, cfg, now));
      r := Seqs.JsSlice(candidates, limit);
    }

    /** `getCreatorStats()` */
    method GetCreatorStats() returns (r: CreatorCounts)
      ensures r == CreatorStats(State())
    {
      r := CreatorStats(State());
    }

    /** `getBotConfig()`: the single configuration row, if any. */
    method GetBotConfig() returns (r: Option<BotConfig>)
      ensures r == State().config
    {
      r := config;
    }

    /** `getDashboardMetrics()` at time `now`; "today" starts at midnight UTC. */
    method GetDashboardMetrics(now: int) returns (r: DashboardMetrics)
      ensures r == Metrics(State(), StartOfDay(now))
    {
      r := Metrics(State(), StartOfDay(now));
    }

    /** `getBotStatus()` at time `now`. */
    method GetBotStatus(now: int) returns (r: BotStatus)
      ensures r == Status(State(), now, StartOfDay(now))
    {
      var cur := GetCurrentSession();
      var m := GetDashboardMetrics(now);
      r := StatusOf(cur, m, now);
    }
  }
}
