/** `CreatorFilter` of server/bot/creator-filter.ts: screening scraped profiles into the
    store, the invitation cool-downs, keyword categorisation, and the scoring that orders
    recommended creators. */
module CreatorFilter {
  import opened Wrappers
  import opened Schema
  import opened Text
  import opened Seqs
  import Sorting
  import JsMath
  import FollowerCount
  import StoreModel
  import StoreProps
  import Storage

  /** One scraped profile as `filterCreators` receives it. */
  datatype RawCreator = RawCreator(username: string, followers: Option<string>, category: Option<string>)

  // ---------------------------------------------------------------- eligibility

  /** `isEligibleForInvitation`: never once accepted, not within 24 hours of the last
      invitation, and not within 7 days of it after a rejection. */
  predicate IsEligible(c: Creator, now: int) {
    if c.inviteStatus == Some(Accepted) then false
    else if c.lastInvited.Some? && c.lastInvited.value > now - DAY_MS then false
    else if c.inviteStatus == Some(Rejected) && c.lastInvited.Some? && c.lastInvited.value > now - 7 * DAY_MS then false
    else true
  }

  /** The cool-down that applies after an invitation: a week after a rejection, a day
      otherwise. */
  function Cooldown(c: Creator): int {
    if c.inviteStatus == Some(Rejected) then 7 * DAY_MS else DAY_MS
  }

  /** Eligibility is exactly: not accepted, and either never invited or invited at least
      one cool-down ago. */
  lemma EligibleIffCooledDown(c: Creator, now: int)
    ensures IsEligible(c, now) <==>
      c.inviteStatus != Some(Accepted) && (c.lastInvited.None? || c.lastInvited.value <= now - Cooldown(c))
  {
  }

  /** Waiting never makes a creator ineligible. */
  lemma EligibleStaysEligible(c: Creator, now: int, later: int)
    requires now <= later
    requires IsEligible(c, now)
    ensures IsEligible(c, later)
  {
    EligibleIffCooledDown(c, now);
    EligibleIffCooledDown(c, later);
  }

  /** The store's own 24-hour test is strict the other way: a creator invited exactly
      24 hours ago passes this filter but not `getCreatorsForInvitation`. */
  lemma BoundaryDisagreesWithStore(now: int)
    ensures var c := Creator(1, "a", Some(50000), None, Some(now - DAY_MS), Some(Sent), None, 0);
      IsEligible(c, now) && !StoreModel.InvitationCandidate(c, Some(StoreModel.DefaultConfig(0)), now)
  {
  }

  /** The store applies no rejection cool-down: a creator rejected two days ago is offered
      for invitation by the store although this filter holds them back. */
  lemma StoreIgnoresRejectionCooldown(now: int)
    ensures var c := Creator(1, "a", Some(50000), None, Some(now - 2 * DAY_MS), Some(Rejected), None, 0);
      !IsEligible(c, now) && StoreModel.InvitationCandidate(c, Some(StoreModel.DefaultConfig(0)), now)
  {
  }

  // ---------------------------------------------------------------- screening

  /** `followers < min || followers > max` rejects, with `??` defaults. */
  predicate InFollowerRange(followers: nat, cfg: BotConfig) {
    JsMath.NullishOr(cfg.minFollowers, 0) <= followers <= JsMath.NullishOr(cfg.maxFollowers, MAX_SAFE_INTEGER)
  }

  /** With categories configured, the profile's category must contain one of them,
      ignoring case; with none configured every profile matches. */
  predicate MatchesCategory(category: Option<string>, categories: seq<string>) {
    |categories| == 0 || exists i | 0 <= i < |categories| :: Contains(Lower(category.GetOr("")), Lower(categories[i]))
  }

  predicate Passes(raw: RawCreator, cfg: BotConfig) {
    InFollowerRange(FollowerCount.ParseFollowerCount(raw.followers), cfg) && MatchesCategory(raw.category, cfg.categories)
  }

  /** One pass of the loop of `filterCreators`: screen, then create the creator as
      pending or refresh the stored one, then keep it if eligible. An existing creator is
      judged on the record as it was before the refresh. */
  function IngestOne(st: StoreModel.StoreState, raw: RawCreator, cfg: BotConfig, now: int): (StoreModel.StoreState, Option<Creator>) {
    var followers := FollowerCount.ParseFollowerCount(raw.followers);
    if !Passes(raw, cfg) then (st, None)
    else match StoreModel.CreatorByUsername(st, raw.username)
      case None =>
        var (st', c) := StoreModel.CreateCreator(st, InsertCreator(raw.username, Some(followers), raw.category, None, Some(Pending)), now);
        (st', if IsEligible(c, now) then Some(c) else None)
      case Some(e) =>
        var (st', _) := StoreModel.UpdateCreator(st, e.id, CreatorUpdate(Some(Some(followers)), Some(raw.category), None, None, None));
        (st', if IsEligible(e, now) then Some(e) else None)
  }

  function Emit(o: Option<Creator>): seq<Creator> {
    if o.Some? then [o.value] else []
  }

  /** The whole loop of `filterCreators`, profile by profile. */
  function Ingest(st: StoreModel.StoreState, raws: seq<RawCreator>, cfg: BotConfig, now: int): (StoreModel.StoreState, seq<Creator>) {
    if raws == [] then (st, [])
    else
      var (st1, out) := Ingest(st, raws[..|raws| - 1], cfg, now);
      var (st2, o) := IngestOne(st1, raws[|raws| - 1], cfg, now);
      (st2, out + Emit(o))
  }

  /** `filterCreators(creators, config)`: after the call the store holds the upserts and
      the result is the eligible creators, both as `Ingest` describes. */
  method FilterCreators(store: Storage.MemStorage, raws: seq<RawCreator>, cfg: BotConfig, now: int)
    returns (filtered: seq<Creator>)
    requires store.Valid()
    modifies store
    ensures store.Valid()
    ensures (store.State(), filtered) == Ingest(old(store.State()), raws, cfg, now)
  {
    ghost var st0 := store.State();
    filtered := [];
    var i := 0;
    while i < |raws|
      invariant 0 <= i <= |raws|
      invariant store.Valid()
      invariant (store.State(), filtered) == Ingest(st0, raws[..i], cfg, now)
    {
      var raw := raws[i];
      assert raws[..i + 1][..i] == raws[..i];
      ghost var before := store.State();
      ghost var prev := filtered;
      ghost var kept: Option<Creator> := None;
      var followers := FollowerCount.ParseFollowerCount(raw.followers);
      if Passes(raw, cfg) {
        var existing := StoreModel.CreatorByUsername(store.State(), raw.username);
        if existing.None? {
          var c := store.CreateCreator(InsertCreator(raw.username, Some(followers), raw.category, None, Some(Pending)), now);
          if IsEligible(c, now) {
            filtered := filtered + [c];
            kept := Some(c);
          }
        } else {
          var _ := store.UpdateCreator(existing.value.id, CreatorUpdate(Some(Some(followers)), Some(raw.category), None, None, None));
          if IsEligible(existing.value, now) {
            filtered := filtered + [existing.value];
            kept := Some(existing.value);
          }
        }
      }
      assert (store.State(), kept) == IngestOne(before, raw, cfg, now);
      assert filtered == prev + Emit(kept);
      assert raws[..i + 1][i] == raw;
      i := i + 1;
    }
    assert raws[..|raws|] == raws;
  }

  // ---------------------------------------------------------------- what screening promises

  /** No two stored creators share a username. */
  ghost predicate UniqueUsernames(st: StoreModel.StoreState) {
    var cs := StoreModel.Creators(st);
    forall i, j :: 0 <= i < j < |cs| ==> cs[i].username != cs[j].username
  }

  /** In a table without repeated usernames, `find` by a stored username returns that
      record. */
  lemma {:induction false} FindUnique(cs: seq<Creator>, i: nat)
    requires i < |cs|
    requires forall j, k :: 0 <= j < k < |cs| ==> cs[j].username != cs[k].username
    ensures StoreModel.FindByUsername(cs, cs[i].username) == Some(cs[i])
  {
    if i > 0 {
      assert cs[0].username != cs[i].username;
      assert cs[1..][i - 1] == cs[i];
      forall j, k | 0 <= j < k < |cs[1..]| ensures cs[1..][j].username != cs[1..][k].username {
        assert cs[1..][j] == cs[j + 1] && cs[1..][k] == cs[k + 1];
      }
      FindUnique(cs[1..], i - 1);
    }
  }

  /** Creating a creator under a new username keeps usernames unique, makes the new
      record the one found under that username, and loses no stored username. */
  lemma CreateNewUpserts(st: StoreModel.StoreState, ins: InsertCreator, now: int)
    requires StoreModel.WellFormed(st) && UniqueUsernames(st)
    requires StoreModel.CreatorByUsername(st, ins.username).None?
    ensures var st' := StoreModel.CreateCreator(st, ins, now).0;
      && StoreModel.WellFormed(st') && UniqueUsernames(st')
      && StoreModel.CreatorByUsername(st', ins.username) == Some(StoreModel.CreateCreator(st, ins, now).1)
      && forall u :: StoreModel.CreatorByUsername(st, u).Some? ==> StoreModel.CreatorByUsername(st', u).Some?
  {
    var cs := StoreModel.Creators(st);
    StoreProps.CreateCreatorAppends(st, ins, now);
    var (st', c) := StoreModel.CreateCreator(st, ins, now);
    var cs' := StoreModel.Creators(st');
    assert cs' == cs + [c];
    assert cs'[|cs|] == c;
    FindUnique(cs', |cs|);
    forall u | StoreModel.CreatorByUsername(st, u).Some? ensures StoreModel.CreatorByUsername(st', u).Some? {
      var x := StoreModel.CreatorByUsername(st, u).value;
      var i :| 0 <= i < |cs| && cs[i] == x;
      assert cs'[i] == x;
    }
  }

  /** Updating a stored creator without changing its username keeps usernames unique
      and loses none, and leaves the new record at the old one's place. */
  lemma UpdateKeepsNames(st: StoreModel.StoreState, id: nat, u: CreatorUpdate)
    requires StoreModel.WellFormed(st) && UniqueUsernames(st) && id in st.creators
    ensures var (st', r) := StoreModel.UpdateCreator(st, id, u);
      && StoreModel.WellFormed(st') && UniqueUsernames(st')
      && (forall v :: StoreModel.CreatorByUsername(st, v).Some? ==> StoreModel.CreatorByUsername(st', v).Some?)
      && r.Some? && 1 <= id <= |StoreModel.Creators(st')| && StoreModel.Creators(st')[id - 1] == r.value
  {
    var cs := StoreModel.Creators(st);
    StoreProps.UpdateCreatorLocal(st, id, u);
    var (st', r) := StoreModel.UpdateCreator(st, id, u);
    var cs' := StoreModel.Creators(st');
    Seqs.ListedComplete(st.creators, st.lastCreatorId);
    assert cs[id - 1] == st.creators[id];
    assert cs' == cs[id - 1 := r.value];
    assert forall k :: 0 <= k < |cs| ==> cs'[k].username == cs[k].username;
    forall v | StoreModel.CreatorByUsername(st, v).Some? ensures StoreModel.CreatorByUsername(st', v).Some? {
      var x := StoreModel.CreatorByUsername(st, v).value;
      var j :| 0 <= j < |cs| && cs[j] == x;
      assert cs'[j].username == v;
    }
  }

  /** Updating the stored creator `e` keeps every username where it was, and the record
      then found under `e`'s username is `e` with the supplied fields overwritten. */
  lemma UpdateExistingUpserts(st: StoreModel.StoreState, e: Creator, u: CreatorUpdate)
    requires StoreModel.WellFormed(st) && UniqueUsernames(st)
    requires e in StoreModel.Creators(st)
    ensures var st' := StoreModel.UpdateCreator(st, e.id, u).0;
      && StoreModel.WellFormed(st') && UniqueUsernames(st')
      && (forall v :: StoreModel.CreatorByUsername(st, v).Some? ==> StoreModel.CreatorByUsername(st', v).Some?)
      && StoreModel.CreatorByUsername(st', e.username).Some?
      && var r := StoreModel.CreatorByUsername(st', e.username).value;
         && r.id == e.id && r.username == e.username
         && r.followers == u.followers.GetOr(e.followers)
         && r.category == u.category.GetOr(e.category)
         && (u.lastInvited.None? ==> r.lastInvited == e.lastInvited)
         && (u.inviteStatus.None? ==> r.inviteStatus == e.inviteStatus)
         && (u.metadata.None? ==> r.metadata == e.metadata)
         && r.createdAt == e.createdAt
  {
    var cs := StoreModel.Creators(st);
    var i :| 0 <= i < |cs| && cs[i] == e;
    Seqs.ListedComplete(st.creators, st.lastCreatorId);
    assert e == st.creators[i + 1] && e.id == i + 1;
    UpdateKeepsNames(st, e.id, u);
    StoreProps.UpdateCreatorLocal(st, e.id, u);
    var r := StoreModel.UpdateCreator(st, e.id, u).1;
    FindUnique(StoreModel.Creators(StoreModel.UpdateCreator(st, e.id, u).0), i);
  }

  /** One pass keeps the store well formed, keeps usernames unique (it creates only when
      the username is new), and leaves every passing profile stored. */
  lemma IngestOneUpserts(st: StoreModel.StoreState, raw: RawCreator, cfg: BotConfig, now: int)
    requires StoreModel.WellFormed(st) && UniqueUsernames(st)
    ensures var st' := IngestOne(st, raw, cfg, now).0;
      && StoreModel.WellFormed(st') && UniqueUsernames(st')
      && (Passes(raw, cfg) ==> StoreModel.CreatorByUsername(st', raw.username).Some?)
      && forall u :: StoreModel.CreatorByUsername(st, u).Some? ==> StoreModel.CreatorByUsername(st', u).Some?
  {
    var followers := FollowerCount.ParseFollowerCount(raw.followers);
    if Passes(raw, cfg) {
      var e := StoreModel.CreatorByUsername(st, raw.username);
      if e.None? {
        CreateNewUpserts(st, InsertCreator(raw.username, Some(followers), raw.category, None, Some(Pending)), now);
      } else {
        UpdateExistingUpserts(st, e.value, CreatorUpdate(Some(Some(followers)), Some(raw.category), None, None, None));
      }
    }
  }

  /** The whole loop: the store stays well formed with unique usernames, every profile
      that passed the screens ends up stored, and nothing stored before is lost. */
  lemma {:induction false} IngestUpserts(st: StoreModel.StoreState, raws: seq<RawCreator>, cfg: BotConfig, now: int)
    requires StoreModel.WellFormed(st) && UniqueUsernames(st)
    ensures var st' := Ingest(st, raws, cfg, now).0;
      && StoreModel.WellFormed(st') && UniqueUsernames(st')
      && (forall i :: 0 <= i < |raws| && Passes(raws[i], cfg) ==> StoreModel.CreatorByUsername(st', raws[i].username).Some?)
      && forall u :: StoreModel.CreatorByUsername(st, u).Some? ==> StoreModel.CreatorByUsername(st', u).Some?
  {
    if raws != [] {
      var init := raws[..|raws| - 1];
      IngestUpserts(st, init, cfg, now);
      var st1 := Ingest(st, init, cfg, now).0;
      IngestOneUpserts(st1, raws[|raws| - 1], cfg, now);
      forall i | 0 <= i < |raws| - 1 ensures raws[i] == init[i] { }
    }
  }

  /** The record one pass judges: the stored one under the profile's username as it was
      before the refresh, or else the pending creator the pass creates. */
  function Judged(st: StoreModel.StoreState, raw: RawCreator, now: int): Creator {
    match StoreModel.CreatorByUsername(st, raw.username)
    case Some(e) => e
    case None =>
      var followers := FollowerCount.ParseFollowerCount(raw.followers);
      StoreModel.CreateCreator(st, InsertCreator(raw.username, Some(followers), raw.category, None, Some(Pending)), now).1
  }

  /** Whether one pass returns a creator: the profile passes both screens and its judged
      record is eligible. */
  predicate Emits(st: StoreModel.StoreState, raw: RawCreator, cfg: BotConfig, now: int) {
    Passes(raw, cfg) && IsEligible(Judged(st, raw, now), now)
  }

  /** One pass returns exactly the judged record when it emits and nothing otherwise; a
      creator it creates is always eligible, so a passing profile under a new username is
      always returned. */
  lemma IngestOneEmits(st: StoreModel.StoreState, raw: RawCreator, cfg: BotConfig, now: int)
    ensures var o := IngestOne(st, raw, cfg, now).1;
      && (o.Some? <==> Emits(st, raw, cfg, now))
      && (o.Some? ==> o.value == Judged(st, raw, now) && o.value.username == raw.username)
      && (!Passes(raw, cfg) ==> IngestOne(st, raw, cfg, now).0 == st)
      && (Passes(raw, cfg) && StoreModel.CreatorByUsername(st, raw.username).None? ==> o.Some?)
  {
  }

  /** After a passing profile the store holds its username with the parsed follower count
      and the profile's category: a new creator is pending with a zero count or an empty
      category stored as null, a known one keeps its id and invitation fields. */
  lemma IngestOneStores(st: StoreModel.StoreState, raw: RawCreator, cfg: BotConfig, now: int)
    requires StoreModel.WellFormed(st) && UniqueUsernames(st)
    requires Passes(raw, cfg)
    ensures var st' := IngestOne(st, raw, cfg, now).0;
      var followers := FollowerCount.ParseFollowerCount(raw.followers);
      var known := StoreModel.CreatorByUsername(st, raw.username);
      && StoreModel.CreatorByUsername(st', raw.username).Some?
      && var r := StoreModel.CreatorByUsername(st', raw.username).value;
         && (known.None? ==>
               && r.inviteStatus == Some(Pending) && r.lastInvited.None?
               && (followers != 0 ==> r.followers == Some(followers))
               && (followers == 0 ==> r.followers.None?)
               && (raw.category != Some("") ==> r.category == raw.category)
               && (raw.category == Some("") ==> r.category.None?))
         && (known.Some? ==>
               && r.id == known.value.id
               && r.followers == Some(followers) && r.category == raw.category
               && r.inviteStatus == known.value.inviteStatus && r.lastInvited == known.value.lastInvited)
  {
    var followers := FollowerCount.ParseFollowerCount(raw.followers);
    var known := StoreModel.CreatorByUsername(st, raw.username);
    if known.None? {
      var ins := InsertCreator(raw.username, Some(followers), raw.category, None, Some(Pending));
      CreateNewUpserts(st, ins, now);
      StoreProps.CreateCreatorAppends(st, ins, now);
    } else {
      UpdateExistingUpserts(st, known.value, CreatorUpdate(Some(Some(followers)), Some(raw.category), None, None, None));
    }
  }

  /** The positions of the profiles whose pass returned a creator, in input order. */
  function EmittedAt(st: StoreModel.StoreState, raws: seq<RawCreator>, cfg: BotConfig, now: int): seq<nat> {
    if raws == [] then []
    else
      var st1 := Ingest(st, raws[..|raws| - 1], cfg, now).0;
      EmittedAt(st, raws[..|raws| - 1], cfg, now) + (if Emits(st1, raws[|raws| - 1], cfg, now) then [|raws| - 1] else [])
  }

  /** The fold and the positions both grow by the last profile's pass. */
  lemma IngestSnoc(st: StoreModel.StoreState, raws: seq<RawCreator>, cfg: BotConfig, now: int)
    requires raws != []
    ensures var n := |raws| - 1;
      var st1 := Ingest(st, raws[..n], cfg, now).0;
      && Ingest(st, raws, cfg, now).1 == Ingest(st, raws[..n], cfg, now).1 + Emit(IngestOne(st1, raws[n], cfg, now).1)
      && EmittedAt(st, raws, cfg, now) == EmittedAt(st, raws[..n], cfg, now) + (if Emits(st1, raws[n], cfg, now) then [n] else [])
  {
  }

  /** Cutting the profiles after a position does not change what the earlier ones did. */
  lemma IngestPrefix(st: StoreModel.StoreState, raws: seq<RawCreator>, cfg: BotConfig, now: int, j: nat)
    requires j < |raws|
    ensures Ingest(st, raws[..|raws| - 1][..j], cfg, now) == Ingest(st, raws[..j], cfg, now)
  {
    assert raws[..|raws| - 1][..j] == raws[..j];
  }

  /** `filterCreators` returns, in input order, the judged record of each profile listed
      by `EmittedAt`, each judged in the store as the earlier profiles left it. */
  lemma {:induction false} IngestEmitsInOrder(st: StoreModel.StoreState, raws: seq<RawCreator>, cfg: BotConfig, now: int)
    ensures var out := Ingest(st, raws, cfg, now).1;
      var idx := EmittedAt(st, raws, cfg, now);
      && |idx| == |out|
      && (forall k, l :: 0 <= k < l < |idx| ==> idx[k] < idx[l])
      && (forall k :: 0 <= k < |idx| ==>
            (idx[k] < |raws|
             && out[k] == Judged(Ingest(st, raws[..idx[k]], cfg, now).0, raws[idx[k]], now)
             && out[k].username == raws[idx[k]].username))
  {
    if raws != [] {
      var n := |raws| - 1;
      var init := raws[..n];
      IngestEmitsInOrder(st, init, cfg, now);
      IngestSnoc(st, raws, cfg, now);
      var (st1, out1) := Ingest(st, init, cfg, now);
      var o := IngestOne(st1, raws[n], cfg, now).1;
      IngestOneEmits(st1, raws[n], cfg, now);
      var idx1 := EmittedAt(st, init, cfg, now);
      var idx := EmittedAt(st, raws, cfg, now);
      var out := Ingest(st, raws, cfg, now).1;
      forall k | 0 <= k < |idx|
        ensures idx[k] < |raws|
        ensures out[k] == Judged(Ingest(st, raws[..idx[k]], cfg, now).0, raws[idx[k]], now)
        ensures out[k].username == raws[idx[k]].username
      {
        if k < |idx1| {
          var j := idx1[k];
          assert idx[k] == j && out[k] == out1[k] && raws[j] == init[j];
          IngestPrefix(st, raws, cfg, now, j);
        } else {
          assert idx[k] == n && out[k] == o.value;
        }
      }
    }
  }

  /** A profile's position is listed exactly when its pass emits, judged in the store as
      the earlier profiles left it: every passing profile whose judged record is eligible is
      returned, and no other. */
  lemma {:induction false} EmittedAtExact(st: StoreModel.StoreState, raws: seq<RawCreator>, cfg: BotConfig, now: int)
    ensures var idx := EmittedAt(st, raws, cfg, now);
      && |idx| <= |raws|
      && (forall k :: 0 <= k < |idx| ==> idx[k] < |raws|)
      && forall i :: 0 <= i < |raws| ==> (i in idx <==> Emits(Ingest(st, raws[..i], cfg, now).0, raws[i], cfg, now))
  {
    if raws != [] {
      var n := |raws| - 1;
      var init := raws[..n];
      EmittedAtExact(st, init, cfg, now);
      IngestSnoc(st, raws, cfg, now);
      var st1 := Ingest(st, init, cfg, now).0;
      var idx1 := EmittedAt(st, init, cfg, now);
      var idx := EmittedAt(st, raws, cfg, now);
      var last := Emits(st1, raws[n], cfg, now);
      var tail: seq<nat> := if last then [n] else [];
      assert idx == idx1 + tail;
      forall i | 0 <= i < |raws|
        ensures i in idx <==> Emits(Ingest(st, raws[..i], cfg, now).0, raws[i], cfg, now)
      {
        assert i in idx <==> i in idx1 || i in tail;
        if i < n {
          assert i !in tail;
          assert raws[i] == init[i];
          IngestPrefix(st, raws, cfg, now, i);
          assert i in idx1 <==> Emits(Ingest(st, init[..i], cfg, now).0, init[i], cfg, now);
        } else {
          assert i == n && n !in idx1;
          assert raws[..n] == init;
          assert i in tail <==> last;
        }
      }
    }
  }

  /** Every creator returned is eligible and comes from a profile that passed the range
      and category screens; there are never more than there were profiles. */
  lemma IngestReturnsScreenedEligible(st: StoreModel.StoreState, raws: seq<RawCreator>, cfg: BotConfig, now: int)
    ensures var out := Ingest(st, raws, cfg, now).1;
      && |out| <= |raws|
      && forall k :: 0 <= k < |out| ==>
           IsEligible(out[k], now)
           && exists i :: 0 <= i < |raws| && raws[i].username == out[k].username && Passes(raws[i], cfg)
  {
    IngestEmitsInOrder(st, raws, cfg, now);
    EmittedAtExact(st, raws, cfg, now);
    var out := Ingest(st, raws, cfg, now).1;
    var idx := EmittedAt(st, raws, cfg, now);
    forall k | 0 <= k < |out|
      ensures IsEligible(out[k], now)
      ensures exists i :: 0 <= i < |raws| && raws[i].username == out[k].username && Passes(raws[i], cfg)
    {
      var i := idx[k];
      assert i in idx;
      assert Emits(Ingest(st, raws[..i], cfg, now).0, raws[i], cfg, now);
    }
  }

  // ---------------------------------------------------------------- categorisation

  /** The keyword table of `categorizeCreator`, in its order. */
  const CATEGORY_KEYWORDS: seq<(string, seq<string>)> := [
    ("Beauty", ["beauty", "makeup", "skincare", "cosmetic", "lipstick", "foundation"]),
    ("Fashion", ["fashion", "style", "outfit", "clothing", "dress", "shoes", "accessories"]),
    ("Fitness", ["fitness", "workout", "gym", "health", "exercise", "yoga", "muscle"]),
    ("Lifestyle", ["lifestyle", "daily", "life", "routine", "home", "family", "travel"]),
    ("Food", ["food", "cooking", "recipe", "chef", "kitchen", "meal", "restaurant"]),
    ("Tech", ["tech", "technology", "gadget", "phone", "computer", "review", "unboxing"]),
    ("Gaming", ["gaming", "game", "gamer", "xbox", "playstation", "pc", "mobile"]),
    ("Entertainment", ["entertainment", "funny", "comedy", "music", "dance", "viral"])
  ]

  predicate AnyKeyword(text: string, keywords: seq<string>) {
    exists i | 0 <= i < |keywords| :: Contains(text, keywords[i])
  }

  /** The first category in table order with a keyword in `text`, else "General". */
  function FirstMatch(text: string, table: seq<(string, seq<string>)>): string {
    if table == [] then "General"
    else if AnyKeyword(text, table[0].1) then table[0].0
    else FirstMatch(text, table[1..])
  }

  /** The lower-cased text searched: username, bio and posts joined by spaces. */
  function ProfileText(username: string, bio: Option<string>, posts: Option<seq<string>>): string {
    Lower(username + " " + bio.GetOr("") + " " + (if posts.Some? then Join(posts.value, " ") else ""))
  }

  function Categorize(username: string, bio: Option<string>, posts: Option<seq<string>>): string {
    FirstMatch(ProfileText(username, bio, posts), CATEGORY_KEYWORDS)
  }

  /** The search returns "General" when no keyword occurs, and otherwise the name of the
      first category, in table order, with a keyword that occurs. */
  lemma {:induction false} FirstMatchIsFirst(text: string, table: seq<(string, seq<string>)>)
    ensures (forall k :: 0 <= k < |table| ==> !AnyKeyword(text, table[k].1)) ==> FirstMatch(text, table) == "General"
    ensures (exists k :: 0 <= k < |table| && AnyKeyword(text, table[k].1)) ==>
      exists k :: 0 <= k < |table| && AnyKeyword(text, table[k].1) && FirstMatch(text, table) == table[k].0
        && forall j :: 0 <= j < k ==> !AnyKeyword(text, table[j].1)
  {
    if table != [] && !AnyKeyword(text, table[0].1) {
      FirstMatchIsFirst(text, table[1..]);
      if exists k :: 0 <= k < |table| && AnyKeyword(text, table[k].1) {
        var k :| 0 <= k < |table| && AnyKeyword(text, table[k].1);
        assert table[1..][k - 1] == table[k];
        var k' :| 0 <= k' < |table[1..]| && AnyKeyword(text, table[1..][k'].1) && FirstMatch(text, table[1..]) == table[1..][k'].0
          && forall j :: 0 <= j < k' ==> !AnyKeyword(text, table[1..][j].1);
        forall j | 0 <= j < k' + 1 ensures !AnyKeyword(text, table[j].1) {
          if j > 0 {
            assert table[j] == table[1..][j - 1];
          }
        }
      } else {
        forall k | 0 <= k < |table[1..]| ensures !AnyKeyword(text, table[1..][k].1) {
          assert table[1..][k] == table[k + 1];
        }
      }
    }
  }

  /** `categorizeCreator`: "General" exactly when no keyword of any category occurs in
      the profile text; otherwise the first category in table order that has one. */
  lemma CategorizeIsFirstMatchingCategory(username: string, bio: Option<string>, posts: Option<seq<string>>)
    ensures var text := ProfileText(username, bio, posts);
      var r := Categorize(username, bio, posts);
      && (r == "General" <==> forall k :: 0 <= k < |CATEGORY_KEYWORDS| ==> !AnyKeyword(text, CATEGORY_KEYWORDS[k].1))
      && (r != "General" ==>
            exists k :: 0 <= k < |CATEGORY_KEYWORDS| && r == CATEGORY_KEYWORDS[k].0
              && AnyKeyword(text, CATEGORY_KEYWORDS[k].1)
              && forall j :: 0 <= j < k ==> !AnyKeyword(text, CATEGORY_KEYWORDS[j].1))
  {
    var text := ProfileText(username, bio, posts);
    FirstMatchIsFirst(text, CATEGORY_KEYWORDS);
    forall k | 0 <= k < |CATEGORY_KEYWORDS| ensures CATEGORY_KEYWORDS[k].0 != "General" { }
  }

  // ---------------------------------------------------------------- scoring

  function Abs(x: real): real { if x < 0.0 then -x else x }

  /** `config.minFollowers || 1000` and `config.maxFollowers || 1000000` */
  function ScoreMin(cfg: BotConfig): int { JsMath.OrDefault(cfg.minFollowers, 1000) }
  function ScoreMax(cfg: BotConfig): (r: int) ensures r != 0 { JsMath.OrDefault(cfg.maxFollowers, 1000000) }

  /** A quarter of the way from the minimum to the maximum. */
  function Optimal(cfg: BotConfig): real {
    ScoreMin(cfg) as real + (ScoreMax(cfg) - ScoreMin(cfg)) as real * 0.25
  }

  /** `1 - |followers - optimal| / max` */
  function Closeness(followers: nat, cfg: BotConfig): real {
    1.0 - Abs(followers as real - Optimal(cfg)) / ScoreMax(cfg) as real
  }

  /** `creator.category || ''` */
  function CategoryKey(c: Creator): string { c.category.GetOr("") }

  /** `calculateCreatorScore`: closeness to the optimum, 0.2 more for a configured
      category (exact match), 0.3 less after a rejection, never below zero. */
  function Score(c: Creator, cfg: BotConfig): (r: real)
    ensures r >= 0.0
    ensures c.followers.None? || c.followers == Some(0) ==> r == 0.0
  {
    if c.followers.None? || c.followers.value == 0 then 0.0
    else
      var bonus := if CategoryKey(c) in cfg.categories then 0.2 else 0.0;
      var penalty := if c.inviteStatus == Some(Rejected) then 0.3 else 0.0;
      var s := Closeness(c.followers.value, cfg) + bonus - penalty;
      if s < 0.0 then 0.0 else s
  }

  /** Closeness peaks at 1, reached exactly at the optimum, when the maximum is positive. */
  lemma ClosenessPeaksAtOptimum(followers: nat, cfg: BotConfig)
    requires ScoreMax(cfg) > 0
    ensures Closeness(followers, cfg) <= 1.0
    ensures Closeness(followers, cfg) == 1.0 <==> followers as real == Optimal(cfg)
  {
    var d := Abs(followers as real - Optimal(cfg));
    var m := ScoreMax(cfg) as real;
    assert d / m >= 0.0;
    if d / m == 0.0 {
      assert d == d / m * m;
    }
  }

  /** With a positive maximum no score exceeds 1.2. */
  lemma ScoreAtMost(c: Creator, cfg: BotConfig)
    requires ScoreMax(cfg) > 0
    ensures Score(c, cfg) <= 1.2
  {
    if c.followers.Some? && c.followers.value != 0 {
      ClosenessPeaksAtOptimum(c.followers.value, cfg);
    }
  }

  /** A configured category earns exactly 0.2 over an unconfigured one, unless the score
      without it is clamped at zero. */
  lemma CategoryBonus(c: Creator, cfg: BotConfig, listed: string, unlisted: string)
    requires listed in cfg.categories && unlisted !in cfg.categories
    ensures Score(c.(category := Some(listed)), cfg) >= Score(c.(category := Some(unlisted)), cfg)
    ensures c.followers.Some? && c.followers.value != 0 && Score(c.(category := Some(unlisted)), cfg) > 0.0 ==>
      Score(c.(category := Some(listed)), cfg) == Score(c.(category := Some(unlisted)), cfg) + 0.2
  {
  }

  /** A rejection never raises the score. */
  lemma RejectionNeverHelps(c: Creator, cfg: BotConfig, status: InviteStatus)
    ensures Score(c.(inviteStatus := Some(Rejected)), cfg) <= Score(c.(inviteStatus := Some(status)), cfg)
  {
  }

  /** With the default range the optimum is 257,500 followers; a creator there scores
      1.2 in a configured category and 1.0 outside one. */
  lemma DefaultOptimum(c: Creator)
    requires c.followers == Some(257500) && c.inviteStatus != Some(Rejected)
    ensures Optimal(StoreModel.DefaultConfig(0)) == 257500.0
    ensures c.category == Some("Beauty") ==> Score(c, StoreModel.DefaultConfig(0)) == 1.2
    ensures c.category == Some("Gaming") ==> Score(c, StoreModel.DefaultConfig(0)) == 1.0
  {
    var cfg := StoreModel.DefaultConfig(0);
    assert Closeness(257500, cfg) == 1.0;
  }

  // ---------------------------------------------------------------- recommendations

  function ScoreKey(cfg: BotConfig): Creator -> real {
    c => Score(c, cfg)
  }

  /** `getRecommendedCreators(limit)`: twice `limit` candidates from the store, best
      score first, cut to `limit`; an error without a configuration. */
  function Recommended(st: StoreModel.StoreState, limit: int, now: int): Result<seq<Creator>, Thrown> {
    if st.config.None? then Err(Failure("Bot configuration not found"))
    else Ok(JsSlice(Sorting.SortDesc(StoreModel.CreatorsForInvitation(st, limit * 2, now), ScoreKey(st.config.value)), limit))
  }

  method GetRecommendedCreators(store: Storage.MemStorage, limit: int, now: int)
    returns (r: Result<seq<Creator>, Thrown>)
    ensures r == Recommended(store.State(), limit, now)
  {
    var st := store.State();
    if st.config.None? {
      return Err(Failure("Bot configuration not found"));
    }
    var all := StoreModel.CreatorsForInvitation(st, limit * 2, now);
    var a := new Creator[|all|](i requires 0 <= i < |all| => all[i]);
    assert a[..] == all;
    Sorting.SortInPlace(a, ScoreKey(st.config.value));
    r := Ok(JsSlice(a[..], limit));
  }

  /** With a configuration, the recommendations are the best-scoring candidates. */
  lemma RecommendedOk(st: StoreModel.StoreState, limit: nat, now: int)
    requires st.config.Some?
    ensures
      var cfg := st.config.value;
      var pool := StoreModel.CreatorsForInvitation(st, limit * 2, now);
      var r := Recommended(st, limit, now).value;
      && Recommended(st, limit, now).Ok?
      && |r| == Min(limit, |pool|)
      && Sorting.SortedDesc(r, ScoreKey(cfg))
      && (forall i :: 0 <= i < |r| ==> StoreModel.InvitationCandidate(r[i], st.config, now))
      && forall x, y :: x in pool && x !in r && y in r ==> Score(x, cfg) <= Score(y, cfg)
  {
    var cfg := st.config.value;
    var pool := StoreModel.CreatorsForInvitation(st, limit * 2, now);
    var sorted := Sorting.SortDesc(pool, ScoreKey(cfg));
    Sorting.SortedPrefixIsTop(pool, ScoreKey(cfg), Min(limit, |pool|));
    var r := sorted[..Min(limit, |pool|)];
    assert Recommended(st, limit, now) == Ok(r);
    StoreProps.CreatorsForInvitationSound(st, limit * 2, now);
    forall i | 0 <= i < |r| ensures StoreModel.InvitationCandidate(r[i], st.config, now) {
      assert r[i] in multiset(pool);
    }
    forall x, y | x in pool && x !in r && y in r ensures Score(x, cfg) <= Score(y, cfg) {
      assert ScoreKey(cfg)(x) <= ScoreKey(cfg)(y);
    }
  }

  /** Recommendations fail exactly when no configuration exists, with the source's
      message. */
  lemma RecommendedFailsWithoutConfig(st: StoreModel.StoreState, limit: int, now: int)
    ensures Recommended(st, limit, now).Err? <==> st.config.None?
    ensures st.config.None? ==> Recommended(st, limit, now).error == Failure("Bot configuration not found")
  {
  }
}
