/** The parts of server/routes.ts that decide something: the configuration validator,
    the already-running guard of the start endpoint, and how the `limit` and `hours`
    query parameters are read. */
module Routes {
  import opened Wrappers
  import opened Schema
  import opened Json
  import opened StoreModel
  import Storage
  import Seqs
  import Sorting
  import Text
  import JsMath
  import Lifecycle
  import ActivityLogger
  import SessionManager

  // ---------------------------------------------------------------- parseInt

  /** The characters `parseInt` skips before the number: white space and line
      terminators as ECMAScript defines them. */
  predicate IsJsSpace(c: char) {
    || c == '\t' || c == '\n' || c == '\U{000B}' || c == '\U{000C}' || c == '\r' || c == ' '
    || c == '\U{00A0}' || c == '\U{1680}' || ('\U{2000}' <= c <= '\U{200A}') || c == '\U{2028}' || c == '\U{2029}'
    || c == '\U{202F}' || c == '\U{205F}' || c == '\U{3000}' || c == '\U{FEFF}'
  }

  function TrimStart(s: string): (r: string)
    ensures |r| <= |s| && r == s[|s| - |r|..]
    ensures r == [] || !IsJsSpace(r[0])
  {
    if s != [] && IsJsSpace(s[0]) then TrimStart(s[1..]) else s
  }

  /** The longest prefix of decimal digits. */
  function DigitPrefix(s: string): (r: string)
    ensures |r| <= |s| && r == s[..|r|] && Text.AllDigits(r)
    ensures |r| < |s| ==> !Text.IsDigit(s[|r|])
  {
    if s != [] && Text.IsDigit(s[0]) then [s[0]] + DigitPrefix(s[1..]) else []
  }

  predicate IsHexDigit(c: char) { Text.IsDigit(c) || 'a' <= c <= 'f' || 'A' <= c <= 'F' }

  function HexDigitValue(c: char): (r: nat)
    requires IsHexDigit(c)
    ensures r < 16
  {
    if Text.IsDigit(c) then Text.DigitValue(c)
    else if 'a' <= c <= 'f' then c as int - 'a' as int + 10
    else c as int - 'A' as int + 10
  }

  /** The longest prefix of hexadecimal digits. */
  function HexPrefix(s: string): (r: string)
    ensures |r| <= |s| && r == s[..|r|]
    ensures forall i :: 0 <= i < |r| ==> IsHexDigit(r[i])
    ensures |r| < |s| ==> !IsHexDigit(s[|r|])
  {
    if s != [] && IsHexDigit(s[0]) then [s[0]] + HexPrefix(s[1..]) else []
  }

  function HexValue(s: string): nat
    requires forall i :: 0 <= i < |s| ==> IsHexDigit(s[i])
  {
    if s == [] then 0 else 16 * HexValue(s[..|s| - 1]) + HexDigitValue(s[|s| - 1])
  }

  /** The digits after the sign: a `0x`/`0X` prefix switches to base 16, and the
      number is the longest run of digits that follows; `None` when there is none. */
  function Unsigned(u: string): Option<nat> {
    if |u| >= 2 && u[0] == '0' && (u[1] == 'x' || u[1] == 'X') then
      var h := HexPrefix(u[2..]);
      if h == [] then None else Some(HexValue(h))
    else
      var d := DigitPrefix(u);
      if d == [] then None else Some(Text.DigitsValue(d))
  }

  function Lift(v: Option<nat>): Option<int> {
    if v.Some? then Some(v.value as int) else None
  }

  function Negated(v: Option<nat>): Option<int> {
    if v.Some? then Some(-(v.value as int)) else None
  }

  /** One optional sign, then the digits. */
  function Signed(t: string): Option<int> {
    if t != [] && t[0] == '-' then Negated(Unsigned(t[1..]))
    else if t != [] && t[0] == '+' then Lift(Unsigned(t[1..]))
    else Lift(Unsigned(t))
  }

  /** `parseInt(String(q))` with no radix, `None` standing for `NaN`: leading white
      space is skipped before the sign and the digits; an absent parameter reads as the
      text "undefined". */
  function ParseInt(q: Option<string>): Option<int> {
    Signed(TrimStart(if q.Some? then q.value else "undefined"))
  }

  lemma DigitPrefixStops(d: string, rest: string)
    requires Text.AllDigits(d)
    requires rest == [] || !Text.IsDigit(rest[0])
    ensures DigitPrefix(d + rest) == d
  {
    var s := d + rest;
    var r := DigitPrefix(s);
    assert s[..|d|] == d;
    if |d| < |s| {
      assert s[|d|] == rest[0];
    }
    forall i | 0 <= i < |d| ensures Text.IsDigit(s[i]) {
      assert s[i] == d[i];
    }
  }

  lemma {:induction false} NatToStringNoLeadingZero(n: nat)
    ensures |Text.NatToString(n)| >= 2 ==> Text.NatToString(n)[0] != '0'
  {
    if n >= 10 {
      NatToStringNoLeadingZero(n / 10);
      var s := Text.NatToString(n / 10);
      assert Text.NatToString(n)[0] == s[0];
      if |s| == 1 {
        assert Text.DigitValue(s[0]) == n / 10;
      }
    }
  }

  /** The digits of a decimal rendering are read back, up to the first non-digit. */
  lemma UnsignedReadsDecimal(n: nat, rest: string)
    requires rest == [] || !Text.IsDigit(rest[0])
    requires n == 0 && rest != [] ==> rest[0] != 'x' && rest[0] != 'X'
    ensures Unsigned(Text.NatToString(n) + rest) == Some(n)
  {
    var d := Text.NatToString(n);
    Text.NatToStringValue(n);
    DigitPrefixStops(d, rest);
    var s := d + rest;
    if |d| >= 2 {
      NatToStringNoLeadingZero(n);
      assert s[0] == d[0];
    } else if |s| >= 2 {
      assert s[1] == rest[0];
    }
  }

  lemma DigitIsNotSpace(c: char)
    requires Text.IsDigit(c)
    ensures !IsJsSpace(c) && c != '-' && c != '+'
  {
  }

  /** Text that starts with neither white space nor a sign is read unsigned. */
  lemma ParseIntUnsigned(t: string)
    requires t == [] || (!IsJsSpace(t[0]) && t[0] != '-' && t[0] != '+')
    ensures ParseInt(Some(t)) == Lift(Unsigned(t))
  {
    assert TrimStart(t) == t;
  }

  /** After a minus sign the rest is read unsigned and negated. */
  lemma ParseIntMinus(t: string)
    ensures ParseInt(Some("-" + t)) == Negated(Unsigned(t))
  {
    var m := "-" + t;
    assert m[0] == '-' && !IsJsSpace('-');
    assert TrimStart(m) == m;
    assert m[1..] == t;
    assert Signed(m) == Negated(Unsigned(t));
  }

  /** `parseInt` reads back the decimal rendering of a number, also when text that is
      not a digit follows, except that "0" followed by `x` starts a hexadecimal
      number. */
  lemma ParseIntReadsDecimal(n: nat, rest: string)
    requires rest == [] || !Text.IsDigit(rest[0])
    requires n == 0 && rest != [] ==> rest[0] != 'x' && rest[0] != 'X'
    ensures ParseInt(Some(Text.NatToString(n) + rest)) == Some(n)
  {
    UnsignedReadsDecimal(n, rest);
    var s := Text.NatToString(n) + rest;
    assert Text.IsDigit(s[0]);
    DigitIsNotSpace(s[0]);
    ParseIntUnsigned(s);
  }

  /** The same with a minus sign in front. */
  lemma ParseIntReadsNegative(n: nat, rest: string)
    requires rest == [] || !Text.IsDigit(rest[0])
    requires n == 0 && rest != [] ==> rest[0] != 'x' && rest[0] != 'X'
    ensures ParseInt(Some("-" + (Text.NatToString(n) + rest))) == Some(-(n as int))
  {
    UnsignedReadsDecimal(n, rest);
    ParseIntMinusReads(Text.NatToString(n) + rest, n);
  }

  lemma ParseIntMinusReads(t: string, n: nat)
    requires Unsigned(t) == Some(n)
    ensures ParseInt(Some("-" + t)) == Some(-(n as int))
  {
    ParseIntMinus(t);
  }

  /** Text that starts with neither white space, nor a sign, nor a digit is `NaN`. */
  lemma ParseIntNoDigit(t: string)
    requires t == [] || (!IsJsSpace(t[0]) && !Text.IsDigit(t[0]) && t[0] != '-' && t[0] != '+')
    ensures ParseInt(Some(t)) == None
  {
    ParseIntUnsigned(t);
    assert DigitPrefix(t) == [];
  }

  /** An absent parameter, and one that starts with no digit, is `NaN`. */
  lemma ParseIntNaN(q: Option<string>)
    requires q.Some? ==> q.value == [] || 'a' <= q.value[0] <= 'z'
    ensures ParseInt(q) == None
  {
    var t := if q.Some? then q.value else "undefined";
    assert t == [] || 'a' <= t[0] <= 'z';
    ParseIntNoDigit(t);
    assert ParseInt(q) == ParseInt(Some(t));
  }

  // ---------------------------------------------------------------- query parameters

  /** `Math.min(parseInt(req.query.limit) || 50, 200)` of `GET /api/activities`, as
      written: a negative limit gets through. */
  function ActivitiesLimit(q: Option<string>): (r: int)
    ensures r <= 200 && r != 0
    ensures ParseInt(q).None? || ParseInt(q) == Some(0) ==> r == 50
    ensures ParseInt(q).Some? && ParseInt(q).value != 0 ==> r == Seqs.Min(ParseInt(q).value, 200)
  {
    Seqs.Min(JsMath.OrDefault(ParseInt(q), 50), 200)
  }

  /** `?limit=-3` reaches `slice(0, -3)`, which keeps all but the three oldest
      activities: with more than 203 stored, more than 200 come back. */
  lemma NegativeLimitBreaksCap(st: StoreState)
    requires |Activities(st)| > 203
    ensures ActivitiesLimit(Some("-3")) == -3
    ensures |RecentActivities(st, ActivitiesLimit(Some("-3")))| == |Activities(st)| - 3 > 200
  {
    MinusThreeParses();
    RecentActivitiesNegative(st, -3);
  }

  lemma MinusThreeParses()
    ensures ParseInt(Some("-3")) == Some(-3)
  {
    ThreeReads();
    ParseIntMinusReads("3", 3);
    assert "-" + "3" == "-3";
  }

  lemma ThreeReads()
    ensures Unsigned("3") == Some(3)
  {
    UnsignedReadsDecimal(3, "");
    assert Text.NatToString(3) + "" == "3";
  }

  /** A negative limit drops that many of the oldest activities. */
  lemma RecentActivitiesNegative(st: StoreState, n: int)
    requires n < 0
    ensures |RecentActivities(st, n)| == Seqs.Max(0, |Activities(st)| + n)
  {
    Sorting.SortDescSortsAndPermutes(Activities(st), ActivityTime);
  }

  /** The limit with the cap it is meant to have: a negative limit falls back to the
      default like 0 and `NaN` do, so the result is always between 1 and 200. */
  function CappedActivitiesLimit(q: Option<string>): (r: int)
    ensures 1 <= r <= 200
    ensures ParseInt(q).Some? && 0 < ParseInt(q).value ==> r == Seqs.Min(ParseInt(q).value, 200)
    ensures ParseInt(q).None? || ParseInt(q).value <= 0 ==> r == 50
  {
    var n := JsMath.OrDefault(ParseInt(q), 50);
    Seqs.Min(if n < 0 then 50 else n, 200)
  }

  /** The two agree on every limit that is not negative. */
  lemma CappedAgreesWhenNotNegative(q: Option<string>)
    requires ParseInt(q).None? || ParseInt(q).value >= 0
    ensures CappedActivitiesLimit(q) == ActivitiesLimit(q)
  {
  }

  /** A limit of 500 is capped at 200. */
  lemma ActivitiesLimitCapExample()
    ensures ActivitiesLimit(Some("500")) == 200
  {
    assert Text.NatToString(5) == "5";
    assert Text.NatToString(50) == Text.NatToString(5) + [Text.DigitChar(0)] == "50";
    assert Text.NatToString(500) == Text.NatToString(50) + [Text.DigitChar(0)] == "500";
    ParseIntReadsDecimal(500, "");
    assert Text.NatToString(500) + "" == "500";
  }

  /** No limit at all gives 50. */
  lemma ActivitiesLimitDefaultExample()
    ensures ActivitiesLimit(None) == 50
  {
    ParseIntNaN(None);
  }

  /** `GET /api/activities` with the capped limit: at most 200 activities, the newest
      first. */
  method GetActivities(store: Storage.MemStorage, q: Option<string>) returns (r: seq<Activity>)
    ensures r == RecentActivities(store.State(), CappedActivitiesLimit(q))
    ensures |r| <= 200
  {
    var limit := CappedActivitiesLimit(q);
    assert 1 <= limit <= 200;
    r := store.GetRecentActivities(limit);
    assert |r| == Seqs.Min(limit, |Sorting.SortDesc(Activities(store.State()), ActivityTime)|);
  }

  /** `parseInt(req.query.hours) || 24` of `GET /api/activities/summary`. */
  function SummaryHours(q: Option<string>): (r: int)
    ensures r != 0
    ensures ParseInt(q).None? || ParseInt(q) == Some(0) ==> r == 24
    ensures ParseInt(q).Some? && ParseInt(q).value != 0 ==> r == ParseInt(q).value
  {
    JsMath.OrDefault(ParseInt(q), 24)
  }

  /** `parseInt(req.query.limit) || 20` of `GET /api/creators`. */
  function CreatorsLimit(q: Option<string>): (r: int)
    ensures r != 0
    ensures ParseInt(q).None? || ParseInt(q) == Some(0) ==> r == 20
    ensures ParseInt(q).Some? && ParseInt(q).value != 0 ==> r == ParseInt(q).value
  {
    JsMath.OrDefault(ParseInt(q), 20)
  }

  /** `GET /api/creators`: candidates for invitation under the parsed limit, at most
      that many when it is positive and at most 20 without one. */
  method GetCreators(store: Storage.MemStorage, q: Option<string>, now: int) returns (r: seq<Creator>)
    ensures r == CreatorsForInvitation(store.State(), CreatorsLimit(q), now)
    ensures forall i :: 0 <= i < |r| ==> r[i] in Creators(store.State()) && InvitationCandidate(r[i], store.State().config, now)
    ensures CreatorsLimit(q) > 0 ==> |r| <= CreatorsLimit(q)
    ensures ParseInt(q).None? || ParseInt(q) == Some(0) ==> |r| <= 20
  {
    r := store.GetCreatorsForInvitation(CreatorsLimit(q), now);
    ghost var st := store.State();
    ghost var f := Seqs.Filter(Creators(st), (c: Creator) => InvitationCandidate(c, st.config, now));
    assert r == f[..|r|];
    forall i | 0 <= i < |r| ensures r[i] in Creators(store.State()) && InvitationCandidate(r[i], store.State().config, now) {
      assert r[i] == f[i];
    }
  }

  /** `GET /api/activities/summary` */
  method GetSummary(store: Storage.MemStorage, q: Option<string>, now: int) returns (r: ActivityLogger.Summary)
    ensures r == ActivityLogger.ActivitySummary(store.State(), SummaryHours(q), now)
  {
    r := ActivityLogger.GetActivitySummary(store, SummaryHours(q), now);
  }

  // ---------------------------------------------------------------- configuration

  /** One field of `configSchema`; every field is optional. */
  datatype Rule = NumberAtLeast(lo: int) | NumberBetween(lo: int, hi: int) | StringArray | Boolean

  const SCHEMA: seq<(string, Rule)> := [
    ("minFollowers", NumberAtLeast(0)),
    ("maxFollowers", NumberAtLeast(0)),
    ("dailyLimit", NumberBetween(1, 10000)),
    ("actionDelay", NumberBetween(1000, 300000)),
    ("categories", StringArray),
    ("subCategories", StringArray),
    ("productNames", StringArray),
    ("isActive", Boolean)]

  predicate AllStrings(items: seq<Value>) {
    forall i :: 0 <= i < |items| ==> items[i].JStr?
  }

  predicate Satisfies(v: Value, rule: Rule) {
    match rule
    case NumberAtLeast(lo) => v.JNum? && lo <= v.n
    case NumberBetween(lo, hi) => v.JNum? && lo <= v.n <= hi
    case StringArray => v.JArr? && AllStrings(v.items)
    case Boolean => v.JBool?
  }

  /** The keys of `schema` that are present in `fields` with a value their rule refuses,
      in schema order: the paths of the zod issues. */
  function Issues(fields: Object, schema: seq<(string, Rule)>): (r: seq<string>)
    ensures |r| <= |schema|
  {
    if schema == [] then []
    else
      var (k, rule) := schema[|schema| - 1];
      Issues(fields, schema[..|schema| - 1]) + (if k in fields && !Satisfies(fields[k], rule) then [k] else [])
  }

  /** A key is an issue exactly when it is in the schema, present, and refused. */
  lemma {:induction false} IssuesExact(fields: Object, schema: seq<(string, Rule)>, k: string)
    ensures k in Issues(fields, schema) <==>
      exists i :: 0 <= i < |schema| && schema[i].0 == k && k in fields && !Satisfies(fields[k], schema[i].1)
  {
    if schema != [] {
      var init := schema[..|schema| - 1];
      IssuesExact(fields, init, k);
      var last := |schema| - 1;
      if k in Issues(fields, schema) && k !in Issues(fields, init) {
        assert schema[last].0 == k;
      }
      if exists i :: 0 <= i < |schema| && schema[i].0 == k && k in fields && !Satisfies(fields[k], schema[i].1) {
        var i :| 0 <= i < |schema| && schema[i].0 == k && k in fields && !Satisfies(fields[k], schema[i].1);
        if i < last {
          assert init[i] == schema[i];
        }
      }
    }
  }

  /** Why `PUT /api/bot/config` answers 400. */
  datatype Rejection =
    | NotAnObject                      // the body is not a JSON object
    | InvalidFields(keys: seq<string>) // "Invalid configuration data"
    | MaxNotAboveMin                   // "Maximum followers must be greater than minimum followers"

  function NumberField(f: Object, k: string): Option<int> {
    if k in f && f[k].JNum? then Some(f[k].n) else None
  }

  function StringsOf(items: seq<Value>): seq<string> {
    if items == [] then [] else StringsOf(items[..|items| - 1]) + [if items[|items| - 1].JStr? then items[|items| - 1].s else ""]
  }

  function StringsField(f: Object, k: string): Option<seq<string>> {
    if k in f && f[k].JArr? then Some(StringsOf(f[k].items)) else None
  }

  function BoolField(f: Object, k: string): Option<bool> {
    if k in f && f[k].JBool? then Some(f[k].b) else None
  }

  /** `configSchema.parse(req.body)`: the supplied known fields, unknown ones dropped. */
  function ParseConfig(body: Value): Result<ConfigUpdate, Rejection> {
    if !body.JObj? then Err(NotAnObject)
    else
      var f := body.fields;
      var issues := Issues(f, SCHEMA);
      if issues != [] then Err(InvalidFields(issues))
      else Ok(ConfigUpdate(NumberField(f, "minFollowers"), NumberField(f, "maxFollowers"),
                           NumberField(f, "dailyLimit"), NumberField(f, "actionDelay"),
                           StringsField(f, "categories"), StringsField(f, "subCategories"),
                           StringsField(f, "productNames"), BoolField(f, "isActive")))
  }

  /** The whole validation of `PUT /api/bot/config`: the schema, then `max > min`
      when both are truthy. */
  function ValidateConfig(body: Value): Result<ConfigUpdate, Rejection> {
    match ParseConfig(body)
    case Err(e) => Err(e)
    case Ok(u) =>
      if JsMath.OrDefault(u.minFollowers, 0) != 0 && JsMath.OrDefault(u.maxFollowers, 0) != 0
         && u.maxFollowers.value <= u.minFollowers.value
      then Err(MaxNotAboveMin)
      else Ok(u)
  }

  /** What the validator admits, field by field. */
  ghost predicate Acceptable(body: Value) {
    && body.JObj?
    && var f := body.fields;
    && ("minFollowers" in f ==> f["minFollowers"].JNum? && f["minFollowers"].n >= 0)
    && ("maxFollowers" in f ==> f["maxFollowers"].JNum? && f["maxFollowers"].n >= 0)
    && ("dailyLimit" in f ==> f["dailyLimit"].JNum? && 1 <= f["dailyLimit"].n <= 10000)
    && ("actionDelay" in f ==> f["actionDelay"].JNum? && 1000 <= f["actionDelay"].n <= 300000)
    && ("categories" in f ==> f["categories"].JArr? && AllStrings(f["categories"].items))
    && ("subCategories" in f ==> f["subCategories"].JArr? && AllStrings(f["subCategories"].items))
    && ("productNames" in f ==> f["productNames"].JArr? && AllStrings(f["productNames"].items))
    && ("isActive" in f ==> f["isActive"].JBool?)
    && !("minFollowers" in f && "maxFollowers" in f && f["minFollowers"].n != 0 && f["maxFollowers"].n != 0
         && f["maxFollowers"].n <= f["minFollowers"].n)
  }

  lemma NoIssuesMeansAllSatisfied(f: Object)
    ensures Issues(f, SCHEMA) == [] <==> forall i | 0 <= i < |SCHEMA| :: SCHEMA[i].0 in f ==> Satisfies(f[SCHEMA[i].0], SCHEMA[i].1)
  {
    forall i | 0 <= i < |SCHEMA|
      ensures SCHEMA[i].0 in f && !Satisfies(f[SCHEMA[i].0], SCHEMA[i].1) ==> SCHEMA[i].0 in Issues(f, SCHEMA)
    {
      IssuesExact(f, SCHEMA, SCHEMA[i].0);
    }
    if Issues(f, SCHEMA) != [] {
      var k := Issues(f, SCHEMA)[0];
      IssuesExact(f, SCHEMA, k);
    }
  }

  /** The validator accepts exactly the acceptable bodies. */
  lemma ValidateConfigAccepts(body: Value)
    ensures ValidateConfig(body).Ok? <==> Acceptable(body)
  {
    if body.JObj? {
      var f := body.fields;
      NoIssuesMeansAllSatisfied(f);
      assert SCHEMA[0].0 == "minFollowers" && SCHEMA[1].0 == "maxFollowers" && SCHEMA[2].0 == "dailyLimit";
      assert SCHEMA[3].0 == "actionDelay" && SCHEMA[4].0 == "categories" && SCHEMA[5].0 == "subCategories";
      assert SCHEMA[6].0 == "productNames" && SCHEMA[7].0 == "isActive";
    }
  }

  /** An accepted update carries exactly the supplied fields, each within its range,
      and a truthy maximum above a truthy minimum. */
  lemma ValidatedUpdate(body: Value)
    requires ValidateConfig(body).Ok?
    ensures var u := ValidateConfig(body).value; var f := body.fields;
      && (u.minFollowers.Some? <==> "minFollowers" in f) && (u.minFollowers.Some? ==> 0 <= u.minFollowers.value)
      && (u.maxFollowers.Some? <==> "maxFollowers" in f) && (u.maxFollowers.Some? ==> 0 <= u.maxFollowers.value)
      && (u.dailyLimit.Some? <==> "dailyLimit" in f) && (u.dailyLimit.Some? ==> 1 <= u.dailyLimit.value <= 10000)
      && (u.actionDelay.Some? <==> "actionDelay" in f) && (u.actionDelay.Some? ==> 1000 <= u.actionDelay.value <= 300000)
      && (u.categories.Some? <==> "categories" in f)
      && (u.isActive.Some? <==> "isActive" in f)
      && (u.minFollowers.Some? && u.maxFollowers.Some? && u.minFollowers.value != 0 && u.maxFollowers.value != 0 ==>
            u.maxFollowers.value > u.minFollowers.value)
  {
    ValidateConfigAccepts(body);
  }

  /** A zero bound switches the comparison off: a minimum of 10 with a maximum of 0
      (which the filter reads as no maximum) is accepted; 10 and 5 are not. */
  lemma ZeroSkipsComparison()
    ensures ValidateConfig(JObj(map["minFollowers" := JNum(10), "maxFollowers" := JNum(0)])).Ok?
    ensures ValidateConfig(JObj(map["minFollowers" := JNum(10), "maxFollowers" := JNum(5)])) == Err(MaxNotAboveMin)
  {
    ValidateConfigAccepts(JObj(map["minFollowers" := JNum(10), "maxFollowers" := JNum(0)]));
    var f := map["minFollowers" := JNum(10), "maxFollowers" := JNum(5)];
    NoIssuesMeansAllSatisfied(f);
  }

  /** A daily limit of 0 is reported as an invalid field. */
  lemma ZeroDailyLimitRejected()
    ensures var r := ValidateConfig(JObj(map["dailyLimit" := JNum(0)]));
      r.Err? && r.error.InvalidFields? && "dailyLimit" in r.error.keys
  {
    var f := map["dailyLimit" := JNum(0)];
    IssuesExact(f, SCHEMA, "dailyLimit");
    assert SCHEMA[2] == ("dailyLimit", NumberBetween(1, 10000));
  }

  /** The validated body as `logUserAction` receives it: only the supplied keys. */
  function UpdateJson(u: ConfigUpdate): Object {
    (if u.minFollowers.Some? then map["minFollowers" := JNum(u.minFollowers.value)] else map[])
    + (if u.maxFollowers.Some? then map["maxFollowers" := JNum(u.maxFollowers.value)] else map[])
    + (if u.dailyLimit.Some? then map["dailyLimit" := JNum(u.dailyLimit.value)] else map[])
    + (if u.actionDelay.Some? then map["actionDelay" := JNum(u.actionDelay.value)] else map[])
    + (if u.categories.Some? then map["categories" := JArr(StringsJson(u.categories.value))] else map[])
    + (if u.subCategories.Some? then map["subCategories" := JArr(StringsJson(u.subCategories.value))] else map[])
    + (if u.productNames.Some? then map["productNames" := JArr(StringsJson(u.productNames.value))] else map[])
    + (if u.isActive.Some? then map["isActive" := JBool(u.isActive.value)] else map[])
  }

  /** `PUT /api/bot/config`: a rejected body changes nothing; an accepted one is merged
      into the stored configuration and logged as a user action. */
  method UpdateConfig(store: Storage.MemStorage, body: Value, now: int) returns (r: Result<BotConfig, Rejection>)
    requires store.Valid()
    modifies store
    ensures store.Valid()
    ensures r.Err? <==> ValidateConfig(body).Err?
    ensures r.Err? ==> r.error == ValidateConfig(body).error && store.State() == old(store.State())
    ensures r.Ok? ==>
      var (st, c) := StoreModel.UpdateBotConfig(old(store.State()), ValidateConfig(body).value, now);
      && r.value == c && store.State().config == Some(c)
      && store.State() == StoreModel.LogActivity(st,
           ActivityLogger.UserActionActivity("Updated bot configuration", None, Some(UpdateJson(ValidateConfig(body).value)), now), now).0
  {
    var v := ValidateConfig(body);
    if v.Err? {
      return Err(v.error);
    }
    var c := store.UpdateBotConfig(v.value, now);
    ActivityLogger.Log(store, ActivityLogger.UserActionActivity("Updated bot configuration", None, Some(UpdateJson(v.value)), now), now);
    r := Ok(c);
  }

  // ---------------------------------------------------------------- starting

  /** What `POST /api/bot/start` answers. */
  datatype StartReply = AlreadyRunning | Started(session: Session) | StartFailed(error: Thrown)

  /** `error instanceof Error ? error : new Error(String(error))` */
  function AsError(e: Thrown): (r: Thrown)
    ensures r.ErrorValue?
    ensures e.ErrorValue? ==> r == e
    ensures e.OtherValue? ==> r.message == e.text
  {
    if e.ErrorValue? then e else Failure(e.text)
  }

  function StartFailedActivity(e: Thrown, stack: string, now: int): InsertActivity {
    ActivityLogger.ErrorActivity(AsError(e), Some(stack), "Failed to start bot session", None, now)
  }

  function StartedActivity(now: int): InsertActivity {
    ActivityLogger.UserActionActivity("Started bot session", None, None, now)
  }

  /** `POST /api/bot/start`: refused before `startSession` is called while a session
      runs; otherwise the start's outcome is logged, as a user action when it worked
      and as an error (with `stack`, the error's stack trace) when it threw. */
  method StartRoute(m: SessionManager.SessionManager, launch: Option<Thrown>, login: Attempt<bool>, stack: string)
    returns (r: StartReply)
    requires m.Valid()
    modifies m, m.store, m.driver
    ensures m.Valid()
    ensures old(m.isRunning) ==> r == AlreadyRunning && m.store.State() == old(m.store.State()) && m.Flags() == old(m.Flags())
    ensures !old(m.isRunning) ==>
      var (done, flags) := Lifecycle.Start(old(m.Flags()), old(m.store.config).Some?, SessionManager.BrowserError(launch, login));
      && m.Flags() == flags
      && (done == Done <==> r.Started?)
      && (done.Raised? ==> r == StartFailed(done.error))
    ensures !old(m.isRunning) && old(m.store.config).None? ==>
      m.store.State() == StoreModel.LogActivity(old(m.store.State()), StartFailedActivity(Lifecycle.NO_CONFIG, stack, m.clock.now), m.clock.now).0
    ensures !old(m.isRunning) && old(m.store.config).Some? ==>
      var st := SessionManager.StartStore(old(m.store.State()), old(m.store.config).value, m.clock.now, SessionManager.BrowserError(launch, login));
      && (r.Started? ==> m.store.State() == StoreModel.LogActivity(st, StartedActivity(m.clock.now), m.clock.now).0)
      && (r.StartFailed? ==> m.store.State() == StoreModel.LogActivity(st, StartFailedActivity(r.error, stack, m.clock.now), m.clock.now).0)
  {
    if m.isRunning {
      return AlreadyRunning;
    }
    var started := m.StartSession(launch, login);
    r := ReportStart(m, started, stack);
  }

  /** The reply to an attempted start and the activity that records it. */
  method ReportStart(m: SessionManager.SessionManager, started: Attempt<Session>, stack: string) returns (r: StartReply)
    requires m.Valid()
    modifies m.store
    ensures m.Valid()
    ensures r == (if started.Returns? then Started(started.value) else StartFailed(started.error))
    ensures m.store.State() == StoreModel.LogActivity(old(m.store.State()),
      if started.Returns? then StartedActivity(m.clock.now) else StartFailedActivity(started.error, stack, m.clock.now), m.clock.now).0
  {
    var now := m.clock.now;
    match started {
      case Returns(s) =>
        ActivityLogger.Log(m.store, StartedActivity(now), now);
        r := Started(s);
      case Throws(e) =>
        ActivityLogger.Log(m.store, StartFailedActivity(e, stack, now), now);
        r := StartFailed(e);
    }
  }
}
