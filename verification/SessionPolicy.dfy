// src/auth/session-policy.service.ts: three lifetimes kept as text in the admin environment table,
// parsed, floored and clamped on every read.
module SessionPolicy {
  import opened Wrappers
  import opened Text

  datatype Field = AccessTokenTtl | InactivityTtl | AppLockTtl

  datatype Policy = Policy(accessTokenTtlSec: int, inactivityTtlSec: int, appLockTtlSec: int) {
    function Get(field: Field): int {
      match field
      case AccessTokenTtl => accessTokenTtlSec
      case InactivityTtl => inactivityTtlSec
      case AppLockTtl => appLockTtlSec
    }
  }

  const MAX_ACCESS_TTL_SEC := 24 * 60 * 60
  const MAX_INACTIVITY_TTL_SEC := 30 * 24 * 60 * 60

  function Key(field: Field): string {
    match field
    case AccessTokenTtl => "SANGAPAY_ACCESS_TOKEN_TTL_SEC"
    case InactivityTtl => "SANGAPAY_SESSION_INACTIVITY_TTL_SEC"
    case AppLockTtl => "SANGAPAY_APP_LOCK_TTL_SEC"
  }

  function Default(field: Field): int {
    match field
    case AccessTokenTtl => 5 * 60
    case InactivityTtl => 5 * 24 * 60 * 60
    case AppLockTtl => 5 * 60
  }

  function Min(field: Field): int {
    match field
    case AccessTokenTtl => 60
    case InactivityTtl => 5 * 60
    case AppLockTtl => 30
  }

  function Max(field: Field): int {
    match field
    case AccessTokenTtl => MAX_ACCESS_TTL_SEC
    case InactivityTtl => MAX_INACTIVITY_TTL_SEC
    case AppLockTtl => 24 * 60 * 60
  }

  function Clamp(field: Field, value: int): (r: int)
    ensures Min(field) <= r <= Max(field)
    ensures Min(field) <= value <= Max(field) ==> r == value
  {
    if value < Min(field) then Min(field) else if value > Max(field) then Max(field) else value
  }

  function ClampReal(field: Field, value: real): real {
    if value < Min(field) as real then Min(field) as real
    else if value > Max(field) as real then Max(field) as real
    else value
  }

  /** Absent and empty text, and text that is no finite number, mean the default. */
  function ResolveSeconds(field: Field, value: Option<string>): (r: int)
    ensures Min(field) <= r <= Max(field)
  {
    if value.None? || value.value == "" then Default(field)
    else match ToNumber(value.value)
      case NonFinite => Default(field)
      case Finite(x) => Clamp(field, x.Floor)
  }

  /** A stored row wins over the process environment, even when its text is empty. */
  function Lookup(rows: map<string, string>, processEnv: map<string, string>, field: Field): Option<string> {
    var key := Key(field);
    if key in rows then Some(rows[key]) else if key in processEnv then Some(processEnv[key]) else None
  }

  function Seconds(rows: map<string, string>, processEnv: map<string, string>, field: Field): (r: int)
    ensures Min(field) <= r <= Max(field)
  {
    ResolveSeconds(field, Lookup(rows, processEnv, field))
  }

  function GetPolicy(rows: map<string, string>, processEnv: map<string, string>): Policy {
    Policy(Seconds(rows, processEnv, AccessTokenTtl),
           Seconds(rows, processEnv, InactivityTtl),
           Seconds(rows, processEnv, AppLockTtl))
  }

  /** One supplied field of an update request. */
  datatype Entry = Entry(field: Field, value: int)

  function Upsert(rows: map<string, string>, e: Entry): map<string, string> {
    rows[Key(e.field) := Decimal(Clamp(e.field, e.value))]
  }

  /** The upserts of an update, carried out in the given order. */
  function Upserts(rows: map<string, string>, entries: seq<Entry>): map<string, string> {
    if entries == [] then rows
    else Upsert(Upserts(rows, entries[..|entries| - 1]), entries[|entries| - 1])
  }

  /** A request object names each field at most once. */
  ghost predicate DistinctFields(entries: seq<Entry>) {
    forall i, j | 0 <= i < j < |entries| :: entries[i].field != entries[j].field
  }

  /** An update request: each field may be left out. */
  datatype Update = Update(accessTokenTtlSec: Option<int>, inactivityTtlSec: Option<int>, appLockTtlSec: Option<int>) {
    function Get(field: Field): Option<int> {
      match field
      case AccessTokenTtl => accessTokenTtlSec
      case InactivityTtl => inactivityTtlSec
      case AppLockTtl => appLockTtlSec
    }
  }

  function Supplied(field: Field, value: Option<int>): seq<Entry> {
    if value.Some? then [Entry(field, value.value)] else []
  }

  function Entries(update: Update): seq<Entry> {
    Supplied(AccessTokenTtl, update.accessTokenTtlSec) + Supplied(InactivityTtl, update.inactivityTtlSec)
    + Supplied(AppLockTtl, update.appLockTtlSec)
  }

  lemma KeysAreInjective(f: Field, g: Field)
    ensures Key(f) == Key(g) <==> f == g
  {
    assert Key(f)[9] == Key(g)[9] ==> Key(f)[10] == Key(g)[10] ==> f == g;
  }

  /** Every stored text, numeric or not, yields lifetimes inside the limits. */
  lemma PolicyWithinLimits(rows: map<string, string>, processEnv: map<string, string>, field: Field)
    ensures Min(field) <= GetPolicy(rows, processEnv).Get(field) <= Max(field)
    ensures GetPolicy(rows, processEnv).Get(field) == Seconds(rows, processEnv, field)
  {
    match field { case AccessTokenTtl => case InactivityTtl => case AppLockTtl => }
  }

  /** What is read back right after one upsert: the clamped value for its field, no change elsewhere. */
  lemma UpsertRoundTrip(rows: map<string, string>, processEnv: map<string, string>, e: Entry, field: Field)
    ensures Seconds(Upsert(rows, e), processEnv, field)
         == if field == e.field then Clamp(field, e.value) else Seconds(rows, processEnv, field)
  {
    KeysAreInjective(field, e.field);
    if field == e.field {
      var n := Clamp(field, e.value);
      PrintParse(n);
      DecimalIsDigits(n);
      assert (n as real).Floor == n;
    }
  }

  /** Updating and reading back, for a request with any number of fields in any order. */
  lemma {:induction false} UpdateRoundTrip(rows: map<string, string>, processEnv: map<string, string>,
                                           entries: seq<Entry>, field: Field)
    requires DistinctFields(entries)
    ensures (forall i | 0 <= i < |entries| :: entries[i].field != field) ==>
        Seconds(Upserts(rows, entries), processEnv, field) == Seconds(rows, processEnv, field)
    ensures forall i | 0 <= i < |entries| && entries[i].field == field ::
        Seconds(Upserts(rows, entries), processEnv, field) == Clamp(field, entries[i].value)
  {
    if entries != [] {
      var front, last := entries[..|entries| - 1], entries[|entries| - 1];
      UpdateRoundTrip(rows, processEnv, front, field);
      UpsertRoundTrip(Upserts(rows, front), processEnv, last, field);
      forall i | 0 <= i < |entries| && entries[i].field == field
        ensures Seconds(Upserts(rows, entries), processEnv, field) == Clamp(field, entries[i].value)
      {
        if i < |front| {
          assert front[i] == entries[i] && last.field != field;
        }
      }
    }
  }

  /** The stored text under each key after an update, independently of the order of the upserts. */
  lemma {:induction false} UpsertsContents(rows: map<string, string>, entries: seq<Entry>, key: string)
    requires DistinctFields(entries)
    ensures (forall i | 0 <= i < |entries| :: Key(entries[i].field) != key) ==>
        ((key in Upserts(rows, entries) <==> key in rows)
        && (key in rows ==> Upserts(rows, entries)[key] == rows[key]))
    ensures forall i | 0 <= i < |entries| && Key(entries[i].field) == key ::
        key in Upserts(rows, entries)
        && Upserts(rows, entries)[key] == Decimal(Clamp(entries[i].field, entries[i].value))
  {
    hide Decimal, Key;
    if entries != [] {
      var front, last := entries[..|entries| - 1], entries[|entries| - 1];
      UpsertsContents(rows, front, key);
      assert forall i | 0 <= i < |front| :: front[i] == entries[i];
      forall i | 0 <= i < |entries| && Key(entries[i].field) == key
        ensures key in Upserts(rows, entries)
             && Upserts(rows, entries)[key] == Decimal(Clamp(entries[i].field, entries[i].value))
      {
        KeysAreInjective(entries[i].field, last.field);
        if i < |front| {
          assert front[i] == entries[i];
        }
      }
    }
  }

  /** The upserts are started together and may land in any order: the table ends up the same. */
  lemma UpsertsCommute(rows: map<string, string>, entries: seq<Entry>, reordered: seq<Entry>)
    requires DistinctFields(entries) && DistinctFields(reordered)
    requires forall e :: e in entries <==> e in reordered
    ensures Upserts(rows, entries) == Upserts(rows, reordered)
  {
    var a, b := Upserts(rows, entries), Upserts(rows, reordered);
    forall key
      ensures key in a <==> key in b
      ensures key in a ==> a[key] == b[key]
    {
      UpsertsContents(rows, entries, key);
      UpsertsContents(rows, reordered, key);
      if i :| 0 <= i < |entries| && Key(entries[i].field) == key {
        assert entries[i] in reordered;
        var j :| 0 <= j < |reordered| && reordered[j] == entries[i];
      } else if j :| 0 <= j < |reordered| && Key(reordered[j].field) == key {
        assert reordered[j] in entries;
      }
    }
  }

  /** Sending the same update again changes nothing. */
  lemma UpdateIsIdempotent(rows: map<string, string>, entries: seq<Entry>)
    requires DistinctFields(entries)
    ensures Upserts(Upserts(rows, entries), entries) == Upserts(rows, entries)
  {
    var once := Upserts(rows, entries);
    var twice := Upserts(once, entries);
    forall key
      ensures key in once <==> key in twice
      ensures key in once ==> once[key] == twice[key]
    {
      UpsertsContents(rows, entries, key);
      UpsertsContents(once, entries, key);
    }
  }

  /** What an update asks for: the clamped value if one is supplied, otherwise the value before. */
  function Requested(before: Policy, update: Update, field: Field): int {
    match update.Get(field)
    case Some(value) => Clamp(field, value)
    case None => before.Get(field)
  }

  lemma EntriesAreDistinct(update: Update)
    ensures DistinctFields(Entries(update))
    ensures forall e :: e in Entries(update) <==> update.Get(e.field) == Some(e.value)
  {
  }

  /** After an update request each supplied field reads back clamped, and each omitted one as before. */
  lemma UpdateReadsBack(rows: map<string, string>, processEnv: map<string, string>, update: Update, field: Field)
    ensures GetPolicy(Upserts(rows, Entries(update)), processEnv).Get(field)
         == Requested(GetPolicy(rows, processEnv), update, field)
  {
    hide Seconds, Entries, Upserts, Clamp;
    EntriesAreDistinct(update);
    UpdateRoundTrip(rows, processEnv, Entries(update), field);
    PolicyWithinLimits(Upserts(rows, Entries(update)), processEnv, field);
    PolicyWithinLimits(rows, processEnv, field);
    if update.Get(field).Some? {
      var e := Entry(field, update.Get(field).value);
      var i :| 0 <= i < |Entries(update)| && Entries(update)[i] == e;
    } else {
      forall i | 0 <= i < |Entries(update)|
        ensures Entries(update)[i].field != field
      {
        assert Entries(update)[i] in Entries(update);
      }
    }
  }

  function StoreText(rows: map<string, string>, field: Field, text: string): map<string, string> {
    rows[Key(field) := text]
  }

  /** The text that decides, were it the only one stored. */
  function ReadAs(field: Field, text: string): int {
    Seconds(map[Key(field) := text], map[], field)
  }

  /**
   * A stored row decides alone, whatever the process environment says; without one the process environment is
   * read as if it were stored; without either, and for an empty or non-numeric text that decides, the lifetimes
   * are five minutes, five days and five minutes.
   */
  lemma PolicySource(rows: map<string, string>, processEnv: map<string, string>, field: Field)
    ensures var key := Key(field);
      var default := match field { case AccessTokenTtl => 300 case InactivityTtl => 432000 case AppLockTtl => 300 };
      && (key in rows ==> Seconds(rows, processEnv, field) == ReadAs(field, rows[key]))
      && (key !in rows && key in processEnv ==> Seconds(rows, processEnv, field) == ReadAs(field, processEnv[key]))
      && (key !in rows && key !in processEnv ==> Seconds(rows, processEnv, field) == default)
      && ReadAs(field, "") == default
      && (forall text | text != "" && ToNumber(text).NonFinite? :: ReadAs(field, text) == default)
      && (forall text | text != "" && ToNumber(text).Finite? ::
            ReadAs(field, text) == Clamp(field, ToNumber(text).value.Floor))
  {
    hide ToNumber, Clamp, Key;
  }

  /** The names of the stored texts and the limits of the lifetimes. */
  lemma PolicyNames(field: Field)
    ensures match field
      case AccessTokenTtl => Key(field) == "SANGAPAY_ACCESS_TOKEN_TTL_SEC" && Min(field) == 60 && Max(field) == 86400
      case InactivityTtl => Key(field) == "SANGAPAY_SESSION_INACTIVITY_TTL_SEC" && Min(field) == 300
          && Max(field) == 2592000
      case AppLockTtl => Key(field) == "SANGAPAY_APP_LOCK_TTL_SEC" && Min(field) == 30 && Max(field) == 86400
  {
  }

  /** Clamping moves a value to the nearest one within the limits. */
  lemma ClampIsNearest(field: Field, value: int, other: int)
    requires Min(field) <= other <= Max(field)
    ensures var d, e := Clamp(field, value) - value, other - value;
      Min(field) <= Clamp(field, value) <= Max(field) && (if d < 0 then -d else d) <= (if e < 0 then -e else e)
  {
  }

  /** The values a field can be read as, over all texts that may be stored for it, are exactly its limits' range. */
  lemma PolicyRangeIsExact(rows: map<string, string>, processEnv: map<string, string>, field: Field, value: int)
    ensures (exists text :: GetPolicy(StoreText(rows, field, text), processEnv).Get(field) == value)
       <==> Min(field) <= value <= Max(field)
  {
    hide Seconds, Clamp, Decimal, Key;
    if Min(field) <= value <= Max(field) {
      var text := Decimal(value);
      UpsertRoundTrip(rows, processEnv, Entry(field, value), field);
      PolicyWithinLimits(StoreText(rows, field, text), processEnv, field);
    }
    forall text
      ensures Min(field) <= GetPolicy(StoreText(rows, field, text), processEnv).Get(field) <= Max(field)
    {
      PolicyWithinLimits(StoreText(rows, field, text), processEnv, field);
    }
  }

  /** Floor and clamp commute, so it does not matter that reading floors first. */
  lemma FloorClampCommute(field: Field, x: real)
    ensures Clamp(field, x.Floor) == ClampReal(field, x).Floor
  {
    assert (Min(field) as real).Floor == Min(field) && (Max(field) as real).Floor == Max(field);
    if x < Min(field) as real {
      assert x.Floor < Min(field);
    }
  }
}
