/** The storage prefix of a session, and the guarded purge of one session's objects. */
module Prefixes {
  import opened Wrappers

  // ------------------------------------------------------- decimal rendering

  predicate IsDigit(c: char) {
    '0' <= c <= '9'
  }

  predicate AllDigits(s: string) {
    forall k | 0 <= k < |s| :: IsDigit(s[k])
  }

  function Digit(n: nat): (c: char)
    requires n < 10
    ensures IsDigit(c)
  {
    '0' + n as char
  }

  function NatToString(n: nat): (s: string)
    ensures |s| >= 1 && AllDigits(s)
  {
    if n < 10 then [Digit(n)] else NatToString(n / 10) + [Digit(n % 10)]
  }

  function IntToString(n: int): (s: string)
    ensures |s| >= 1 && (n < 0 <==> s[0] == '-')
  {
    if n < 0 then "-" + NatToString(-n) else NatToString(n)
  }

  function PadStart2(s: string): string {
    if |s| >= 2 then s else if |s| == 1 then "0" + s else "00"
  }

  // --------------------------------------------------------- decimal reading

  /** The leading digits as a number, and what follows them. */
  function TakeDigits(s: string, value: nat): (nat, string) {
    if s != "" && IsDigit(s[0]) then TakeDigits(s[1..], 10 * value + (s[0] as int - '0' as int)) else (value, s)
  }

  /** Reading digits then more digits is reading them all. */
  lemma {:induction false} TakesDigits(digits: string, rest: string, value: nat)
    requires AllDigits(digits)
    ensures TakeDigits(digits + rest, value) == TakeDigits(rest, TakeDigits(digits, value).0)
    ensures TakeDigits(digits, value).1 == ""
  {
    if digits == "" {
      assert digits + rest == rest;
    } else {
      assert (digits + rest)[1..] == digits[1..] + rest;
      TakesDigits(digits[1..], rest, 10 * value + (digits[0] as int - '0' as int));
    }
  }

  lemma {:induction false} DecimalReadsBack(n: nat)
    ensures TakeDigits(NatToString(n), 0).0 == n
  {
    if n >= 10 {
      DecimalReadsBack(n / 10);
      TakesDigits(NatToString(n / 10), [Digit(n % 10)], 0);
    }
  }

  // ------------------------------------------------------------------ prefix

  /** A UTC calendar date. The year is not bounded; months and days are. */
  datatype DateFields = DateFields(year: int, month: nat, day: nat)

  type Date = d: DateFields | 1 <= d.month <= 12 && 1 <= d.day <= 31 witness DateFields(1970, 1, 1)

  function PrefixFor(sessionId: string, date: Date): string {
    "sessions/" + IntToString(date.year) + "/" + PadStart2(IntToString(date.month)) + "/"
    + PadStart2(IntToString(date.day)) + "/" + sessionId
  }

  // ------------------------------------------------------------------- guard

  predicate IsPathSegment(s: string) {
    |s| > 0 && '/' !in s
  }

  /** `^sessions\/\d{4}\/\d{2}\/\d{2}\/[^/]+$` */
  predicate IsSessionPrefix(p: string) {
    && |p| > 20
    && p[..9] == "sessions/"
    && AllDigits(p[9..13]) && p[13] == '/'
    && AllDigits(p[14..16]) && p[16] == '/'
    && AllDigits(p[17..19]) && p[19] == '/'
    && IsPathSegment(p[20..])
  }

  lemma NatToStringLength(n: nat, width: nat)
    requires width >= 1
    ensures width == 1 ==> (|NatToString(n)| == 1 <==> n < 10)
    ensures width == 2 ==> (|NatToString(n)| == 2 <==> 10 <= n < 100)
    ensures width == 3 ==> (|NatToString(n)| == 3 <==> 100 <= n < 1000)
    ensures width == 4 ==> (|NatToString(n)| == 4 <==> 1000 <= n < 10000)
  {
    if n >= 10 && width >= 2 {
      NatToStringLength(n / 10, width - 1);
    }
  }

  lemma PaddedLength(n: nat)
    requires n < 100
    ensures |PadStart2(IntToString(n))| == 2 && AllDigits(PadStart2(IntToString(n)))
  {
    NatToStringLength(n, 1);
    NatToStringLength(n, 2);
  }

  /** The layout of a prefix whose year has four digits. */
  lemma PrefixLayout(sessionId: string, date: Date)
    requires 1000 <= date.year <= 9999
    ensures var p := PrefixFor(sessionId, date);
      && |p| == 20 + |sessionId| && p[20..] == sessionId
      && p[..9] == "sessions/"
      && p[9..13] == IntToString(date.year) && p[13] == '/'
      && p[14..16] == PadStart2(IntToString(date.month)) && p[16] == '/'
      && p[17..19] == PadStart2(IntToString(date.day)) && p[19] == '/'
  {
    NatToStringLength(date.year, 4);
    PaddedLength(date.month);
    PaddedLength(date.day);
  }

  /** What the guard makes of the year: the text up to the next slash is four digits. */
  lemma YearIsFourDigits(y: string, rest: string)
    requires '/' !in y && IsSessionPrefix("sessions/" + y + "/" + rest)
    ensures |y| == 4 && AllDigits(y)
  {
    var p := "sessions/" + y + "/" + rest;
    assert p[9 + |y|] == '/';
    assert forall k | 0 <= k < |y| :: p[9 + k] == y[k];
    assert forall k | 0 <= k < 4 :: IsDigit(p[9..13][k]) && p[9..13][k] == p[9 + k];
    assert p[13] == '/';
    assert forall k | 9 <= k < 13 :: p[k] == p[9..13][k - 9];
  }

  /** A year that is not four digits long puts something else where the guard wants a slash. */
  lemma OtherYearsRefused(sessionId: string, date: Date)
    requires !(1000 <= date.year <= 9999)
    ensures !IsSessionPrefix(PrefixFor(sessionId, date))
  {
    var y := IntToString(date.year);
    var rest := PadStart2(IntToString(date.month)) + "/" + PadStart2(IntToString(date.day)) + "/" + sessionId;
    assert PrefixFor(sessionId, date) == "sessions/" + y + "/" + rest;
    hide IsSessionPrefix, PadStart2, PrefixFor;
    assert '/' !in y;
    if date.year >= 0 {
      NatToStringLength(date.year, 4);
    }
    if IsSessionPrefix("sessions/" + y + "/" + rest) {
      YearIsFourDigits(y, rest);
    }
  }

  /** Exactly the prefixes a purge accepts, among those `prefixFor` builds. */
  lemma PrefixPassesGuard(sessionId: string, date: Date)
    ensures IsSessionPrefix(PrefixFor(sessionId, date)) <==> 1000 <= date.year <= 9999 && IsPathSegment(sessionId)
  {
    if 1000 <= date.year <= 9999 {
      PrefixLayout(sessionId, date);
      PaddedLength(date.month);
      PaddedLength(date.day);
    } else {
      OtherYearsRefused(sessionId, date);
    }
  }

  // ------------------------------------------------------------------- purge

  predicate StartsWith(s: string, p: string) {
    p <= s
  }

  function KeysBelow(listing: seq<string>, prefix: string): seq<string> {
    if listing == [] then []
    else (if StartsWith(listing[0], prefix + "/") then [listing[0]] else []) + KeysBelow(listing[1..], prefix)
  }

  lemma KeysBelowExact(listing: seq<string>, prefix: string, key: string)
    ensures key in KeysBelow(listing, prefix) <==> key in listing && StartsWith(key, prefix + "/")
  {
    if listing != [] {
      KeysBelowExact(listing[1..], prefix, key);
    }
  }

  /** The bucket, as far as a purge touches it. */
  class ObjectStore {
    var keys: set<string>

    /** Deletes one object, or fails leaving it; deleting an absent key succeeds. */
    method Remove(key: string, reachable: bool) returns (ok: bool)
      modifies this
      ensures ok == reachable
      ensures keys == if reachable then old(keys) - {key} else old(keys)
    {
      if reachable { keys := keys - {key}; }
      ok := reachable;
    }
  }

  datatype PurgeError = Refused | RemoveFailed

  /**
   * Deletes every listed object of one session. `listing` is whatever the
   * bucket handed back; `failAt` is the removal that fails, if one does.
   */
  method PurgePrefix(store: ObjectStore, prefix: string, listing: seq<string>, failAt: Option<nat>)
    returns (result: Result<nat, PurgeError>)
    modifies store
    ensures !IsSessionPrefix(prefix) <==> result == Err(Refused)
    ensures result == Err(Refused) ==> store.keys == old(store.keys)
    ensures result.Ok? ==>
      && result.value == |KeysBelow(listing, prefix)|
      && store.keys == old(store.keys) - (set k | k in listing && StartsWith(k, prefix + "/"))
    ensures old(store.keys) - (set k | k in listing && StartsWith(k, prefix + "/")) <= store.keys <= old(store.keys)
    ensures IsSessionPrefix(prefix) ==>
      (result.Ok? <==> failAt.None? || failAt.value >= |KeysBelow(listing, prefix)|)
  {
    if !IsSessionPrefix(prefix) {
      return Err(Refused);
    }
    var keys := KeysBelow(listing, prefix);
    forall k ensures k in keys <==> k in listing && StartsWith(k, prefix + "/") {
      KeysBelowExact(listing, prefix, k);
    }
    for i := 0 to |keys|
      invariant store.keys == old(store.keys) - (set k | k in keys[..i])
      invariant failAt.None? || failAt.value >= i
    {
      var ok := store.Remove(keys[i], failAt != Some(i));
      if !ok {
        return Err(RemoveFailed);
      }
      assert keys[..i + 1] == keys[..i] + [keys[i]];
    }
    assert keys[..|keys|] == keys;
    return Ok(|keys|);
  }

  /** A key below a session prefix names that session in its fifth path segment. */
  lemma KeyNamesItsSession(p: string, q: string, key: string)
    requires IsSessionPrefix(p) && IsSessionPrefix(q)
    requires StartsWith(key, p + "/") && StartsWith(key, q + "/")
    ensures p == q
  {
    assert key[..|p|] == p && key[|p|] == '/';
    assert key[..|q|] == q && key[|q|] == '/';
  }

  /** Purging two sessions with different ids can never touch a common key. */
  lemma PurgesAreDisjoint(a: string, dateA: Date, b: string, dateB: Date, listing: seq<string>, other: seq<string>)
    requires a != b
    requires IsSessionPrefix(PrefixFor(a, dateA)) && IsSessionPrefix(PrefixFor(b, dateB))
    ensures forall key ::
      !(key in KeysBelow(listing, PrefixFor(a, dateA)) && key in KeysBelow(other, PrefixFor(b, dateB)))
  {
    var p, q := PrefixFor(a, dateA), PrefixFor(b, dateB);
    forall key | key in KeysBelow(listing, p) && key in KeysBelow(other, q) ensures false {
      KeysBelowExact(listing, p, key);
      KeysBelowExact(other, q, key);
      KeyNamesItsSession(p, q, key);
      PrefixPassesGuard(a, dateA);
      PrefixPassesGuard(b, dateB);
      PrefixLayout(a, dateA);
      PrefixLayout(b, dateB);
    }
  }
}
