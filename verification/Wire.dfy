/**
 The message contract: what one outbox row looks like on the broker, where it is
 routed, and how a produce error is classified.
 */
module Wire {
  import opened Wrappers

  // A UUID, by the text that uuid.String gives: formatting is injective.
  datatype Uuid = Uuid(text: string)

  datatype UserData = UserData(userId: string, email: string, displayName: string, version: int, registeredAt: int)

  // The CloudEvent: its attributes and its data. How they are written as JSON is opaque.
  datatype Payload = Payload(
    id: Uuid, eventType: string, source: string, subject: string, time: int, dataSchema: string,
    traceparent: string, data: UserData)

  datatype Envelope = Envelope(
    eventId: Uuid, aggregateType: string, aggregateId: Uuid, eventType: string,
    schemaVersion: int, payload: Payload, headers: map<string, string>, occurredAt: int)

  datatype Header = Header(key: string, value: string)

  datatype Record = Record(topic: string, key: string, value: Payload, headers: seq<Header>)

  const HEADER_EVENT_ID := "ce_id"
  const HEADER_EVENT_TYPE := "ce_type"
  const HEADER_SPEC_VERSION := "ce_specversion"
  const HEADER_SCHEMA_VERSION := "schema_version"
  const HEADER_CONTENT_TYPE := "content-type"
  const SPEC_VERSION := "1.0"
  const DATA_CONTENT_TYPE := "application/json"

  // ---------------------------------------------------------------- errors

  // What errors.Is can see of an error: which of the two sentinel classes its chain wraps.
  datatype PublishError = PublishError(wrapsPermanent: bool, wrapsTransient: bool, reason: string)

  datatype ErrorClass = Permanent | Transient | Unclassified

  // The order of the switch in publishBatch: permanent is tested before transient.
  function ClassOf(err: PublishError): ErrorClass {
    if err.wrapsPermanent then Permanent
    else if err.wrapsTransient then Transient
    else Unclassified
  }

  predicate InExactlyOneClass(err: PublishError) {
    err.wrapsPermanent != err.wrapsTransient
  }

  // The error of a produce call: one the broker sent, or one of the client's own.
  datatype ProduceError = FromBroker(code: int, retriable: bool) | FromClient

  const UNKNOWN_TOPIC_OR_PARTITION := 3
  const UNKNOWN_TOPIC_ID := 100

  predicate PermanentCode(code: int) {
    code == UNKNOWN_TOPIC_OR_PARTITION || code == UNKNOWN_TOPIC_ID
  }

  // Exactly the broker's own non-retriable errors and the two unknown-topic errors park a row.
  function Classify(err: ProduceError): (e: PublishError)
    ensures InExactlyOneClass(e)
    ensures ClassOf(e) == Permanent <==>
            err.FromBroker? && (err.code == 3 || err.code == 100 || !err.retriable)
    ensures ClassOf(e) != Unclassified
  {
    match err
    case FromClient => PublishError(false, true, "produce")
    case FromBroker(code, retriable) =>
      if PermanentCode(code) || !retriable
      then PublishError(true, false, "broker")
      else PublishError(false, true, "broker")
  }

  // ---------------------------------------------------------------- routing

  type Topics = map<string, string>

  predicate Routable(topics: Topics, aggregateType: string) {
    aggregateType in topics && topics[aggregateType] != ""
  }

  // Topics.For: a present, non-empty entry is a route; anything else is a permanent error.
  function TopicFor(topics: Topics, aggregateType: string): (r: Result<string, PublishError>)
    ensures r.Ok? <==> Routable(topics, aggregateType)
    ensures r.Ok? ==> r.value == topics[aggregateType]
    ensures r.Err? ==> InExactlyOneClass(r.error) && ClassOf(r.error) == Permanent
  {
    if Routable(topics, aggregateType) then Ok(topics[aggregateType])
    else Err(PublishError(true, false, "no topic for aggregate type"))
  }

  // ---------------------------------------------------------------- header contract

  function Digit(n: nat): char
    requires n < 10
  {
    "0123456789"[n]
  }

  function Decimal(n: nat): string {
    if n < 10 then [Digit(n)] else Decimal(n / 10) + [Digit(n % 10)]
  }

  function Itoa(n: int): string {
    if n < 0 then "-" + Decimal(-n) else Decimal(n)
  }

  // What a numeral says.
  function Value(digits: string): int {
    if digits == [] then 0
    else
      var n := |digits| - 1;
      10 * Value(digits[..n]) + (digits[n] as int - '0' as int)
  }

  function Atoi(s: string): int {
    if s != [] && s[0] == '-' then -Value(s[1..]) else Value(s)
  }

  // Digits only, and no leading zero.
  predicate Canonic(digits: string) {
    && digits != [] && (digits[0] == '0' ==> |digits| == 1)
    && forall i :: 0 <= i < |digits| ==> '0' <= digits[i] <= '9'
  }

  predicate IsNumeral(digits: string, n: nat) {
    Canonic(digits) && Value(digits) == n && (digits[0] == '0' ==> n == 0)
  }

  lemma DigitIsNumeral(n: nat)
    requires n < 10
    ensures '0' <= Digit(n) <= '9' && IsNumeral([Digit(n)], n)
  {
    assert Digit(n) as int - '0' as int == n;
    assert [Digit(n)][..0] == [];
  }

  lemma OneMoreDigit(digits: string, m: nat, n: nat)
    requires IsNumeral(digits, m) && m > 0 && n < 10
    ensures IsNumeral(digits + [Digit(n)], 10 * m + n)
  {
    DigitIsNumeral(n);
    assert [Digit(n)][..0] == [];
    assert (digits + [Digit(n)])[..|digits|] == digits;
  }

  lemma {:induction false} DecimalIsNumeral(n: nat)
    ensures IsNumeral(Decimal(n), n)
  {
    if n < 10 {
      DigitIsNumeral(n);
    } else {
      DecimalIsNumeral(n / 10);
      OneMoreDigit(Decimal(n / 10), n / 10, n % 10);
    }
  }

  // The number can be read back from its header.
  lemma ItoaRoundTrip(n: int)
    ensures Atoi(Itoa(n)) == n
    ensures Canonic(if n < 0 then Itoa(n)[1..] else Itoa(n)) && (n < 0 <==> Itoa(n)[0] == '-')
  {
    DecimalIsNumeral(if n < 0 then -n else n);
  }

  function DerivedHeaders(env: Envelope): map<string, string> {
    map[HEADER_EVENT_ID := env.eventId.text,
        HEADER_EVENT_TYPE := env.eventType,
        HEADER_SPEC_VERSION := SPEC_VERSION,
        HEADER_SCHEMA_VERSION := Itoa(env.schemaVersion),
        HEADER_CONTENT_TYPE := DATA_CONTENT_TYPE]
  }

  // The header set a consumer may rely on: a derived header is never shadowed by a stored one.
  predicate ContractHeaders(env: Envelope, headers: map<string, string>) {
    && headers.Keys == env.headers.Keys + DerivedHeaders(env).Keys
    && (forall k :: k in DerivedHeaders(env) ==> headers[k] == DerivedHeaders(env)[k])
    && (forall k :: k in env.headers && k !in DerivedHeaders(env) ==> headers[k] == env.headers[k])
  }

  function HeadersFor(env: Envelope): (headers: map<string, string>)
    ensures ContractHeaders(env, headers)
  {
    env.headers + DerivedHeaders(env)
  }

  // publishHeaders: the stored headers are copied first, the five derived ones are set afterwards.
  method PublishHeaders(env: Envelope) returns (headers: map<string, string>)
    ensures ContractHeaders(env, headers)
    ensures headers == HeadersFor(env)
  {
    headers := map[];
    var left := env.headers.Keys;
    while left != {}
      invariant left <= env.headers.Keys
      invariant headers.Keys == env.headers.Keys - left
      invariant forall k :: k in headers ==> headers[k] == env.headers[k]
      decreases left
    {
      var key :| key in left;
      headers := headers[key := env.headers[key]];
      left := left - {key};
    }
    headers := headers[HEADER_EVENT_ID := env.eventId.text];
    headers := headers[HEADER_EVENT_TYPE := env.eventType];
    headers := headers[HEADER_SPEC_VERSION := SPEC_VERSION];
    headers := headers[HEADER_SCHEMA_VERSION := Itoa(env.schemaVersion)];
    headers := headers[HEADER_CONTENT_TYPE := DATA_CONTENT_TYPE];
  }

  // ---------------------------------------------------------------- canonical header list

  // Go's order on strings: the first differing character decides, a proper prefix comes first.
  predicate Before(a: string, b: string) {
    b != [] && (a == [] || a[0] < b[0] || (a[0] == b[0] && Before(a[1..], b[1..])))
  }

  lemma {:induction false} BeforeTrichotomy(a: string, b: string)
    ensures a != b ==> Before(a, b) || Before(b, a)
    ensures !(Before(a, b) && Before(b, a)) && !Before(a, a)
  {
    if a != [] {
      BeforeTrichotomy(a[1..], a[1..]);
    }
    if a != [] && b != [] {
      BeforeTrichotomy(a[1..], b[1..]);
      if a[0] == b[0] && a[1..] == b[1..] {
        assert a == [a[0]] + a[1..] && b == [b[0]] + b[1..];
      }
    }
  }

  lemma {:induction false} BeforeTransitive(a: string, b: string, c: string)
    requires Before(a, b) && Before(b, c)
    ensures Before(a, c)
  {
    if a != [] && a[0] == b[0] && b[0] == c[0] {
      BeforeTransitive(a[1..], b[1..], c[1..]);
    }
  }

  // The strings agree before this position; there, one has ended or has the lesser character.
  predicate DiffersAt(a: string, b: string, i: nat) {
    i <= |a| && i < |b| && a[..i] == b[..i] && (i == |a| || a[i] < b[i])
  }

  lemma {:induction false} BeforeExactly(a: string, b: string)
    ensures Before(a, b) <==> exists i :: DiffersAt(a, b, i)
  {
    if a == [] || b == [] || a[0] != b[0] {
      if Before(a, b) {
        assert DiffersAt(a, b, 0);
      }
    } else {
      BeforeExactly(a[1..], b[1..]);
      if i: nat :| DiffersAt(a[1..], b[1..], i) {
        assert a[..i + 1] == [a[0]] + a[1..][..i] && b[..i + 1] == [b[0]] + b[1..][..i];
        assert DiffersAt(a, b, i + 1);
      }
      if i: nat :| DiffersAt(a, b, i) {
        assert i > 0;
        assert a[1..][..i - 1] == a[..i][1..] && b[1..][..i - 1] == b[..i][1..];
        assert DiffersAt(a[1..], b[1..], i - 1);
      }
    }
  }

  predicate SortedByKey(list: seq<Header>) {
    forall i, j :: 0 <= i < j < |list| ==> Before(list[i].key, list[j].key)
  }

  // What a consumer reads off a record: the last value of each key.
  function AsMap(list: seq<Header>): map<string, string> {
    if list == [] then map[]
    else
      var last := list[|list| - 1];
      AsMap(list[..|list| - 1])[last.key := last.value]
  }

  lemma {:induction false} KeyIndex(list: seq<Header>, key: string) returns (i: nat)
    requires key in AsMap(list)
    ensures i < |list| && list[i].key == key && list[i].value == AsMap(list)[key]
  {
    var n := |list| - 1;
    if list[n].key == key {
      i := n;
    } else {
      i := KeyIndex(list[..n], key);
    }
  }

  lemma {:induction false} EntryOf(list: seq<Header>, i: nat)
    requires SortedByKey(list) && i < |list|
    ensures list[i].key in AsMap(list) && AsMap(list)[list[i].key] == list[i].value
  {
    var n := |list| - 1;
    if i < n {
      EntryOf(list[..n], i);
      BeforeTrichotomy(list[i].key, list[n].key);
    }
  }

  lemma LastKeyIsGreatest(list: seq<Header>, key: string)
    requires SortedByKey(list) && key in AsMap(list)
    ensures list != []
    ensures key == list[|list| - 1].key || Before(key, list[|list| - 1].key)
  {
    var i := KeyIndex(list, key);
  }

  lemma DropAdded<K, V>(m: map<K, V>, k: K, v: V)
    requires k !in m
    ensures m[k := v] - {k} == m
  {
    assert forall x :: x in m[k := v] - {k} <==> x in m;
  }

  lemma WithoutLast(list: seq<Header>)
    requires SortedByKey(list) && list != []
    ensures AsMap(list[..|list| - 1]) == AsMap(list) - {list[|list| - 1].key}
  {
    var n := |list| - 1;
    var front, key := AsMap(list[..n]), list[n].key;
    assert key !in front by {
      if key in front {
        var i := KeyIndex(list[..n], key);
        assert Before(list[i].key, list[n].key);
        BeforeTrichotomy(key, key);
      }
    }
    assert AsMap(list) == front[key := list[n].value];
    DropAdded(front, key, list[n].value);
  }

  // Canonical: a header map has one sorted list only, so equal header sets are equal on the wire.
  lemma {:induction false} SortedListIsUnique(a: seq<Header>, b: seq<Header>)
    requires SortedByKey(a) && SortedByKey(b) && AsMap(a) == AsMap(b)
    ensures a == b
  {
    if a == [] {
      if b != [] {
        EntryOf(b, |b| - 1);
        assert false;
      }
    } else {
      var n, m := |a| - 1, |b| - 1;
      EntryOf(a, n);
      LastKeyIsGreatest(b, a[n].key);
      EntryOf(b, m);
      LastKeyIsGreatest(a, b[m].key);
      BeforeTrichotomy(a[n].key, b[m].key);
      assert a[n] == b[m];
      WithoutLast(a);
      WithoutLast(b);
      SortedListIsUnique(a[..n], b[..m]);
      assert a == a[..n] + [a[n]] && b == b[..m] + [b[m]];
    }
  }

  // ---------------------------------------------------------------- recordHeaders

  predicate SortedKeys(keys: seq<string>) {
    forall i, j :: 0 <= i < j < |keys| ==> Before(keys[i], keys[j])
  }

  // slices.Sort on distinct keys.
  function InsertKey(key: string, keys: seq<string>): (r: seq<string>)
    requires SortedKeys(keys) && key !in keys
    ensures SortedKeys(r) && |r| == |keys| + 1
    ensures forall k :: k in r <==> k == key || k in keys
  {
    if keys == [] then [key]
    else if Before(key, keys[0]) then
      assert forall i :: 0 < i < |keys| ==> Before(key, keys[i]) by {
        forall i | 0 < i < |keys| ensures Before(key, keys[i]) {
          BeforeTransitive(key, keys[0], keys[i]);
        }
      }
      [key] + keys
    else
      BeforeTrichotomy(key, keys[0]);
      var rest := InsertKey(key, keys[1..]);
      assert forall i :: 0 <= i < |rest| ==> rest[i] in rest;
      assert forall k :: k in keys[1..] ==> Before(keys[0], k);
      [keys[0]] + rest
  }

  function SortKeys(keys: seq<string>): (r: seq<string>)
    requires forall i, j :: 0 <= i < j < |keys| ==> keys[i] != keys[j]
    ensures SortedKeys(r)
    ensures forall k :: k in r <==> k in keys
  {
    if keys == [] then []
    else
      var rest := SortKeys(keys[1..]);
      InsertKey(keys[0], rest)
  }

  predicate IsGreatestKey(key: string, keys: set<string>) {
    key in keys && forall k :: k in keys && k != key ==> Before(k, key)
  }

  lemma {:induction false} HasGreatestKey(keys: set<string>)
    requires keys != {}
    ensures exists key :: IsGreatestKey(key, keys)
  {
    var a :| a in keys;
    if keys == {a} {
      assert IsGreatestKey(a, keys);
    } else {
      HasGreatestKey(keys - {a});
      var b :| IsGreatestKey(b, keys - {a});
      BeforeTrichotomy(a, b);
      if Before(a, b) {
        assert forall k :: k in keys ==> k == a || k in keys - {a};
        assert IsGreatestKey(b, keys);
      } else {
        forall k | k in keys && k != a
          ensures Before(k, a)
        {
          assert k in keys - {a};
          if k != b {
            BeforeTransitive(k, b, a);
          }
        }
        assert IsGreatestKey(a, keys);
      }
    }
  }

  function GreatestKey(keys: set<string>): (key: string)
    requires keys != {}
    ensures IsGreatestKey(key, keys)
  {
    HasGreatestKey(keys);
    assert forall a, b :: IsGreatestKey(a, keys) && IsGreatestKey(b, keys) ==> a == b by {
      forall a, b | IsGreatestKey(a, keys) && IsGreatestKey(b, keys)
        ensures a == b
      {
        BeforeTrichotomy(a, b);
      }
    }
    var key :| IsGreatestKey(key, keys);
    key
  }

  // The sorted list of a header map.
  function Canonical(headers: map<string, string>): (list: seq<Header>)
    ensures SortedByKey(list) && AsMap(list) == headers
    decreases |headers|
  {
    if headers == map[] then []
    else
      var key := GreatestKey(headers.Keys);
      var front := Canonical(headers - {key});
      var list := front + [Header(key, headers[key])];
      assert list[..|list| - 1] == front;
      assert forall i :: 0 <= i < |front| ==> Before(front[i].key, key) by {
        forall i | 0 <= i < |front|
          ensures Before(front[i].key, key)
        {
          EntryOf(front, i);
        }
      }
      list
  }

  // A list with one entry for each of the map's keys, in ascending order, is the map.
  lemma ListIsMap(keys: seq<string>, list: seq<Header>, headers: map<string, string>)
    requires SortedByKey(list) && |list| == |keys| && forall k :: k in headers ==> k in keys
    requires forall j :: 0 <= j < |keys| ==> keys[j] in headers && list[j] == Header(keys[j], headers[keys[j]])
    ensures AsMap(list) == headers
  {
    forall k | k in headers
      ensures k in AsMap(list) && AsMap(list)[k] == headers[k]
    {
      var i :| 0 <= i < |keys| && keys[i] == k;
      EntryOf(list, i);
    }
    forall k | k in AsMap(list)
      ensures k in headers
    {
      var i := KeyIndex(list, k);
    }
  }

  // The map is read in any order; the list that leaves is sorted, and loses nothing.
  method RecordHeaders(headers: map<string, string>) returns (list: seq<Header>)
    ensures SortedByKey(list)
    ensures AsMap(list) == headers
    ensures list == Canonical(headers)
  {
    var keys: seq<string> := [];
    var left := headers.Keys;
    while left != {}
      invariant left <= headers.Keys
      invariant forall i, j :: 0 <= i < j < |keys| ==> keys[i] != keys[j]
      invariant forall k :: k in keys <==> k in headers.Keys - left
      decreases left
    {
      var key :| key in left;
      assert forall i :: 0 <= i < |keys| ==> keys[i] in keys;
      keys := keys + [key];
      left := left - {key};
    }
    keys := SortKeys(keys);
    list := [];
    for i := 0 to |keys|
      invariant |list| == i
      invariant forall j :: 0 <= j < i ==> keys[j] in headers && list[j] == Header(keys[j], headers[keys[j]])
    {
      assert keys[i] in keys;
      list := list + [Header(keys[i], headers[keys[i]])];
    }
    ListIsMap(keys, list, headers);
    SortedListIsUnique(list, Canonical(headers));
  }

  // ---------------------------------------------------------------- one row on the wire

  // publish and Publisher.Publish: the record the broker is handed for a row.
  function Encode(topics: Topics, env: Envelope): Record
    requires Routable(topics, env.aggregateType)
  {
    Record(topics[env.aggregateType], env.aggregateId.text, env.payload, Canonical(HeadersFor(env)))
  }

  // What the contract promises to a consumer of this row's record, field by field.
  predicate Carries(topics: Topics, env: Envelope, record: Record) {
    var headers := AsMap(record.headers);
    var derived := {"ce_id", "ce_type", "ce_specversion", "schema_version", "content-type"};
    && env.aggregateType in topics && record.topic == topics[env.aggregateType] != ""
    && record.key == env.aggregateId.text && record.value == env.payload
    && SortedByKey(record.headers) && headers.Keys == env.headers.Keys + derived
    && headers["ce_id"] == env.eventId.text && headers["ce_type"] == env.eventType
    && headers["ce_specversion"] == "1.0" && headers["content-type"] == "application/json"
    && Atoi(headers["schema_version"]) == env.schemaVersion
    && (forall k :: k in env.headers && k !in derived ==> headers[k] == env.headers[k])
  }

  lemma EncodeCarries(topics: Topics, env: Envelope)
    requires Routable(topics, env.aggregateType)
    ensures Carries(topics, env, Encode(topics, env))
  {
    ItoaRoundTrip(env.schemaVersion);
    var derived := DerivedHeaders(env);
    assert derived.Keys == {"ce_id", "ce_type", "ce_specversion", "schema_version", "content-type"};
    assert derived["ce_id"] == env.eventId.text && derived["ce_type"] == env.eventType;
    assert derived["ce_specversion"] == "1.0" && derived["content-type"] == "application/json";
    assert derived["schema_version"] == Itoa(env.schemaVersion);
  }

  // The id a consumer deduplicates on, read from the header without opening the payload.
  function EventIdOf(record: Record): Option<Uuid> {
    var headers := AsMap(record.headers);
    if HEADER_EVENT_ID in headers then Some(Uuid(headers[HEADER_EVENT_ID])) else None
  }

  lemma EncodedEventId(topics: Topics, env: Envelope)
    requires Routable(topics, env.aggregateType)
    ensures EventIdOf(Encode(topics, env)) == Some(env.eventId)
  {
    assert HEADER_EVENT_ID in DerivedHeaders(env);
    assert HeadersFor(env)[HEADER_EVENT_ID] == env.eventId.text;
  }
}
