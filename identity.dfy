/**
 * Identity normaliser of `WebSocketServer._handle_connection`: the request
 * headers are lower-cased into a dictionary, then `device-id`, `client-id`
 * and `authorization` are taken from a non-empty header value or, failing
 * that, from the first value of the like-named query parameter.
 */
module Identity {
  import opened Wrappers
  import opened Text

  /** `request.headers.items()`: header names and values in arrival order. */
  type HeaderItems = seq<(string, string)>

  /** `parse_qs(query)`: each parameter name with its list of values. */
  type QueryParams = map<string, seq<string>>

  /** `{k.lower(): v for k, v in headers.items()}`: a later item overwrites an earlier one. */
  function LowerKeys(items: HeaderItems): (m: map<string, string>)
    // the keys are exactly the lower-cased header names
    ensures m.Keys == set i | 0 <= i < |items| :: Lower(items[i].0)
    // every value is the value of some header with that name
    ensures forall k :: k in m ==> exists i :: 0 <= i < |items| && Lower(items[i].0) == k && m[k] == items[i].1
  {
    if items == [] then map[]
    else
      var prefix := items[..|items| - 1];
      var last := items[|items| - 1];
      assert forall i :: 0 <= i < |prefix| ==> prefix[i] == items[i];
      assert (set i | 0 <= i < |items| :: Lower(items[i].0)) ==
             (set i | 0 <= i < |prefix| :: Lower(prefix[i].0)) + {Lower(last.0)};
      LowerKeys(prefix)[Lower(last.0) := last.1]
  }

  /** Item `i` is the last one whose lower-cased name is `k`. */
  ghost predicate LastNamed(items: HeaderItems, k: string, i: int) {
    0 <= i < |items| && Lower(items[i].0) == k &&
    forall j :: i < j < |items| ==> Lower(items[j].0) != k
  }

  /** The dictionary maps `k` to the value of the last item named `k` in any case. */
  lemma {:induction false} LowerKeysLast(items: HeaderItems, k: string, i: int)
    requires LastNamed(items, k, i)
    ensures k in LowerKeys(items) && LowerKeys(items)[k] == items[i].1
  {
    var n := |items|;
    if i < n - 1 {
      var prefix := items[..n - 1];
      assert Lower(items[n - 1].0) != k;
      assert LastNamed(prefix, k, i) by {
        forall j | i < j < |prefix| ensures Lower(prefix[j].0) != k {
          assert prefix[j] == items[j];
        }
      }
      LowerKeysLast(prefix, k, i);
    }
  }

  /** No item named `k` in any case: the dictionary has no key `k`. */
  lemma {:induction false} LowerKeysAbsent(items: HeaderItems, k: string)
    requires forall j :: 0 <= j < |items| ==> Lower(items[j].0) != k
    ensures k !in LowerKeys(items)
  {
    if items != [] {
      var prefix := items[..|items| - 1];
      assert forall j :: 0 <= j < |prefix| ==> prefix[j] == items[j];
      LowerKeysAbsent(prefix, k);
    }
  }

  /** The lower-cased header dictionary's value for `k`, as `merged_headers.get(k)`. */
  function HeaderOf(items: HeaderItems, k: string): Option<string> {
    Get(LowerKeys(items), k)
  }

  /** Python truthiness of an optional string: present and non-empty. */
  predicate Truthy(v: Option<string>) {
    v.Some? && v.value != ""
  }

  /** `query_params.get(key, [None])[0]`: no parameter, its first value, or an empty list (IndexError). */
  datatype QueryValue = Missing | First(v: string) | NoValues

  function FirstValue(q: QueryParams, key: string): QueryValue {
    if key !in q then Missing
    else if |q[key]| == 0 then NoValues
    else First(q[key][0])
  }

  /** The query supplies a usable (non-empty) value for `key`. */
  predicate QuerySupplies(q: QueryParams, key: string) {
    FirstValue(q, key).First? && FirstValue(q, key).v != ""
  }

  /** Outcome of one `if not x: x = query_params.get(key, [None])[0]` step. */
  datatype Lookup = Found(value: Option<string>) | Raised

  function Resolve(header: Option<string>, q: QueryParams, key: string): Lookup {
    if Truthy(header) then Found(header)
    else match FirstValue(q, key)
      case Missing => Found(None)
      case First(v) => Found(Some(v))
      case NoValues => Raised
  }

  /**
   * The identity the gateway hands to authentication and to the handler.
   * `clientId` and `authorization` are what the merged header dictionary
   * holds for them afterwards, so an empty header with no query fallback
   * stays `Some("")`.
   */
  datatype IdentityRecord = IdentityRecord(deviceId: string, clientId: Option<string>, authorization: Option<string>)

  /**
   * Result of the handshake parse: an identity; no device id anywhere (the
   * friendly diagnostic path); or a lookup that raised, which lands in the
   * handshake's `except Exception` clause.
   */
  datatype Handshake = Identified(id: IdentityRecord) | NoDeviceId | Malformed

  const DeviceIdKey := "device-id"
  const ClientIdKey := "client-id"
  const AuthorizationKey := "authorization"

  /** `not header and key's query list is empty`: the lookup for `key` would raise. */
  predicate LookupRaises(items: HeaderItems, q: QueryParams, key: string) {
    !Truthy(HeaderOf(items, key)) && FirstValue(q, key).NoValues?
  }

  function Normalise(items: HeaderItems, q: QueryParams): (r: Handshake)
    // the device id: a non-empty header wins, otherwise the first query value
    ensures r.Identified? ==> r.id.deviceId != ""
    ensures r.Identified? && Truthy(HeaderOf(items, DeviceIdKey)) ==>
              Some(r.id.deviceId) == HeaderOf(items, DeviceIdKey)
    ensures r.Identified? && !Truthy(HeaderOf(items, DeviceIdKey)) ==>
              FirstValue(q, DeviceIdKey) == First(r.id.deviceId)
    // client id and authorization: the same precedence, and the header's own value when neither is usable
    ensures r.Identified? && Truthy(HeaderOf(items, ClientIdKey)) ==> r.id.clientId == HeaderOf(items, ClientIdKey)
    ensures r.Identified? && !Truthy(HeaderOf(items, ClientIdKey)) && QuerySupplies(q, ClientIdKey) ==>
              r.id.clientId == Some(FirstValue(q, ClientIdKey).v)
    ensures r.Identified? && !Truthy(HeaderOf(items, ClientIdKey)) && !QuerySupplies(q, ClientIdKey) ==>
              r.id.clientId == HeaderOf(items, ClientIdKey)
    ensures r.Identified? && Truthy(HeaderOf(items, AuthorizationKey)) ==>
              r.id.authorization == HeaderOf(items, AuthorizationKey)
    ensures r.Identified? && !Truthy(HeaderOf(items, AuthorizationKey)) && QuerySupplies(q, AuthorizationKey) ==>
              r.id.authorization == Some(FirstValue(q, AuthorizationKey).v)
    ensures r.Identified? && !Truthy(HeaderOf(items, AuthorizationKey)) && !QuerySupplies(q, AuthorizationKey) ==>
              r.id.authorization == HeaderOf(items, AuthorizationKey)
    // the device id is resolved first: its absence is decided before the other lookups run
    ensures r.NoDeviceId? <==>
              !Truthy(HeaderOf(items, DeviceIdKey)) && !QuerySupplies(q, DeviceIdKey) && !LookupRaises(items, q, DeviceIdKey)
    ensures r.Malformed? <==>
              LookupRaises(items, q, DeviceIdKey) ||
              ((Truthy(HeaderOf(items, DeviceIdKey)) || QuerySupplies(q, DeviceIdKey)) &&
               (LookupRaises(items, q, ClientIdKey) || LookupRaises(items, q, AuthorizationKey)))
  {
    var h := LowerKeys(items);
    match Resolve(Get(h, DeviceIdKey), q, DeviceIdKey)
    case Raised => Malformed
    case Found(d) =>
      if !Truthy(d) then NoDeviceId
      else
        match Resolve(Get(h, ClientIdKey), q, ClientIdKey)
        case Raised => Malformed
        case Found(c) =>
          match Resolve(Get(h, AuthorizationKey), q, AuthorizationKey)
          case Raised => Malformed
          case Found(a) =>
            Identified(IdentityRecord(
              d.value,
              if Truthy(c) then c else Get(h, ClientIdKey),
              if Truthy(a) then a else Get(h, AuthorizationKey)))
  }

  /**
   * A header sent under any capitalisation of its name wins: when the last
   * `Device-Id` item (in any case) carries a non-empty value, that value is
   * the device id.
   */
  lemma DeviceHeaderWins(items: HeaderItems, q: QueryParams, i: int)
    requires LastNamed(items, DeviceIdKey, i) && items[i].1 != ""
    ensures !Normalise(items, q).NoDeviceId?
    ensures Normalise(items, q).Identified? ==> Normalise(items, q).id.deviceId == items[i].1
  {
    LowerKeysLast(items, DeviceIdKey, i);
  }

  /** Likewise a non-empty `Client-Id` header is the client id, whatever the query says. */
  lemma ClientHeaderWins(items: HeaderItems, q: QueryParams, i: int)
    requires LastNamed(items, ClientIdKey, i) && items[i].1 != ""
    ensures Normalise(items, q).Identified? ==> Normalise(items, q).id.clientId == Some(items[i].1)
  {
    LowerKeysLast(items, ClientIdKey, i);
  }

  /** Likewise a non-empty `Authorization` header is the credential, whatever the query says. */
  lemma AuthorizationHeaderWins(items: HeaderItems, q: QueryParams, i: int)
    requires LastNamed(items, AuthorizationKey, i) && items[i].1 != ""
    ensures Normalise(items, q).Identified? ==> Normalise(items, q).id.authorization == Some(items[i].1)
  {
    LowerKeysLast(items, AuthorizationKey, i);
  }

  /** No device-id header in any case and no device-id query parameter: the diagnostic path. */
  lemma NoDeviceIdAnywhere(items: HeaderItems, q: QueryParams)
    requires forall j :: 0 <= j < |items| ==> Lower(items[j].0) != DeviceIdKey
    requires DeviceIdKey !in q
    ensures Normalise(items, q) == NoDeviceId
  {
    LowerKeysAbsent(items, DeviceIdKey);
  }
}
