/** The objects in the two stores: claims, `IPAddress` objects and pools in Kubernetes, prefixes and address
    records in NetBox. */
module Model {
  import opened Wrappers
  import opened Gateway
  import opened Prefixes
  import opened Index
  import opened Annotations
  import opened Owners
  import opened AddressText
  import Text

  const NETBOX_POOL_KIND := "NetBoxIPPool"
  const GLOBAL_POOL_KIND := "GlobalNetBoxIPPool"
  const CLAIM_KIND := "IPAddressClaim"
  const IPAM_GROUP := "ipam.cluster.x-k8s.io"

  type Uid = string

  datatype Key = Key(namespace: string, name: string)

  /** A pool's address in the API: its kind, its name and, for a namespaced pool, its namespace. */
  datatype PoolKey = PoolKey(namespace: string, kind: string, name: string)

  // ---- Claims ----

  datatype Reason = PoolNotFound | PoolPaused | AllocationFailed | PoolExhausted

  datatype Ready = Unset | IsReady(address: string) | NotReady(reason: Reason)

  /** `held` says that some other finalizer is set. */
  datatype Claim = Claim(
    uid: Uid, poolRef: PoolRef, annotations: map<string, string>, clusterLabel: Option<string>,
    deleting: bool, finalizer: bool, held: bool, addressRef: string, ready: Ready)

  /** The pool a claim refers to; other kinds are not supported. */
  function PoolKeyOf(namespace: string, ref: PoolRef): Option<PoolKey> {
    if ref.kind == NETBOX_POOL_KIND then Some(PoolKey(namespace, ref.kind, ref.name))
    else if ref.kind == GLOBAL_POOL_KIND then Some(PoolKey("", ref.kind, ref.name))
    else None
  }

  predicate IsPoolKey(pk: PoolKey) {
    (pk.kind == NETBOX_POOL_KIND && pk.namespace != "") || (pk.kind == GLOBAL_POOL_KIND && pk.namespace == "")
  }

  // ---- Addresses ----

  /** An `IPAddress`. `guarded` is history: the pool held its finalizer when the object was created. */
  datatype Address = Address(
    claimName: string, poolRef: PoolRef, text: string, prefix: Option<int>, gateway: string,
    owners: seq<Owner>, clusterLabel: Option<string>, protect: bool, deleting: bool, guarded: bool)

  function NewIPAddress(key: Key, claim: Claim): Address {
    Address(key.name, PoolRef(IPAM_GROUP, claim.poolRef.kind, claim.poolRef.name), "", None, "", [], None, false, false, false)
  }

  function ClaimOwner(key: Key, claim: Claim): Owner {
    Owner(IPAM_GROUP, "v1beta2", CLAIM_KIND, key.name, claim.uid, Some(true), Some(true))
  }

  function PoolOwner(ref: PoolRef, pool: Pool): Owner {
    Owner(IPAM_GROUP, "v1alpha1", ref.kind, ref.name, pool.uid, None, None)
  }

  // ---- Pools ----

  datatype PoolSpec = PoolSpec(gateways: GatewaySpec, defaults: Metadata, status: string, clusterName: string)

  datatype PoolReady = PoolUnset | PoolReady | PrefixResolutionFailed | DeletionBlocked

  /** History: the generation, the spec and the prefix tables that a cache was resolved from. */
  datatype Origin = NoOrigin | Origin(generation: nat, spec: GatewaySpec, idTable: seq<Row>, detailTable: seq<Row>)

  /** `origin` and `missed` are history; `missed` says that a newer generation was observed and not resolved. */
  datatype PoolStatus = PoolStatus(
    observed: nat, inUse: Option<int>, resolved: seq<int>, details: seq<ResolvedPrefix>, ready: PoolReady,
    origin: Origin, missed: bool)

  /** `log` is history: the spec at every generation so far. */
  datatype Pool = Pool(
    uid: string, spec: PoolSpec, generation: nat, status: PoolStatus, clusterLabel: Option<string>,
    finalizer: bool, held: bool, deleting: bool, paused: bool, log: map<nat, GatewaySpec>)

  const NEW_STATUS := PoolStatus(0, None, [], [], PoolUnset, NoOrigin, false)

  /** The addresses that use a pool, as the index finds them. */
  function Listing(addresses: map<Key, Address>, pk: PoolKey): set<Key> {
    set k | k in addresses
            && IPPoolRefValue(addresses[k].poolRef) == IPPoolRefValue(PoolRef(IPAM_GROUP, pk.kind, pk.name))
            && (pk.namespace != "" ==> k.namespace == pk.namespace)
  }

  // ---- NetBox records ----

  /** `source` is history: the prefix the record was allocated from. */
  datatype Record = Record(text: string, fields: map<string, string>, tags: seq<string>, source: int)

  /** What does not change during a run: the libraries, and the ownership tag and UID field all pools share. */
  datatype Config = Config(ip: Netip, parse: FieldParser, tag: string, field: string)

  /** A lookup by the claim's UID finds the record. */
  predicate Carries(cfg: Config, r: Record, uid: Uid) {
    cfg.tag in r.tags && cfg.field in r.fields && r.fields[cfg.field] == uid
  }

  /** A lookup by address finds the record. */
  predicate Answering(cfg: Config, r: Record, query: string) {
    cfg.tag in r.tags && Answers(r.text, query)
  }

  function NewRecord(cfg: Config, key: Key, claim: Claim, pool: Pool, prefix: int, text: string): Record
    requires Effective(cfg.parse, pool.spec.defaults, claim.annotations).Ok?
  {
    var md := Effective(cfg.parse, pool.spec.defaults, claim.annotations).value;
    var sent := PayloadFor(md, cfg.tag, cfg.field, claim.uid, key.namespace + "/" + key.name, pool.spec.status);
    Record(text, sent.fields, sent.tags, prefix)
  }

  ghost predicate Sound(cfg: Config) {
    Lawful(cfg.ip) && cfg.tag != "" && Text.Trimmed(cfg.tag)
  }

  /** A new record carries its claim's UID and nobody else's. */
  lemma NewRecordCarries(cfg: Config, key: Key, claim: Claim, pool: Pool, prefix: int, text: string, uid: Uid)
    requires Sound(cfg)
    requires Effective(cfg.parse, pool.spec.defaults, claim.annotations).Ok?
    ensures Carries(cfg, NewRecord(cfg, key, claim, pool, prefix, text), uid) <==> uid == claim.uid
  {
    PayloadCarriesStamp(cfg.parse, pool.spec.defaults, claim.annotations, cfg.tag, cfg.field, claim.uid,
                        key.namespace + "/" + key.name, pool.spec.status);
  }
}
