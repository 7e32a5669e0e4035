/** Choosing a prefix's gateway and finding it again (internal/netbox/gateway.go and the searches at
    internal/controller/ipaddressclaim_controller.go:262-286). */
module Gateway {
  import opened Wrappers
  import opened Text
  import opened Cidr

  /** The address parser and printer, which the provider takes from the Go library. */
  datatype Netip = Netip(
    parseAddr: string -> Option<Addr>,
    parsePrefix: string -> Option<Prefix>,
    showAddr: Addr -> string)

  /** A printed address parses back, and the empty text is neither an address nor a prefix. */
  ghost predicate Lawful(ip: Netip) {
    && (forall s :: ip.parseAddr(s).Some? ==> ip.parseAddr(ip.showAddr(ip.parseAddr(s).value)) == ip.parseAddr(s))
    && ip.parseAddr("") == None
    && ip.parsePrefix("") == None
  }

  /** A custom field value as it arrives in JSON; `Other` carries its default formatting. */
  datatype FieldValue = Null | Str(text: string) | Other(rendered: string)

  function CustomFieldString(fields: map<string, FieldValue>, name: string): string {
    if name == "" || name !in fields then ""
    else
      match fields[name]
      case Null => ""
      case Str(s) => Trim(s)
      case Other(s) => Trim(s)
  }

  /** The first of the three sources that is not blank, trimmed. */
  function FirstNonEmpty(first: string, second: string, third: string): string {
    if Trim(first) != "" then Trim(first)
    else if Trim(second) != "" then Trim(second)
    else Trim(third)
  }

  datatype Choice = Choice(gateway: string, inRange: bool)

  function ResolveGateway(ip: Netip, cidr: string, customField: string, perPrefix: string, poolWide: string): Result<Choice> {
    var chosen := FirstNonEmpty(customField, perPrefix, poolWide);
    if chosen == "" then Ok(Choice("", false))
    else
      match (ip.parseAddr(chosen), ip.parsePrefix(Trim(cidr)))
      case (Some(addr), Some(prefix)) =>
        if addr.family.V4? != prefix.addr.family.V4? then Err
        else Ok(Choice(ip.showAddr(addr), Contains(prefix, addr)))
      case _ => Err
  }

  /** The source that decides: the first that is set, of the custom field, the prefix's own setting and the pool's. */
  predicate Decides(source: string, customField: string, perPrefix: string, poolWide: string) {
    && source != ""
    && (if Trim(customField) != "" then source == Trim(customField)
        else if Trim(perPrefix) != "" then source == Trim(perPrefix)
        else source == Trim(poolWide))
  }

  /** The text names an address in the family of the prefix. */
  predicate Suits(ip: Netip, cidr: string, source: string) {
    && ip.parseAddr(source).Some? && ip.parsePrefix(Trim(cidr)).Some?
    && ip.parseAddr(source).value.family == ip.parsePrefix(Trim(cidr)).value.addr.family
  }

  /** What a resolved gateway means for its prefix. It is an error exactly if the source that decides is no address
      in the family of the prefix; it is empty exactly if no source is set; else it is the address that the source
      names, printed so that it parses back, and it says whether the prefix contains that address. */
  lemma ResolvedGatewayFits(ip: Netip, cidr: string, customField: string, perPrefix: string, poolWide: string)
    requires Lawful(ip)
    ensures var r := ResolveGateway(ip, cidr, customField, perPrefix, poolWide);
      && (r.Err? <==> exists source :: Decides(source, customField, perPrefix, poolWide) && !Suits(ip, cidr, source))
      && (r.Ok? ==> (r.value.gateway == "" <==> Trim(customField) == Trim(perPrefix) == Trim(poolWide) == ""))
      && (r.Ok? && r.value.gateway != "" ==>
            exists source :: Decides(source, customField, perPrefix, poolWide) && Suits(ip, cidr, source)
              && ip.parseAddr(r.value.gateway) == ip.parseAddr(source)
              && (r.value.inRange <==> Contains(ip.parsePrefix(Trim(cidr)).value, ip.parseAddr(source).value)))
  {
    var chosen := FirstNonEmpty(customField, perPrefix, poolWide);
    hide Trim;
    if chosen != "" {
      assert Decides(chosen, customField, perPrefix, poolWide);
      assert forall source :: Decides(source, customField, perPrefix, poolWide) ==> source == chosen;
      if ip.parseAddr(chosen).Some? {
        assert ip.parseAddr(ip.showAddr(ip.parseAddr(chosen).value)) == ip.parseAddr(chosen);
      }
    }
  }

  // ---- Reading the gateway back from the resolved prefixes ----

  datatype ResolvedPrefix = ResolvedPrefix(id: int, cidr: string, gateway: string)

  function GatewayForPrefixID(details: seq<ResolvedPrefix>, id: int): string {
    if details == [] then ""
    else if details[0].id == id then details[0].gateway
    else GatewayForPrefixID(details[1..], id)
  }

  lemma {:induction false} GatewayForPrefixIDIsFirst(details: seq<ResolvedPrefix>, i: nat)
    requires i < |details| && forall j :: 0 <= j < i ==> details[j].id != details[i].id
    ensures GatewayForPrefixID(details, details[i].id) == details[i].gateway
  {
    if i > 0 {
      GatewayForPrefixIDIsFirst(details[1..], i - 1);
    }
  }

  /** The entry can serve the address: it has a gateway and its block contains the address. */
  predicate Serves(ip: Netip, d: ResolvedPrefix, a: Addr) {
    && d.gateway != "" && d.cidr != ""
    && ip.parsePrefix(d.cidr).Some?
    && Contains(ip.parsePrefix(d.cidr).value, a)
  }

  /** The gateway of the first entry that can serve the address, if any can. */
  function FirstServing(ip: Netip, details: seq<ResolvedPrefix>, a: Addr): (r: string)
    ensures r == "" <==> forall i :: 0 <= i < |details| ==> !Serves(ip, details[i], a)
    ensures r != "" ==>
      exists i :: 0 <= i < |details| && Serves(ip, details[i], a) && r == details[i].gateway
                  && forall j :: 0 <= j < i ==> !Serves(ip, details[j], a)
  {
    if details == [] then ""
    else if Serves(ip, details[0], a) then details[0].gateway
    else
      var r := FirstServing(ip, details[1..], a);
      assert forall i :: 0 < i < |details| ==> details[i] == details[1..][i - 1];
      assert r != "" ==>
        exists i :: 0 <= i < |details| && Serves(ip, details[i], a) && r == details[i].gateway
                    && forall j :: 0 <= j < i ==> !Serves(ip, details[j], a) by {
        if r != "" {
          var k :| 0 <= k < |details[1..]| && Serves(ip, details[1..][k], a) && r == details[1..][k].gateway
                   && forall j :: 0 <= j < k ==> !Serves(ip, details[1..][j], a);
          assert Serves(ip, details[k + 1], a);
        }
      }
      r
  }

  function GatewayForAddress(ip: Netip, details: seq<ResolvedPrefix>, address: string): string {
    match ip.parseAddr(address)
    case None => ""
    case Some(a) => FirstServing(ip, details, a)
  }

  predicate DistinctIDs(details: seq<ResolvedPrefix>) {
    forall i, j :: 0 <= i < j < |details| ==> details[i].id != details[j].id
  }

  /** No two cached blocks share an address, by the two-membership test on each pair. */
  predicate SeparateBlocks(ip: Netip, details: seq<ResolvedPrefix>) {
    forall i, j :: 0 <= i < j < |details| ==>
      ip.parsePrefix(details[i].cidr).Some? && ip.parsePrefix(details[j].cidr).Some? ==>
        Separate(ip.parsePrefix(details[i].cidr).value, ip.parsePrefix(details[j].cidr).value)
  }

  /** Recovering the gateway of a reused address by containment gives what the lookup by prefix ID gave
      when the address was allocated. */
  lemma RecoveryAgrees(ip: Netip, details: seq<ResolvedPrefix>, i: nat, address: string)
    requires Lawful(ip) && DistinctIDs(details) && SeparateBlocks(ip, details)
    requires i < |details|
    requires ip.parseAddr(address).Some? && ip.parsePrefix(details[i].cidr).Some?
    requires Contains(ip.parsePrefix(details[i].cidr).value, ip.parseAddr(address).value)
    ensures GatewayForAddress(ip, details, address) == GatewayForPrefixID(details, details[i].id)
  {
    var a := ip.parseAddr(address).value;
    GatewayForPrefixIDIsFirst(details, i);
    forall j | 0 <= j < |details| && j != i
      ensures !Serves(ip, details[j], a)
    {
      if ip.parsePrefix(details[j].cidr).Some? {
        SeparateIffDisjoint(ip.parsePrefix(details[i].cidr).value, ip.parsePrefix(details[j].cidr).value);
      }
    }
  }

  /** Without separate blocks the two lookups can differ: when an earlier block also contains the address,
      recovery answers with that block's gateway. */
  lemma EarlierBlockWins(ip: Netip, details: seq<ResolvedPrefix>, i: nat, j: nat, address: string)
    requires DistinctIDs(details)
    requires i < j < |details|
    requires ip.parseAddr(address).Some?
    requires Serves(ip, details[i], ip.parseAddr(address).value)
    requires Serves(ip, details[j], ip.parseAddr(address).value)
    requires forall k :: 0 <= k < i ==> !Serves(ip, details[k], ip.parseAddr(address).value)
    ensures GatewayForAddress(ip, details, address) == details[i].gateway
    ensures GatewayForPrefixID(details, details[j].id) == details[j].gateway
    ensures details[i].gateway != details[j].gateway ==>
      GatewayForAddress(ip, details, address) != GatewayForPrefixID(details, details[j].id)
  {
    GatewayForPrefixIDIsFirst(details, j);
  }
}
