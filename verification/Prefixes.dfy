/** Resolving a pool's prefix references against NetBox's prefix table, and deriving the cached entries
    (internal/netbox/client.go:171-241; internal/controller/pool_controller.go:194-229). */
module Prefixes {
  import opened Wrappers
  import opened Text
  import opened Gateway
  import opened Paging

  datatype PrefixRef = PrefixRef(id: Option<int>, cidr: string, vrf: Option<int>, gateway: string)

  /** A row of NetBox's prefix table. */
  datatype Row = Row(id: int, prefix: string, vrf: Option<int>, fields: map<string, FieldValue>)

  datatype PrefixDetail = PrefixDetail(id: int, cidr: string, fields: map<string, FieldValue>)

  /** The gateway settings of a pool: its references, the pool-wide gateway and the custom field to read. */
  datatype GatewaySpec = GatewaySpec(prefixes: seq<PrefixRef>, gateway: string, gatewayField: string)

  // ---- References to IDs ----

  predicate RowMatches(row: Row, ref: PrefixRef) {
    row.prefix == ref.cidr && (ref.vrf.Some? ==> row.vrf == ref.vrf)
  }

  function MatchingRows(table: seq<Row>, ref: PrefixRef): seq<Row> {
    if table == [] then []
    else (if RowMatches(table[0], ref) then [table[0]] else []) + MatchingRows(table[1..], ref)
  }

  /** `id` is what the reference stands for: its own ID, or the only row of that CIDR. */
  predicate StandsFor(table: seq<Row>, ref: PrefixRef, id: int) {
    match ref.id
    case Some(own) => id == own
    case None => ref.cidr != "" && |MatchingRows(table, ref)| == 1 && MatchingRows(table, ref)[0].id == id
  }

  predicate Resolvable(table: seq<Row>, ref: PrefixRef) {
    ref.id.Some? || (ref.cidr != "" && |MatchingRows(table, ref)| == 1)
  }

  /** One ID per reference, in order, or an error if some reference stands for no single prefix. */
  function ResolveIDs(table: seq<Row>, refs: seq<PrefixRef>): (r: Result<seq<int>>)
    ensures r.Ok? <==> forall i :: 0 <= i < |refs| ==> Resolvable(table, refs[i])
    ensures r.Ok? ==>
      |r.value| == |refs| && forall i :: 0 <= i < |refs| ==> StandsFor(table, refs[i], r.value[i])
  {
    if refs == [] then Ok([])
    else
      var last := |refs| - 1;
      match ResolveIDs(table, refs[..last])
      case Err => Err
      case Ok(ids) =>
        if !Resolvable(table, refs[last]) then Err
        else if refs[last].id.Some? then Ok(ids + [refs[last].id.value])
        else Ok(ids + [MatchingRows(table, refs[last])[0].id])
  }

  /** Row `k` is the only one of the reference's CIDR and, if the reference names a VRF, of that VRF. */
  ghost predicate OnlyRow(table: seq<Row>, ref: PrefixRef, k: int) {
    && 0 <= k < |table|
    && table[k].prefix == ref.cidr && (ref.vrf.Some? ==> table[k].vrf == ref.vrf)
    && forall j :: 0 <= j < |table| && j != k && table[j].prefix == ref.cidr ==> ref.vrf.Some? && table[j].vrf != ref.vrf
  }

  lemma {:induction false} NoMatchingRow(table: seq<Row>, ref: PrefixRef)
    ensures MatchingRows(table, ref) == [] <==>
      forall j :: 0 <= j < |table| && table[j].prefix == ref.cidr ==> ref.vrf.Some? && table[j].vrf != ref.vrf
  {
    if table != [] {
      NoMatchingRow(table[1..], ref);
      assert forall j :: 1 <= j < |table| ==> table[j] == table[1..][j - 1];
    }
  }

  lemma {:induction false} OneMatchingRow(table: seq<Row>, ref: PrefixRef, id: int)
    ensures |MatchingRows(table, ref)| == 1 && MatchingRows(table, ref)[0].id == id <==>
      exists k :: OnlyRow(table, ref, k) && table[k].id == id
  {
    if table != [] {
      var rest := table[1..];
      assert forall j :: 1 <= j < |table| ==> table[j] == rest[j - 1];
      if RowMatches(table[0], ref) {
        NoMatchingRow(rest, ref);
        if MatchingRows(rest, ref) == [] && table[0].id == id {
          assert OnlyRow(table, ref, 0);
        }
        if k :| OnlyRow(table, ref, k) && table[k].id == id {
          assert k == 0;
          assert forall j :: 0 <= j < |rest| ==> rest[j] == table[j + 1];
        }
      } else {
        OneMatchingRow(rest, ref, id);
        if k :| OnlyRow(rest, ref, k) && rest[k].id == id {
          assert OnlyRow(table, ref, k + 1);
        }
        if k :| OnlyRow(table, ref, k) && table[k].id == id {
          assert OnlyRow(rest, ref, k - 1) && rest[k - 1].id == id;
        }
      }
    }
  }

  /** A reference gives the ID that it names, or else the ID of the one row of its CIDR and, if it names one, its
      VRF. */
  ghost predicate Designates(table: seq<Row>, ref: PrefixRef, id: int) {
    if ref.id.Some? then ref.id == Some(id)
    else ref.cidr != "" && exists k :: OnlyRow(table, ref, k) && table[k].id == id
  }

  /** References resolve to these IDs if and only if each one designates its ID in the table. */
  lemma {:induction false} ResolvesExactly(table: seq<Row>, refs: seq<PrefixRef>, ids: seq<int>)
    ensures ResolveIDs(table, refs) == Ok(ids) <==>
      |ids| == |refs| && forall i :: 0 <= i < |refs| ==> Designates(table, refs[i], ids[i])
  {
    forall i | 0 <= i < |refs| && i < |ids|
      ensures StandsFor(table, refs[i], ids[i]) <==> Designates(table, refs[i], ids[i])
    {
      OneMatchingRow(table, refs[i], ids[i]);
    }
    hide Designates, MatchingRows;
    if |ids| == |refs| && forall i :: 0 <= i < |refs| ==> Designates(table, refs[i], ids[i]) {
      OnlyOneResolution(table, refs, ids);
    }
  }

  lemma OnlyOneResolution(table: seq<Row>, refs: seq<PrefixRef>, ids: seq<int>)
    requires |ids| == |refs| && forall i :: 0 <= i < |refs| ==> StandsFor(table, refs[i], ids[i])
    ensures ResolveIDs(table, refs) == Ok(ids)
  {
    assert forall i :: 0 <= i < |refs| ==> Resolvable(table, refs[i]);
    var r := ResolveIDs(table, refs);
    assert forall i :: 0 <= i < |refs| ==> r.value[i] == ids[i];
    assert r.value == ids;
  }

  /** The loop over the references, with one list call for each reference by CIDR. */
  method ResolvePrefixIDs(site: Site, table: seq<Row>, refs: seq<PrefixRef>) returns (r: Result<seq<int>>)
    requires Advances(site)
    ensures r.Ok? ==> r == ResolveIDs(table, refs)
    ensures r.Err? ==>
      || ResolveIDs(table, refs).Err?
      || exists i :: 0 <= i < |refs| && !Readable(site, |MatchingRows(table, refs[i])|)
  {
    var ids: seq<int> := [];
    for i := 0 to |refs|
      invariant ResolveIDs(table, refs[..i]) == Ok(ids)
    {
      var ref := refs[i];
      assert refs[..i + 1][..i] == refs[..i];
      if ref.id.Some? {
        ids := ids + [ref.id.value];
      } else if ref.cidr != "" {
        var listed := ListAll(site, "/api/ipam/prefixes/", MatchingRows(table, ref));
        if listed.Err? {
          return Err;
        }
        if |listed.value| != 1 {
          assert !Resolvable(table, refs[i]);
          return Err;
        }
        ids := ids + [listed.value[0].id];
      } else {
        assert !Resolvable(table, refs[i]);
        return Err;
      }
    }
    assert refs[..|refs|] == refs;
    return Ok(ids);
  }

  // ---- IDs to details ----

  /** The row of an ID; a later row of the same ID replaces an earlier one. */
  function RowOf(table: seq<Row>, id: int): Option<Row> {
    if table == [] then None
    else if table[|table| - 1].id == id then Some(table[|table| - 1])
    else RowOf(table[..|table| - 1], id)
  }

  function DetailOf(row: Row): PrefixDetail {
    PrefixDetail(row.id, Trim(row.prefix), row.fields)
  }

  /** The details of the IDs that exist, in the order of the IDs. */
  function DetailsOf(table: seq<Row>, ids: seq<int>): seq<PrefixDetail> {
    if ids == [] then []
    else
      var last := |ids| - 1;
      var row := RowOf(table, ids[last]);
      DetailsOf(table, ids[..last]) + (if row.Some? then [DetailOf(row.value)] else [])
  }

  /** The details of two lists of IDs, one after the other; of one ID, its row or nothing. */
  lemma {:induction false} DetailsInOrder(table: seq<Row>, ids: seq<int>, more: seq<int>)
    ensures DetailsOf(table, ids + more) == DetailsOf(table, ids) + DetailsOf(table, more)
    ensures forall id :: DetailsOf(table, [id]) == if RowOf(table, id).Some? then [DetailOf(RowOf(table, id).value)] else []
  {
    forall id
      ensures DetailsOf(table, [id]) == if RowOf(table, id).Some? then [DetailOf(RowOf(table, id).value)] else []
    {
      assert [id][..0] == [];
    }
    if more == [] {
      assert ids + more == ids && DetailsOf(table, ids) + [] == DetailsOf(table, ids);
    } else {
      var last := |more| - 1;
      assert (ids + more)[..|ids + more| - 1] == ids + more[..last];
      DetailsInOrder(table, ids, more[..last]);
    }
  }

  /** No later row of the ID follows. */
  predicate LastRow(table: seq<Row>, id: int, r: int) {
    0 <= r < |table| && table[r].id == id && forall j :: r < j < |table| ==> table[j].id != id
  }

  lemma {:induction false} RowOfIsLast(table: seq<Row>, id: int)
    ensures forall r :: LastRow(table, id, r) ==> RowOf(table, id) == Some(table[r])
    ensures (forall j :: 0 <= j < |table| ==> table[j].id != id) <==> RowOf(table, id) == None
  {
    if table != [] && table[|table| - 1].id != id {
      var before := table[..|table| - 1];
      RowOfIsLast(before, id);
      assert forall r :: LastRow(table, id, r) ==> LastRow(before, id, r);
    }
  }

  function RowsIn(table: seq<Row>, ids: seq<int>): seq<Row> {
    if table == [] then []
    else
      var last := |table| - 1;
      RowsIn(table[..last], ids) + (if table[last].id in ids then [table[last]] else [])
  }

  lemma {:induction false} RowOfRowsIn(table: seq<Row>, ids: seq<int>, id: int)
    requires id in ids
    ensures RowOf(RowsIn(table, ids), id) == RowOf(table, id)
  {
    if table != [] {
      var last := |table| - 1;
      RowOfRowsIn(table[..last], ids, id);
      var rest := RowsIn(table[..last], ids);
      assert (rest + [table[last]])[..|rest|] == rest;
      assert rest + [] == rest;
    }
  }

  method GetPrefixDetails(site: Site, table: seq<Row>, ids: seq<int>) returns (r: Result<seq<PrefixDetail>>)
    requires Advances(site)
    ensures r == if ids == [] || Readable(site, |RowsIn(table, ids)|) then Ok(DetailsOf(table, ids)) else Err
  {
    if |ids| == 0 {
      return Ok([]);
    }
    var listed := ListAll(site, "/api/ipam/prefixes/", RowsIn(table, ids));
    if listed.Err? {
      return Err;
    }
    var results := listed.value;
    var byID: map<int, Row> := map[];
    for i := 0 to |results|
      invariant forall id :: id in byID <==> RowOf(results[..i], id).Some?
      invariant forall id :: id in byID ==> RowOf(results[..i], id) == Some(byID[id])
    {
      assert results[..i + 1][..i] == results[..i];
      byID := byID[results[i].id := results[i]];
    }
    assert results[..|results|] == results;
    var details: seq<PrefixDetail> := [];
    for i := 0 to |ids|
      invariant details == DetailsOf(table, ids[..i])
    {
      assert ids[..i + 1][..i] == ids[..i];
      RowOfRowsIn(table, ids, ids[i]);
      if ids[i] in byID {
        details := details + [DetailOf(byID[ids[i]])];
      }
    }
    assert ids[..|ids|] == ids;
    return Ok(details);
  }

  // ---- Details to cached entries ----

  function DetailFor(fetched: seq<PrefixDetail>, id: int): PrefixDetail {
    if fetched == [] then PrefixDetail(0, "", map[])
    else if fetched[|fetched| - 1].id == id then fetched[|fetched| - 1]
    else DetailFor(fetched[..|fetched| - 1], id)
  }

  function StaticGateway(spec: GatewaySpec, i: nat): string {
    if i < |spec.prefixes| then spec.prefixes[i].gateway else ""
  }

  type Chooser = (nat, PrefixDetail) -> Result<Choice>

  /** The gateway of the prefix at index `i` of the spec when its data is `detail`. */
  function GatewayAt(ip: Netip, spec: GatewaySpec, i: nat, detail: PrefixDetail): Result<Choice> {
    ResolveGateway(ip, detail.cidr, CustomFieldString(detail.fields, spec.gatewayField), StaticGateway(spec, i), spec.gateway)
  }

  function GatewayChoice(ip: Netip, spec: GatewaySpec): Chooser {
    (i: nat, detail: PrefixDetail) => GatewayAt(ip, spec, i, detail)
  }

  datatype Resolution = Resolution(entries: seq<ResolvedPrefix>, inRange: seq<int>)

  /** One entry per ID, in order; an error if some ID's gateway is unusable. */
  function Build(choose: Chooser, ids: seq<int>, fetched: seq<PrefixDetail>): (r: Result<Resolution>)
    ensures r.Ok? <==> forall i :: 0 <= i < |ids| ==> choose(i, DetailFor(fetched, ids[i])).Ok?
    ensures r.Ok? ==> |r.value.entries| == |ids|
    ensures r.Ok? ==> forall i :: 0 <= i < |ids| ==>
      r.value.entries[i] ==
        ResolvedPrefix(ids[i], DetailFor(fetched, ids[i]).cidr, choose(i, DetailFor(fetched, ids[i])).value.gateway)
  {
    if ids == [] then Ok(Resolution([], []))
    else
      var last := |ids| - 1;
      var detail := DetailFor(fetched, ids[last]);
      match (Build(choose, ids[..last], fetched), choose(last, detail))
      case (Ok(done), Ok(choice)) =>
        Ok(Resolution(
             done.entries + [ResolvedPrefix(ids[last], detail.cidr, choice.gateway)],
             done.inRange + (if choice.inRange then [ids[last]] else [])))
      case _ => Err
  }

  method BuildResolvedPrefixes(ip: Netip, spec: GatewaySpec, ids: seq<int>, fetched: seq<PrefixDetail>)
      returns (r: Result<Resolution>)
    ensures r == Build(GatewayChoice(ip, spec), ids, fetched)
  {
    ghost var choose := GatewayChoice(ip, spec);
    var byID: map<int, PrefixDetail> := map[];
    for i := 0 to |fetched|
      invariant forall id :: DetailFor(fetched[..i], id) == if id in byID then byID[id] else PrefixDetail(0, "", map[])
    {
      assert fetched[..i + 1][..i] == fetched[..i];
      byID := byID[fetched[i].id := fetched[i]];
    }
    assert fetched[..|fetched|] == fetched;
    var resolved: seq<ResolvedPrefix> := [];
    var inRange: seq<int> := [];
    for i := 0 to |ids|
      invariant Build(choose, ids[..i], fetched) == Ok(Resolution(resolved, inRange))
    {
      assert ids[..i + 1][..i] == ids[..i];
      var perPrefix := "";
      if i < |spec.prefixes| {
        perPrefix := spec.prefixes[i].gateway;
      }
      var detail := if ids[i] in byID then byID[ids[i]] else PrefixDetail(0, "", map[]);
      assert detail == DetailFor(fetched, ids[i]);
      var choice := ResolveGateway(ip, detail.cidr, CustomFieldString(detail.fields, spec.gatewayField), perPrefix, spec.gateway);
      assert choice == choose(i, detail);
      if choice.Err? {
        assert choose(i, DetailFor(fetched, ids[i])).Err?;
        return Err;
      }
      assert inRange + [] == inRange;
      if choice.value.inRange {
        inRange := inRange + [ids[i]];
      }
      resolved := resolved + [ResolvedPrefix(ids[i], detail.cidr, choice.value.gateway)];
    }
    assert ids[..|ids|] == ids;
    return Ok(Resolution(resolved, inRange));
  }

  // ---- The cached gateway is the one NetBox's data and the spec entry determine ----

  /** The data of an ID as it comes through the details list: its row, or nothing known. */
  function DataOf(table: seq<Row>, id: int): PrefixDetail {
    match RowOf(table, id)
    case Some(row) => DetailOf(row)
    case None => PrefixDetail(0, "", map[])
  }

  lemma {:induction false} RowOfHasID(table: seq<Row>, id: int)
    ensures RowOf(table, id).Some? ==> RowOf(table, id).value.id == id && RowOf(table, id).value in table
  {
    if table != [] {
      RowOfHasID(table[..|table| - 1], id);
    }
  }

  lemma {:induction false} DetailForDetailsOf(table: seq<Row>, ids: seq<int>, id: int)
    ensures DetailFor(DetailsOf(table, ids), id) == if id in ids then DataOf(table, id) else PrefixDetail(0, "", map[])
  {
    if ids != [] {
      var last := |ids| - 1;
      var rest := DetailsOf(table, ids[..last]);
      DetailForDetailsOf(table, ids[..last], id);
      RowOfHasID(table, ids[last]);
      assert ids == ids[..last] + [ids[last]];
      if RowOf(table, ids[last]).Some? {
        assert DetailsOf(table, ids)[..|rest|] == rest;
      } else {
        assert rest + [] == rest;
      }
    }
  }

  /** The entry read for an ID is the one at that ID's first index; with distinct IDs it is its own. The
      gateway in it is the choice made from that prefix's row and the spec entry at the same index. */
  lemma CachedGateway(choose: Chooser, table: seq<Row>, ids: seq<int>, i: nat)
    requires Build(choose, ids, DetailsOf(table, ids)).Ok?
    requires i < |ids| && forall j :: 0 <= j < i ==> ids[j] != ids[i]
    ensures choose(i, DataOf(table, ids[i])).Ok?
    ensures GatewayForPrefixID(Build(choose, ids, DetailsOf(table, ids)).value.entries, ids[i])
         == choose(i, DataOf(table, ids[i])).value.gateway
  {
    var entries := Build(choose, ids, DetailsOf(table, ids)).value.entries;
    DetailForDetailsOf(table, ids, ids[i]);
    assert forall j :: 0 <= j <= i ==> entries[j].id == ids[j];
    GatewayForPrefixIDIsFirst(entries, i);
  }

  /** A complete resolution of a spec, from the table its references and the table its details were read from. */
  ghost predicate Resolves(ip: Netip, spec: GatewaySpec, idTable: seq<Row>, detailTable: seq<Row>, ids: seq<int>, entries: seq<ResolvedPrefix>) {
    && ResolveIDs(idTable, spec.prefixes) == Ok(ids)
    && Build(GatewayChoice(ip, spec), ids, DetailsOf(detailTable, ids)).Ok?
    && Build(GatewayChoice(ip, spec), ids, DetailsOf(detailTable, ids)).value.entries == entries
  }

  /** What reading the custom field gives: its text without white space around it, or nothing if there is no field to
      read, no value or a null. */
  predicate ReadsField(fields: map<string, FieldValue>, name: string, text: string) {
    if name == "" || name !in fields then text == ""
    else
      match fields[name]
      case Null => text == ""
      case Str(s) => text == Trim(s)
      case Other(s) => text == Trim(s)
  }

  /** The gateway is the address that the deciding source names, in the family of the row's block. */
  ghost predicate NamedBySource(ip: Netip, row: Row, field: string, perPrefix: string, poolWide: string, gateway: string) {
    exists source :: Decides(source, field, perPrefix, poolWide)
      && Suits(ip, Trim(row.prefix), source) && ip.parseAddr(gateway) == ip.parseAddr(source)
  }

  /** The gateway of a prefix: the source that decides is the row's field, else the reference's own setting, else the
      pool's; it names an address of the block's family, and the gateway is that address. */
  ghost predicate GatewayFor(ip: Netip, spec: GatewaySpec, i: nat, row: Row, gateway: string)
    requires i < |spec.prefixes|
  {
    exists field :: ReadsField(row.fields, spec.gatewayField, field)
      && if Trim(field) == Trim(spec.prefixes[i].gateway) == Trim(spec.gateway) == "" then gateway == ""
         else gateway != "" && NamedBySource(ip, row, field, spec.prefixes[i].gateway, spec.gateway, gateway)
  }

  /** The cached entry at index `i` of a resolution: the ID, the block of its row, and the gateway of that row and of
      the reference at the same index. An ID without a row has neither. */
  lemma EntryOfResolution(ip: Netip, spec: GatewaySpec, idTable: seq<Row>, detailTable: seq<Row>, ids: seq<int>, entries: seq<ResolvedPrefix>, i: nat, r: int)
    requires Lawful(ip) && Resolves(ip, spec, idTable, detailTable, ids, entries) && i < |spec.prefixes|
    ensures |entries| == |ids| == |spec.prefixes| && entries[i].id == ids[i]
    ensures LastRow(detailTable, ids[i], r) ==>
      entries[i].cidr == Trim(detailTable[r].prefix) && GatewayFor(ip, spec, i, detailTable[r], entries[i].gateway)
    ensures (forall j :: 0 <= j < |detailTable| ==> detailTable[j].id != ids[i]) ==> entries[i] == ResolvedPrefix(ids[i], "", "")
  {
    var detail := DataOf(detailTable, ids[i]);
    DetailForDetailsOf(detailTable, ids, ids[i]);
    RowOfIsLast(detailTable, ids[i]);
    assert GatewayChoice(ip, spec)(i, detail) == GatewayAt(ip, spec, i, detail);
    hide Build, DetailsOf, ResolveIDs;
    if LastRow(detailTable, ids[i], r) {
      EntryGateway(ip, spec, i, detailTable[r]);
    } else if forall j :: 0 <= j < |detailTable| ==> detailTable[j].id != ids[i] {
      NoRowNoGateway(ip, spec, i);
    }
  }

  lemma EntryGateway(ip: Netip, spec: GatewaySpec, i: nat, row: Row)
    requires Lawful(ip) && i < |spec.prefixes| && GatewayAt(ip, spec, i, DetailOf(row)).Ok?
    ensures GatewayFor(ip, spec, i, row, GatewayAt(ip, spec, i, DetailOf(row)).value.gateway)
  {
    var field := CustomFieldString(row.fields, spec.gatewayField);
    assert ReadsField(row.fields, spec.gatewayField, field);
    ResolvedGatewayFits(ip, Trim(row.prefix), field, spec.prefixes[i].gateway, spec.gateway);
    hide ResolveGateway, Trim;
  }

  lemma NoRowNoGateway(ip: Netip, spec: GatewaySpec, i: nat)
    requires Lawful(ip) && i < |spec.prefixes| && GatewayAt(ip, spec, i, PrefixDetail(0, "", map[])).Ok?
    ensures GatewayAt(ip, spec, i, PrefixDetail(0, "", map[])).value.gateway == ""
  {
    TrimIsTrimmed("");
  }

  /** The IDs reported as lying in range are those whose choice says so. */
  lemma {:induction false} InRangeIDs(choose: Chooser, ids: seq<int>, fetched: seq<PrefixDetail>, id: int)
    requires Build(choose, ids, fetched).Ok?
    ensures id in Build(choose, ids, fetched).value.inRange <==>
      exists i :: 0 <= i < |ids| && ids[i] == id && choose(i, DetailFor(fetched, id)).value.inRange
  {
    if ids != [] {
      var last := |ids| - 1;
      InRangeIDs(choose, ids[..last], fetched, id);
      assert forall i :: 0 <= i < last ==> ids[..last][i] == ids[i];
      if i :| 0 <= i < |ids| && ids[i] == id && choose(i, DetailFor(fetched, id)).value.inRange {
        assert i < last ==> ids[..last][i] == id;
      }
    }
  }

  /** The live lookup at allocation time, with or without known IDs: any failure means no entries. */
  function LiveEntries(ip: Netip, spec: GatewaySpec, table: seq<Row>, known: seq<int>): seq<ResolvedPrefix> {
    var ids := if known == [] then ResolveIDs(table, spec.prefixes) else Ok(known);
    if ids.Err? then []
    else
      match Build(GatewayChoice(ip, spec), ids.value, DetailsOf(table, ids.value))
      case Ok(done) => done.entries
      case Err => []
  }

  predicate Distinct(ids: seq<int>) {
    forall i, j :: 0 <= i < j < |ids| ==> ids[i] != ids[j]
  }

  /** On unchanged data the live lookup and the cache agree, and for every reference of a pool with distinct
      IDs both give `ResolveGateway` of that prefix's own row and its own spec entry. */
  lemma LiveAgreesWithCache(ip: Netip, spec: GatewaySpec, table: seq<Row>, ids: seq<int>, entries: seq<ResolvedPrefix>, i: nat)
    requires Resolves(ip, spec, table, table, ids, entries) && Distinct(ids)
    requires i < |spec.prefixes|
    ensures LiveEntries(ip, spec, table, ids) == LiveEntries(ip, spec, table, []) == entries
    ensures StandsFor(table, spec.prefixes[i], ids[i])
    ensures GatewayAt(ip, spec, i, DataOf(table, ids[i])).Ok?
    ensures GatewayForPrefixID(entries, ids[i]) == GatewayAt(ip, spec, i, DataOf(table, ids[i])).value.gateway
    ensures Lawful(ip) ==> forall r :: LastRow(table, ids[i], r) ==>
      GatewayFor(ip, spec, i, table[r], GatewayForPrefixID(entries, ids[i]))
  {
    if Lawful(ip) {
      forall r | LastRow(table, ids[i], r)
        ensures GatewayFor(ip, spec, i, table[r], entries[i].gateway)
      {
        EntryOfResolution(ip, spec, table, table, ids, entries, i, r);
      }
      EntryOfResolution(ip, spec, table, table, ids, entries, i, 0);
      assert forall j :: 0 <= j < |entries| ==> entries[j].id == ids[j];
      GatewayForPrefixIDIsFirst(entries, i);
      hide GatewayFor;
    }
    CachedGateway(GatewayChoice(ip, spec), table, ids, i);
    assert GatewayChoice(ip, spec)(i, DataOf(table, ids[i])) == GatewayAt(ip, spec, i, DataOf(table, ids[i]));
  }
}
