/** The two record lookups of the NetBox client (internal/netbox/client.go:311-360), and why their answers are
    the ones the protocol counts on. */
module Lookups {
  import opened Wrappers
  import opened Paging
  import opened AddressText
  import opened Model
  import opened Protocol

  datatype Entry = Entry(id: int, record: Record)

  function Filtered(table: seq<Entry>, keep: Record -> bool): (r: seq<Entry>)
    ensures forall e :: e in r <==> e in table && keep(e.record)
  {
    if table == [] then []
    else (if keep(table[0].record) then [table[0]] else []) + Filtered(table[1..], keep)
  }

  /** Rows come in the order of the table. */
  lemma {:induction false} FilteredInOrder(table: seq<Entry>, more: seq<Entry>, keep: Record -> bool)
    ensures Filtered(table + more, keep) == Filtered(table, keep) + Filtered(more, keep)
  {
    if table == [] {
      assert table + more == more;
    } else {
      assert (table + more)[1..] == table[1..] + more;
      FilteredInOrder(table[1..], more, keep);
    }
  }

  /** A custom field as the lookup renders it; an absent one prints as a nil value. */
  function Rendered(r: Record, field: string): string {
    if field in r.fields then r.fields[field] else "<nil>"
  }

  /** The first row that the lookup accepts. */
  function Scan(rows: seq<Entry>, accept: Record -> bool): Option<Entry> {
    match FirstMatch(rows, (e: Entry) => accept(e.record))
    case Some(i) => Some(rows[i])
    case None => None
  }

  /** The server's tag filter. */
  function WithTag(tag: string): Record -> bool {
    (r: Record) => tag in r.tags
  }

  /** The server's tag and address filters; how the server compares addresses is its own business. */
  function WithTagAt(tag: string, near: (string, string) -> bool, address: string): Record -> bool {
    (r: Record) => tag in r.tags && near(r.text, address)
  }

  function HasUID(field: string, uid: string): Record -> bool {
    (r: Record) => Rendered(r, field) == uid
  }

  function HasAddress(address: string): Record -> bool {
    (r: Record) => Answers(r.text, address)
  }

  method FindIPAddressByClaimUID(site: Site, tagReady: bool, table: seq<Entry>, tag: string, field: string, uid: string)
      returns (r: Result<Option<Entry>>)
    requires Advances(site)
    ensures var rows := Filtered(table, WithTag(tag));
      r == if tagReady && Readable(site, |rows|) then Ok(Scan(rows, HasUID(field, uid))) else Err
  {
    if !tagReady {
      return Err;
    }
    var listed := ListAll(site, "/api/ipam/ip-addresses/", Filtered(table, WithTag(tag)));
    if listed.Err? {
      return Err;
    }
    var results := listed.value;
    for i := 0 to |results|
      invariant forall j :: 0 <= j < i ==> Rendered(results[j].record, field) != uid
    {
      if Rendered(results[i].record, field) == uid {
        ScanFinds(results, HasUID(field, uid), i);
        return Ok(Some(results[i]));
      }
    }
    ScanMisses(results, HasUID(field, uid));
    return Ok(None);
  }

  method FindIPAddressByAddress(site: Site, tagReady: bool, table: seq<Entry>, tag: string, near: (string, string) -> bool, address: string)
      returns (r: Result<Option<Entry>>)
    requires Advances(site)
    ensures var rows := Filtered(table, WithTagAt(tag, near, address));
      r == if tagReady && Readable(site, |rows|) then Ok(Scan(rows, HasAddress(address))) else Err
  {
    hide Answers;
    if !tagReady {
      return Err;
    }
    var listed := ListAll(site, "/api/ipam/ip-addresses/", Filtered(table, WithTagAt(tag, near, address)));
    if listed.Err? {
      return Err;
    }
    var results := listed.value;
    for i := 0 to |results|
      invariant forall j :: 0 <= j < i ==> !Answers(results[j].record.text, address)
    {
      if Answers(results[i].record.text, address) {
        ScanFinds(results, HasAddress(address), i);
        return Ok(Some(results[i]));
      }
    }
    ScanMisses(results, HasAddress(address));
    return Ok(None);
  }

  lemma ScanFinds(rows: seq<Entry>, accept: Record -> bool, i: nat)
    requires i < |rows| && accept(rows[i].record) && forall j :: 0 <= j < i ==> !accept(rows[j].record)
    ensures Scan(rows, accept) == Some(rows[i])
  {
  }

  lemma ScanMisses(rows: seq<Entry>, accept: Record -> bool)
    requires forall j :: 0 <= j < |rows| ==> !accept(rows[j].record)
    ensures Scan(rows, accept) == None
  {
  }

  // ---- The protocol's answers ----

  /** The table lists every record once, in whatever order. */
  ghost predicate Lists(table: seq<Entry>, records: map<int, Record>) {
    && (forall e :: e in table ==> e.id in records && records[e.id] == e.record)
    && (forall id :: id in records ==> Entry(id, records[id]) in table)
  }

  function ReplyOf(r: Result<Option<Entry>>): Reply {
    match r
    case Err => Failed
    case Ok(None) => Missing
    case Ok(Some(e)) => Found(e.id)
  }

  lemma ScanMeans(table: seq<Entry>, records: map<int, Record>, keep: Record -> bool, accept: Record -> bool)
    requires Lists(table, records)
    ensures var found := Scan(Filtered(table, keep), accept);
      if found.Some? then
        found.value.id in records && records[found.value.id] == found.value.record && keep(found.value.record) && accept(found.value.record)
      else forall id :: id in records ==> !(keep(records[id]) && accept(records[id]))
  {
    var rows := Filtered(table, keep);
    var found := Scan(rows, accept);
    if found.Some? {
      assert found.value in rows;
    } else {
      forall id | id in records && keep(records[id])
        ensures !accept(records[id])
      {
        var e := Entry(id, records[id]);
        assert e in rows;
        var j :| 0 <= j < |rows| && rows[j] == e;
      }
    }
  }

  /** Read over all its pages, the lookup by UID answers as the protocol demands: it finds a record that carries
      the UID, or there is none. */
  lemma LookupByUIDIsLegal(cfg: Config, st: Store, table: seq<Entry>, uid: Uid, up: bool)
    requires Lists(table, st.records) && uid != "<nil>"
    ensures var r := if up then Ok(Scan(Filtered(table, WithTag(cfg.tag)), HasUID(cfg.field, uid))) else Err;
      && LegalByUID(cfg, st, uid, ReplyOf(r))
      && (up ==> (ReplyOf(r).Missing? <==> NoRecord(cfg, st, uid)))
  {
    ScanMeans(table, st.records, WithTag(cfg.tag), HasUID(cfg.field, uid));
  }

  /** The same for the lookup by address, if the server's own comparison lets every record through that the
      client would accept. */
  lemma LookupByAddressIsLegal(cfg: Config, st: Store, c: Claim, table: seq<Entry>, near: (string, string) -> bool, candidates: seq<string>, up: bool)
    requires Lists(table, st.records) && candidates != []
    requires forall text :: Answers(text, candidates[0]) ==> near(text, candidates[0])
    ensures var r := if up then Ok(Scan(Filtered(table, WithTagAt(cfg.tag, near, candidates[0])), HasAddress(candidates[0]))) else Err;
      LegalReply(cfg, st, c, ReleaseTrying(candidates), ReplyOf(r))
  {
    ScanMeans(table, st.records, WithTagAt(cfg.tag, near, candidates[0]), HasAddress(candidates[0]));
    hide Answers;
  }

  /** A record without the field answers the lookup for the UID "<nil>", which is not a record of that claim. */
  lemma NilIsNotAUID(cfg: Config, id: int, r: Record)
    requires cfg.tag in r.tags && cfg.field !in r.fields
    ensures Scan(Filtered([Entry(id, r)], WithTag(cfg.tag)), HasUID(cfg.field, "<nil>")) == Some(Entry(id, r))
    ensures !Carries(cfg, r, "<nil>")
  {
    var table := [Entry(id, r)];
    assert WithTag(cfg.tag)(table[0].record) && table[1..] == [];
    assert Filtered(table, WithTag(cfg.tag)) == table;
    ScanFinds(table, HasUID(cfg.field, "<nil>"), 0);
  }
}
