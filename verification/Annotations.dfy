/** What an allocation sends to NetBox: pool defaults, claim annotations and the claim's stamp
    (internal/netbox/annotations.go:50-121; internal/netbox/client.go:258-282, 403-418). */
module Annotations {
  import opened Wrappers
  import opened Text
  import opened Paging

  const ANNOTATION_PREFIX := "ipam.netbox.cluster.x-k8s.io/"
  const ANNOTATION_TENANT_ID := ANNOTATION_PREFIX + "tenant-id"
  const ANNOTATION_VRF_ID := ANNOTATION_PREFIX + "vrf-id"
  const ANNOTATION_DNS_NAME := ANNOTATION_PREFIX + "dns-name"
  const ANNOTATION_TAGS := ANNOTATION_PREFIX + "tags"
  const ANNOTATION_CUSTOM_FIELDS := ANNOTATION_PREFIX + "custom-fields"

  datatype Metadata = Metadata(
    tenant: Option<int>, vrf: Option<int>, dnsName: string, tags: seq<string>, customFields: map<string, string>)

  /** The decoder of a JSON object of strings. */
  type FieldParser = string -> Option<map<string, string>>

  // ---- Comma-separated lists ----

  function NonBlank(parts: seq<string>): seq<string> {
    if parts == [] then []
    else
      var last := |parts| - 1;
      NonBlank(parts[..last]) + (if Trim(parts[last]) != "" then [Trim(parts[last])] else [])
  }

  method SplitCSV(raw: string) returns (r: seq<string>)
    ensures r == NonBlank(Split(raw, ','))
  {
    var parts := Split(raw, ',');
    r := [];
    for i := 0 to |parts|
      invariant r == NonBlank(parts[..i])
    {
      assert parts[..i + 1][..i] == parts[..i];
      var trimmed := Trim(parts[i]);
      assert r + [] == r;
      if trimmed != "" {
        r := r + [trimmed];
      }
    }
    assert parts[..|parts|] == parts;
  }

  lemma {:induction false} NonBlankKeepsClean(items: seq<string>)
    requires forall s :: s in items ==> s != "" && Trimmed(s)
    ensures NonBlank(items) == items
  {
    if items != [] {
      var last := |items| - 1;
      assert items == items[..last] + [items[last]];
      assert items[last] in items && forall s :: s in items[..last] ==> s in items;
      TrimIsTrimmed(items[last]);
      NonBlankKeepsClean(items[..last]);
    }
  }

  /** Splitting undoes a comma join of trimmed, non-empty items without commas. */
  lemma SplitCSVUndoesJoin(items: seq<string>)
    requires items != []
    requires forall s :: s in items ==> s != "" && Trimmed(s) && ',' !in s
    ensures NonBlank(Split(Join(items, ','), ',')) == items
  {
    SplitJoin(items, ',');
    NonBlankKeepsClean(items);
  }

  lemma NonBlankOn(parts: seq<string>, part: string)
    ensures NonBlank(parts + [part]) == NonBlank(parts) + (if Trim(part) != "" then [Trim(part)] else [])
  {
    hide Trim;
    assert (parts + [part])[..|parts|] == parts;
  }

  /** The item with white space around it. */
  ghost predicate Pads(padded: string, item: string) {
    exists l, r :: padded == l + item + r && (forall c :: c in l ==> IsSpace(c)) && (forall c :: c in r ==> IsSpace(c))
  }

  /** The items that are not empty, in order. */
  function Filled(items: seq<string>): seq<string> {
    if items == [] then []
    else Filled(items[..|items| - 1]) + (if items[|items| - 1] != "" then [items[|items| - 1]] else [])
  }

  lemma {:induction false} NonBlankIgnoresPadding(items: seq<string>, padded: seq<string>)
    requires |padded| == |items| && forall i :: 0 <= i < |items| ==> Trimmed(items[i]) && Pads(padded[i], items[i])
    ensures NonBlank(padded) == Filled(items)
  {
    if items != [] {
      var last := |items| - 1;
      PadsTrim(padded[last], items[last]);
      hide Pads, Trim, IsSpace, Trimmed;
      NonBlankIgnoresPadding(items[..last], padded[..last]);
      NonBlankOn(padded[..last], padded[last]);
      assert padded == padded[..last] + [padded[last]];
      hide NonBlank;
    }
  }

  lemma PadsTrim(padded: string, item: string)
    requires Trimmed(item) && Pads(padded, item)
    ensures Trim(padded) == item
  {
    var l, r :| padded == l + item + r && (forall c :: c in l ==> IsSpace(c)) && (forall c :: c in r ==> IsSpace(c));
    hide Trim, IsSpace;
    TrimPadding(l, item, r);
  }

  /** Whatever white space stands around the items of a comma-separated list, and whatever blank items it has, the
      list is read as its items in order. */
  lemma SplitCSVIgnoresPadding(items: seq<string>, padded: seq<string>)
    requires items != [] && |padded| == |items|
    requires forall i :: 0 <= i < |items| ==> Trimmed(items[i]) && Pads(padded[i], items[i])
    requires forall p :: p in padded ==> ',' !in p
    ensures NonBlank(Split(Join(padded, ','), ',')) == Filled(items)
  {
    SplitJoin(padded, ',');
    NonBlankIgnoresPadding(items, padded);
  }

  // ---- Unique append ----

  /** Trimmed, non-blank, each value once, at its first occurrence. */
  function Unique(values: seq<string>): seq<string> {
    if values == [] then []
    else
      var last := |values| - 1;
      var before := Unique(values[..last]);
      var value := Trim(values[last]);
      if value == "" || value in before then before else before + [value]
  }

  method AppendUnique(values: seq<string>, extras: seq<string>) returns (out: seq<string>)
    ensures out == Unique(values + extras)
  {
    hide Trim;
    var seen: set<string> := {};
    out := [];
    var all := values + extras;
    for i := 0 to |all|
      invariant out == Unique(all[..i])
      invariant forall s :: s in seen <==> s in out
    {
      UniqueOn(all[..i], all[i]);
      assert all[..i + 1] == all[..i] + [all[i]];
      var value := Trim(all[i]);
      if value != "" && value !in seen {
        seen := seen + {value};
        out := out + [value];
      }
    }
    assert all[..|all|] == all;
  }

  lemma UniqueOn(values: seq<string>, s: string)
    ensures Unique(values + [s]) == if Trim(s) != "" && Trim(s) !in Unique(values) then Unique(values) + [Trim(s)] else Unique(values)
  {
    hide Trim;
    assert (values + [s])[..|values|] == values;
  }

  /** Where a value first occurs. */
  function FirstIndex(values: seq<string>, s: string): (r: nat)
    requires exists k :: 0 <= k < |values| && Trim(values[k]) == s
    ensures r < |values| && Trim(values[r]) == s && forall k :: 0 <= k < r ==> Trim(values[k]) != s
  {
    var r := FirstMatch(values, v => Trim(v) == s);
    assert r.Some? by {
      var k :| 0 <= k < |values| && Trim(values[k]) == s;
      assert (v => Trim(v) == s)(values[k]);
    }
    r.value
  }

  predicate Occurs(values: seq<string>, s: string) {
    exists k :: 0 <= k < |values| && Trim(values[k]) == s
  }

  lemma {:induction false} UniqueMembers(values: seq<string>, s: string)
    ensures s in Unique(values) <==> s != "" && Occurs(values, s)
  {
    hide Trim;
    if values != [] {
      var before, last := values[..|values| - 1], values[|values| - 1];
      assert values == before + [last];
      UniqueMembers(before, s);
      UniqueMembers(before, Trim(last));
      UniqueOn(before, last);
      OccursOn(before, last, s);
      hide Unique, Occurs;
    }
  }

  lemma OccursOn(values: seq<string>, last: string, s: string)
    ensures Occurs(values + [last], s) <==> Occurs(values, s) || Trim(last) == s
  {
    hide Trim;
    var all := values + [last];
    assert all[|values|] == last;
    if k :| 0 <= k < |values| && Trim(values[k]) == s {
      assert Trim(all[k]) == s;
    }
    if k :| 0 <= k < |all| && Trim(all[k]) == s {
      assert k < |values| ==> Trim(values[k]) == s;
    }
  }

  lemma {:induction false} UniqueHasNoDuplicates(values: seq<string>, i: nat, j: nat)
    requires i < j < |Unique(values)|
    ensures Unique(values)[i] != Unique(values)[j]
  {
    var last := |values| - 1;
    var before := Unique(values[..last]);
    if j < |before| {
      UniqueHasNoDuplicates(values[..last], i, j);
    } else {
      assert Unique(values)[i] == before[i] && before[i] in before;
    }
  }

  /** The result is in order of first occurrence. */
  lemma {:induction false} UniqueInOrder(values: seq<string>, i: nat, j: nat)
    requires i < j < |Unique(values)|
    ensures Occurs(values, Unique(values)[i]) && Occurs(values, Unique(values)[j])
    ensures FirstIndex(values, Unique(values)[i]) < FirstIndex(values, Unique(values)[j])
  {
    var last := |values| - 1;
    var before := Unique(values[..last]);
    var a, b := Unique(values)[i], Unique(values)[j];
    assert a in Unique(values) && b in Unique(values);
    UniqueMembers(values, a);
    UniqueMembers(values, b);
    assert a == before[i] && a in before;
    UniqueMembers(values[..last], a);
    var k :| 0 <= k < last && Trim(values[..last][k]) == a;
    assert Trim(values[k]) == a;
    if j < |before| {
      UniqueInOrder(values[..last], i, j);
      FirstIndexOfPrefix(values, a);
      FirstIndexOfPrefix(values, b);
    } else {
      UniqueMembers(values[..last], b);
      forall k | 0 <= k < last
        ensures Trim(values[k]) != b
      {
        assert values[..last][k] == values[k];
      }
    }
  }

  lemma FirstIndexOfPrefix(values: seq<string>, s: string)
    requires values != [] && Occurs(values[..|values| - 1], s)
    ensures Occurs(values, s)
    ensures FirstIndex(values, s) == FirstIndex(values[..|values| - 1], s)
  {
    var prefix := values[..|values| - 1];
    var n := FirstIndex(prefix, s);
    assert Trim(values[n]) == s;
    var m := FirstIndex(values, s);
    assert m <= n;
    assert prefix[m] == values[m];
  }

  // ---- Effective metadata ----

  /** The annotation, when present and not empty. */
  function Given(annotations: map<string, string>, name: string): Option<string> {
    if name in annotations && annotations[name] != "" then Some(annotations[name]) else None
  }

  /** An annotation that must be a number parses; absent is fine. */
  predicate NumberOk(annotations: map<string, string>, name: string) {
    Given(annotations, name).Some? ==> ParseInt32(Given(annotations, name).value).Ok?
  }

  predicate FieldsOk(parse: FieldParser, annotations: map<string, string>) {
    Given(annotations, ANNOTATION_CUSTOM_FIELDS).Some? ==> parse(Given(annotations, ANNOTATION_CUSTOM_FIELDS).value).Some?
  }

  predicate AnnotationsOk(parse: FieldParser, annotations: map<string, string>) {
    && NumberOk(annotations, ANNOTATION_TENANT_ID)
    && NumberOk(annotations, ANNOTATION_VRF_ID)
    && FieldsOk(parse, annotations)
  }

  function ClaimFields(parse: FieldParser, annotations: map<string, string>): map<string, string>
    requires FieldsOk(parse, annotations)
  {
    match Given(annotations, ANNOTATION_CUSTOM_FIELDS)
    case None => map[]
    case Some(raw) => parse(raw).value
  }

  function NumberOr(annotations: map<string, string>, name: string, default: Option<int>): Option<int>
    requires NumberOk(annotations, name)
  {
    match Given(annotations, name)
    case None => default
    case Some(raw) => Some(ParseInt32(raw).value)
  }

  function Overlay(parse: FieldParser, defaults: Metadata, annotations: map<string, string>): Metadata
    requires AnnotationsOk(parse, annotations)
  {
    Metadata(
      NumberOr(annotations, ANNOTATION_TENANT_ID, defaults.tenant),
      NumberOr(annotations, ANNOTATION_VRF_ID, defaults.vrf),
      if ANNOTATION_DNS_NAME in annotations then annotations[ANNOTATION_DNS_NAME] else defaults.dnsName,
      match Given(annotations, ANNOTATION_TAGS)
      case None => defaults.tags
      case Some(raw) => NonBlank(Split(raw, ',')),
      defaults.customFields + ClaimFields(parse, annotations))
  }

  /** The pool's defaults under the claim's annotations; an error exactly when an annotation does not parse. */
  function Effective(parse: FieldParser, defaults: Metadata, annotations: map<string, string>): Result<Metadata> {
    if AnnotationsOk(parse, annotations) then Ok(Overlay(parse, defaults, annotations)) else Err
  }

  method EffectivePoolMetadata(parse: FieldParser, defaults: Metadata, annotations: map<string, string>)
      returns (r: Result<Metadata>)
    ensures r == Effective(parse, defaults, annotations)
  {
    hide ParseInt32, NonBlank, Split, Given;
    var metadata := defaults;
    var raw := Given(annotations, ANNOTATION_TENANT_ID);
    if raw.Some? {
      var value := ParseInt32(raw.value);
      if value.Err? {
        return Err;
      }
      metadata := metadata.(tenant := Some(value.value));
    }
    raw := Given(annotations, ANNOTATION_VRF_ID);
    if raw.Some? {
      var value := ParseInt32(raw.value);
      if value.Err? {
        return Err;
      }
      metadata := metadata.(vrf := Some(value.value));
    }
    if ANNOTATION_DNS_NAME in annotations {
      metadata := metadata.(dnsName := annotations[ANNOTATION_DNS_NAME]);
    }
    raw := Given(annotations, ANNOTATION_TAGS);
    if raw.Some? {
      var tags := SplitCSV(raw.value);
      metadata := metadata.(tags := tags);
    }
    raw := Given(annotations, ANNOTATION_CUSTOM_FIELDS);
    if raw.Some? {
      var values := parse(raw.value);
      if values.None? {
        return Err;
      }
      metadata := metadata.(customFields := metadata.customFields + values.value);
    } else {
      assert metadata.customFields + map[] == metadata.customFields;
    }
    return Ok(metadata);
  }

  // ---- What each annotation does ----

  /** The five names in full, and that they differ. */
  lemma AnnotationNames()
    ensures ANNOTATION_TENANT_ID == "ipam.netbox.cluster.x-k8s.io/tenant-id"
    ensures ANNOTATION_VRF_ID == "ipam.netbox.cluster.x-k8s.io/vrf-id"
    ensures ANNOTATION_DNS_NAME == "ipam.netbox.cluster.x-k8s.io/dns-name"
    ensures ANNOTATION_TAGS == "ipam.netbox.cluster.x-k8s.io/tags"
    ensures ANNOTATION_CUSTOM_FIELDS == "ipam.netbox.cluster.x-k8s.io/custom-fields"
    ensures ANNOTATION_TENANT_ID != ANNOTATION_VRF_ID && ANNOTATION_TENANT_ID != ANNOTATION_DNS_NAME
      && ANNOTATION_TENANT_ID != ANNOTATION_TAGS && ANNOTATION_TENANT_ID != ANNOTATION_CUSTOM_FIELDS
    ensures ANNOTATION_VRF_ID != ANNOTATION_DNS_NAME && ANNOTATION_VRF_ID != ANNOTATION_TAGS
      && ANNOTATION_VRF_ID != ANNOTATION_CUSTOM_FIELDS
    ensures ANNOTATION_DNS_NAME != ANNOTATION_TAGS && ANNOTATION_DNS_NAME != ANNOTATION_CUSTOM_FIELDS
    ensures ANNOTATION_TAGS != ANNOTATION_CUSTOM_FIELDS
  {
    var n := |ANNOTATION_PREFIX|;
    assert ANNOTATION_TENANT_ID[n + 1] == 'e' && ANNOTATION_VRF_ID[n + 1] == 'r' && ANNOTATION_DNS_NAME[n + 1] == 'n'
      && ANNOTATION_TAGS[n + 1] == 'a' && ANNOTATION_CUSTOM_FIELDS[n + 1] == 'u';
  }

  /** Without any of the annotations the defaults hold. */
  lemma DefaultsAlone(parse: FieldParser, defaults: Metadata, annotations: map<string, string>)
    requires ANNOTATION_TENANT_ID !in annotations && ANNOTATION_VRF_ID !in annotations && ANNOTATION_DNS_NAME !in annotations
    requires ANNOTATION_TAGS !in annotations && ANNOTATION_CUSTOM_FIELDS !in annotations
    ensures Effective(parse, defaults, annotations) == Ok(defaults)
  {
    assert defaults.customFields + map[] == defaults.customFields;
  }

  /** An empty annotation is as good as none, except for the DNS name. */
  lemma EmptyIsAbsent(parse: FieldParser, defaults: Metadata, annotations: map<string, string>, name: string)
    requires name in annotations && annotations[name] == "" && name != ANNOTATION_DNS_NAME
    ensures Effective(parse, defaults, annotations) == Effective(parse, defaults, annotations - {name})
  {
    assert forall n :: Given(annotations, n) == Given(annotations - {name}, n);
  }

  /** The tenant annotation sets the tenant and nothing else, or is an error. */
  lemma TenantAnnotation(parse: FieldParser, defaults: Metadata, annotations: map<string, string>)
    requires ANNOTATION_TENANT_ID in annotations && annotations[ANNOTATION_TENANT_ID] != ""
    ensures var others := Effective(parse, defaults, annotations - {ANNOTATION_TENANT_ID});
      var n := ParseInt32(annotations[ANNOTATION_TENANT_ID]);
      Effective(parse, defaults, annotations) == if others.Ok? && n.Ok? then Ok(others.value.(tenant := Some(n.value))) else Err
  {
    AnnotationNames();
    OthersGiven(annotations, ANNOTATION_TENANT_ID);
    hide ParseInt32, NonBlank, Split;
  }

  /** The VRF annotation sets the VRF and nothing else, or is an error. */
  lemma VRFAnnotation(parse: FieldParser, defaults: Metadata, annotations: map<string, string>)
    requires ANNOTATION_VRF_ID in annotations && annotations[ANNOTATION_VRF_ID] != ""
    ensures var others := Effective(parse, defaults, annotations - {ANNOTATION_VRF_ID});
      var n := ParseInt32(annotations[ANNOTATION_VRF_ID]);
      Effective(parse, defaults, annotations) == if others.Ok? && n.Ok? then Ok(others.value.(vrf := Some(n.value))) else Err
  {
    AnnotationNames();
    OthersGiven(annotations, ANNOTATION_VRF_ID);
    hide ParseInt32, NonBlank, Split;
  }

  /** An annotation that is a printed int32 sets its own field to that number, whatever the others say. */
  lemma NumberAnnotations(parse: FieldParser, defaults: Metadata, annotations: map<string, string>, n: int)
    requires MIN_INT32 <= n <= MAX_INT32
    ensures ANNOTATION_TENANT_ID in annotations && annotations[ANNOTATION_TENANT_ID] == Decimal(n) ==>
      var others := Effective(parse, defaults, annotations - {ANNOTATION_TENANT_ID});
      Effective(parse, defaults, annotations) == if others.Ok? then Ok(others.value.(tenant := Some(n))) else Err
    ensures ANNOTATION_VRF_ID in annotations && annotations[ANNOTATION_VRF_ID] == Decimal(n) ==>
      var others := Effective(parse, defaults, annotations - {ANNOTATION_VRF_ID});
      Effective(parse, defaults, annotations) == if others.Ok? then Ok(others.value.(vrf := Some(n))) else Err
  {
    ParseDecimal(n);
    DecimalCharacters(n);
    hide Effective, ParseInt32, Decimal;
    if ANNOTATION_TENANT_ID in annotations && annotations[ANNOTATION_TENANT_ID] == Decimal(n) {
      TenantAnnotation(parse, defaults, annotations);
    }
    if ANNOTATION_VRF_ID in annotations && annotations[ANNOTATION_VRF_ID] == Decimal(n) {
      VRFAnnotation(parse, defaults, annotations);
    }
  }

  /** The DNS annotation replaces the name, even by nothing. */
  lemma DNSAnnotation(parse: FieldParser, defaults: Metadata, annotations: map<string, string>)
    requires ANNOTATION_DNS_NAME in annotations
    ensures var others := Effective(parse, defaults, annotations - {ANNOTATION_DNS_NAME});
      Effective(parse, defaults, annotations) ==
        if others.Ok? then Ok(others.value.(dnsName := annotations[ANNOTATION_DNS_NAME])) else Err
  {
    AnnotationNames();
    OthersGiven(annotations, ANNOTATION_DNS_NAME);
    hide ParseInt32, NonBlank, Split;
  }

  /** The tag annotation replaces the tags by its items, whatever white space stands around them. */
  lemma TagsAnnotation(parse: FieldParser, defaults: Metadata, annotations: map<string, string>, items: seq<string>, padded: seq<string>)
    requires items != [] && |padded| == |items| && Join(padded, ',') != ""
    requires forall i :: 0 <= i < |items| ==> Trimmed(items[i]) && Pads(padded[i], items[i])
    requires forall p :: p in padded ==> ',' !in p
    requires ANNOTATION_TAGS in annotations && annotations[ANNOTATION_TAGS] == Join(padded, ',')
    ensures var others := Effective(parse, defaults, annotations - {ANNOTATION_TAGS});
      Effective(parse, defaults, annotations) == if others.Ok? then Ok(others.value.(tags := Filled(items))) else Err
  {
    AnnotationNames();
    OthersGiven(annotations, ANNOTATION_TAGS);
    SplitCSVIgnoresPadding(items, padded);
    hide ParseInt32, NonBlank, Split, Join, Filled, Pads;
  }

  /** The custom-field annotation adds its fields over those of the pool, or is an error. */
  lemma FieldsAnnotation(parse: FieldParser, defaults: Metadata, annotations: map<string, string>)
    requires ANNOTATION_CUSTOM_FIELDS in annotations && annotations[ANNOTATION_CUSTOM_FIELDS] != ""
    ensures var others := Effective(parse, defaults, annotations - {ANNOTATION_CUSTOM_FIELDS});
      var values := parse(annotations[ANNOTATION_CUSTOM_FIELDS]);
      Effective(parse, defaults, annotations) ==
        if others.Ok? && values.Some? then Ok(others.value.(customFields := others.value.customFields + values.value)) else Err
  {
    AnnotationNames();
    OthersGiven(annotations, ANNOTATION_CUSTOM_FIELDS);
    hide ParseInt32, NonBlank, Split;
    assert defaults.customFields + map[] == defaults.customFields;
  }

  /** Taking one annotation away leaves the others. */
  lemma OthersGiven(annotations: map<string, string>, name: string)
    ensures Given(annotations - {name}, name) == None && name !in annotations - {name}
    ensures forall n :: n != name ==> Given(annotations - {name}, n) == Given(annotations, n)
    ensures forall n :: n != name ==> (n in annotations - {name} <==> n in annotations)
    ensures forall n :: n != name && n in annotations ==> (annotations - {name})[n] == annotations[n]
  {
  }

  // ---- The allocation payload ----

  datatype Payload = Payload(
    status: string, description: string, fields: map<string, string>, tags: seq<string>,
    dnsName: Option<string>, tenant: Option<int>, vrf: Option<int>)

  function PayloadFor(metadata: Metadata, ownershipTag: string, uidField: string, uid: string, description: string, status: string): Payload {
    Payload(
      status, description,
      metadata.customFields[uidField := uid],
      Unique(metadata.tags + [ownershipTag]),
      if metadata.dnsName != "" then Some(metadata.dnsName) else None,
      metadata.tenant, metadata.vrf)
  }

  /** What is sent for a claim: the pool's fields under the claim's under the stamp, and each tag name once,
      trimmed, with the ownership tag among them. */
  lemma PayloadCarriesStamp(
      parse: FieldParser, defaults: Metadata, annotations: map<string, string>,
      tag: string, field: string, uid: string, description: string, status: string)
    requires AnnotationsOk(parse, annotations)
    requires tag != "" && Trimmed(tag)
    ensures var md := Effective(parse, defaults, annotations).value;
      var sent := PayloadFor(md, tag, field, uid, description, status);
      var given := ANNOTATION_CUSTOM_FIELDS in annotations && annotations[ANNOTATION_CUSTOM_FIELDS] != "";
      var claimed := if given then parse(annotations[ANNOTATION_CUSTOM_FIELDS]).value else map[];
      && sent.status == status && sent.description == description
      && sent.tenant == md.tenant && sent.vrf == md.vrf
      && (md.dnsName == "" ==> sent.dnsName == None) && (md.dnsName != "" ==> sent.dnsName == Some(md.dnsName))
      && sent.fields.Keys == defaults.customFields.Keys + claimed.Keys + {field}
      && (forall k :: k in sent.fields ==>
            sent.fields[k] == if k == field then uid else if k in claimed then claimed[k] else defaults.customFields[k])
      && tag in sent.tags
      && (forall t :: t in sent.tags <==> t != "" && (t == tag || Occurs(md.tags, t)))
      && (forall i, j :: 0 <= i < j < |sent.tags| ==> sent.tags[i] != sent.tags[j])
  {
    var md := Effective(parse, defaults, annotations).value;
    var all := md.tags + [tag];
    TrimIsTrimmed(tag);
    assert all[|md.tags|] == tag && Occurs(all, tag);
    forall t
      ensures t in Unique(all) <==> t != "" && (t == tag || Occurs(md.tags, t))
    {
      UniqueMembers(all, t);
      if Occurs(md.tags, t) {
        var k :| 0 <= k < |md.tags| && Trim(md.tags[k]) == t;
        assert Trim(all[k]) == t;
      }
      if Occurs(all, t) {
        var k :| 0 <= k < |all| && Trim(all[k]) == t;
        assert k < |md.tags| ==> Trim(md.tags[k]) == t;
      }
    }
    forall i, j | 0 <= i < j < |Unique(all)|
      ensures Unique(all)[i] != Unique(all)[j]
    {
      UniqueHasNoDuplicates(all, i, j);
    }
  }
}
