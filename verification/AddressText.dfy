/** The text of a NetBox address record and the address and length split from it
    (internal/netbox/client.go:353-358, 386-401; internal/controller/ipaddressclaim_controller.go:368-379). */
module AddressText {
  import opened Wrappers
  import opened Text

  datatype Mapped = Mapped(address: string, prefix: int)

  function MapIPAddress(text: string): Mapped {
    var t := Trim(text);
    match Cut(t, '/')
    case None => Mapped(t, 0)
    case Some((address, length)) =>
      var parsed := ParseInt32(length);
      Mapped(address, if parsed.Ok? then parsed.value else 0)
  }

  /** The texts under which a record of an `IPAddress` is looked up, most specific first. */
  function Candidates(address: string, prefix: Option<int>): seq<string> {
    if address == "" then []
    else (if prefix.Some? then [address + "/" + Decimal(prefix.value)] else []) + [address]
  }

  /** A record answers a lookup by its own text or by its bare address. */
  predicate Answers(text: string, query: string) {
    Trim(text) == query || Trim(MapIPAddress(text).address) == query
  }

  /** `addr/len` as NetBox prints it. */
  ghost predicate Canonical(text: string, address: string, length: int) {
    && text == address + "/" + Decimal(length)
    && address != "" && Trimmed(address) && '/' !in address
    && MIN_INT32 <= length <= MAX_INT32
  }

  lemma CanonicalSplits(text: string, address: string, length: int)
    requires Canonical(text, address, length)
    ensures MapIPAddress(text) == Mapped(address, length) && Trim(text) == text && Trim(address) == address
  {
    TrimmedWhole(text, address, length);
    ParseDecimal(length);
    TrimIsTrimmed(text);
    TrimIsTrimmed(address);
    hide Trim, Decimal, ParseInt32, Cut;
    assert text == address + ['/'] + Decimal(length);
    CutAtFirst(address, '/', Decimal(length));
  }

  /** A text without a slash has no length, and one whose length is no int32 number counts as having length 0. */
  lemma LengthOfText(address: string, length: string)
    requires '/' !in address && Trimmed(address) && Trimmed(address + "/" + length)
    ensures MapIPAddress(address) == Mapped(address, 0)
    ensures ParseInt32(length).Err? ==> MapIPAddress(address + "/" + length) == Mapped(address, 0)
    ensures ParseInt32(length).Ok? ==> MapIPAddress(address + "/" + length) == Mapped(address, ParseInt32(length).value)
  {
    TrimIsTrimmed(address);
    TrimIsTrimmed(address + "/" + length);
    hide Trim, ParseInt32;
    CutAtFirst(address, '/', length);
    assert address + ['/'] + length == address + "/" + length;
  }

  lemma TrimmedWhole(text: string, address: string, length: int)
    requires Canonical(text, address, length)
    ensures Trimmed(text)
  {
    DecimalCharacters(length);
    var d := Decimal(length);
    hide Decimal;
    assert text[|text| - 1] == d[|d| - 1] && d[|d| - 1] in d;
  }

  /** Splitting a canonical text and rebuilding the candidates gives the text back first, and the record
      answers every candidate. */
  lemma CandidatesFindTheRecord(text: string, address: string, length: int)
    requires Canonical(text, address, length)
    ensures MapIPAddress(text) == Mapped(address, length)
    ensures var m := MapIPAddress(text);
      && Candidates(m.address, Some(m.prefix)) == [text, address]
      && forall q :: Answers(text, q) <==> q in Candidates(m.address, Some(m.prefix))
  {
    hide MapIPAddress, Trim, Decimal;
    CanonicalSplits(text, address, length);
  }
}
