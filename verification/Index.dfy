/** The pool index key and the listing it serves (internal/index/index.go:42-60;
    internal/controller/pool_controller.go:267-305). */
module Index {
  import opened Wrappers
  import opened Text

  datatype PoolRef = PoolRef(apiGroup: string, kind: string, name: string)

  function IPPoolRefValue(ref: PoolRef): string {
    ref.kind + "/" + ref.name
  }

  /** Kinds without a slash make the key injective on kind and name. */
  lemma IndexKeyInjective(a: PoolRef, b: PoolRef)
    requires '/' !in a.kind && '/' !in b.kind
    ensures IPPoolRefValue(a) == IPPoolRefValue(b) <==> a.kind == b.kind && a.name == b.name
  {
    CutAtFirst(a.kind, '/', a.name);
    CutAtFirst(b.kind, '/', b.name);
    assert IPPoolRefValue(a) == a.kind + ['/'] + a.name;
    assert IPPoolRefValue(b) == b.kind + ['/'] + b.name;
  }

  /** With a slash in a kind two different references can share a key. */
  lemma SlashInKindCollides(kind: string, mid: string, name: string)
    ensures IPPoolRefValue(PoolRef("", kind + "/" + mid, name)) == IPPoolRefValue(PoolRef("", kind, mid + "/" + name))
  {
    assert kind + "/" + mid + "/" + name == kind + "/" + (mid + "/" + name);
  }

  /** The count is printed and parsed back as an int32. */
  function SafeAllocatedCount(count: int): Result<int> {
    ParseInt32(Decimal(count))
  }

  lemma CountIsExactOrTooLarge(count: nat)
    ensures SafeAllocatedCount(count) == if count <= MAX_INT32 then Ok(count) else Err
  {
    ParseDecimal(count);
  }
}
