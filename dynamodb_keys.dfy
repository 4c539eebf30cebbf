/** The DynamoDB attribute values and item keys a process result is stored
    under. */
module DynamoKeys {
  import opened Wrappers
  import opened Bytes

  const SuccessKey: string := "success"
  const StatusKey: string := "status_code"
  const OutputKey: string := "output"
  const ErrorKey: string := "error"
  const TtlKey: string := "ttl"

  /** The keys the codec writes besides the partition key. */
  predicate Reserved(key: string) {
    key == SuccessKey || key == StatusKey || key == OutputKey || key == ErrorKey || key == TtlKey
  }

  /** `AttributeValue`: the variants the codec writes or inspects, and
      `Other` for every other one (lists, maps, sets, null). */
  datatype AttributeValue =
    | S(s: string)
    | N(n: string)
    | B(blob: seq<Byte>)
    | Bool(b: bool)
    | Other

  type Item = map<string, AttributeValue>

  /** `HashMap::get`. */
  function Get(item: Item, key: string): (v: Option<AttributeValue>)
    ensures v.Some? <==> key in item
    ensures v.Some? ==> v.value == item[key]
  {
    if key in item then Some(item[key]) else None
  }
}
