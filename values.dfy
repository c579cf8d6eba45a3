/** Route props: the flat records that loaders return and pages embed. */
module Values {
  import opened Wrappers

  /** A JSON value as a loader may return it (numbers are kept integral). */
  datatype Json =
    | JNull
    | JBool(b: bool)
    | JNumber(n: int)
    | JString(s: string)
    | JArray(items: seq<Json>)
    | JObject(fields: map<string, Json>)

  /** `Record<string, unknown>`: a flat mapping from prop name to value. */
  type Props = map<string, Json>

  /**
   * `JSON.stringify` and `JSON.parse`, which are library code: the model only
   * uses them as given functions and assumes no round trip between them.
   */
  datatype Serializer = Serializer(
    stringify: Props -> string,
    stringifyPaths: seq<string> -> string,
    parse: string -> Option<Props>)

  /** Why a request-time render or a build failed. */
  datatype Fault =
    | MissingFile(path: string)  // a readFile of a path that does not exist
    | Thrown(message: string)    // an exception raised by a loader or the renderer

  /**
   * The object spread `{ ...base, ...overrides }`: every key of either side,
   * with the value of `overrides` winning on a collision.
   */
  function Merge(base: Props, overrides: Props): (r: Props)
    ensures r.Keys == base.Keys + overrides.Keys
    ensures forall k :: k in overrides ==> r[k] == overrides[k]
    ensures forall k :: k in base && k !in overrides ==> r[k] == base[k]
  {
    base + overrides
  }

  /** An absent loader contributes `{}`, which leaves the other side as it is. */
  lemma MergeWithEmpty(p: Props)
    ensures Merge(p, map[]) == p && Merge(map[], p) == p
  {
  }

  /** The precedence example: `{a:1,b:2}` then `{b:3,c:4}` gives `{a:1,b:3,c:4}`. */
  lemma MergePrecedenceExample()
    ensures Merge(map["a" := JNumber(1), "b" := JNumber(2)], map["b" := JNumber(3), "c" := JNumber(4)])
         == map["a" := JNumber(1), "b" := JNumber(3), "c" := JNumber(4)]
  {
    var r := Merge(map["a" := JNumber(1), "b" := JNumber(2)], map["b" := JNumber(3), "c" := JNumber(4)]);
    assert r.Keys == {"a", "b", "c"};
  }
}
