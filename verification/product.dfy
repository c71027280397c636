/** The product record both parsers return and the renderer draws. */
module Product {
  import opened Optional

  datatype ProductRecord = ProductRecord(
    name: string,
    subtitle: string,
    price: string,
    specs: string,
    description: string,
    image: string,
    benefits: seq<string>,
    usage: seq<string>,
    url: string)

  /** The name used when no title was found. */
  const DefaultName: string := "产品名称"

  /** At most five benefits and three usage lines are kept. */
  const MaxBenefits: nat := 5
  const MaxUsage: nat := 3

  /** `list.slice(0, n)` */
  function Take<T>(xs: seq<T>, n: nat): (r: seq<T>)
    ensures |r| <= n && |r| <= |xs|
    // exactly the first n elements are kept from a longer list
    ensures |r| == Min(n, |xs|)
    ensures |xs| <= n ==> r == xs
    ensures r <= xs
  {
    if |xs| <= n then xs else xs[..n]
  }
}
