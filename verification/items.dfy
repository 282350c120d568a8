/** A receipt line item and the description truncation its JSON encoder
    applies (yookassa/common/item.go). A description is modelled as the
    sequence of its Unicode code points. */
module Items {
  import opened Results

  /** The longest description, in code points, that is ever encoded. */
  const MaxDescriptionLength: nat := 128

  /** A monetary amount; its fields are carried through untouched. */
  datatype Amount = Amount(value: string, currency: string)

  datatype Item = Item(
    description: string,
    quantity: int,
    amount: Option<Amount>,
    vatCode: int,
    measure: string,
    paymentSubject: string,
    paymentMode: string)

  /** The description as it is encoded: cut to its first
      `MaxDescriptionLength` code points when it is longer. */
  function TruncateDescription(d: string): (r: string)
    ensures r <= d
    ensures |r| <= MaxDescriptionLength
    ensures |d| <= MaxDescriptionLength ==> r == d
    ensures |d| > MaxDescriptionLength ==> |r| == MaxDescriptionLength
  {
    if |d| > MaxDescriptionLength then d[..MaxDescriptionLength] else d
  }

  /** The item value `MarshalJSON` hands to the encoder: only the
      description may differ from the receiver. */
  function Truncated(item: Item): (r: Item)
    ensures r.description <= item.description
    ensures |r.description| <= MaxDescriptionLength
    ensures |item.description| > MaxDescriptionLength ==> |r.description| == MaxDescriptionLength
    ensures |item.description| <= MaxDescriptionLength <==> r == item
    ensures r.quantity == item.quantity && r.amount == item.amount && r.vatCode == item.vatCode
    ensures r.measure == item.measure && r.paymentSubject == item.paymentSubject
    ensures r.paymentMode == item.paymentMode
  {
    item.(description := TruncateDescription(item.description))
  }

  /** Encoding an item that was already truncated changes nothing more. */
  lemma TruncatedIdempotent(item: Item)
    ensures Truncated(Truncated(item)) == Truncated(item)
  {
  }

  /** The truncated description is the longest prefix of the original that
      fits: every fitting prefix is a prefix of it. */
  lemma TruncationKeepsLongestPrefix(d: string, p: string)
    requires p <= d && |p| <= MaxDescriptionLength
    ensures p <= TruncateDescription(d)
  {
  }

  /** Two descriptions that agree on their first `MaxDescriptionLength` code
      points encode identically; so truncation loses exactly the tail. */
  lemma TruncationDependsOnlyOnHead(d1: string, d2: string)
    requires |d1| > MaxDescriptionLength && |d2| > MaxDescriptionLength
    requires d1[..MaxDescriptionLength] == d2[..MaxDescriptionLength]
    ensures TruncateDescription(d1) == TruncateDescription(d2)
  {
  }

  /** A description made of `MaxDescriptionLength` code points followed by
      any tail, however many code points it has, is encoded as exactly its
      first `MaxDescriptionLength` code points. */
  lemma TruncationOfFittingPrefixExtension(p: string, tail: string)
    requires |p| == MaxDescriptionLength
    ensures TruncateDescription(p + tail) == p
  {
    assert (p + tail)[..MaxDescriptionLength] == p;
  }
}
