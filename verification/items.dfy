/**
  The assignable items and the field renames between the shape the GraphQL
  service uses (`{ name, id }`) and the shape each tab keeps in its state.
 */
module Items {

  /** An assignable item as the service returns it and expects it back. */
  datatype NamedRef = NamedRef(name: string, id: string)

  /** A collection as the collections tab keeps it. */
  datatype Collection = Collection(name: string, collectionId: string)

  /** A payment term as the payment-terms tab keeps it. */
  datatype PaymentTerm = PaymentTerm(name: string, paymentTermId: string)

  /** A seller as the sellers tab keeps it. */
  datatype Seller = Seller(sellerId: string, name: string)

  /** `{ name, id }` to `{ name, collectionId }`, element by element. */
  function LoadCollections(refs: seq<NamedRef>): (r: seq<Collection>)
    ensures |r| == |refs|
    ensures forall i :: 0 <= i < |refs| ==> r[i].name == refs[i].name && r[i].collectionId == refs[i].id
  {
    seq(|refs|, i requires 0 <= i < |refs| => Collection(refs[i].name, refs[i].id))
  }

  /** `{ name, collectionId }` back to `{ name, id }`, element by element. */
  function SaveCollections(cs: seq<Collection>): (r: seq<NamedRef>)
    ensures |r| == |cs|
    ensures forall i :: 0 <= i < |cs| ==> r[i].name == cs[i].name && r[i].id == cs[i].collectionId
  {
    seq(|cs|, i requires 0 <= i < |cs| => NamedRef(cs[i].name, cs[i].collectionId))
  }

  lemma CollectionsRoundTrip(refs: seq<NamedRef>)
    ensures SaveCollections(LoadCollections(refs)) == refs
  {
  }

  lemma CollectionsRoundTripBack(cs: seq<Collection>)
    ensures LoadCollections(SaveCollections(cs)) == cs
  {
  }

  function LoadPaymentTerms(refs: seq<NamedRef>): (r: seq<PaymentTerm>)
    ensures |r| == |refs|
    ensures forall i :: 0 <= i < |refs| ==> r[i].name == refs[i].name && r[i].paymentTermId == refs[i].id
  {
    seq(|refs|, i requires 0 <= i < |refs| => PaymentTerm(refs[i].name, refs[i].id))
  }

  function SavePaymentTerms(ts: seq<PaymentTerm>): (r: seq<NamedRef>)
    ensures |r| == |ts|
    ensures forall i :: 0 <= i < |ts| ==> r[i].name == ts[i].name && r[i].id == ts[i].paymentTermId
  {
    seq(|ts|, i requires 0 <= i < |ts| => NamedRef(ts[i].name, ts[i].paymentTermId))
  }

  lemma PaymentTermsRoundTrip(refs: seq<NamedRef>)
    ensures SavePaymentTerms(LoadPaymentTerms(refs)) == refs
  {
  }

  lemma PaymentTermsRoundTripBack(ts: seq<PaymentTerm>)
    ensures LoadPaymentTerms(SavePaymentTerms(ts)) == ts
  {
  }

  function LoadSellers(refs: seq<NamedRef>): (r: seq<Seller>)
    ensures |r| == |refs|
    ensures forall i :: 0 <= i < |refs| ==> r[i].sellerId == refs[i].id && r[i].name == refs[i].name
  {
    seq(|refs|, i requires 0 <= i < |refs| => Seller(refs[i].id, refs[i].name))
  }

  function SaveSellers(ss: seq<Seller>): (r: seq<NamedRef>)
    ensures |r| == |ss|
    ensures forall i :: 0 <= i < |ss| ==> r[i].id == ss[i].sellerId && r[i].name == ss[i].name
  {
    seq(|ss|, i requires 0 <= i < |ss| => NamedRef(ss[i].name, ss[i].sellerId))
  }

  lemma SellersRoundTrip(refs: seq<NamedRef>)
    ensures SaveSellers(LoadSellers(refs)) == refs
  {
  }

  lemma SellersRoundTripBack(ss: seq<Seller>)
    ensures LoadSellers(SaveSellers(ss)) == ss
  {
  }
}
