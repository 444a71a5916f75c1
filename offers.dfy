/** The partner offer catalogue as the admin console reads it: the repository's offers
    passed through the active filter (`Where(offer => offer.IsInactive == false)`). */
module Offers {

  /** A partner offer; IsInactive is the soft-delete flag. The offer's other display
      fields are carried as its title. */
  datatype PartnerOffer = PartnerOffer(id: string, title: string, isInactive: bool)

  /** A read-only entry of the Microsoft offer catalogue. */
  datatype MicrosoftOffer = MicrosoftOffer(id: string, title: string)

  /** The offers whose IsInactive flag is false, in the order given. */
  function ActiveOffers(offers: seq<PartnerOffer>): (active: seq<PartnerOffer>)
    ensures |active| <= |offers|
    ensures forall o :: o in active <==> o in offers && !o.isInactive
  {
    if offers == [] then []
    else if offers[0].isInactive then ActiveOffers(offers[1..])
    else [offers[0]] + ActiveOffers(offers[1..])
  }

  /** `sub` is `s` with some elements left out and the rest in their original order. */
  predicate IsSubsequence<T(==)>(sub: seq<T>, s: seq<T>) {
    if sub == [] then true
    else if s == [] then false
    else if sub[0] == s[0] then IsSubsequence(sub[1..], s[1..])
    else IsSubsequence(sub, s[1..])
  }

  /** The filter keeps the relative order of the offers it returns. */
  lemma {:induction false} ActiveOffersIsSubsequence(offers: seq<PartnerOffer>)
    ensures IsSubsequence(ActiveOffers(offers), offers)
  {
    if offers != [] {
      ActiveOffersIsSubsequence(offers[1..]);
      if offers[0].isInactive {
        SkipHead(ActiveOffers(offers[1..]), offers);
      }
    }
  }

  /** Dropping the head of `s` keeps every subsequence of its tail a subsequence of `s`. */
  lemma SkipHead<T>(sub: seq<T>, s: seq<T>)
    requires s != [] && IsSubsequence(sub, s[1..])
    ensures IsSubsequence(sub, s)
  {
    if sub != [] && sub[0] == s[0] {
      SubsequenceOfTail(sub, s[1..]);
    }
  }

  /** A subsequence stays one when its first element is dropped. */
  lemma {:induction false} SubsequenceOfTail<T>(sub: seq<T>, s: seq<T>)
    requires sub != [] && IsSubsequence(sub, s)
    ensures IsSubsequence(sub[1..], s)
  {
    if sub[0] != s[0] {
      SubsequenceOfTail(sub, s[1..]);
      SkipHead(sub[1..], s);
    } else if sub[1..] != [] {
      SkipHead(sub[1..], s);
    }
  }

  /** Each active offer occurs in the result exactly as often as in the input; no
      inactive offer occurs at all. */
  lemma {:induction false} ActiveOffersCount(offers: seq<PartnerOffer>, o: PartnerOffer)
    ensures multiset(ActiveOffers(offers))[o] == if o.isInactive then 0 else multiset(offers)[o]
  {
    if offers != [] {
      ActiveOffersCount(offers[1..], o);
      assert offers == [offers[0]] + offers[1..];
      assert multiset(offers) == multiset([offers[0]]) + multiset(offers[1..]);
    }
  }

  /** Filtering a concatenation filters each part: the filter works offer by offer,
      independently of the neighbours. */
  lemma {:induction false} ActiveOffersAppend(a: seq<PartnerOffer>, b: seq<PartnerOffer>)
    ensures ActiveOffers(a + b) == ActiveOffers(a) + ActiveOffers(b)
  {
    if a != [] {
      assert (a + b)[1..] == a[1..] + b;
      ActiveOffersAppend(a[1..], b);
    } else {
      assert a + b == b;
    }
  }

  /** A list with no inactive offer passes the filter unchanged. */
  lemma {:induction false} ActiveOffersKeepsActive(offers: seq<PartnerOffer>)
    requires forall i :: 0 <= i < |offers| ==> !offers[i].isInactive
    ensures ActiveOffers(offers) == offers
  {
    if offers != [] {
      ActiveOffersKeepsActive(offers[1..]);
    }
  }

  /** Filtering twice is filtering once. */
  lemma ActiveOffersIdempotent(offers: seq<PartnerOffer>)
    ensures ActiveOffers(ActiveOffers(offers)) == ActiveOffers(offers)
  {
    var active := ActiveOffers(offers);
    forall i | 0 <= i < |active| ensures !active[i].isInactive {
      assert active[i] in active;
    }
    ActiveOffersKeepsActive(active);
  }
}
