/** Field types that donations and requests share: the item category, the delivery
    status and the feedback sub-document. */
module Items {
  import opened Common

  /** The six item categories. */
  datatype Category = Food | Clothing | Medical | Shelter | Education | Other

  function CategoryName(c: Category): string {
    match c
    case Food => "food"
    case Clothing => "clothing"
    case Medical => "medical"
    case Shelter => "shelter"
    case Education => "education"
    case Other => "other"
  }

  /** Membership test against the six category strings. */
  function ParseCategory(s: string): (r: Option<Category>)
    ensures r.Some? ==> CategoryName(r.value) == s
    ensures r.None? ==> forall c :: CategoryName(c) != s
  {
    if s == "food" then Some(Food)
    else if s == "clothing" then Some(Clothing)
    else if s == "medical" then Some(Medical)
    else if s == "shelter" then Some(Shelter)
    else if s == "education" then Some(Education)
    else if s == "other" then Some(Other)
    else None
  }

  lemma CategoryNameRoundTrip(c: Category)
    ensures ParseCategory(CategoryName(c)) == Some(c)
  {
  }

  datatype DeliveryStatus = DeliveryPending | Scheduled | InTransit | Delivered | DeliveryFailed

  /** The feedback sub-document; every part is optional. */
  datatype Feedback = Feedback(rating: Option<int>, comment: Option<string>, date: Option<Time>)

  const NoFeedback: Feedback := Feedback(None, None, None)

  /** The schema bounds a rating, when one is present, to 1..5. */
  predicate FeedbackValid(f: Feedback) {
    f.rating.Some? ==> 1 <= f.rating.value <= 5
  }
}
