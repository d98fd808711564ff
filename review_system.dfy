/** The review panel of a homestay (src/components/ReviewSystem.tsx): the
    reviews it displays, the star and comment inputs, and the submit handler
    that only tourists can use. */
module ReviewSystem {
  import opened Types
  import opened Seqs
  import opened Storage
  import Text

  /** The rating a fresh or just-submitted form shows. */
  const DefaultRating: int := 5

  /** The stored reviews that belong to one homestay, in stored order. */
  function ReviewsFor(all: seq<Review>, homestayId: string): seq<Review> {
    Filter(all, (r: Review) => r.homestayId == homestayId)
  }

  /** The displayed reviews are exactly the stored reviews of the homestay,
      in stored order. */
  lemma ReviewsForSpec(all: seq<Review>, homestayId: string)
    ensures IsFilterOf(ReviewsFor(all, homestayId), all, (r: Review) => r.homestayId == homestayId)
    ensures forall r :: r in ReviewsFor(all, homestayId) <==> r in all && r.homestayId == homestayId
  {
    FilterIsFilterOf(all, (r: Review) => r.homestayId == homestayId);
    FilterMembership(ReviewsFor(all, homestayId), all, (r: Review) => r.homestayId == homestayId);
  }

  /** The submit guard: a signed-in user whose role is Tourist. */
  predicate CanReview(user: Option<User>) {
    user.Some? && user.value.role == Tourist
  }

  function NewReview(homestayId: string, u: User, rating: int, comment: string, stamp: int, date: string): Review {
    Review(Text.IntToString(stamp), homestayId, u.id, u.name, rating, comment, date)
  }

  /** A review stored for the homestay comes LAST when the panel is loaded
      again, although the submit handler shows it FIRST. */
  lemma {:induction false} StoredReviewLoadsLast(all: seq<Review>, r: Review)
    ensures ReviewsFor(all + [r], r.homestayId) == ReviewsFor(all, r.homestayId) + [r]
  {
    FilterConcat(all, [r], (x: Review) => x.homestayId == r.homestayId);
    assert [r][1..] == [];
  }

  class ReviewPanel {
    /** The homestay prop: the first homestay of the listing page's result,
        so it changes whenever a search or filter changes that first result. */
    var homestayId: string
    const user: Option<User>
    /** The list on screen. */
    var reviews: seq<Review>
    var rating: int
    var comment: string

    /** The selected rating is one of the five stars. */
    ghost predicate Valid()
      reads this
    {
      1 <= rating <= 5
    }

    /** Mounting the panel: load the homestay's reviews, rating 5, empty comment. */
    constructor (store: Store, homestayId: string, user: Option<User>)
      ensures Valid()
      ensures this.homestayId == homestayId && this.user == user
      ensures reviews == ReviewsFor(store.reviews, homestayId)
      ensures rating == DefaultRating && comment == ""
    {
      this.homestayId, this.user := homestayId, user;
      reviews := ReviewsFor(store.reviews, homestayId);
      rating, comment := 5, "";
    }

    /** The effect keyed on the homestay prop, re-run when the prop changes:
        the list is reloaded for the new homestay, while the selected rating
        and the comment keep their values. */
    method ChangeHomestay(store: Store, id: string)
      requires Valid()
      modifies this`homestayId, this`reviews
      ensures Valid()
      ensures homestayId == id && reviews == ReviewsFor(store.reviews, id)
      ensures forall r :: r in reviews <==> r in store.reviews && r.homestayId == id
    {
      ReviewsForSpec(store.reviews, id);
      homestayId := id;
      reviews := ReviewsFor(store.reviews, id);
    }

    /** Clicking one of the star buttons. */
    method SelectStar(star: int)
      requires 1 <= star <= 5
      modifies this`rating
      ensures Valid() && rating == star
    {
      rating := star;
    }

    /** Typing in the comment box. */
    method EditComment(text: string)
      requires Valid()
      modifies this`comment
      ensures Valid() && comment == text
    {
      comment := text;
    }

    /** handleSubmit: nothing happens unless a tourist is signed in. Otherwise
        the review is appended to the store, shown at the front of the list,
        and the form is reset. */
    method HandleSubmit(store: Store, stamp: int, date: string)
      requires Valid()
      modifies this`reviews, this`rating, this`comment, store`reviews
      ensures Valid()
      ensures !CanReview(user) ==>
        && store.reviews == old(store.reviews)
        && reviews == old(reviews) && rating == old(rating) && comment == old(comment)
      ensures CanReview(user) ==>
        var r := NewReview(homestayId, user.value, old(rating), old(comment), stamp, date);
        && store.reviews == old(store.reviews) + [r]
        && reviews == [r] + old(reviews)
        && r.homestayId == homestayId && r.userId == user.value.id && r.userName == user.value.name
        && 1 <= r.rating <= 5
        && rating == DefaultRating && comment == ""
    {
      if !CanReview(user) {
        return;
      }
      var r := NewReview(homestayId, user.value, rating, comment, stamp, date);
      store.SaveReview(r);
      reviews := [r] + reviews;
      comment := "";
      rating := 5;
    }
  }
}
