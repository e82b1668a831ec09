/** The "my reviews" page: the viewer's reviews, deleting one and editing one. */
module MyReviews {
  import opened Common
  import opened Seqs

  datatype OwnReview = OwnReview(id: int, doctor: int, doctorName: string, rating: int, comment: string, createdAt: string)

  /** `PATCH /reviews/{id}/` with the edited rating and comment. */
  datatype UpdateRequest = UpdateRequest(reviewId: int, rating: int, comment: string)

  function IdIsNot(id: int): OwnReview -> bool
  {
    (r: OwnReview) => r.id != id
  }

  /** `reviews.filter(r => r.id !== id)`. */
  function RemoveById(rs: seq<OwnReview>, id: int): seq<OwnReview>
  {
    Filter(rs, IdIsNot(id))
  }

  /** Removing by id drops every review with that id and keeps the others in
      their order. */
  lemma {:induction false} RemoveByIdSpec(rs: seq<OwnReview>, id: int)
    ensures Subsequence(RemoveById(rs, id), rs)
    ensures forall r :: r in RemoveById(rs, id) <==> r in rs && r.id != id
    ensures forall r :: multiset(RemoveById(rs, id))[r] == if r.id != id then multiset(rs)[r] else 0
    ensures (forall i :: 0 <= i < |rs| ==> rs[i].id != id) ==> RemoveById(rs, id) == rs
  {
    FilterIsSubsequence(rs, IdIsNot(id));
    if forall i :: 0 <= i < |rs| ==> rs[i].id != id {
      FilterKeepsAll(rs, IdIsNot(id));
    }
  }

  class MyReviewsPage {
    var reviews: seq<OwnReview>
    var loading: bool
    var editingReview: Option<OwnReview>
    var editRating: int
    var editComment: string

    constructor ()
      ensures reviews == [] && loading && editingReview == None
      ensures editRating == 10 && editComment == ""
    {
      reviews, loading, editingReview := [], true, None;
      editRating, editComment := 10, "";
    }

    /** `fetchReviews`: `response` is `None` when the request fails. */
    method FetchReviews(response: Option<seq<OwnReview>>)
      modifies this`reviews, this`loading
      ensures reviews == if response.Some? then response.value else old(reviews)
      ensures !loading
    {
      loading := true;
      if response.Some? {
        reviews := response.value;
      }
      loading := false;
    }

    /** `handleDelete`: `confirmed` is the answer to the confirmation, `ok` the
        outcome of the delete request. Returns whether it was sent. */
    method Delete(id: int, confirmed: bool, ok: bool) returns (sent: bool)
      modifies this`reviews
      ensures sent == confirmed
      ensures reviews == if sent && ok then RemoveById(old(reviews), id) else old(reviews)
    {
      if !confirmed {
        return false;
      }
      sent := true;
      if ok {
        reviews := RemoveById(reviews, id);
      }
    }

    /** `openEdit`: start editing `review` with its current rating and comment. */
    method OpenEdit(review: OwnReview)
      modifies this`editingReview, this`editRating, this`editComment
      ensures editingReview == Some(review)
      ensures editRating == review.rating && editComment == review.comment
    {
      editingReview := Some(review);
      editRating := review.rating;
      editComment := review.comment;
    }

    /** `handleUpdate`: nothing without a review being edited; on success the
        edit closes and the list is fetched again (`refetch`). */
    method Update(ok: bool, refetch: Option<seq<OwnReview>>) returns (req: Option<UpdateRequest>)
      modifies this`editingReview, this`reviews, this`loading
      ensures old(editingReview).None? ==> req.None? && unchanged(this)
      ensures old(editingReview).Some? ==>
                req == Some(UpdateRequest(old(editingReview).value.id, editRating, editComment))
      ensures req.Some? && ok ==> editingReview == None && !loading
      ensures req.Some? && ok ==> reviews == if refetch.Some? then refetch.value else old(reviews)
      ensures req.Some? && !ok ==> editingReview == old(editingReview) && reviews == old(reviews) && loading == old(loading)
    {
      if editingReview.None? {
        return None;
      }
      req := Some(UpdateRequest(editingReview.value.id, editRating, editComment));
      if ok {
        editingReview := None;
        FetchReviews(refetch);
      }
    }
  }
}
