/** The review bookkeeping of the doctor detail view: which fetched review is
    the viewer's own, how the list is shown, and which request a submit or a
    delete issues. */
module DoctorDetails {
  import opened Common
  import opened Seqs

  datatype Review = Review(id: int, user: string, rating: int, comment: string, createdAt: string)

  /** The requests the view sends about reviews. */
  datatype ReviewRequest =
    | PostReview(doctor: int, rating: int, comment: string)   // POST /reviews/
    | PatchReview(reviewId: int, rating: int, comment: string) // PATCH /reviews/{id}/
    | DeleteReview(reviewId: int)                             // DELETE /reviews/{id}/

  const DefaultRating: int := 10

  /** The position of the first review written by `u`, or `|rs|` if none is. */
  function FirstIndexBy(rs: seq<Review>, u: string): (i: nat)
    ensures i <= |rs|
    ensures forall j :: 0 <= j < i ==> rs[j].user != u
    ensures i < |rs| ==> rs[i].user == u
  {
    if rs == [] then 0
    else if rs[0].user == u then 0
    else 1 + FirstIndexBy(rs[1..], u)
  }

  /** `allReviews.find(r => r.user === u)`. */
  function FindMine(rs: seq<Review>, u: string): (r: Option<Review>)
    ensures r.Some? ==> r.value in rs && r.value.user == u
    ensures r.None? <==> forall k :: 0 <= k < |rs| ==> rs[k].user != u
  {
    var i := FirstIndexBy(rs, u);
    if i < |rs| then Some(rs[i]) else None
  }

  function NotBy(u: string): Review -> bool
  {
    (r: Review) => r.user != u
  }

  /** `allReviews.filter(r => r.user !== u)`. */
  function Others(rs: seq<Review>, u: string): (r: seq<Review>)
    ensures forall x :: x in r <==> x in rs && x.user != u
  {
    Filter(rs, NotBy(u))
  }

  /** What a successful fetch shows to a signed-in viewer. */
  datatype Listing = Listing(mine: Option<Review>, shown: seq<Review>)

  function Arrange(all: seq<Review>, u: string): Listing
  {
    var mine := FindMine(all, u);
    if mine.Some? then Listing(mine, [mine.value] + Others(all, u))
    else Listing(None, all)
  }

  /** When the viewer has a review it comes first, followed by every review
      of other authors in their order; the viewer's later reviews are dropped. */
  lemma ArrangeMineFirst(all: seq<Review>, u: string)
    requires exists k :: 0 <= k < |all| && all[k].user == u
    ensures var l := Arrange(all, u);
      && l.mine.Some? && l.mine.value.user == u
      && l.mine.value == all[FirstIndexBy(all, u)]
      && (forall j :: 0 <= j < FirstIndexBy(all, u) ==> all[j].user != u)
      && |l.shown| >= 1 && l.shown[0] == l.mine.value
      && (forall i :: 1 <= i < |l.shown| ==> l.shown[i].user != u)
      && Subsequence(l.shown[1..], all)
      && (forall r :: r in all && r.user != u ==> r in l.shown[1..])
      && (forall r :: multiset(l.shown[1..])[r] == if r.user != u then multiset(all)[r] else 0)
  {
    var l := Arrange(all, u);
    var k :| 0 <= k < |all| && all[k].user == u;
    assert FirstIndexBy(all, u) <= k;
    assert l.shown[1..] == Others(all, u);
    FilterIsSubsequence(all, NotBy(u));
    forall i | 1 <= i < |l.shown| ensures l.shown[i].user != u {
      assert l.shown[i] == l.shown[1..][i - 1];
      assert l.shown[i] in Others(all, u);
    }
  }

  /** Without a review by the viewer nothing is marked as theirs and the list
      is shown as fetched, which is also what filtering out the viewer gives. */
  lemma ArrangeNoMatch(all: seq<Review>, u: string)
    requires forall k :: 0 <= k < |all| ==> all[k].user != u
    ensures Arrange(all, u) == Listing(None, all)
    ensures Others(all, u) == all
  {
    FilterKeepsAll(all, NotBy(u));
  }

  /** The request a submit sends: none without a doctor, an update of the
      viewer's review when there is one, a creation otherwise. */
  function SubmitRequest(doctor: Option<int>, mine: Option<Review>, rating: int, comment: string): (req: Option<ReviewRequest>)
    ensures req.None? <==> doctor.None?
    ensures doctor.Some? && mine.Some? ==> req == Some(PatchReview(mine.value.id, rating, comment))
    ensures doctor.Some? && mine.None? ==> req == Some(PostReview(doctor.value, rating, comment))
  {
    if doctor.None? then None
    else if mine.Some? then Some(PatchReview(mine.value.id, rating, comment))
    else Some(PostReview(doctor.value, rating, comment))
  }

  /** Once the list fetched for a signed-in viewer holds their review, a
      submit updates that review instead of creating a second one. */
  lemma SubmitAfterOwnReviewUpdates(doctor: int, all: seq<Review>, u: string, rating: int, comment: string)
    requires exists k :: 0 <= k < |all| && all[k].user == u
    ensures var mine := Arrange(all, u).mine;
      mine.Some? && mine.value.user == u &&
      SubmitRequest(Some(doctor), mine, rating, comment) == Some(PatchReview(mine.value.id, rating, comment))
  {
    ArrangeMineFirst(all, u);
  }

  /** The detail view's state. `doctor` is the id of the doctor shown. */
  class DetailView {
    var doctor: Option<int>
    var reviews: seq<Review>
    var myReview: Option<Review>
    var isWriteOpen: bool
    var isSuccessOpen: bool
    var isDeleteOpen: bool
    var rating: int
    var comment: string
    var loading: bool

    constructor (doctor: Option<int>)
      ensures this.doctor == doctor && reviews == [] && myReview == None
      ensures !isWriteOpen && !isSuccessOpen && !isDeleteOpen && !loading
      ensures rating == DefaultRating && comment == ""
    {
      this.doctor := doctor;
      reviews := [];
      myReview := None;
      isWriteOpen, isSuccessOpen, isDeleteOpen := false, false, false;
      rating, comment := DefaultRating, "";
      loading := false;
    }

    /** `fetchReviews`. The viewer is identified by `username` when the user
        record is present; `response` is `None` when the request fails. */
    method FetchReviews(authenticated: bool, username: Option<string>, response: Option<seq<Review>>)
      modifies this`reviews, this`myReview
      ensures doctor.None? || response.None? ==> reviews == old(reviews) && myReview == old(myReview)
      ensures doctor.Some? && response.Some? && authenticated && username.Some? ==>
                Listing(myReview, reviews) == Arrange(response.value, username.value)
      ensures doctor.Some? && response.Some? && !(authenticated && username.Some?) ==>
                reviews == response.value && myReview == old(myReview)
    {
      if doctor.None? {
        return;
      }
      if response.Some? {
        var allReviews := response.value;
        if authenticated && username.Some? {
          var mine := FindMine(allReviews, username.value);
          var others := Others(allReviews, username.value);
          if mine.Some? {
            myReview := mine;
            reviews := [mine.value] + others;
          } else {
            myReview := None;
            reviews := allReviews;
          }
        } else {
          reviews := allReviews;
        }
      }
    }

    /** `handleOpenWrite`: prefill from the viewer's review or use the defaults. */
    method OpenWrite()
      modifies this`rating, this`comment, this`isWriteOpen
      ensures myReview.Some? ==> rating == myReview.value.rating && comment == myReview.value.comment
      ensures myReview.None? ==> rating == DefaultRating && comment == ""
      ensures isWriteOpen
    {
      if myReview.Some? {
        rating := myReview.value.rating;
        comment := myReview.value.comment;
      } else {
        rating := DefaultRating;
        comment := "";
      }
      isWriteOpen := true;
    }

    /** `handleSubmitReview`: one request, then on success the dialogs switch
        and the list is fetched again (`refetch`). */
    method SubmitReview(ok: bool, authenticated: bool, username: Option<string>, refetch: Option<seq<Review>>)
      returns (req: Option<ReviewRequest>)
      modifies this
      ensures req == SubmitRequest(old(doctor), old(myReview), old(rating), old(comment))
      ensures doctor == old(doctor) && rating == old(rating) && comment == old(comment)
      ensures req.None? ==> unchanged(this)
      ensures req.Some? ==> !loading && isDeleteOpen == old(isDeleteOpen)
      ensures req.Some? && ok ==> !isWriteOpen && isSuccessOpen
      ensures req.Some? && ok && refetch.Some? && authenticated && username.Some? ==>
                Listing(myReview, reviews) == Arrange(refetch.value, username.value)
      ensures req.Some? && ok && refetch.Some? && !(authenticated && username.Some?) ==>
                reviews == refetch.value && myReview == old(myReview)
      ensures req.Some? && ok && refetch.None? ==> reviews == old(reviews) && myReview == old(myReview)
      ensures req.Some? && !ok ==> isWriteOpen == old(isWriteOpen) && isSuccessOpen == old(isSuccessOpen)
      ensures req.Some? && !ok ==> reviews == old(reviews) && myReview == old(myReview)
    {
      req := SubmitRequest(doctor, myReview, rating, comment);
      if req.None? {
        return;
      }
      loading := true;
      if ok {
        isWriteOpen := false;
        isSuccessOpen := true;
        FetchReviews(authenticated, username, refetch);
      }
      loading := false;
    }

    /** `handleDeleteReview`: nothing without the viewer's review; on success
        the review is forgotten before the list is fetched again. */
    method DeleteMyReview(ok: bool, authenticated: bool, username: Option<string>, refetch: Option<seq<Review>>)
      returns (req: Option<ReviewRequest>)
      modifies this
      ensures old(myReview).None? ==> req.None? && unchanged(this)
      ensures old(myReview).Some? ==> req == Some(DeleteReview(old(myReview).value.id))
      ensures doctor == old(doctor) && rating == old(rating) && comment == old(comment)
      ensures isWriteOpen == old(isWriteOpen) && isSuccessOpen == old(isSuccessOpen)
      ensures req.Some? ==> !loading
      ensures req.Some? && ok ==> !isDeleteOpen
      ensures req.Some? && ok && (doctor.None? || refetch.None? || !(authenticated && username.Some?)) ==>
                myReview == None
      ensures req.Some? && ok && doctor.Some? && refetch.Some? && authenticated && username.Some? ==>
                Listing(myReview, reviews) == Arrange(refetch.value, username.value)
      ensures req.Some? && ok && (doctor.None? || refetch.None?) ==> reviews == old(reviews)
      ensures req.Some? && ok && doctor.Some? && refetch.Some? && !(authenticated && username.Some?) ==>
                reviews == refetch.value
      ensures req.Some? && !ok ==> myReview == old(myReview) && reviews == old(reviews) && isDeleteOpen == old(isDeleteOpen)
    {
      if myReview.None? {
        return None;
      }
      loading := true;
      req := Some(DeleteReview(myReview.value.id));
      if ok {
        isDeleteOpen := false;
        myReview := None;
        FetchReviews(authenticated, username, refetch);
      }
      loading := false;
    }
  }

  /** Creating a review for doctor 12 when none exists posts it; once the
      fetched list holds it, repeating the action updates that review. */
  method CreateThenUpdate(u: string) returns (first: Option<ReviewRequest>, second: Option<ReviewRequest>)
    ensures first == Some(PostReview(12, 10, "Great"))
    ensures second == Some(PatchReview(5, 10, "Great"))
  {
    var view := new DetailView(Some(12));
    view.FetchReviews(true, Some(u), Some([]));
    view.OpenWrite();
    view.comment := "Great";
    var mine := Review(5, u, 10, "Great", "");
    first := view.SubmitReview(true, true, Some(u), Some([mine]));
    view.OpenWrite();
    second := view.SubmitReview(true, true, Some(u), Some([mine]));
  }
}
