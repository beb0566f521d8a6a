/** The review submission handler (`POST /api/reviews`): validation of the
    author and the rating, normalisation of the stored fields, and the
    append to the review list. The id and the clock are parameters. */
module ReviewApi {
  import opened Wrappers
  import opened Js
  import opened Reviews

  datatype Review = Review(id: string, author: string, rating: int, comment: string, createdAt: int)

  /** The request body: `author` and `comment` are `None` when absent or not
      strings; `rating` is `Number(rating)`, `None` when that is `NaN`. */
  datatype ReviewRequest = ReviewRequest(author: Option<string>, rating: Option<real>, comment: Option<string>)

  const AUTHOR_REQUIRED: string := "Author name is required"
  const RATING_OUT_OF_RANGE: string := "Rating must be a number between 1 and 5"
  const MAX_AUTHOR: nat := 100
  const MAX_COMMENT: nat := 1000

  predicate AuthorValid(req: ReviewRequest) {
    TruthyStr(req.author) && Trim(req.author.value) != ""
  }

  predicate RatingValid(req: ReviewRequest) {
    req.rating.Some? && 1.0 <= req.rating.value <= 5.0
  }

  /** `String(author).trim().slice(0, 100)`. */
  function StoredAuthor(author: string): (r: string)
    requires Trim(author) != ""
    ensures |r| == (if |Trim(author)| <= MAX_AUTHOR then |Trim(author)| else MAX_AUTHOR)
    ensures r != "" && r == Trim(author)[..|r|]
  {
    Take(Trim(author), MAX_AUTHOR)
  }

  /** `Math.round(r)` of a rating already checked to lie in [1, 5]. */
  function StoredRating(x: real): (k: int)
    requires 1.0 <= x <= 5.0
    ensures 1 <= k <= 5
    ensures k as real - 0.5 <= x < k as real + 0.5
  {
    var k := Round(x);
    assert 0.5 < k as real < 6.0;
    k
  }

  /** The comment trimmed and cut to 1000 characters, '' when not a string. */
  function StoredComment(comment: Option<string>): (r: string)
    ensures comment.None? ==> r == ""
    ensures comment.Some? ==>
      && |r| == (if |Trim(comment.value)| <= MAX_COMMENT then |Trim(comment.value)| else MAX_COMMENT)
      && r == Trim(comment.value)[..|r|]
  {
    if comment.Some? then Take(Trim(comment.value), MAX_COMMENT) else ""
  }

  /** The record stored for a valid request, or the 400 message. */
  function ValidatedReview(req: ReviewRequest, id: string, now: int): (r: Result<Review, string>)
    ensures r.Ok? <==> AuthorValid(req) && RatingValid(req)
    ensures !AuthorValid(req) ==> r == Err(AUTHOR_REQUIRED)
    ensures AuthorValid(req) && !RatingValid(req) ==> r == Err(RATING_OUT_OF_RANGE)
    ensures r.Ok? ==> 1 <= r.value.rating <= 5
    ensures r.Ok? ==> r.value.rating as real - 0.5 <= req.rating.value < r.value.rating as real + 0.5
    ensures r.Ok? ==> r.value.author == Take(Trim(req.author.value), MAX_AUTHOR) && r.value.author != ""
    ensures r.Ok? && req.comment.None? ==> r.value.comment == ""
    ensures r.Ok? && req.comment.Some? ==> r.value.comment == Take(Trim(req.comment.value), MAX_COMMENT)
    ensures r.Ok? ==> r.value.id == id && r.value.createdAt == now
  {
    if !AuthorValid(req) then Err(AUTHOR_REQUIRED)
    else if !RatingValid(req) then Err(RATING_OUT_OF_RANGE)
    else
      Ok(Review(id, StoredAuthor(req.author.value), StoredRating(req.rating.value), StoredComment(req.comment), now))
  }

  /** The review list the handler reads and writes back. */
  class ReviewStore {
    var reviews: seq<Review>

    constructor (initial: seq<Review>)
      ensures reviews == initial
    {
      reviews := initial;
    }

    /** `POST /api/reviews` on the list: a valid review is appended, an
        invalid request leaves the list as it was. */
    method AddReview(req: ReviewRequest, id: string, now: int) returns (r: Result<Review, string>)
      modifies this
      ensures r == ValidatedReview(req, id, now)
      ensures r.Ok? ==> reviews == old(reviews) + [r.value]
      ensures r.Err? ==> reviews == old(reviews)
    {
      r := ValidatedReview(req, id, now);
      if r.Ok? {
        reviews := reviews + [r.value];
      }
    }
  }

  /** A stored review's rating is whole and in range, so the widget shows
      exactly that many full stars. */
  lemma StoredRatingShowsItsStars(req: ReviewRequest, id: string, now: int)
    requires ValidatedReview(req, id, now).Ok?
    ensures var k := ValidatedReview(req, id, now).value.rating;
      Stars(Some(k as real)) == Repeat(FULL_STAR, k) + Repeat(EMPTY_STAR, 5 - k)
  {
    var k := ValidatedReview(req, id, now).value.rating;
    assert Round(k as real) == k;
  }
}
