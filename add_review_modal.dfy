/** The review dialog: a star rating and a comment validated by a schema,
    the `addReview` request and the transaction lifecycle flags. */
module Review {
  import opened JsString
  import opened Types
  import opened Stars

  const MinRating: int := 1
  const MaxRating: int := 5
  const MinCommentLength: nat := 10
  const MaxCommentLength: nat := 500

  const ReviewFunction: string := "addReview"

  /** The issues the schema reports, one per failed check. */
  datatype Issue = RatingTooLow | RatingTooHigh | CommentTooShort | CommentTooLong

  /** The schema's checks, in field order: `rating` a number in [1, 5],
      `comment` a string of 10 to 500 characters. */
  function Issues(rating: int, comment: string): (r: seq<Issue>)
    ensures r == [] <==> MinRating <= rating <= MaxRating && MinCommentLength <= |comment| <= MaxCommentLength
    ensures RatingTooLow in r <==> rating < 1
    ensures RatingTooHigh in r <==> rating > 5
    ensures CommentTooShort in r <==> |comment| < 10
    ensures CommentTooLong in r <==> |comment| > 500
  {
    (if rating < MinRating then [RatingTooLow] else [])
    + (if rating > MaxRating then [RatingTooHigh] else [])
    + (if |comment| < MinCommentLength then [CommentTooShort] else [])
    + (if |comment| > MaxCommentLength then [CommentTooLong] else [])
  }

  predicate FormValid(rating: int, comment: string) {
    Issues(rating, comment) == []
  }

  /** The comment bounds are inclusive on both ends. */
  lemma CommentBoundaries(rating: int, c9: string, c10: string, c500: string, c501: string)
    requires 1 <= rating <= 5
    requires |c9| == 9 && |c10| == 10 && |c500| == 500 && |c501| == 501
    ensures !FormValid(rating, c9) && FormValid(rating, c10)
    ensures FormValid(rating, c500) && !FormValid(rating, c501)
  {
  }

  /** The form's defaults (no stars, no comment) do not validate. */
  lemma DefaultsRejected()
    ensures Issues(0, "") == [RatingTooLow, CommentTooShort]
  {
  }

  /** `[BigInt(roomId), BigInt(rating), comment]`. */
  function ReviewRequest(roomId: nat, rating: int, comment: string): (r: WriteRequest)
    ensures r.functionName == ReviewFunction && |r.args| == 3
    ensures r.args[0] == Big(roomId) && r.args[1] == Big(rating) && r.args[2] == Text(comment)
  {
    WriteRequest(ReviewFunction, [Big(roomId), Big(rating), Text(comment)])
  }

  /** A request carrying a rating and a comment the schema accepts. */
  predicate IsValidReviewRequest(w: WriteRequest, roomId: nat) {
    && w.functionName == ReviewFunction
    && |w.args| == 3
    && w.args[0] == Big(roomId)
    && w.args[1].Big? && w.args[2].Text?
    && FormValid(w.args[1].n, w.args[2].s)
  }

  /** `isLoading || isConfirming || rating === 0`. */
  predicate SubmitDisabled(isLoading: bool, isConfirming: bool, rating: int) {
    isLoading || isConfirming || rating == 0
  }

  /** On the values the star widget can produce (0 before any click, then
      1..5), the button's `rating === 0` check is exactly the schema's
      rating check. */
  lemma DisabledMatchesRatingRule(rating: int)
    requires 0 <= rating <= StarCount
    ensures rating == 0 <==> RatingTooLow in Issues(rating, "")
    ensures rating != 0 ==> RatingTooHigh !in Issues(rating, "")
  {
  }

  function SubmitLabel(isLoading: bool, isConfirming: bool): (r: string)
    ensures r == "Submit Review" <==> !isLoading && !isConfirming
    ensures isConfirming ==> r == "Confirming..."
  {
    if isConfirming then "Confirming..." else if isLoading then "Submitting..." else "Submit Review"
  }

  /** One review dialog for room `roomId`, owning its star widget. The
      rating field is only ever written by the widget's `onChange` and by
      the form reset. */
  class AddReviewModal {
    const roomId: nat
    const stars: StarRating
    var rating: int
    var comment: string
    var isLoading: bool
    var open: bool
    var requests: seq<WriteRequest>
    var successCalls: nat

    ghost predicate Valid()
      reads this, stars
    {
      && stars.Valid()
      && 0 <= rating <= MaxRating
      && (isLoading ==> requests != [])
      && forall i :: 0 <= i < |requests| ==> IsValidReviewRequest(requests[i], roomId)
    }

    constructor (roomId: nat)
      ensures Valid() && fresh(stars)
      ensures this.roomId == roomId && rating == 0 && comment == ""
      ensures !isLoading && !open && requests == [] && successCalls == 0
    {
      this.roomId := roomId;
      stars := new StarRating();
      rating := 0;
      comment := "";
      isLoading := false;
      open := false;
      requests := [];
      successCalls := 0;
    }

    /** The widget and the text area are disabled while loading or confirming. */
    predicate InputsDisabled(isConfirming: bool)
      reads this
    {
      isLoading || isConfirming
    }

    /** A click on star `star`: the widget's `onChange` sets the rating. */
    method ClickStar(star: int, isConfirming: bool)
      requires Valid() && open && 1 <= star <= StarCount
      modifies this
      ensures Valid()
      ensures rating == if InputsDisabled(isConfirming) then old(rating) else star
      ensures comment == old(comment) && isLoading == old(isLoading) && open == old(open)
      ensures requests == old(requests) && successCalls == old(successCalls)
    {
      var changed := stars.Click(star, isLoading || isConfirming);
      if changed.Some? {
        rating := changed.value;
      }
    }

    method HoverStar(star: int, isConfirming: bool)
      requires Valid() && open && 1 <= star <= StarCount
      modifies stars
      ensures Valid()
      ensures stars.hoverValue == if InputsDisabled(isConfirming) then old(stars.hoverValue) else star
    {
      stars.Enter(star, isLoading || isConfirming);
    }

    method LeaveStar(isConfirming: bool)
      requires Valid() && open
      modifies stars
      ensures Valid()
      ensures stars.hoverValue == if InputsDisabled(isConfirming) then old(stars.hoverValue) else 0
    {
      stars.Leave(isLoading || isConfirming);
    }

    method EditComment(value: string, isConfirming: bool)
      requires Valid() && open
      modifies this
      ensures Valid()
      ensures comment == if InputsDisabled(isConfirming) then old(comment) else value
      ensures rating == old(rating) && isLoading == old(isLoading) && open == old(open)
      ensures requests == old(requests) && successCalls == old(successCalls)
    {
      if !(isLoading || isConfirming) {
        comment := value;
      }
    }

    /** Pressing "Submit Review". A disabled button or a failed validation
        does nothing; otherwise `isLoading` is set and the request goes out,
        and a write that throws is caught, clearing `isLoading` and leaving
        the dialog open. */
    method Submit(isConfirming: bool, writeThrows: bool)
      requires Valid() && open
      modifies this
      ensures Valid()
      ensures rating == old(rating) && comment == old(comment)
      ensures open == old(open) && successCalls == old(successCalls)
      ensures
        var attempted := !SubmitDisabled(old(isLoading), isConfirming, rating) && FormValid(rating, comment);
        if !attempted then
          isLoading == old(isLoading) && requests == old(requests)
        else if writeThrows then
          !isLoading && requests == old(requests)
        else
          isLoading && requests == old(requests) + [ReviewRequest(roomId, rating, comment)]
    {
      if SubmitDisabled(isLoading, isConfirming, rating) || !FormValid(rating, comment) {
        return;
      }
      isLoading := true;
      if writeThrows {
        isLoading := false;
      } else {
        requests := requests + [ReviewRequest(roomId, rating, comment)];
      }
    }

    /** The success effect: reset the form, call `onSuccess`, close the
        dialog, clear `isLoading`. */
    method Confirm()
      requires Valid()
      modifies this
      ensures Valid()
      ensures rating == 0 && comment == "" && !open && !isLoading
      ensures successCalls == old(successCalls) + 1 && requests == old(requests)
    {
      rating := 0;
      comment := "";
      successCalls := successCalls + 1;
      open := false;
      isLoading := false;
    }

    method Dismiss()
      requires Valid()
      modifies this`open
      ensures Valid() && !open
    {
      open := false;
    }
  }
}
