/**
  The review document: field validators, a ledger of helpfulness votes with at
  most one vote per user and counters recounted from it, a list of flags that
  puts the review under moderation once it is long enough, moderation itself,
  and the approval of reviews from verified purchases on save.
*/
module ReviewModel {
  import opened Common

  type UserId = nat

  datatype VoteKind = Helpful | NotHelpful

  datatype Vote = Vote(user: UserId, vote: VoteKind, votedAt: int)

  datatype FlagReason = Inappropriate | Spam | Fake | Offensive | Irrelevant

  datatype Flag = Flag(user: UserId, reason: FlagReason, note: Option<string>, flaggedAt: int)

  datatype ModerationStatus = Pending | Approved | Rejected | Flagged

  datatype Response = Response(comment: string, respondedBy: UserId, respondedAt: int)

  /** The number of flags at which a review is taken out of circulation. */
  const FlagThreshold: nat := 3

  // ---------------------------------------------------------------------------
  // Field validators
  // ---------------------------------------------------------------------------

  /** A star rating between 1 and 5 inclusive. */
  predicate StarsValid(stars: int)
  {
    1 <= stars <= 5
  }

  /** The optional sub-ratings are checked only when present. */
  predicate OptionalStarsValid(stars: Option<int>)
  {
    stars.None? || StarsValid(stars.value)
  }

  /**
    The length JavaScript reports for a string: its UTF-16 code units, so a
    character outside the Basic Multilingual Plane counts twice.
  */
  function Utf16Length(s: string): (n: nat)
    ensures |s| <= n <= 2 * |s|
    decreases |s|
  {
    if s == [] then 0
    else (if s[0] > '\U{FFFF}' then 2 else 1) + Utf16Length(s[1..])
  }

  /** A string of Basic Multilingual Plane characters is as long in UTF-16 as in characters. */
  lemma {:induction false} Utf16LengthBmp(s: string)
    requires forall i :: 0 <= i < |s| ==> s[i] <= '\U{FFFF}'
    ensures Utf16Length(s) == |s|
    decreases |s|
  {
    if s != [] {
      Utf16LengthBmp(s[1..]);
    }
  }

  /** A string made only of characters beyond the Basic Multilingual Plane (emoji, say) counts each twice. */
  lemma {:induction false} Utf16LengthAstral(s: string)
    requires forall i :: 0 <= i < |s| ==> s[i] > '\U{FFFF}'
    ensures Utf16Length(s) == 2 * |s|
    decreases |s|
  {
    if s != [] {
      Utf16LengthAstral(s[1..]);
    }
  }

  /** Required (so not empty) and at most max characters, counted as `String.length` counts them. */
  predicate TextValid(s: string, max: nat)
  {
    s != "" && Utf16Length(s) <= max
  }

  /** A title of 51 or more emoji fails the 100-character limit, though it has at most 100 characters. */
  lemma {:induction false} AstralTitleLimit(title: string)
    requires forall i :: 0 <= i < |title| ==> title[i] > '\U{FFFF}'
    ensures TextValid(title, 100) <==> 1 <= |title| <= 50
  {
    Utf16LengthAstral(title);
  }

  /** The schema validators of the review's own fields. */
  predicate FieldsValid(rating: int, qualityRating: Option<int>, valueRating: Option<int>, title: string, comment: string)
  {
    && StarsValid(rating)
    && OptionalStarsValid(qualityRating)
    && OptionalStarsValid(valueRating)
    && TextValid(title, 100)
    && TextValid(comment, 1000)
  }

  // ---------------------------------------------------------------------------
  // The vote ledger
  // ---------------------------------------------------------------------------

  /** The filter of addHelpfulVote: every vote not cast by the user, in order. */
  function WithoutUser(votes: seq<Vote>, u: UserId): (r: seq<Vote>)
    ensures |r| <= |votes|
    ensures forall v :: v in r <==> v in votes && v.user != u
    decreases |votes|
  {
    if votes == [] then []
    else
      var n := |votes| - 1;
      assert votes == votes[..n] + [votes[n]];
      var rest := WithoutUser(votes[..n], u);
      if votes[n].user != u then rest + [votes[n]] else rest
  }

  /** The filter works vote by vote, so the votes it keeps stay in their order, repeats included. */
  lemma {:induction false} WithoutUserConcat(a: seq<Vote>, b: seq<Vote>, u: UserId)
    ensures WithoutUser(a + b, u) == WithoutUser(a, u) + WithoutUser(b, u)
    decreases |b|
  {
    if b == [] {
      assert a + b == a;
    } else {
      var n := |b| - 1;
      var ab := a + b;
      var last := if b[n].user != u then [b[n]] else [];
      assert ab[..|ab| - 1] == a + b[..n];
      assert ab[|ab| - 1] == b[n];
      assert WithoutUser(ab, u) == WithoutUser(a + b[..n], u) + last;
      assert WithoutUser(b, u) == WithoutUser(b[..n], u) + last;
      WithoutUserConcat(a, b[..n], u);
    }
  }

  /** A ledger without a vote by the user passes the filter unchanged. */
  lemma {:induction false} WithoutUserAbsent(votes: seq<Vote>, u: UserId)
    requires forall i :: 0 <= i < |votes| ==> votes[i].user != u
    ensures WithoutUser(votes, u) == votes
    decreases |votes|
  {
    if votes != [] {
      var n := |votes| - 1;
      WithoutUserAbsent(votes[..n], u);
      assert votes == votes[..n] + [votes[n]];
    }
  }

  /** The votes cast by one user, in order. */
  function OnlyUser(votes: seq<Vote>, u: UserId): seq<Vote>
    decreases |votes|
  {
    if votes == [] then []
    else
      var n := |votes| - 1;
      var rest := OnlyUser(votes[..n], u);
      if votes[n].user == u then rest + [votes[n]] else rest
  }

  /** The length of the filter the counters take. */
  function CountKind(votes: seq<Vote>, k: VoteKind): (n: nat)
    ensures n <= |votes|
    decreases |votes|
  {
    if votes == [] then 0
    else
      var n := |votes| - 1;
      CountKind(votes[..n], k) + (if votes[n].vote == k then 1 else 0)
  }

  /** The ledger after a user votes: their earlier vote dropped and the new one appended. */
  function RecordVote(votes: seq<Vote>, u: UserId, k: VoteKind, now: int): seq<Vote>
  {
    WithoutUser(votes, u) + [Vote(u, k, now)]
  }

  /** No user has more than one vote in the ledger. */
  ghost predicate OneVotePerUser(votes: seq<Vote>)
  {
    forall u :: |OnlyUser(votes, u)| <= 1
  }

  lemma {:induction false} OnlyUserAppend(votes: seq<Vote>, v: Vote, u: UserId)
    ensures OnlyUser(votes + [v], u) == OnlyUser(votes, u) + (if v.user == u then [v] else [])
  {
    assert (votes + [v])[..|votes|] == votes;
  }

  /** Dropping a user's votes empties their projection and leaves every other user's as it was. */
  lemma {:induction false} OnlyUserWithout(votes: seq<Vote>, u: UserId, w: UserId)
    ensures OnlyUser(WithoutUser(votes, u), w) == if w == u then [] else OnlyUser(votes, w)
    decreases |votes|
  {
    if votes != [] {
      var n := |votes| - 1;
      OnlyUserWithout(votes[..n], u, w);
      if votes[n].user != u {
        OnlyUserAppend(WithoutUser(votes[..n], u), votes[n], w);
      }
    }
  }

  /**
    After a vote the user's only entry in the ledger is that vote, and every
    other user's votes are exactly as they were, in the same order.
  */
  lemma RecordVoteProjection(votes: seq<Vote>, u: UserId, k: VoteKind, now: int, w: UserId)
    ensures OnlyUser(RecordVote(votes, u, k, now), w) == if w == u then [Vote(u, k, now)] else OnlyUser(votes, w)
  {
    OnlyUserWithout(votes, u, w);
    OnlyUserAppend(WithoutUser(votes, u), Vote(u, k, now), w);
  }

  /** The new vote is last, and the ledger keeps one vote per user. */
  lemma RecordVoteKeepsOnePerUser(votes: seq<Vote>, u: UserId, k: VoteKind, now: int)
    requires OneVotePerUser(votes)
    ensures var r := RecordVote(votes, u, k, now);
      OneVotePerUser(r) && r[|r| - 1] == Vote(u, k, now)
  {
    var r := RecordVote(votes, u, k, now);
    forall w ensures |OnlyUser(r, w)| <= 1 {
      RecordVoteProjection(votes, u, k, now, w);
    }
  }

  /** Every vote is one of the two kinds, so the two counters add up to the size of the ledger. */
  lemma {:induction false} CountsPartition(votes: seq<Vote>)
    ensures CountKind(votes, Helpful) + CountKind(votes, NotHelpful) == |votes|
    decreases |votes|
  {
    if votes != [] {
      CountsPartition(votes[..|votes| - 1]);
    }
  }

  lemma {:induction false} WithoutUserTwice(votes: seq<Vote>, u: UserId)
    ensures WithoutUser(WithoutUser(votes, u), u) == WithoutUser(votes, u)
    decreases |votes|
  {
    if votes != [] {
      var n := |votes| - 1;
      WithoutUserTwice(votes[..n], u);
      var rest := WithoutUser(votes[..n], u);
      if votes[n].user != u {
        assert (rest + [votes[n]])[..|rest|] == rest;
      }
    }
  }

  /** Voting the same way a second time leaves both counters as they were. */
  lemma RepeatVoteKeepsCounts(votes: seq<Vote>, u: UserId, k: VoteKind, t1: int, t2: int, x: VoteKind)
    ensures CountKind(RecordVote(RecordVote(votes, u, k, t1), u, k, t2), x) == CountKind(RecordVote(votes, u, k, t1), x)
  {
    var once := RecordVote(votes, u, k, t1);
    var w := WithoutUser(votes, u);
    assert once[..|once| - 1] == w;
    assert WithoutUser(once, u) == WithoutUser(w, u);
    WithoutUserTwice(votes, u);
    var twice := RecordVote(once, u, k, t2);
    assert twice[..|twice| - 1] == w;
  }

  // ---------------------------------------------------------------------------
  // Moderation
  // ---------------------------------------------------------------------------

  /** The pre-save hook's status rule: a pending review from a verified purchase becomes approved. */
  function AutoApprove(status: ModerationStatus, purchaseVerified: bool): (r: ModerationStatus)
    ensures r == Approved <==> status == Approved || (purchaseVerified && status == Pending)
    ensures r != Approved ==> r == status
  {
    if purchaseVerified && status == Pending then Approved else status
  }

  /** The approval flag the hook leaves: set when it approved, otherwise as it was. */
  function ApprovedAfterSave(isApproved: bool, status: ModerationStatus, purchaseVerified: bool): bool
  {
    if purchaseVerified && status == Pending then true else isApproved
  }

  /** A rejected or flagged review is never approved by a save, and a save applied twice changes nothing more. */
  lemma AutoApproveLaws(status: ModerationStatus, purchaseVerified: bool)
    ensures status == Rejected || status == Flagged ==> AutoApprove(status, purchaseVerified) == status
    ensures AutoApprove(AutoApprove(status, purchaseVerified), purchaseVerified) == AutoApprove(status, purchaseVerified)
  {
  }

  class Review {
    var user: UserId
    var product: nat
    var rating: int
    var title: string
    var comment: string
    var purchaseVerified: bool
    var isApproved: bool
    var helpful: int
    var notHelpful: int
    var helpfulVotes: seq<Vote>
    var moderationStatus: ModerationStatus
    var moderationNote: Option<string>
    var moderatedBy: Option<UserId>
    var moderatedAt: Option<int>
    var flags: seq<Flag>
    var response: Option<Response>

    /** The approval flag agrees with the moderation status. */
    predicate ApprovalConsistent()
      reads this
    {
      isApproved <==> moderationStatus == Approved
    }

    /** The counters agree with the ledger. */
    predicate CountersMatch()
      reads this
    {
      helpful == CountKind(helpfulVotes, Helpful) && notHelpful == CountKind(helpfulVotes, NotHelpful)
    }

    constructor (user: UserId, product: nat, rating: int, title: string, comment: string, purchaseVerified: bool)
      ensures this.user == user && this.product == product && this.rating == rating
      ensures this.title == title && this.comment == comment && this.purchaseVerified == purchaseVerified
      ensures !isApproved && moderationStatus == Pending && helpful == 0 && notHelpful == 0
      ensures helpfulVotes == [] && flags == [] && response.None?
      ensures moderationNote.None? && moderatedBy.None? && moderatedAt.None?
      ensures ApprovalConsistent() && CountersMatch() && OneVotePerUser(helpfulVotes)
    {
      this.user := user;
      this.product := product;
      this.rating := rating;
      this.title := title;
      this.comment := comment;
      this.purchaseVerified := purchaseVerified;
      isApproved := false;
      helpful := 0;
      notHelpful := 0;
      helpfulVotes := [];
      moderationStatus := Pending;
      moderationNote := None;
      moderatedBy := None;
      moderatedAt := None;
      flags := [];
      response := None;
    }

    /** The pre-save hook. */
    method Save()
      modifies this`moderationStatus, this`isApproved
      ensures moderationStatus == AutoApprove(old(moderationStatus), purchaseVerified)
      ensures isApproved == ApprovedAfterSave(old(isApproved), old(moderationStatus), purchaseVerified)
      ensures old(ApprovalConsistent()) ==> ApprovalConsistent()
    {
      if purchaseVerified && moderationStatus == Pending {
        moderationStatus := Approved;
        isApproved := true;
      }
    }

    /** addHelpfulVote: replaces the user's vote, recounts both counters, and saves. */
    method AddHelpfulVote(u: UserId, k: VoteKind, now: int)
      modifies this`helpfulVotes, this`helpful, this`notHelpful, this`moderationStatus, this`isApproved
      ensures helpfulVotes == RecordVote(old(helpfulVotes), u, k, now)
      ensures CountersMatch()
      ensures moderationStatus == AutoApprove(old(moderationStatus), purchaseVerified)
      ensures isApproved == ApprovedAfterSave(old(isApproved), old(moderationStatus), purchaseVerified)
      ensures old(ApprovalConsistent()) ==> ApprovalConsistent()
      ensures old(OneVotePerUser(helpfulVotes)) ==> OneVotePerUser(helpfulVotes)
    {
      ghost var before := helpfulVotes;
      helpfulVotes := WithoutUser(helpfulVotes, u);
      helpfulVotes := helpfulVotes + [Vote(u, k, now)];
      helpful := CountKind(helpfulVotes, Helpful);
      notHelpful := CountKind(helpfulVotes, NotHelpful);
      if OneVotePerUser(before) {
        RecordVoteKeepsOnePerUser(before, u, k, now);
      }
      Save();
    }

    /** flagReview: appends the flag; from the third flag on the review is flagged and unapproved; then saves. */
    method FlagReview(u: UserId, reason: FlagReason, note: Option<string>, now: int)
      modifies this`flags, this`moderationStatus, this`isApproved
      ensures flags == old(flags) + [Flag(u, reason, note, now)]
      ensures |flags| >= FlagThreshold ==> moderationStatus == Flagged && !isApproved
      ensures |flags| < FlagThreshold ==>
        && moderationStatus == AutoApprove(old(moderationStatus), purchaseVerified)
        && isApproved == ApprovedAfterSave(old(isApproved), old(moderationStatus), purchaseVerified)
      ensures old(ApprovalConsistent()) ==> ApprovalConsistent()
    {
      flags := flags + [Flag(u, reason, note, now)];
      if |flags| >= 3 {
        moderationStatus := Flagged;
        isApproved := false;
      }
      Save();
    }

    /** moderateReview: sets the status and its record; the review is approved exactly when the status is; then saves. */
    method ModerateReview(status: ModerationStatus, note: Option<string>, moderator: UserId, now: int)
      modifies this`moderationStatus, this`moderationNote, this`moderatedBy, this`moderatedAt, this`isApproved
      ensures moderationStatus == AutoApprove(status, purchaseVerified)
      ensures moderationNote == note && moderatedBy == Some(moderator) && moderatedAt == Some(now)
      ensures ApprovalConsistent()
    {
      moderationStatus := status;
      moderationNote := note;
      moderatedBy := Some(moderator);
      moderatedAt := Some(now);
      isApproved := status == Approved;
      Save();
    }

    /** addResponse: replaces the response and saves. */
    method AddResponse(comment: string, responder: UserId, now: int)
      modifies this`response, this`moderationStatus, this`isApproved
      ensures response == Some(Response(comment, responder, now))
      ensures moderationStatus == AutoApprove(old(moderationStatus), purchaseVerified)
      ensures isApproved == ApprovedAfterSave(old(isApproved), old(moderationStatus), purchaseVerified)
      ensures old(ApprovalConsistent()) ==> ApprovalConsistent()
    {
      response := Some(Response(comment, responder, now));
      Save();
    }
  }
}
