/** The in-memory rating store (service/rating_store.go): one running
    {Count, Sum} aggregate per laptop id. */
module RatingStore {
  import opened Base

  /** A laptop's aggregate. Count is a uint32; Sum (a float64 in the source) is a real. */
  datatype Rating = Rating(count: uint32, sum: real)

  /** `Count++` on a uint32, which wraps to 0 after 2^32 - 1. */
  function Increment(count: uint32): (next: uint32)
    ensures count < TWO_TO_THE_32 - 1 ==> next == count + 1
    ensures count == TWO_TO_THE_32 - 1 ==> next == 0
  {
    (count + 1) % TWO_TO_THE_32
  }

  /** The aggregates after one Add of `score` for `laptopId`. */
  function Added(ratings: map<string, Rating>, laptopId: string, score: real): (after: map<string, Rating>)
    ensures after.Keys == ratings.Keys + {laptopId}
    ensures forall id :: id in ratings && id != laptopId ==> after[id] == ratings[id]
    ensures laptopId !in ratings ==> after[laptopId] == Rating(1, score)
    ensures laptopId in ratings ==>
      after[laptopId].sum == ratings[laptopId].sum + score &&
      (ratings[laptopId].count < TWO_TO_THE_32 - 1 ==> after[laptopId].count == ratings[laptopId].count + 1)
  {
    if laptopId in ratings then
      var rating := ratings[laptopId];
      ratings[laptopId := Rating(Increment(rating.count), rating.sum + score)]
    else
      ratings[laptopId := Rating(1, score)]
  }

  /** The aggregates after adding each score in turn for one id. */
  function AddedAll(ratings: map<string, Rating>, laptopId: string, scores: seq<real>): map<string, Rating>
    decreases |scores|
  {
    if scores == [] then ratings else AddedAll(Added(ratings, laptopId, scores[0]), laptopId, scores[1..])
  }

  function Sum(scores: seq<real>): real
  {
    if scores == [] then 0.0 else scores[0] + Sum(scores[1..])
  }

  /** Adding scores to an existing aggregate adds their number to Count (modulo 2^32) and their total to Sum. */
  lemma {:induction false} AddedAllExtends(ratings: map<string, Rating>, laptopId: string, scores: seq<real>)
    requires laptopId in ratings
    ensures var after := AddedAll(ratings, laptopId, scores);
      && laptopId in after
      && after[laptopId].count == (ratings[laptopId].count + |scores|) % TWO_TO_THE_32
      && after[laptopId].sum == ratings[laptopId].sum + Sum(scores)
    decreases |scores|
  {
    if scores != [] {
      var next := Added(ratings, laptopId, scores[0]);
      AddedAllExtends(next, laptopId, scores[1..]);
    }
  }

  /** Starting from no aggregate, n ratings give Count = n (modulo 2^32) and Sum = their total. */
  lemma AddedAllAggregates(ratings: map<string, Rating>, laptopId: string, scores: seq<real>)
    requires laptopId !in ratings && scores != []
    ensures var after := AddedAll(ratings, laptopId, scores);
      && laptopId in after
      && after[laptopId] == Rating(|scores| % TWO_TO_THE_32, Sum(scores))
  {
    AddedAllExtends(Added(ratings, laptopId, scores[0]), laptopId, scores[1..]);
  }

  /** Adds for one id leave every other id's aggregate as it was. */
  lemma {:induction false} AddedAllOthersUnchanged(ratings: map<string, Rating>, laptopId: string, scores: seq<real>, other: string)
    requires other != laptopId
    ensures other in AddedAll(ratings, laptopId, scores) <==> other in ratings
    ensures other in ratings ==> AddedAll(ratings, laptopId, scores)[other] == ratings[other]
    decreases |scores|
  {
    if scores != [] {
      AddedAllOthersUnchanged(Added(ratings, laptopId, scores[0]), laptopId, scores[1..], other);
    }
  }

  /** InMemoryRatingStore; its single lock makes Add atomic and is not modelled. */
  class InMemoryRatingStore {
    var rating: map<string, Rating>

    constructor ()
      ensures rating == map[]
    {
      rating := map[];
    }

    /** Add: creates or updates the aggregate in place and returns it. It never fails. */
    method Add(laptopId: string, score: real) returns (updated: Rating)
      modifies this
      ensures rating == Added(old(rating), laptopId, score)
      ensures updated == rating[laptopId]
    {
      if laptopId in rating {
        var current := rating[laptopId];
        updated := Rating(Increment(current.count), current.sum + score);
      } else {
        updated := Rating(1, score);
      }
      rating := rating[laptopId := updated];
    }
  }
}
