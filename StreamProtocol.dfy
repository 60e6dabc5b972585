/** The decision logic of the streaming handlers of service/laptop_server.go,
    on values: the context check, and what the receive loops of UploadImage and
    RateLaptop compute from their input streams. The handlers in LaptopService
    are proved to compute exactly these functions.

    Conventions: a stream's input is a finite sequence of Recv values whose end
    is io.EOF; `ctx(i)` is what ctx.Err() reports just before the receive of
    input i (counted from 0); `sendOk(i)` says whether the send answering input
    i succeeds. */
module StreamProtocol {
  import opened Base
  import opened Grpc
  import opened ImageStore
  import opened RatingStore

  /** contextError: no status while the context is live, otherwise the status
      whose code names why it ended. */
  function ContextError(err: ContextErr): (status: Option<Status>)
    ensures status.None? <==> err == NoErr
    ensures err == ErrCanceled ==> status.Some? && status.value.code == Canceled
    ensures err == ErrDeadlineExceeded ==> status.Some? && status.value.code == DeadlineExceeded
  {
    match err
    case ErrCanceled => Some(Status(Canceled, "request is canceled"))
    case ErrDeadlineExceeded => Some(Status(DeadlineExceeded, "request deadline exeeded"))
    case NoErr => None
  }

  // ---------------------------------------------------------------- UploadImage

  /** pb.UploadImageRequest: its `data` oneof holds either the image info or a chunk. */
  datatype UploadImageRequest = Info(laptopId: string, imageType: string) | Chunk(data: seq<byte>)

  /** req.GetInfo().GetLaptopId() and .GetImageType(): empty strings for a chunk message. */
  function LaptopIdOf(req: UploadImageRequest): string
  {
    if req.Info? then req.laptopId else ""
  }

  function ImageTypeOf(req: UploadImageRequest): string
  {
    if req.Info? then req.imageType else ""
  }

  /** req.GetChunk(): no bytes for an info message. */
  function ChunkOf(req: UploadImageRequest): seq<byte>
  {
    if req.Chunk? then req.data else []
  }

  /** The bytes of all the chunks among the messages, in arrival order. */
  function Chunks(reqs: seq<Recv<UploadImageRequest>>): seq<byte>
  {
    if reqs == [] then []
    else (if reqs[0].Msg? then ChunkOf(reqs[0].msg) else []) + Chunks(reqs[1..])
  }

  const ImageTooBig: Status := Status(InvalidArgument, "image size too big: maximum 1mb")

  /** The status for a chunk that could not be received; the source formats the laptop id into it. */
  function ChunkNotReceived(laptopId: string): Status
  {
    Status(Unknown, "cannot recieve chunk: " + laptopId)
  }

  /** The receive loop of UploadImage from input i on, with `data` received so
      far: each round checks the context, receives, and adds the chunk, failing
      as soon as the running size exceeds maxImageSize. */
  function ReceiveImage(reqs: seq<Recv<UploadImageRequest>>, ctx: nat -> ContextErr, laptopId: string,
                        i: nat, data: seq<byte>): (r: Result<seq<byte>, Status>)
    requires i <= |reqs|
    ensures r.Success? ==> |data| <= |r.value| && r.value[..|data|] == data
    ensures r.Success? && |data| <= MaxImageSize ==> |r.value| <= MaxImageSize
    decreases |reqs| - i
  {
    if ContextError(ctx(i)).Some? then Failure(ContextError(ctx(i)).value)
    else if i == |reqs| then Success(data)
    else match reqs[i]
      case RecvError => Failure(ChunkNotReceived(laptopId))
      case Msg(req) =>
        var received := data + ChunkOf(req);
        if |received| > MaxImageSize then Failure(ImageTooBig)
        else ReceiveImage(reqs, ctx, laptopId, i + 1, received)
  }

  /** From input i on, the context stays live before every receive, through the
      one that meets the end of the input, and every receive yields a message. */
  ghost predicate Undisturbed<M>(reqs: seq<Recv<M>>, ctx: nat -> ContextErr, i: nat)
  {
    && (forall j :: i <= j <= |reqs| ==> ctx(j) == NoErr)
    && (forall j :: i <= j < |reqs| ==> reqs[j].Msg?)
  }

  lemma ChunksStep(reqs: seq<Recv<UploadImageRequest>>, i: nat, k: nat)
    requires i < k <= |reqs|
    ensures Chunks(reqs[i..k]) == (if reqs[i].Msg? then ChunkOf(reqs[i].msg) else []) + Chunks(reqs[i + 1..k])
  {
    assert reqs[i..k][0] == reqs[i];
    assert reqs[i..k][1..] == reqs[i + 1..k];
  }

  /** The loop ends in success exactly when nothing disturbs it and all the
      chunks, with what was already received, fit in maxImageSize (a total equal
      to the cap is accepted); it then holds every chunk, in arrival order. */
  lemma {:induction false} ReceiveImageSucceedsIff(reqs: seq<Recv<UploadImageRequest>>, ctx: nat -> ContextErr,
                                                   laptopId: string, i: nat, data: seq<byte>)
    requires i <= |reqs| && |data| <= MaxImageSize
    ensures ReceiveImage(reqs, ctx, laptopId, i, data).Success? <==>
      Undisturbed(reqs, ctx, i) && |data| + |Chunks(reqs[i..])| <= MaxImageSize
    ensures ReceiveImage(reqs, ctx, laptopId, i, data).Success? ==>
      ReceiveImage(reqs, ctx, laptopId, i, data).value == data + Chunks(reqs[i..])
    decreases |reqs| - i
  {
    if i == |reqs| {
      assert reqs[i..] == [];
    } else {
      ChunksStep(reqs, i, |reqs|);
      assert reqs[i..|reqs|] == reqs[i..] && reqs[i + 1..|reqs|] == reqs[i + 1..];
      if reqs[i].Msg? {
        var received := data + ChunkOf(reqs[i].msg);
        if |received| <= MaxImageSize {
          ReceiveImageSucceedsIff(reqs, ctx, laptopId, i + 1, received);
        }
      }
    }
  }

  /** When nothing disturbs the loop but the chunks exceed the cap, it fails with
      the size error. */
  lemma {:induction false} ReceiveImageTooBig(reqs: seq<Recv<UploadImageRequest>>, ctx: nat -> ContextErr,
                                              laptopId: string, i: nat, data: seq<byte>)
    requires i <= |reqs| && |data| <= MaxImageSize
    requires Undisturbed(reqs, ctx, i) && |data| + |Chunks(reqs[i..])| > MaxImageSize
    ensures ReceiveImage(reqs, ctx, laptopId, i, data) == Failure(ImageTooBig)
    decreases |reqs| - i
  {
    if i < |reqs| {
      ChunksStep(reqs, i, |reqs|);
      assert reqs[i..|reqs|] == reqs[i..] && reqs[i + 1..|reqs|] == reqs[i + 1..];
      var received := data + ChunkOf(reqs[i].msg);
      if |received| <= MaxImageSize {
        ReceiveImageTooBig(reqs, ctx, laptopId, i + 1, received);
      }
    }
  }

  /** The context is checked before every receive: if it has ended before
      receiving input k, and everything before k went through within the cap,
      the loop fails with the context's status, whatever input follows. */
  lemma {:induction false} ReceiveImageStopsAtContext(reqs: seq<Recv<UploadImageRequest>>, ctx: nat -> ContextErr,
                                                      laptopId: string, i: nat, data: seq<byte>, k: nat)
    requires i <= k <= |reqs|
    requires ctx(k) != NoErr
    requires forall j :: i <= j < k ==> ctx(j) == NoErr && reqs[j].Msg?
    requires |data| + |Chunks(reqs[i..k])| <= MaxImageSize
    ensures ReceiveImage(reqs, ctx, laptopId, i, data) == Failure(ContextError(ctx(k)).value)
    decreases k - i
  {
    if i < k {
      ChunksStep(reqs, i, k);
      ReceiveImageStopsAtContext(reqs, ctx, laptopId, i + 1, data + ChunkOf(reqs[i].msg), k);
    }
  }

  // ---------------------------------------------------------------- RateLaptop

  datatype RateLaptopRequest = RateLaptopRequest(laptopId: string, score: real)

  /** pb.RateLaptopResponse. An average of none is the non-finite float that
      Sum / float64(Count) gives when Count has wrapped to 0. */
  datatype RateLaptopResponse = RateLaptopResponse(laptopId: string, ratedCount: uint32, averageScore: Option<real>)

  function Average(rating: Rating): Option<real>
  {
    if rating.count == 0 then None else Some(rating.sum / rating.count as real)
  }

  function ResponseFor(laptopId: string, rating: Rating): RateLaptopResponse
  {
    RateLaptopResponse(laptopId, rating.count, Average(rating))
  }

  function LaptopNotFound(laptopId: string): Status
  {
    Status(NotFound, "laptop with id, " + laptopId + ", not found")
  }

  /** What RateLaptop produces: the responses sent, the status it ends with
      (none for a clean end of input) and the rating aggregates at the end. */
  datatype RateRun = RateRun(sent: seq<RateLaptopResponse>, err: Option<Status>, ratings: map<string, Rating>)

  /** The loop of RateLaptop from input i on, with `sent` already sent and the
      rating store at `ratings`; `known` is the set of stored laptop ids. */
  function RateStream(reqs: seq<Recv<RateLaptopRequest>>, ctx: nat -> ContextErr, sendOk: nat -> bool,
                      known: set<string>, i: nat, ratings: map<string, Rating>,
                      sent: seq<RateLaptopResponse>): (run: RateRun)
    requires i <= |reqs|
    ensures |sent| <= |run.sent| <= |sent| + (|reqs| - i)
    ensures run.sent[..|sent|] == sent
    decreases |reqs| - i
  {
    if ContextError(ctx(i)).Some? then RateRun(sent, ContextError(ctx(i)), ratings)
    else if i == |reqs| then RateRun(sent, None, ratings)
    else match reqs[i]
      case RecvError => RateRun(sent, Some(Status(Unknown, "unable to receive request stream")), ratings)
      case Msg(req) =>
        if req.laptopId !in known then RateRun(sent, Some(LaptopNotFound(req.laptopId)), ratings)
        else
          var updated := Added(ratings, req.laptopId, req.score);
          var response := ResponseFor(req.laptopId, updated[req.laptopId]);
          if !sendOk(i) then RateRun(sent, Some(Status(Internal, "unable to send response")), updated)
          else RateStream(reqs, ctx, sendOk, known, i + 1, updated, sent + [response])
  }

  /** The aggregates after the rating requests among `reqs`, in order. */
  function RatingsAfter(ratings: map<string, Rating>, reqs: seq<Recv<RateLaptopRequest>>): map<string, Rating>
  {
    if reqs == [] then ratings
    else
      var before := RatingsAfter(ratings, reqs[..|reqs| - 1]);
      match reqs[|reqs| - 1]
      case Msg(req) => Added(before, req.laptopId, req.score)
      case RecvError => before
  }

  /** The response that answers request k: its laptop id with the aggregate as
      it stands once requests 0..k have been added. */
  function Expected(reqs: seq<Recv<RateLaptopRequest>>, ratings: map<string, Rating>, k: nat): RateLaptopResponse
    requires k < |reqs| && reqs[k].Msg?
  {
    var id := reqs[k].msg.laptopId;
    var after := RatingsAfter(ratings, reqs[..k + 1]);
    ResponseFor(id, if id in after then after[id] else Rating(0, 0.0))
  }

  /** Each response sent answers the request at the same position. */
  ghost predicate Answers(reqs: seq<Recv<RateLaptopRequest>>, ratings: map<string, Rating>,
                          sent: seq<RateLaptopResponse>)
  {
    && |sent| <= |reqs|
    && forall k :: 0 <= k < |sent| ==> reqs[k].Msg? && sent[k] == Expected(reqs, ratings, k)
  }

  lemma RatingsAfterStep(initial: map<string, Rating>, reqs: seq<Recv<RateLaptopRequest>>, i: nat)
    requires i < |reqs| && reqs[i].Msg?
    ensures RatingsAfter(initial, reqs[..i + 1])
         == Added(RatingsAfter(initial, reqs[..i]), reqs[i].msg.laptopId, reqs[i].msg.score)
  {
    assert reqs[..i + 1][..i] == reqs[..i];
  }

  /** Answering request i extends a correct prefix of answers. */
  lemma AnswersExtend(reqs: seq<Recv<RateLaptopRequest>>, initial: map<string, Rating>,
                      sent: seq<RateLaptopResponse>, i: nat)
    requires i < |reqs| && |sent| == i && reqs[i].Msg?
    requires Answers(reqs, initial, sent)
    ensures Answers(reqs, initial, sent + [Expected(reqs, initial, i)])
  {
    var sent' := sent + [Expected(reqs, initial, i)];
    forall k | 0 <= k < |sent'|
      ensures reqs[k].Msg? && sent'[k] == Expected(reqs, initial, k)
    {
      if k < |sent| {
        assert sent'[k] == sent[k];
      }
    }
  }

  /** One round of the rating loop that neither stops nor fails. */
  lemma RateStreamContinues(reqs: seq<Recv<RateLaptopRequest>>, ctx: nat -> ContextErr, sendOk: nat -> bool,
                            known: set<string>, i: nat, ratings: map<string, Rating>, sent: seq<RateLaptopResponse>)
    requires i < |reqs| && ctx(i) == NoErr && reqs[i].Msg? && reqs[i].msg.laptopId in known && sendOk(i)
    ensures var req := reqs[i].msg;
      var updated := Added(ratings, req.laptopId, req.score);
      RateStream(reqs, ctx, sendOk, known, i, ratings, sent)
      == RateStream(reqs, ctx, sendOk, known, i + 1, updated, sent + [ResponseFor(req.laptopId, updated[req.laptopId])])
  {
  }

  /** A round of the rating loop that does not continue sends nothing more, and
      ends cleanly only at the end of the input with the store as it is. */
  lemma RateStreamStops(reqs: seq<Recv<RateLaptopRequest>>, ctx: nat -> ContextErr, sendOk: nat -> bool,
                        known: set<string>, i: nat, ratings: map<string, Rating>, sent: seq<RateLaptopResponse>)
    requires i <= |reqs|
    requires !(i < |reqs| && ctx(i) == NoErr && reqs[i].Msg? && reqs[i].msg.laptopId in known && sendOk(i))
    ensures var run := RateStream(reqs, ctx, sendOk, known, i, ratings, sent);
      && run.sent == sent
      && (run.err.None? ==> i == |reqs| && run.ratings == ratings)
  {
  }

  /** The same round, with the store written as the aggregates over the requests so far. */
  lemma RateStreamAdvances(reqs: seq<Recv<RateLaptopRequest>>, ctx: nat -> ContextErr, sendOk: nat -> bool,
                           known: set<string>, initial: map<string, Rating>, i: nat, sent: seq<RateLaptopResponse>)
    requires i < |reqs| && ctx(i) == NoErr && reqs[i].Msg? && reqs[i].msg.laptopId in known && sendOk(i)
    ensures RateStream(reqs, ctx, sendOk, known, i, RatingsAfter(initial, reqs[..i]), sent)
         == RateStream(reqs, ctx, sendOk, known, i + 1, RatingsAfter(initial, reqs[..i + 1]),
                       sent + [Expected(reqs, initial, i)])
  {
    var req := reqs[i].msg;
    var ratings := RatingsAfter(initial, reqs[..i]);
    var updated := Added(ratings, req.laptopId, req.score);
    RatingsAfterStep(initial, reqs, i);
    assert ResponseFor(req.laptopId, updated[req.laptopId]) == Expected(reqs, initial, i);
    RateStreamContinues(reqs, ctx, sendOk, known, i, ratings, sent);
  }

  lemma {:induction false} RateStreamAnswersFrom(reqs: seq<Recv<RateLaptopRequest>>, ctx: nat -> ContextErr,
                                                 sendOk: nat -> bool, known: set<string>, initial: map<string, Rating>,
                                                 i: nat, sent: seq<RateLaptopResponse>)
    requires i <= |reqs| && |sent| == i
    requires Answers(reqs, initial, sent)
    ensures var run := RateStream(reqs, ctx, sendOk, known, i, RatingsAfter(initial, reqs[..i]), sent);
      && Answers(reqs, initial, run.sent)
      && i <= |run.sent|
      && (run.err.None? ==> |run.sent| == |reqs| && run.ratings == RatingsAfter(initial, reqs))
    decreases |reqs| - i
  {
    var ratings := RatingsAfter(initial, reqs[..i]);
    if i < |reqs| && ctx(i) == NoErr && reqs[i].Msg? && reqs[i].msg.laptopId in known && sendOk(i) {
      RateStreamAdvances(reqs, ctx, sendOk, known, initial, i, sent);
      AnswersExtend(reqs, initial, sent, i);
      RateStreamAnswersFrom(reqs, ctx, sendOk, known, initial, i + 1, sent + [Expected(reqs, initial, i)]);
    } else {
      RateStreamStops(reqs, ctx, sendOk, known, i, ratings, sent);
      if i == |reqs| {
        assert reqs[..i] == reqs;
      }
    }
  }

  /** RateLaptop sends at most one response per request, response k answers
      request k with the aggregate after requests 0..k, and at a clean end there
      is one response for every request and the store holds all the ratings. */
  lemma RateStreamAnswers(reqs: seq<Recv<RateLaptopRequest>>, ctx: nat -> ContextErr, sendOk: nat -> bool,
                          known: set<string>, ratings: map<string, Rating>)
    ensures var run := RateStream(reqs, ctx, sendOk, known, 0, ratings, []);
      && Answers(reqs, ratings, run.sent)
      && (run.err.None? ==> |run.sent| == |reqs| && run.ratings == RatingsAfter(ratings, reqs))
  {
    assert reqs[..0] == [];
    RateStreamAnswersFrom(reqs, ctx, sendOk, known, ratings, 0, []);
  }

  /** From input i on, the context stays live, every receive yields a request
      for a stored laptop, and every response is sent. */
  ghost predicate RateUndisturbed(reqs: seq<Recv<RateLaptopRequest>>, ctx: nat -> ContextErr, sendOk: nat -> bool,
                                  known: set<string>, i: nat)
  {
    && Undisturbed(reqs, ctx, i)
    && forall j :: i <= j < |reqs| ==> reqs[j].Msg? && reqs[j].msg.laptopId in known && sendOk(j)
  }

  /** RateLaptop ends with nil exactly when nothing disturbs it. */
  lemma {:induction false} RateStreamSucceedsIff(reqs: seq<Recv<RateLaptopRequest>>, ctx: nat -> ContextErr,
                                                 sendOk: nat -> bool, known: set<string>, i: nat,
                                                 ratings: map<string, Rating>, sent: seq<RateLaptopResponse>)
    requires i <= |reqs|
    ensures RateStream(reqs, ctx, sendOk, known, i, ratings, sent).err.None? <==> RateUndisturbed(reqs, ctx, sendOk, known, i)
    decreases |reqs| - i
  {
    if i < |reqs| && ContextError(ctx(i)).None? && reqs[i].Msg? && reqs[i].msg.laptopId in known && sendOk(i) {
      var req := reqs[i].msg;
      var updated := Added(ratings, req.laptopId, req.score);
      RateStreamSucceedsIff(reqs, ctx, sendOk, known, i + 1, updated, sent + [ResponseFor(req.laptopId, updated[req.laptopId])]);
    }
  }

  /** A request for a laptop that is not stored aborts the whole stream with
      NotFound, after the responses to the requests before it. */
  lemma {:induction false} RateStreamUnknownLaptop(reqs: seq<Recv<RateLaptopRequest>>, ctx: nat -> ContextErr,
                                                   sendOk: nat -> bool, known: set<string>, i: nat,
                                                   ratings: map<string, Rating>, sent: seq<RateLaptopResponse>, k: nat)
    requires i <= k < |reqs|
    requires forall j :: i <= j <= k ==> ctx(j) == NoErr
    requires forall j :: i <= j < k ==> reqs[j].Msg? && reqs[j].msg.laptopId in known && sendOk(j)
    requires reqs[k].Msg? && reqs[k].msg.laptopId !in known
    ensures var run := RateStream(reqs, ctx, sendOk, known, i, ratings, sent);
      run.err == Some(LaptopNotFound(reqs[k].msg.laptopId)) && |run.sent| == |sent| + (k - i)
    decreases k - i
  {
    if i < k {
      var req := reqs[i].msg;
      var updated := Added(ratings, req.laptopId, req.score);
      RateStreamUnknownLaptop(reqs, ctx, sendOk, known, i + 1, updated, sent + [ResponseFor(req.laptopId, updated[req.laptopId])], k);
    }
  }

  /** The rating test: scores 8, 7.5 and 10 for one stored laptop, on a fresh
      store, give counts 1, 2, 3 and averages 8, 7.75, 8.5, then a clean end. */
  lemma RateStreamTestScores(id: string, known: set<string>, ctx: nat -> ContextErr, sendOk: nat -> bool)
    requires id in known
    requires forall j :: 0 <= j <= 3 ==> ctx(j) == NoErr
    requires forall j :: 0 <= j < 3 ==> sendOk(j)
    ensures var reqs := [Msg(RateLaptopRequest(id, 8.0)), Msg(RateLaptopRequest(id, 7.5)), Msg(RateLaptopRequest(id, 10.0))];
      RateStream(reqs, ctx, sendOk, known, 0, map[], [])
      == RateRun([RateLaptopResponse(id, 1, Some(8.0)), RateLaptopResponse(id, 2, Some(7.75)), RateLaptopResponse(id, 3, Some(8.5))],
                 None, map[id := Rating(3, 25.5)])
  {
    var reqs := [Msg(RateLaptopRequest(id, 8.0)), Msg(RateLaptopRequest(id, 7.5)), Msg(RateLaptopRequest(id, 10.0))];
    var r1 := map[id := Rating(1, 8.0)];
    var r2 := map[id := Rating(2, 15.5)];
    var r3 := map[id := Rating(3, 25.5)];
    var s1 := [RateLaptopResponse(id, 1, Some(8.0))];
    var s2 := s1 + [RateLaptopResponse(id, 2, Some(7.75))];
    var s3 := s2 + [RateLaptopResponse(id, 3, Some(8.5))];
    assert RateStream(reqs, ctx, sendOk, known, 3, r3, s3) == RateRun(s3, None, r3);
    assert Added(r2, id, 10.0) == r3;
    assert ResponseFor(id, Rating(3, 25.5)) == RateLaptopResponse(id, 3, Some(8.5));
    assert RateStream(reqs, ctx, sendOk, known, 2, r2, s2) == RateRun(s3, None, r3);
    assert Added(r1, id, 7.5) == r2;
    assert ResponseFor(id, Rating(2, 15.5)) == RateLaptopResponse(id, 2, Some(7.75));
    assert RateStream(reqs, ctx, sendOk, known, 1, r1, s1) == RateRun(s3, None, r3);
    assert Added(map[], id, 8.0) == r1;
    assert ResponseFor(id, Rating(1, 8.0)) == RateLaptopResponse(id, 1, Some(8.0));
    assert [] + [RateLaptopResponse(id, 1, Some(8.0))] == s1;
    assert ctx(0) == NoErr && sendOk(0) && reqs[0] == Msg(RateLaptopRequest(id, 8.0));
    assert RateStream(reqs, ctx, sendOk, known, 0, map[], []) == RateStream(reqs, ctx, sendOk, known, 1, r1, s1);
  }
}
