/** The laptop service's request handlers (service/laptop_server.go), over the
    three stores. Each stream is a finite input sequence plus what the handler
    sends; the call's context and the environment are oracles. */
module LaptopService {
  import opened Base
  import opened Grpc
  import opened Strconv
  import opened LaptopStore
  import opened ImageStore
  import opened RatingStore
  import opened StreamProtocol

  datatype UploadImageResponse = UploadImageResponse(id: string, size: string)

  /** The id a create request carries: req.GetLaptop().GetId(), which is ""
      when the request has no laptop. */
  function RequestId(laptop: Option<Laptop>): string
  {
    if laptop.Some? then laptop.value.id else ""
  }

  /** A laptop's id is acceptable: a supplied id must parse as a UUID (`isUuid`
      stands for uuid.Parse succeeding); an empty one needs a generated id. */
  predicate IdAccepted(laptop: Laptop, isUuid: string -> bool, newId: Option<string>)
  {
    if laptop.id != "" then isUuid(laptop.id) else newId.Some?
  }

  /** The laptop as CreateLaptop saves it: with the generated id written in when it had none. */
  function WithId(laptop: Laptop, newId: Option<string>): Laptop
    requires laptop.id != "" || newId.Some?
  {
    if laptop.id != "" then laptop else laptop.(id := newId.value)
  }

  /** How CreateLaptop ends: the saved id, an error status, or the nil-pointer
      panic of writing a generated id into a request that has no laptop. */
  datatype CreateOutcome = Created(id: string) | Rejected(status: Status) | NilLaptopPanic

  /** LaptopServer: the handlers share the three stores it was built with. */
  class LaptopServer {
    const laptopStore: InMemoryLaptopStore
    const imageStore: DiskImageStore
    const ratingStore: InMemoryRatingStore

    constructor (laptopStore: InMemoryLaptopStore, imageStore: DiskImageStore, ratingStore: InMemoryRatingStore)
      ensures this.laptopStore == laptopStore && this.imageStore == imageStore && this.ratingStore == ratingStore
    {
      this.laptopStore := laptopStore;
      this.imageStore := imageStore;
      this.ratingStore := ratingStore;
    }

    /** CreateLaptop. `laptop` is the request's laptop (none when the request
        has none); `newId` is what uuid.NewRandom gives (none when it fails);
        `ctxFirst` and `ctxSecond` are what the two ctx.Err() calls before the
        save report. A context error, once reported, stays the same. */
    method CreateLaptop(laptop: Option<Laptop>, isUuid: string -> bool, newId: Option<string>,
                        ctxFirst: ContextErr, ctxSecond: ContextErr)
      returns (outcome: CreateOutcome)
      requires ctxFirst != NoErr ==> ctxSecond == ctxFirst
      requires laptopStore.Valid()
      modifies laptopStore
      ensures laptopStore.Valid()
      ensures RequestId(laptop) != "" && !isUuid(RequestId(laptop)) ==>
        outcome == Rejected(Status(InvalidArgument, "laptop id is invalid")) && laptopStore.data == old(laptopStore.data)
      ensures RequestId(laptop) == "" && newId.None? ==>
        outcome == Rejected(Status(Internal, "cannot generate new ID for laptop")) && laptopStore.data == old(laptopStore.data)
      ensures laptop.None? && newId.Some? ==>
        outcome == NilLaptopPanic && laptopStore.data == old(laptopStore.data)
      ensures laptop.Some? && IdAccepted(laptop.value, isUuid, newId) && ctxFirst == ErrCanceled ==>
        outcome == Rejected(Status(Canceled, "request cancelled")) && laptopStore.data == old(laptopStore.data)
      ensures laptop.Some? && IdAccepted(laptop.value, isUuid, newId) && ctxFirst != ErrCanceled
              && ctxSecond == ErrDeadlineExceeded ==>
        outcome == Rejected(Status(DeadlineExceeded, "deadline exeeded")) && laptopStore.data == old(laptopStore.data)
      ensures laptop.Some? && IdAccepted(laptop.value, isUuid, newId) && ctxFirst != ErrCanceled
              && ctxSecond != ErrDeadlineExceeded ==>
        var saved := WithId(laptop.value, newId);
        && (saved.id in old(laptopStore.data) ==>
              outcome == Rejected(Status(AlreadyExists, "unable to save data: record already exists"))
              && laptopStore.data == old(laptopStore.data))
        && (saved.id !in old(laptopStore.data) ==>
              outcome == Created(saved.id) && laptopStore.data == old(laptopStore.data)[saved.id := saved])
    {
      var id := RequestId(laptop);
      if |id| > 0 {
        if !isUuid(id) {
          return Rejected(Status(InvalidArgument, "laptop id is invalid"));
        }
      } else {
        if newId.None? {
          return Rejected(Status(Internal, "cannot generate new ID for laptop"));
        }
        if laptop.None? {
          return NilLaptopPanic;
        }
      }
      var toSave := WithId(laptop.value, newId);
      if ctxFirst == ErrCanceled {
        return Rejected(Status(Canceled, "request cancelled"));
      }
      if ctxSecond == ErrDeadlineExceeded {
        return Rejected(Status(DeadlineExceeded, "deadline exeeded"));
      }
      var err := laptopStore.Save(toSave);
      if err == Some(ErrAlreadyExists) {
        return Rejected(Status(AlreadyExists, "unable to save data: record already exists"));
      }
      outcome := Created(toSave.id);
    }

    /** SearchLaptop: sends each qualifying laptop as it is found. `send(n)` is
        the error of the n-th stream.Send, if any; the first one ends the call
        with that error, and what was sent before stays sent. */
    method SearchLaptop(filter: Filter, send: nat -> Option<Status>) returns (sent: seq<Laptop>, err: Option<Status>)
      requires laptopStore.Valid()
      ensures forall i :: 0 <= i < |sent| ==>
        && sent[i].id in laptopStore.data && laptopStore.data[sent[i].id] == sent[i]
        && IsQualified(filter, sent[i]) && send(i).None?
      ensures forall i, j :: 0 <= i < j < |sent| ==> sent[i].id != sent[j].id
      ensures err.None? ==> Ids(sent) == laptopStore.Matching(filter)
      ensures err.Some? ==> err == send(|sent|)
    {
      var visited, e := laptopStore.Search(filter, (n: nat, laptop: Laptop) => send(n));
      if e.Some? {
        sent, err := visited[..|visited| - 1], e;
      } else {
        sent, err := visited, None;
      }
    }

    /** UploadImage. `reqs` is the client's stream, `ctx(i)` the context before
        receive i, `env` the image store's environment and `sendOk` whether
        SendAndClose succeeds. */
    method UploadImage(reqs: seq<Recv<UploadImageRequest>>, ctx: nat -> ContextErr, env: DiskOracle, sendOk: bool)
      returns (result: Result<UploadImageResponse, Status>)
      modifies imageStore
      ensures (|reqs| == 0 || reqs[0].RecvError?) ==>
        && result == Failure(Status(Unknown, "cannot recieve image info"))
        && imageStore.images == old(imageStore.images) && imageStore.disk == old(imageStore.disk)
      ensures |reqs| > 0 && reqs[0].Msg? && LaptopIdOf(reqs[0].msg) !in laptopStore.data ==>
        && result == Failure(Status(Internal, "cannot find laptop"))
        && imageStore.images == old(imageStore.images) && imageStore.disk == old(imageStore.disk)
      ensures |reqs| > 0 && reqs[0].Msg? && LaptopIdOf(reqs[0].msg) in laptopStore.data ==>
        var laptopId, imageType := LaptopIdOf(reqs[0].msg), ImageTypeOf(reqs[0].msg);
        match ReceiveImage(reqs, ctx, laptopId, 1, [])
        case Failure(status) =>
          result == Failure(status)
          && imageStore.images == old(imageStore.images) && imageStore.disk == old(imageStore.disk)
        case Success(image) =>
          && (!SaveSucceeds(env) ==>
                && result == Failure(Status(Internal, "cannot save image to the store"))
                && imageStore.images == old(imageStore.images)
                && imageStore.disk == (if env.newId.Some? && env.createOk
                                       then old(imageStore.disk)[ImagePath(imageStore.imageFolder, env.newId.value, imageType)
                                                                 := image[..Min(env.write.bytesWritten, |image|)]]
                                       else old(imageStore.disk)))
          && (SaveSucceeds(env) ==>
                var imageId := env.newId.value;
                var path := ImagePath(imageStore.imageFolder, imageId, imageType);
                && imageStore.images == old(imageStore.images)[imageId := ImageInfo(laptopId, imageType, path)]
                && imageStore.disk == old(imageStore.disk)[path := image]
                && result == (if sendOk then Success(UploadImageResponse(imageId, Itoa(|image|)))
                              else Failure(Status(Internal, "unable to send response"))))
    {
      if |reqs| == 0 || reqs[0].RecvError? {
        return Failure(Status(Unknown, "cannot recieve image info"));
      }
      var laptopId := LaptopIdOf(reqs[0].msg);
      var imageType := ImageTypeOf(reqs[0].msg);
      var laptop := laptopStore.Find(laptopId);
      if laptop.None? {
        return Failure(Status(Internal, "cannot find laptop"));
      }
      var imageData: seq<byte> := [];
      var imageSize := 0;
      var i := 1;
      while true
        invariant 1 <= i <= |reqs|
        invariant imageSize == |imageData| <= MaxImageSize
        invariant ReceiveImage(reqs, ctx, laptopId, i, imageData) == ReceiveImage(reqs, ctx, laptopId, 1, [])
        invariant imageStore.images == old(imageStore.images) && imageStore.disk == old(imageStore.disk)
        decreases |reqs| - i
      {
        var ctxErr := ContextError(ctx(i));
        if ctxErr.Some? {
          return Failure(ctxErr.value);
        }
        if i == |reqs| {
          break;
        }
        if reqs[i].RecvError? {
          return Failure(ChunkNotReceived(laptopId));
        }
        var chunk := ChunkOf(reqs[i].msg);
        imageSize := imageSize + |chunk|;
        if imageSize > MaxImageSize {
          return Failure(ImageTooBig);
        }
        imageData := imageData + chunk;
        i := i + 1;
      }
      var saved := imageStore.Save(laptopId, imageType, imageData, env);
      if saved.Failure? {
        return Failure(Status(Internal, "cannot save image to the store"));
      }
      if !sendOk {
        return Failure(Status(Internal, "unable to send response"));
      }
      result := Success(UploadImageResponse(saved.value, Itoa(imageSize)));
    }

    /** RateLaptop. `reqs` is the client's stream, `ctx(i)` the context before
        receive i, `sendOk(i)` whether the response to request i is sent. */
    method RateLaptop(reqs: seq<Recv<RateLaptopRequest>>, ctx: nat -> ContextErr, sendOk: nat -> bool)
      returns (sent: seq<RateLaptopResponse>, err: Option<Status>)
      modifies ratingStore
      ensures var run := RateStream(reqs, ctx, sendOk, laptopStore.data.Keys, 0, old(ratingStore.rating), []);
        sent == run.sent && err == run.err && ratingStore.rating == run.ratings
    {
      sent := [];
      var i := 0;
      while true
        invariant 0 <= i <= |reqs|
        invariant RateStream(reqs, ctx, sendOk, laptopStore.data.Keys, i, ratingStore.rating, sent)
               == RateStream(reqs, ctx, sendOk, laptopStore.data.Keys, 0, old(ratingStore.rating), [])
        decreases |reqs| - i
      {
        var ctxErr := ContextError(ctx(i));
        if ctxErr.Some? {
          return sent, ctxErr;
        }
        if i == |reqs| {
          return sent, None;
        }
        if reqs[i].RecvError? {
          return sent, Some(Status(Unknown, "unable to receive request stream"));
        }
        var req := reqs[i].msg;
        var laptop := laptopStore.Find(req.laptopId);
        if laptop.None? {
          return sent, Some(LaptopNotFound(req.laptopId));
        }
        var rating := ratingStore.Add(req.laptopId, req.score);
        var response := RateLaptopResponse(req.laptopId, rating.count, Average(rating));
        if !sendOk(i) {
          return sent, Some(Status(Internal, "unable to send response"));
        }
        sent := sent + [response];
        i := i + 1;
      }
    }
  }

  /** The create test: a laptop with a fresh, well-formed id is created under
      that id and can then be found in the store. */
  method CreateThenFind(server: LaptopServer, laptop: Laptop, isUuid: string -> bool)
    returns (outcome: CreateOutcome, found: Option<Laptop>)
    requires server.laptopStore.Valid()
    requires laptop.id != "" && isUuid(laptop.id) && laptop.id !in server.laptopStore.data
    modifies server.laptopStore
    ensures outcome == Created(laptop.id) && found == Some(laptop)
  {
    outcome := server.CreateLaptop(Some(laptop), isUuid, None, NoErr, NoErr);
    found := server.laptopStore.Find(laptop.id);
  }
}
