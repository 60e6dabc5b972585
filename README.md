# Laptop service: a verified Dafny model

This project models the core of a Go gRPC laptop catalogue service: the
in-memory stores and the decision logic of the request handlers.

- The **laptop store** keeps a map from id to laptop. `Save` rejects an id
  that is already a key. `Find` returns a copy. `Search` calls a callback
  for every laptop that passes a filter of four thresholds. Memory sizes are
  compared in bits, computed in `uint64`, so a shift can wrap.
- The **rating store** keeps a `{Count, Sum}` aggregate per laptop id.
- The **image store** writes image bytes to a file under a folder and
  records metadata by image id.
- The **user store** keeps user records by username and never overwrites
  one. The **login** decision turns lookup, password check and token
  generation into a response or a status code.
- The **handlers** are `CreateLaptop`, `SearchLaptop`, `UploadImage`
  (client streaming, capped at `maxImageSize` = 1 << 20 = 1048576 bytes)
  and `RateLaptop` (bidirectional streaming).

Modelling choices:

- Laptops, users, ratings and image metadata are immutable values. Copying
  a record is just taking its value, so the source's deep copies and
  `Clone` are the identity. The one place the source hands out a pointer into
  a store without copying, the rating store's `Add`, is listed under "Left out".
- Each store is a class whose map field its methods reassign. The lock
  around each operation is not modelled: every store operation is atomic.
- A stream is a finite sequence of receive results. Its end is `io.EOF`.
  `ctx(i)` is what the call's context reports just before receive `i`, and
  `sendOk(i)` tells whether the send answering input `i` succeeds.
- Outside results are oracle parameters: UUID parsing and generation,
  bcrypt hashing and comparison, JWT generation, and file creation and
  writing. The files the image store writes are a map from path to bytes.
- The receive loops of `UploadImage` and `RateLaptop` are also stated as
  functions (`StreamProtocol.ReceiveImage`, `StreamProtocol.RateStream`).
  The handler methods are proved to compute exactly these functions, and
  the stream properties are proved as lemmas about them.
- Integers keep the source's widths. `toBit` works modulo 2^64. `Count`
  is a `uint32`, and `Count++` wraps. Prices, clock speeds, scores and
  sums are `real`.

Modules: `Base` (option, result, fixed-width integers), `Grpc` (status codes,
context errors, receive results), `Strconv`, `LaptopStore`, `RatingStore`,
`ImageStore`, `UserRecord`, `UserStore`, `AuthService`, `StreamProtocol`,
`LaptopService`.

## Model

| member | source | states |
|---|---|---|
| `Strconv.Itoa` | service/laptop_server.go:182 | The upload size is rendered as a non-empty string of decimal digits. It has no leading zero, and it has one digit exactly when the number is below 10. |
| `Strconv.DecimalValueOfItoa` | service/laptop_client_test.go:126-127 | Reading the size string back as a decimal number gives the size the server counted. |
| `LaptopStore.ToBit` | service/store.go:117-136 | The memory size in bits as a `uint64`: value shifted left by the unit's exponent, and 0 for an unknown unit. Its properties are stated by `LaptopStore.ToBitOfZero`, `LaptopStore.ToBitExact`, `LaptopStore.ToBitUnitsScale` and `LaptopStore.ToBitWrapsForHugeTerabytes`. |
| `LaptopStore.IsQualified` | service/store.go:96-115 | The four threshold checks in the source's order. `LaptopStore.IsQualifiedIff` and `LaptopStore.SearchTestCases` state what it accepts. |
| `LaptopStore.Pow2OfShifts` | service/store.go:121-132 | The scale factors of `toBit` are 2^0, 2^3, 2^13, 2^23, 2^33 and 2^43, that is 1, 8, 8192, 8388608, 8589934592 and 8796093022208. |
| `LaptopStore.ShlExact` | service/store.go:124-132 | A `uint64` shift left by k that pushes no bit past bit 63 is multiplication by 2^k. |
| `LaptopStore.ShlOfScaled` | service/store.go:124-132 | Shifting v by j equals shifting c·v by k when 2^j = c·2^k and c·v fits in 64 bits, even where the shift itself wraps. |
| `LaptopStore.ToBitOfZero` | service/store.go:117-136 | A memory of value 0 has 0 bits, whatever its unit. |
| `LaptopStore.ToBitExact` | service/store.go:117-136 | When value·2^k is below 2^64, `toBit` is exactly value·2^k. |
| `LaptopStore.ToBitUnitsScale` | service/store.go:117-136 | A byte is 8 bits, and each unit from KILOBYTE to TERABYTE is 1024 of the unit below, wherever 1024·v (or 8·v) fits in the `uint32` value field. |
| `LaptopStore.ToBitWrapsForHugeTerabytes` | service/store.go:131-132 | 2^21 terabytes overflows `uint64` and reads as 0 bits. |
| `LaptopStore.IsQualifiedIff` | service/store.go:96-115 | `isQualified` holds iff price ≤ max price, cores ≥ min cores, min GHz ≥ min GHz and `toBit(ram)` ≥ `toBit(minMemory)`. Equality passes every check. |
| `LaptopStore.SearchTestCases` | service/laptop_client_test.go:185-221 | Against the search test's filter, the laptops changed to price 2500, 2 cores, 2.0 GHz or 4096 MB are rejected, whatever their other fields. The two 1999-dollar laptops pass. |
| `LaptopStore.InMemoryLaptopStore.constructor` | service/store.go:29-33 | A new store is empty. |
| `LaptopStore.InMemoryLaptopStore.Save` | service/store.go:36-54 | An id already present gives `ErrAlreadyExists` and leaves the map unchanged. Otherwise the laptop is stored under its id and every other key is unchanged. Each laptop stays keyed by its own id. |
| `LaptopStore.InMemoryLaptopStore.Find` | service/store.go:57-73 | A present id gives the stored laptop. An absent id gives none (Go's `(nil, false)`). The store is not modified. |
| `LaptopStore.InMemoryLaptopStore.Search` | service/store.go:76-94 | Every visited laptop is stored and qualified, and no id is visited twice. If every callback succeeds, the visited ids are exactly the qualifying stored ids. Otherwise the call returns the first callback error unchanged, and that error comes from the last visit. |
| `LaptopStore.SaveThenFind` | service/store.go:36-73 | Finding a laptop right after saving it under a fresh id returns that laptop. |
| `RatingStore.Increment` | service/rating_store.go:41 | `Count++` adds exactly 1 below 2^32 − 1 and wraps to 0 at 2^32 − 1. |
| `RatingStore.Added` | service/rating_store.go:34-46 | The first rating for an id creates {1, score}. A later rating adds score to Sum and, below the wrap, 1 to Count. No other id's aggregate changes. |
| `RatingStore.AddedAllExtends` | service/rating_store.go:40-43 | Adding n scores to an existing aggregate adds n to Count modulo 2^32 and adds their total to Sum. |
| `RatingStore.AddedAllAggregates` | service/rating_store.go:34-43 | Starting with no aggregate, n scores give {n mod 2^32, their total}. |
| `RatingStore.AddedAllOthersUnchanged` | service/rating_store.go:45 | Ratings for one id never add, remove or change another id's aggregate. |
| `RatingStore.InMemoryRatingStore.constructor` | service/rating_store.go:23-27 | A new rating store is empty. |
| `RatingStore.InMemoryRatingStore.Add` | service/rating_store.go:30-47 | The map becomes `Added` of the old map. The returned rating is the stored aggregate after the update. There is no error result. |
| `ImageStore.DiskImageStore.constructor` | service/image_store.go:35-40 | A new store has the given folder and no image metadata. |
| `ImageStore.DiskImageStore.Save` | service/image_store.go:43-71 | A failure to get an id, create the file or write it gives that error and leaves the metadata unchanged. A failed write leaves the file holding the bytes written so far. On success the file at folder + "/" + id + type holds the bytes, `images[id]` = {laptop id, type, path}, no other entry changes and the id is returned. There is no size check. |
| `UserRecord.User.Clone` | service/user.go:39-45 | The clone equals the original in all three fields. |
| `UserRecord.NewUser` | service/user.go:17-30 | A hashing failure gives an error. Otherwise the user keeps the username and role as given and stores the hash output as its password hash. |
| `UserRecord.NewUserAcceptsItsPassword` | service/user.go:17-36 | If the comparison accepts what the hasher produces, a new user's own password is correct for it. |
| `UserRecord.User.IsCorrectPassword` | service/user.go:33-36 | True iff the bcrypt comparison accepts the stored hash for the password. Its round trip with `NewUser` is stated by `UserRecord.NewUserAcceptsItsPassword`. |
| `UserStore.InMemoryUserStore.constructor` | service/user_store.go:23-27 | A new user store is empty. |
| `UserStore.InMemoryUserStore.Save` | service/user_store.go:30-41 | A present username gives an error and leaves the map unchanged. A new username stores a copy of the user under it. No saved record ever changes. |
| `UserStore.InMemoryUserStore.Find` | service/user_store.go:44-55 | A present username gives a copy equal to the saved user. An absent one gives `(nil, nil)`. There is never an error, and the map is not modified. |
| `UserStore.SaveThenFind` | service/user_store.go:30-55 | Finding a user right after saving it under a new name returns the same record. |
| `AuthService.Login` | service/auth_server.go:26-43 | A token is only asked for a user the lookup found whose password matched. A successful response carries exactly the token generated for that user. |
| `AuthService.LoginLookupFailure` | service/auth_server.go:27-30 | A lookup error gives Internal, and no token is asked for. |
| `AuthService.LoginNoExistenceLeak` | service/auth_server.go:32-34 | An unknown username and a wrong password give the identical outcome: NotFound "incorrect username/password", with no token asked for. |
| `AuthService.LoginSucceedsIff` | service/auth_server.go:32-42 | Login succeeds iff the user is found, the password matches and token generation succeeds. The response is then that token, and a generation failure gives Internal. |
| `StreamProtocol.ContextError` | service/laptop_server.go:105-116 | There is no status iff the context has no error. A cancelled context gives code Canceled, and a passed deadline gives DeadlineExceeded. |
| `StreamProtocol.ReceiveImage` | service/laptop_server.go:142-173 | A successful loop keeps the bytes already received as a prefix of its result, and never returns more than 1048576 bytes when it starts within the cap. When it succeeds and with what is stated by `StreamProtocol.ReceiveImageSucceedsIff`, `StreamProtocol.ReceiveImageTooBig` and `StreamProtocol.ReceiveImageStopsAtContext`. |
| `StreamProtocol.ReceiveImageSucceedsIff` | service/laptop_server.go:142-173 | The upload loop succeeds iff the context stays live before every receive, every receive yields a message and the chunk total stays ≤ 1048576 (equality accepted). The result is then all chunks concatenated in arrival order, with info messages adding 0 bytes. |
| `StreamProtocol.ReceiveImageTooBig` | service/laptop_server.go:163-167 | An undisturbed upload whose chunks exceed the cap fails with InvalidArgument "image size too big". |
| `StreamProtocol.ReceiveImageStopsAtContext` | service/laptop_server.go:143-147 | The context is checked before every receive. If it has ended before receive k, and the earlier inputs were within the cap, the loop fails with the context's status whatever follows. |
| `StreamProtocol.RateStream` | service/laptop_server.go:196-238 | The loop never takes back a response already sent, and sends at most one more response per remaining request. What each response holds and when the loop ends cleanly is stated by `StreamProtocol.RateStreamAnswers`, `StreamProtocol.RateStreamSucceedsIff` and `StreamProtocol.RateStreamUnknownLaptop`. |
| `StreamProtocol.RateStreamAnswers` | service/laptop_server.go:195-238 | There is at most one response per request, in request order. Response k carries request k's laptop id, Count and Sum/Count as they stand after requests 0..k. At a clean end there is one response per request and the store holds every rating. |
| `StreamProtocol.RateStreamContinues` | service/laptop_server.go:196-233 | With the context live, a request received for a stored laptop and a successful send, one round adds the score and sends that laptop's updated aggregate, then moves on to the next receive. |
| `StreamProtocol.RateStreamStops` | service/laptop_server.go:196-233 | Any other round sends nothing more. It ends with nil only at the end of the input with the store unchanged. |
| `StreamProtocol.RateStreamSucceedsIff` | service/laptop_server.go:196-237 | `RateLaptop` ends with nil iff the context stays live before every receive, every receive yields a request for a stored laptop and every send succeeds. |
| `StreamProtocol.RateStreamUnknownLaptop` | service/laptop_server.go:217-220 | The first request for an unstored laptop aborts the stream with NotFound. It comes after exactly one response to each request before it. |
| `StreamProtocol.RateStreamTestScores` | service/laptop_client_test.go:37-62 | On a fresh store, scores 8, 7.5 and 10 for one laptop give counts 1, 2, 3 and averages 8, 7.75, 8.5, then a clean end. |
| `LaptopService.LaptopServer.constructor` | service/laptop_server.go:25-31 | The server holds the three stores it is given. |
| `LaptopService.LaptopServer.CreateLaptop` | service/laptop_server.go:34-79 | A non-empty id that is not a UUID gives InvalidArgument. An empty id with failed generation gives Internal. A request without a laptop whose id is generated ends in the nil-pointer panic. Otherwise the first context read being cancelled gives Canceled, and then the second being past its deadline gives DeadlineExceeded. A duplicate id gives AlreadyExists. Only success changes the store: it adds the laptop, with the generated id written in, and returns that id. |
| `LaptopService.LaptopServer.SearchLaptop` | service/laptop_server.go:82-103 | Each sent laptop is stored, qualified and sent once. Without a send error the sent ids are exactly the qualifying ids. The first send error ends the call with that error, after the laptops already sent. |
| `LaptopService.LaptopServer.UploadImage` | service/laptop_server.go:119-192 | An empty stream or a first receive error gives Unknown. An unknown laptop id gives Internal before any chunk is read; a chunk-first stream has laptop id "". Otherwise the result is that of `ReceiveImage`. Loop failures leave the image store unchanged. A failed save gives Internal, keeps the metadata, and leaves on disk exactly what the store's `Save` left (nothing, or the partly written file). A successful loop and save store the bytes, and the response Size is the decimal total. |
| `LaptopService.LaptopServer.RateLaptop` | service/laptop_server.go:195-238 | The responses sent, the final status and the new rating map are exactly those of `RateStream` over the stored laptop ids. |
| `LaptopService.CreateThenFind` | service/laptop_client_test.go:134-157 | Creating a laptop with a fresh well-formed id returns that id, and the laptop can then be found in the store. |

## Left out

- Locks and goroutines: every store operation is treated as atomic and calls as sequential. The single store-wide lock of the rating store is therefore not visible.
- `LaptopService.LaptopServer.CreateLaptop`: the two context reads (service/laptop_server.go:56, 62) are separate inputs, so a cancel landing after the first read lets the save go ahead, as in the source. A cancel arriving during the save itself is not modelled, since the save is atomic.
- `LaptopService.LaptopServer.CreateLaptop`: a request without a laptop whose id is generated dereferences nil at service/laptop_server.go:49. Nothing in the server recovers from that panic, so the process would end. The model returns `NilLaptopPanic` with the store unchanged and does not model the process ending.
- `RatingStore.InMemoryRatingStore.Add`: the source returns the stored `*Rating` itself (service/rating_store.go:45-46), so the caller shares the store's aggregate. The model returns a copy of its value, so that aliasing is not captured. Its one caller, `RateLaptop`, reads the value at once.
- Deep copies through the `copier` library: records are values, so copying is the identity. The branches for a copy error (service/store.go:46-49, 67-70, 82-85) cannot occur and are not modelled.
- `LaptopService.LaptopServer.UploadImage`: the branch for `laptop == nil` (service/laptop_server.go:135-137) cannot be reached after a successful `Find`, and is not modelled.
- `LaptopService.LaptopServer.RateLaptop`: the in-memory rating store's `Add` never fails, so the Internal branch for an `Add` error (service/laptop_server.go:223-225) is not modelled.
- `LaptopService.LaptopServer.CreateLaptop`: the in-memory store reports only `ErrAlreadyExists`, so the Internal mapping for any other store error (service/laptop_server.go:70-71) is not modelled.
- `bytes.Buffer.Write` in `UploadImage` never returns an error, so its Internal branch is not modelled.
- A protobuf upload message with neither info nor chunk is not modelled. It reads like a chunk message with no bytes.
- Status messages: the model keeps the code and the constant text of each message. Where the source formats in a modelled value (a laptop id, `ErrAlreadyExists`), the message is exact. Where it formats an error from outside the model, that detail is dropped.
- Logging (`log.Printf`) is left out.
- UUID parsing and generation, bcrypt hashing and comparison, and JWT generation are oracle parameters. bcrypt's random salt is folded into the `hash` parameter. No lemma claims that a wrong password is rejected: bcrypt reads at most 72 bytes of a password, so passwords that share those bytes all match the same hash.
- The token manager (`JWTManager`) and the role-checking auth interceptor are not part of this model. Their source is not among the modelled files.
- Server bootstrap, the random sample generator, the protobuf file and JSON serialisers, and the network client are not modelled.
- Real file I/O: the image store's files are a map from path to bytes. The file handle the source never closes is not modelled.
- Floating point: prices, clock speeds, scores and sums are reals with no rounding. The laptop's `MinGhz` is a float32 and the filter's `MinCpuGhz` a float64. In the source, a laptop and a filter both written as 2.3 GHz therefore compare as 2.2999999523 < 2.3, and the laptop is rejected. The model compares the reals and accepts it. A division by a wrapped `Count` of 0, which gives a non-finite float in the source, is an average of none.
- Absent sub-messages (a nil CPU, RAM or filter) are their zero values, as the protobuf getters return them. An absent laptop in a create request is not a zero value: it is `None`, see `CreateLaptop` above.
