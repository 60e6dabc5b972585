/** The parts of gRPC and of Go's context package that the handlers observe:
    status codes, the error of a call's context, and the results of a receive. */
module Grpc {

  /** The status codes the handlers return (a subset of google.golang.org/grpc/codes). */
  datatype Code = Canceled | Unknown | InvalidArgument | DeadlineExceeded | NotFound | AlreadyExists | Internal

  /** A status error: its code and the constant part of its message. */
  datatype Status = Status(code: Code, message: string)

  /** What ctx.Err() reports at one moment: nil, context.Canceled or context.DeadlineExceeded. */
  datatype ContextErr = NoErr | ErrCanceled | ErrDeadlineExceeded

  /** One result of stream.Recv(): a message, or a receive error other than io.EOF.
      A stream's input is a finite sequence of these; its end is io.EOF. */
  datatype Recv<M> = Msg(msg: M) | RecvError
}
