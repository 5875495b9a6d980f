/**
 Reading a stored object without ever holding more of it than a statement image may measure, whatever
 the store says about its length and however it is delivered.
 */
module ObjectBody {
  import opened Wrappers
  import opened Bytes

  const MAX_IMAGE_BYTES: nat := 10 * 1024 * 1024

  /** What the stream yields: bytes, something else, or nothing because reading fails. */
  datatype Item = Data(bytes: seq<Byte>) | NotBytes | ReadFails

  datatype Body =
    | Whole(bytes: seq<Byte>)
    | Iterable(items: seq<Item>)
    | WebStream(items: seq<Item>)
    | NoStream

  datatype BodyError =
    | UnsupportedChunk
    | TooLarge
    | NoBoundedReading
    | LengthMissing
    | LengthOutsideLimit
    | LengthMismatch
    | StreamFailure

  predicate AllData(items: seq<Item>) {
    forall i :: 0 <= i < |items| ==> items[i].Data?
  }

  function Parts(items: seq<Item>): seq<seq<Byte>>
    requires AllData(items)
  {
    seq(|items|, (i: nat) requires i < |items| => items[i].bytes)
  }

  /** All the bytes of the stream, in their order. */
  function Joined(items: seq<Item>): seq<Byte>
    requires AllData(items)
  {
    Flatten(Parts(items))
  }

  predicate Readable(items: seq<Item>) {
    AllData(items) && |Joined(items)| <= MAX_IMAGE_BYTES
  }

  /** The first item that cannot be taken, and what is wrong with it. */
  predicate StopsAt(items: seq<Item>, k: nat, error: BodyError, cancelThrows: bool) {
    && k < |items| && Readable(items[..k])
    && match items[k]
       case NotBytes => error == UnsupportedChunk
       case ReadFails => error == StreamFailure
       case Data(bytes) =>
         |Joined(items[..k])| + |bytes| > MAX_IMAGE_BYTES && error == (if cancelThrows then StreamFailure else TooLarge)
  }

  lemma JoinedStep(items: seq<Item>, k: nat)
    requires k < |items| && AllData(items[..k]) && items[k].Data?
    ensures AllData(items[..k + 1]) && Joined(items[..k + 1]) == Joined(items[..k]) + items[k].bytes
  {
    assert Parts(items[..k + 1])[..k] == Parts(items[..k]);
  }

  lemma ReadableStep(items: seq<Item>, k: nat)
    requires k < |items| && Readable(items[..k]) && items[k].Data?
    ensures Readable(items[..k + 1]) <==> |Joined(items[..k])| + |items[k].bytes| <= MAX_IMAGE_BYTES
  {
    JoinedStep(items, k);
  }

  /** Nothing is readable from where a stream has stopped on. */
  lemma {:induction false} StoppedIsUnreadable(items: seq<Item>, k: nat, n: nat, error: BodyError, cancelThrows: bool)
    requires StopsAt(items, k, error, cancelThrows) && k < n <= |items|
    ensures !Readable(items[..n])
    decreases n
  {
    if AllData(items[..n]) {
      assert items[..n][n - 1] == items[n - 1] && items[..n][k] == items[k];
      assert items[..n][..n - 1] == items[..n - 1];
      assert AllData(items[..n][..n - 1]);
      JoinedStep(items, n - 1);
      if n > k + 1 { StoppedIsUnreadable(items, k, n - 1, error, cancelThrows); }
    }
  }

  /**
   The loop over a stream: the chunks in their order, or the error of the first item that cannot be
   taken. What is kept never exceeds the limit, and the reader's lock is released either way.
   */
  method Collect(items: seq<Item>, web: bool, cancelThrows: bool)
    returns (r: Result<seq<seq<Byte>>, BodyError>, taken: nat, total: nat, released: bool)
    ensures taken <= |items| && Readable(items[..taken])
    ensures r.Success? <==> Readable(items)
    ensures r.Success? ==> taken == |items| && r.value == Parts(items) && total == |Joined(items)|
    ensures r.Failure? ==> StopsAt(items, taken, r.error, web && cancelThrows)
    ensures released == web
  {
    var chunks: seq<seq<Byte>> := [];
    var error: Option<BodyError> := None;
    taken, total := 0, 0;
    while taken < |items| && error.None?
      invariant taken <= |items| && Readable(items[..taken])
      invariant chunks == Parts(items[..taken]) && total == |Joined(items[..taken])|
      invariant error.Some? ==> StopsAt(items, taken, error.value, web && cancelThrows)
      decreases |items| - taken, error.None?
    {
      match items[taken] {
        case NotBytes => error := Some(UnsupportedChunk);
        case ReadFails => error := Some(StreamFailure);
        case Data(bytes) =>
          ReadableStep(items, taken);
          if total + |bytes| > MAX_IMAGE_BYTES {
            error := Some(if web && cancelThrows then StreamFailure else TooLarge);
          } else {
            JoinedStep(items, taken);
            total := total + |bytes|;
            chunks := chunks + [bytes];
            taken := taken + 1;
          }
      }
    }
    released := web;
    assert items[..|items|] == items;
    if error.Some? {
      StoppedIsUnreadable(items, taken, |items|, error.value, web && cancelThrows);
      return Failure(error.value), taken, total, released;
    }
    r := Success(chunks);
  }

  predicate BodyReadable(body: Body) {
    match body
    case Whole(bytes) => |bytes| <= MAX_IMAGE_BYTES
    case Iterable(items) => Readable(items)
    case WebStream(items) => Readable(items)
    case NoStream => false
  }

  function BodyBytes(body: Body): seq<Byte>
    requires BodyReadable(body)
  {
    match body
    case Whole(bytes) => bytes
    case Iterable(items) => Joined(items)
    case WebStream(items) => Joined(items)
  }

  /** Exactly the body's bytes if they are bytes and within the limit, and an error otherwise. */
  method ReadObjectBody(body: Body, cancelThrows: bool) returns (r: Result<seq<Byte>, BodyError>)
    ensures r.Success? <==> BodyReadable(body)
    ensures r.Success? ==> r.value == BodyBytes(body)
    ensures body.NoStream? ==> r == Failure(NoBoundedReading)
  {
    if body.Whole? {
      return if |body.bytes| > MAX_IMAGE_BYTES then Failure(TooLarge) else Success(body.bytes);
    }
    if body.NoStream? { return Failure(NoBoundedReading); }
    var chunks, _, total, _ := Collect(body.items, body.WebStream?, cancelThrows);
    if chunks.Failure? { return Failure(chunks.error); }
    var bytes := Concat(chunks.value);
    r := Success(bytes[..]);
  }

  /** The bytes are those of the body, as many as the store announced: at least one, and within the limit. */
  method GetObject(contentLength: Option<int>, body: Body, cancelThrows: bool) returns (r: Result<seq<Byte>, BodyError>)
    ensures r.Success? <==>
      contentLength.Some? && BodyReadable(body) && |BodyBytes(body)| == contentLength.value && BodyBytes(body) != []
    ensures r.Success? ==> r.value == BodyBytes(body) && 1 <= |r.value| <= MAX_IMAGE_BYTES
  {
    if contentLength.None? { return Failure(LengthMissing); }
    if contentLength.value < 1 || contentLength.value > MAX_IMAGE_BYTES { return Failure(LengthOutsideLimit); }
    r := ReadObjectBody(body, cancelThrows);
    if r.Success? && |r.value| != contentLength.value { return Failure(LengthMismatch); }
  }
}
